/**
 * The repository's worked example: the `block-dummy` block, whose options
 * interface declares an ignored `id`, a `header` string with a default
 * value and a placeholder, an `image` of interface type `IImage` (one
 * `url` string), and an optional `theme` of enum type `Theme`
 * (`LIGHT = 0`, `DARK = 1`).
 */
module Scenario {
  import opened Wrappers
  import opened Strings
  import opened DocComments
  import opened Typhen
  import opened Records
  import opened Flattening
  import opened FlatteningLemmas
  import opened Examples
  import opened Registration
  import opened Generation

  /** Short list displays as concatenations and slices, stated once for any element type. */
  lemma Displays<T>(a: T, b: T, c: T)
    ensures [a] + [] == [a] && [] + [a] == [a]
    ensures [a] + [b] == [a, b]
    ensures [a] + [b, c] == [a, b, c] && [a, b] + [c] == [a, b, c]
    ensures [a][1..] == [] && [a, b][1..] == [b] && [a, b, c][1..] == [b, c]
  {
  }

  lemma Displays4<T>(a: T, b: T, c: T, d: T)
    ensures [a] + [b, c, d] == [a, b, c, d]
  {
  }

  // ---------------------------------------------------------------------------
  // Reading tags off literal comment lines
  // ---------------------------------------------------------------------------

  /** A pattern whose first character occurs only at the start of `s` occurs at most there. */
  lemma AbsentPastFirstChar(s: string, pat: string, k: nat)
    requires 0 < |pat| && 0 < |s| && s[0] == pat[0] && pat[0] !in s[1..]
    requires k < |pat| && (k >= |s| || s[k] != pat[k])
    ensures !Contains(s, pat)
  {
    forall i: nat | i <= |s|
      ensures !OccursAt(s, pat, i)
    {
      if i + |pat| <= |s| {
        assert s[i..i + |pat|][0] == s[i];
        if i > 0 {
          assert s[1..][i - 1] == s[i];
        } else {
          assert s[..|pat|][k] == s[k];
        }
      }
    }
  }

  /** A line `tag text` lacks a tag that differs from `tag` at position `k`. */
  lemma TaggedLineLacks(tag: string, text: string, pat: string, k: nat)
    requires 0 < |pat| && pat[0] != ' ' && 0 < |tag| && tag[0] == pat[0]
    requires pat[0] !in tag[1..] && pat[0] !in text
    requires k < |pat| && (k >= |tag + " " + text| || (tag + " " + text)[k] != pat[k])
    ensures !Contains(tag + " " + text, pat)
  {
    var s := tag + " " + text;
    assert s[1..] == tag[1..] + " " + text;
    assert s[0] == tag[0];
    AbsentPastFirstChar(s, pat, k);
  }

  function Tagged(tag: string, text: string): string {
    tag + " " + text
  }

  const PropertyLine := "@property"

  const IdText := "This is the Id of the interface that will be ignored by the generate task"
  const HeaderText := "The heading displayed"
  const HeaderDefault := "Define the default value" + " of the property if required"
  const HeaderPlaceholder := "This is a defined placeholder value"
  const ImageText := "The image is referenced to another interface"
  const ThemeText := "The theme is referenced to an external Enum"
  const UrlText := "url of the image"
  const UrlPlaceholder := "path/to/image.jpg"

  lemma NoMarkerInHeaderText() ensures '@' !in HeaderText {
    assert HeaderText == "The heading displayed";
  }

  lemma NoMarkerInHeaderDefault() ensures '@' !in HeaderDefault {
    assert '@' !in "Define the default value";
    assert '@' !in " of the property if required";
  }

  lemma NoMarkerInHeaderPlaceholder() ensures '@' !in HeaderPlaceholder {
    assert HeaderPlaceholder == "This is a defined placeholder value";
  }

  lemma NoMarkerInImageText() ensures '@' !in ImageText {
    assert ImageText == "The image is referenced to another interface";
  }

  lemma NoMarkerInThemeText() ensures '@' !in ThemeText {
    assert ThemeText == "The theme is referenced to an external Enum";
  }

  lemma NoMarkerInUrlText() ensures '@' !in UrlText {
    assert UrlText == "url of the image";
  }

  lemma NoMarkerInUrlPlaceholder() ensures '@' !in UrlPlaceholder {
    assert UrlPlaceholder == "path/to/image.jpg";
  }

  const IdDoc := [IgnoreTag, PropertyLine, Tagged(DescriptionTag, IdText)]
  const HeaderDoc := [PropertyLine, Tagged(DescriptionTag, HeaderText), Tagged(DefaultValueTag, HeaderDefault),
                      Tagged(PlaceholderTag, HeaderPlaceholder)]
  const ImageDoc := [PropertyLine, Tagged(DescriptionTag, ImageText)]
  const ThemeDoc := [PropertyLine, Tagged(DescriptionTag, ThemeText)]
  const UrlDoc := [PropertyLine, Tagged(DescriptionTag, UrlText), Tagged(PlaceholderTag, UrlPlaceholder)]

  /** The `id` line `@ignore` holds no `"@ignore "`, so the lookup returns the line itself. */
  lemma IdIsIgnored()
    ensures IsIgnored(Some(IdDoc))
  {
    assert OccursAt(IdDoc[0], IgnoreTag, 0);
    assert GetDocComment(Some(IdDoc), IgnoreTag) == ReplaceFirst(IgnoreTag, IgnoreTag + " ", "");
  }

  lemma HeaderNotIgnored()
    ensures !IsIgnored(Some(HeaderDoc))
  {
    NoMarkerInHeaderText();
    NoMarkerInHeaderDefault();
    NoMarkerInHeaderPlaceholder();
    AbsentPastFirstChar(PropertyLine, IgnoreTag, 1);
    TaggedLineLacks(DescriptionTag, HeaderText, IgnoreTag, 1);
    TaggedLineLacks(DefaultValueTag, HeaderDefault, IgnoreTag, 1);
    TaggedLineLacks(PlaceholderTag, HeaderPlaceholder, IgnoreTag, 1);
  }

  lemma HeaderDescription()
    ensures GetDocComment(Some(HeaderDoc), DescriptionTag) == HeaderText
  {
    AbsentPastFirstChar(PropertyLine, DescriptionTag, 1);
    TaggedLineYieldsText(HeaderDoc, 1, DescriptionTag, HeaderText);
  }

  lemma HeaderDefaultValue()
    ensures GetDocComment(Some(HeaderDoc), DefaultValueTag) == HeaderDefault
  {
    NoMarkerInHeaderText();
    AbsentPastFirstChar(PropertyLine, DefaultValueTag, 1);
    TaggedLineLacks(DescriptionTag, HeaderText, DefaultValueTag, 3);
    TaggedLineYieldsText(HeaderDoc, 2, DefaultValueTag, HeaderDefault);
  }

  lemma HeaderPlaceholderValue()
    ensures GetDocComment(Some(HeaderDoc), PlaceholderTag) == HeaderPlaceholder
  {
    NoMarkerInHeaderText();
    NoMarkerInHeaderDefault();
    AbsentPastFirstChar(PropertyLine, PlaceholderTag, 2);
    TaggedLineLacks(DescriptionTag, HeaderText, PlaceholderTag, 1);
    TaggedLineLacks(DefaultValueTag, HeaderDefault, PlaceholderTag, 1);
    TaggedLineYieldsText(HeaderDoc, 3, PlaceholderTag, HeaderPlaceholder);
  }

  /** A comment holding only `@property` and a description yields the description and nothing else. */
  lemma DescriptionOnlyNotIgnored(text: string)
    requires '@' !in text
    ensures !IsIgnored(Some([PropertyLine, Tagged(DescriptionTag, text)]))
  {
    var lines := [PropertyLine, Tagged(DescriptionTag, text)];
    AbsentPastFirstChar(PropertyLine, IgnoreTag, 1);
    TaggedLineLacks(DescriptionTag, text, IgnoreTag, 1);
    UntaggedLookupIsEmpty(lines, IgnoreTag);
  }

  lemma DescriptionOnlyText(text: string)
    requires '@' !in text
    ensures GetDocComment(Some([PropertyLine, Tagged(DescriptionTag, text)]), DescriptionTag) == text
  {
    AbsentPastFirstChar(PropertyLine, DescriptionTag, 1);
    TaggedLineYieldsText([PropertyLine, Tagged(DescriptionTag, text)], 1, DescriptionTag, text);
  }

  lemma DescriptionOnlyOthersEmpty(text: string)
    requires '@' !in text
    ensures GetDocComment(Some([PropertyLine, Tagged(DescriptionTag, text)]), DefaultValueTag) == ""
    ensures GetDocComment(Some([PropertyLine, Tagged(DescriptionTag, text)]), PlaceholderTag) == ""
  {
    var lines := [PropertyLine, Tagged(DescriptionTag, text)];
    AbsentPastFirstChar(PropertyLine, DefaultValueTag, 1);
    TaggedLineLacks(DescriptionTag, text, DefaultValueTag, 3);
    UntaggedLookupIsEmpty(lines, DefaultValueTag);
    AbsentPastFirstChar(PropertyLine, PlaceholderTag, 2);
    TaggedLineLacks(DescriptionTag, text, PlaceholderTag, 1);
    UntaggedLookupIsEmpty(lines, PlaceholderTag);
  }

  /** A comment holding only `@property` and a description line is kept and yields only the description. */
  lemma DescriptionOnly(text: string)
    requires '@' !in text
    ensures !IsIgnored(Some([PropertyLine, Tagged(DescriptionTag, text)]))
    ensures GetDocComment(Some([PropertyLine, Tagged(DescriptionTag, text)]), DescriptionTag) == text
    ensures GetDocComment(Some([PropertyLine, Tagged(DescriptionTag, text)]), DefaultValueTag) == ""
    ensures GetDocComment(Some([PropertyLine, Tagged(DescriptionTag, text)]), PlaceholderTag) == ""
  {
    DescriptionOnlyNotIgnored(text);
    DescriptionOnlyText(text);
    DescriptionOnlyOthersEmpty(text);
  }

  lemma UrlNotIgnored()
    ensures !IsIgnored(Some(UrlDoc))
  {
    NoMarkerInUrlText();
    NoMarkerInUrlPlaceholder();
    AbsentPastFirstChar(PropertyLine, IgnoreTag, 1);
    TaggedLineLacks(DescriptionTag, UrlText, IgnoreTag, 1);
    TaggedLineLacks(PlaceholderTag, UrlPlaceholder, IgnoreTag, 1);
  }

  lemma UrlDescription()
    ensures GetDocComment(Some(UrlDoc), DescriptionTag) == UrlText
  {
    AbsentPastFirstChar(PropertyLine, DescriptionTag, 1);
    TaggedLineYieldsText(UrlDoc, 1, DescriptionTag, UrlText);
  }

  lemma UrlDefaultValue()
    ensures GetDocComment(Some(UrlDoc), DefaultValueTag) == ""
  {
    NoMarkerInUrlText();
    NoMarkerInUrlPlaceholder();
    AbsentPastFirstChar(PropertyLine, DefaultValueTag, 1);
    TaggedLineLacks(DescriptionTag, UrlText, DefaultValueTag, 3);
    TaggedLineLacks(PlaceholderTag, UrlPlaceholder, DefaultValueTag, 1);
  }

  lemma UrlPlaceholderValue()
    ensures GetDocComment(Some(UrlDoc), PlaceholderTag) == UrlPlaceholder
  {
    NoMarkerInUrlText();
    AbsentPastFirstChar(PropertyLine, PlaceholderTag, 2);
    TaggedLineLacks(DescriptionTag, UrlText, PlaceholderTag, 1);
    TaggedLineYieldsText(UrlDoc, 2, PlaceholderTag, UrlPlaceholder);
  }

  // ---------------------------------------------------------------------------
  // The parsed interface and its flattening
  // ---------------------------------------------------------------------------

  const StringType := RawType("string", Missing, None, None)
  const UrlProp := RawProp("url", StringType, false, Some(UrlDoc))
  const ImageType := RawType("IImage", Given([UrlProp]), None, None)
  const ThemeType := RawType("Theme", Missing, Some([RawMember("LIGHT", 0, None), RawMember("DARK", 1, None)]), None)
  const IdProp := RawProp("id", StringType, false, Some(IdDoc))
  const HeaderProp := RawProp("header", StringType, false, Some(HeaderDoc))
  const ImageProp := RawProp("image", ImageType, false, Some(ImageDoc))
  const ThemeProp := RawProp("theme", ThemeType, true, Some(ThemeDoc))
  const DummyOptions := Given([IdProp, HeaderProp, ImageProp, ThemeProp])

  const UrlRecord := PropertyRecord("url", "string", true, "null", UrlText, UrlPlaceholder, [])
  const HeaderRecord := PropertyRecord("header", "string", true, HeaderDefault, HeaderText, HeaderPlaceholder, [])
  const ImageRecord := PropertyRecord("image", "IImage", true, "null", ImageText, "", [])
  const ThemeRecord := PropertyRecord("theme", "Theme", false, "null", ThemeText, "", [])
  const ImageReference := ObjectReference("IImage", [UrlRecord])
  const ThemeEnum := EnumReference("Theme", [EnumMember("LIGHT", 0), EnumMember("DARK", 1)])
  const DummyTables := Tables([ImageReference], [ThemeEnum])

  lemma UrlFlattened(st: Tables)
    ensures ParseProperty(UrlProp, st) == (UrlRecord, st)
  {
    UrlDescription();
    UrlDefaultValue();
    UrlPlaceholderValue();
    var (rec, st1) := ParseProperty(UrlProp, st);
    assert Describes(UrlRecord, UrlProp);
    DescribesUnique(rec, UrlRecord, UrlProp);
  }

  lemma HeaderFlattened(st: Tables)
    ensures ParseProperty(HeaderProp, st) == (HeaderRecord, st)
  {
    HeaderDescription();
    HeaderDefaultValue();
    HeaderPlaceholderValue();
    var (rec, st1) := ParseProperty(HeaderProp, st);
    assert Describes(HeaderRecord, HeaderProp);
    DescribesUnique(rec, HeaderRecord, HeaderProp);
  }

  lemma ImageFlattened()
    ensures ParseProperty(ImageProp, EmptyTables) == (ImageRecord, Tables([ImageReference], []))
  {
    NoMarkerInImageText();
    DescriptionOnly(ImageText);
    UrlNotIgnored();
    UrlFlattened(EmptyTables);
    Displays(UrlProp, UrlProp, UrlProp);
    Displays(UrlRecord, UrlRecord, UrlRecord);
    KeptStep(UrlProp, [], EmptyTables, UrlRecord, EmptyTables, [], EmptyTables);
    assert OccursAt(ImageType.rawName, "I", 0);
    assert RegistersObject(ImageType);
    assert ParseObjectReference("IImage", ImageType.properties, EmptyTables) == Tables([ImageReference], []);
    assert GetType(ImageType, EmptyTables) == ("IImage", Tables([ImageReference], []));
    assert ChildProperties(ImageType) == Missing;
    var (rec, st1) := ParseProperty(ImageProp, EmptyTables);
    assert Describes(ImageRecord, ImageProp);
    DescribesUnique(rec, ImageRecord, ImageProp);
  }

  lemma ThemeFlattened()
    ensures ParseProperty(ThemeProp, Tables([ImageReference], [])) == (ThemeRecord, DummyTables)
  {
    NoMarkerInThemeText();
    DescriptionOnly(ThemeText);
    var st := Tables([ImageReference], []);
    assert !RegistersObject(ThemeType) && RegistersEnum(ThemeType);
    var members := ThemeType.members.value;
    assert KeptMembers(members[1..]) == [EnumMember("DARK", 1)];
    assert KeptMembers(members) == ThemeEnum.members;
    assert ParseEnumReference("Theme", ThemeType.members, st) == DummyTables;
    assert GetType(ThemeType, st) == ("Theme", DummyTables);
    assert ChildProperties(ThemeType) == Missing;
    var (rec, st1) := ParseProperty(ThemeProp, st);
    assert Describes(ThemeRecord, ThemeProp);
    DescribesUnique(rec, ThemeRecord, ThemeProp);
  }

  /** One kept declaration at the head of a list. */
  lemma KeptStep(p: RawProp, rest: seq<RawProp>, st: Tables, rec: PropertyRecord, st1: Tables,
                 recs: seq<PropertyRecord>, st2: Tables)
    requires WellShapedType(p.ty) && WellShapedList(rest) && !IsIgnored(p.docComment)
    requires ParseProperty(p, st) == (rec, st1) && ParseList(rest, st1) == (recs, st2)
    ensures WellShapedList([p] + rest)
    ensures ParseList([p] + rest, st) == ([rec] + recs, st2)
  {
    assert ([p] + rest)[1..] == rest;
  }

  /** One ignored declaration at the head of a list. */
  lemma IgnoredStep(p: RawProp, rest: seq<RawProp>, st: Tables)
    requires WellShapedType(p.ty) && WellShapedList(rest) && IsIgnored(p.docComment)
    ensures WellShapedList([p] + rest)
    ensures ParseList([p] + rest, st) == ParseList(rest, st)
  {
    assert ([p] + rest)[1..] == rest;
  }

  lemma ImageShaped()
    ensures WellShapedType(ImageType)
  {
    assert [UrlProp][1..] == [];
  }

  lemma ThemeListFlattened()
    ensures WellShapedList([ThemeProp])
    ensures ParseList([ThemeProp], Tables([ImageReference], [])) == ([ThemeRecord], DummyTables)
  {
    NoMarkerInThemeText();
    DescriptionOnly(ThemeText);
    ThemeFlattened();
    KeptStep(ThemeProp, [], Tables([ImageReference], []), ThemeRecord, DummyTables, [], DummyTables);
    Displays(ThemeProp, ThemeProp, ThemeProp);
    Displays(ThemeRecord, ThemeRecord, ThemeRecord);
  }

  lemma ImageListFlattened()
    ensures WellShapedList([ImageProp, ThemeProp])
    ensures ParseList([ImageProp, ThemeProp], EmptyTables) == ([ImageRecord, ThemeRecord], DummyTables)
  {
    NoMarkerInImageText();
    DescriptionOnly(ImageText);
    ImageFlattened();
    ImageShaped();
    ThemeListFlattened();
    KeptStep(ImageProp, [ThemeProp], EmptyTables, ImageRecord, Tables([ImageReference], []), [ThemeRecord], DummyTables);
    Displays(ImageProp, ThemeProp, ThemeProp);
    Displays(ImageRecord, ThemeRecord, ThemeRecord);
  }

  lemma HeaderListFlattened()
    ensures WellShapedList([HeaderProp, ImageProp, ThemeProp])
    ensures ParseList([HeaderProp, ImageProp, ThemeProp], EmptyTables)
            == ([HeaderRecord, ImageRecord, ThemeRecord], DummyTables)
  {
    HeaderNotIgnored();
    HeaderFlattened(EmptyTables);
    ImageListFlattened();
    KeptStep(HeaderProp, [ImageProp, ThemeProp], EmptyTables, HeaderRecord, EmptyTables,
             [ImageRecord, ThemeRecord], DummyTables);
    Displays(HeaderProp, ImageProp, ThemeProp);
    Displays(HeaderRecord, ImageRecord, ThemeRecord);
  }

  /** `parseBlock` on the dummy block: `id` is dropped, `IImage` and `Theme` are registered once each. */
  lemma DummyFlattened()
    ensures WellShapedProperties(DummyOptions)
    ensures ParseProperties(DummyOptions, EmptyTables) == ([HeaderRecord, ImageRecord, ThemeRecord], DummyTables)
  {
    IdIsIgnored();
    HeaderListFlattened();
    Displays4(IdProp, HeaderProp, ImageProp, ThemeProp);
    IgnoredStep(IdProp, [HeaderProp, ImageProp, ThemeProp], EmptyTables);
  }

  // ---------------------------------------------------------------------------
  // The example
  // ---------------------------------------------------------------------------

  const ThemeField := Field("theme", JNumber(0))
  const ImageField := Field("image", JObject([Field("url", JString(UrlPlaceholder))]))
  const HeaderField := Field("header", JString(HeaderPlaceholder))
  const DummyData := [ThemeField, ImageField, HeaderField]

  lemma DummyStratified()
    ensures Stratified(DummyTables.references)
  {
    var refs := DummyTables.references;
    assert FindReference("string", refs).None?;
    assert RecordResolvesBelow(UrlRecord, refs, 0);
    assert [UrlRecord][1..] == [];
    assert ResolvesBelow([UrlRecord], refs, 0);
  }

  lemma UrlExample()
    ensures Example(UrlRecord, DummyTables, DefaultPlaceholders, 0) == Success(JString(UrlPlaceholder))
  {
    DummyStratified();
    assert FindReference("string", DummyTables.references).None?;
    assert FindEnum("string", DummyTables.enums).None?;
    assert RecordResolvesBelow(UrlRecord, DummyTables.references, 0);
  }

  lemma ImageExample()
    ensures Example(ImageRecord, DummyTables, DefaultPlaceholders, 1) == Success(ImageField.value)
  {
    DummyStratified();
    UrlExample();
    var refs := DummyTables.references;
    assert FindReference("IImage", refs) == Some(0);
    assert RecordResolvesBelow(ImageRecord, refs, 1);
    assert [UrlRecord][1..] == [];
    assert ResolvesBelow([UrlRecord], refs, 0);
    assert Keys([]) == [];
    assert Assign([], "url", JString(UrlPlaceholder)) == [Field("url", JString(UrlPlaceholder))];
    assert Fill([UrlRecord][1..], Assign([], "url", JString(UrlPlaceholder)), DummyTables, DefaultPlaceholders, 0)
           == Success([Field("url", JString(UrlPlaceholder))]);
    assert Fill([UrlRecord], [], DummyTables, DefaultPlaceholders, 0)
           == Success([Field("url", JString(UrlPlaceholder))]);
  }

  /** One step of the example loop: a successful value under a new key is appended, then the rest follows. */
  lemma FillStep(p: PropertyRecord, rest: seq<PropertyRecord>, base: seq<Field>, t: Tables, ph: Placeholders,
                 bound: nat, v: Json)
    requires bound <= |t.references| && Stratified(t.references)
    requires RecordResolvesBelow(p, t.references, bound) && ResolvesBelow(rest, t.references, bound)
    requires Example(p, t, ph, bound) == Success(v)
    requires p.name !in Keys(base)
    ensures ResolvesBelow([p] + rest, t.references, bound)
    ensures Fill([p] + rest, base, t, ph, bound) == Fill(rest, base + [Field(p.name, v)], t, ph, bound)
  {
    assert ([p] + rest)[0] == p;
    assert ([p] + rest)[1..] == rest;
    RecordListSizeSplit([p] + rest);
    AssignFresh(base, p.name, v);
  }

  lemma DummyResolves()
    ensures Stratified(DummyTables.references)
    ensures RecordResolvesBelow(ThemeRecord, DummyTables.references, 1)
    ensures RecordResolvesBelow(ImageRecord, DummyTables.references, 1)
    ensures RecordResolvesBelow(HeaderRecord, DummyTables.references, 1)
    ensures ResolvesBelow([HeaderRecord], DummyTables.references, 1)
    ensures ResolvesBelow([ImageRecord, HeaderRecord], DummyTables.references, 1)
    ensures ResolvesBelow([ThemeRecord, ImageRecord, HeaderRecord], DummyTables.references, 1)
  {
    DummyStratified();
    var refs := DummyTables.references;
    ResolvesBelowLength([ThemeRecord, ImageRecord, HeaderRecord], refs);
    ResolvesBelowLength([ImageRecord, HeaderRecord], refs);
    ResolvesBelowLength([HeaderRecord], refs);
    ResolvesBelowLength([], refs);
    assert [ThemeRecord, ImageRecord, HeaderRecord][1..] == [ImageRecord, HeaderRecord];
    assert [ImageRecord, HeaderRecord][1..] == [HeaderRecord];
    assert [HeaderRecord][1..] == [];
  }

  lemma OtherExamples()
    ensures Example(ThemeRecord, DummyTables, DefaultPlaceholders, 1) == Success(JNumber(0))
    ensures Example(HeaderRecord, DummyTables, DefaultPlaceholders, 1) == Success(JString(HeaderPlaceholder))
  {
    DummyResolves();
    var t := DummyTables;
    assert FindReference("Theme", t.references).None? && FindEnum("Theme", t.enums) == Some(0);
    assert FindReference("string", t.references).None? && FindEnum("string", t.enums).None?;
  }

  lemma HeaderFill()
    ensures Stratified(DummyTables.references) && ResolvesBelow([HeaderRecord], DummyTables.references, 1)
    ensures Fill([HeaderRecord], [ThemeField, ImageField], DummyTables, DefaultPlaceholders, 1) == Success(DummyData)
  {
    DummyResolves();
    OtherExamples();
    Displays(HeaderRecord, HeaderRecord, HeaderRecord);
    Displays(ThemeField, ImageField, HeaderField);
    assert Keys([ThemeField, ImageField]) == ["theme", "image"];
    FillStep(HeaderRecord, [], [ThemeField, ImageField], DummyTables, DefaultPlaceholders, 1, HeaderField.value);
  }

  lemma ImageFill()
    ensures Stratified(DummyTables.references) && ResolvesBelow([ImageRecord, HeaderRecord], DummyTables.references, 1)
    ensures Fill([ImageRecord, HeaderRecord], [ThemeField], DummyTables, DefaultPlaceholders, 1) == Success(DummyData)
  {
    DummyResolves();
    ImageExample();
    HeaderFill();
    Displays(ImageRecord, HeaderRecord, HeaderRecord);
    Displays(ThemeField, ImageField, HeaderField);
    assert Keys([ThemeField]) == ["theme"];
    FillStep(ImageRecord, [HeaderRecord], [ThemeField], DummyTables, DefaultPlaceholders, 1, ImageField.value);
  }

  /** The example data of the dummy block: the enum's first value, the nested interface, the placeholder. */
  lemma DummyExample()
    ensures Stratified(DummyTables.references)
    ensures ExampleData([ThemeRecord, ImageRecord, HeaderRecord], DummyTables, DefaultPlaceholders) == Success(DummyData)
  {
    DummyResolves();
    OtherExamples();
    ImageFill();
    NoFieldsNoKeys();
    Displays(ThemeRecord, ImageRecord, HeaderRecord);
    Displays(ThemeField, ImageField, HeaderField);
    FillStep(ThemeRecord, [ImageRecord, HeaderRecord], [], DummyTables, DefaultPlaceholders, 1, ThemeField.value);
  }

  // ---------------------------------------------------------------------------
  // The whole run
  // ---------------------------------------------------------------------------

  const DummyOptionsGiven := NoOptions.(input := Some("./example/input/"), output := Some("./example/output/"))
  const DummyDirs := ["block-dummy"]

  /** Where the dummy block's options interface lives. */
  const DummyInterfacePath := "./example/input/block-dummy/" + "IBlockDummyOptions.ts"

  /** The parser finds the dummy options interface at its path and nothing anywhere else. */
  const DummyParse: string -> PropertyList :=
    (path: string) => if path == DummyInterfacePath then DummyOptions else Missing

  /** `camelcase` leaves the lower-case word `dummy` as it is; the run converts nothing else. */
  const Unchanged: string -> string := (s: string) => s

  /** `uppercamelcase` turns the directory `block-dummy` into `BlockDummy`; the run converts nothing else. */
  const UpperDummy: string -> string := (s: string) => if s == "block-dummy" then "BlockDummy" else s

  const DummyTypes := {StringType, ImageType, ThemeType}

  lemma DummyTypesReachable()
    ensures TypesOfProperties(DummyOptions) == DummyTypes
    ensures Closed(DummyTypes)
  {
    var ps := DummyOptions.items;
    assert [UrlProp][1..] == [];
    assert TypesOfType(StringType) == {StringType};
    assert TypesOfList([UrlProp]) == {StringType};
    assert TypesOfType(ImageType) == {ImageType, StringType};
    assert ps[3..][1..] == [];
    assert ps[2..][1..] == ps[3..];
    assert ps[1..][1..] == ps[2..];
    assert TypesOfList(ps[3..]) == {ThemeType};
    assert TypesOfList(ps[2..]) == {ImageType, StringType, ThemeType};
    assert TypesOfList(ps[1..]) == DummyTypes;
    TypesOfListClosed(ps);
  }

  lemma DummyTypesConsistent()
    ensures RegistrationByName(DummyTypes) && NoSelfNesting(DummyTypes)
  {
    DummyTypesReachable();
    assert forall t | t in DummyTypes && RegistersObject(t) :: t == ImageType;
    assert Consistent(DummyTypes);
    ConsistentMeetsHypotheses(DummyTypes);
  }

  /** A directory `prefix-rest` with no hyphen in `prefix` has the block id of `rest`. */
  lemma BlockIdAfterPrefix(prefix: string, rest: string, camelCase: string -> string)
    requires '-' !in prefix
    ensures BlockId(prefix + "-" + rest, camelCase) == camelCase(rest)
  {
    var dir := prefix + "-" + rest;
    assert dir[|prefix|] == '-';
    var i := FirstIndexOfChar(dir, '-');
    assert dir[..|prefix|] == prefix;
    assert i == |prefix|;
    assert dir[i + 1..] == rest;
  }

  lemma DummyBlockId()
    ensures BlockId("block-dummy", Unchanged) == "dummy"
  {
    assert "block-dummy" == "block" + "-" + "dummy";
    BlockIdAfterPrefix("block", "dummy", Unchanged);
  }

  const DummyBlock := Block("dummy", [ThemeRecord, ImageRecord, HeaderRecord], Wrap("componentId", "dummy", DummyData))

  const DummyConfig := Merge(DefaultConfig, DummyOptionsGiven)

  lemma DummyDirSpelled()
    ensures "./example/input/" + "block-dummy" + "/" == "./example/input/block-dummy/"
  {
  }

  lemma DummyFileSpelled()
    ensures "I" + "BlockDummy" + "Options.ts" == "IBlockDummyOptions.ts"
  {
  }

  lemma DummyPathSpelled()
    ensures "./example/input/" + "block-dummy" + "/" + ("I" + "BlockDummy" + "Options.ts") == DummyInterfacePath
  {
    DummyDirSpelled();
    DummyFileSpelled();
  }

  /** The block `block-dummy` reads its options from `./example/input/block-dummy/IBlockDummyOptions.ts`. */
  lemma DummyDeclared()
    ensures DummyConfig.exampleBlockIdLabel == "componentId"
    ensures DummyConfig.placeholderValues == DefaultPlaceholders
    ensures InterfacePath(DummyConfig, "block-dummy", UpperDummy) == DummyInterfacePath
    ensures Declared(DummyConfig, "block-dummy", DummyParse, UpperDummy) == DummyOptions
  {
    assert DummyConfig.input == "./example/input/";
    assert DummyConfig.interfaceName == DefaultConfig.interfaceName;
    DefaultInterfaceFileName("block-dummy", UpperDummy);
    DummyPathSpelled();
  }

  /** A block whose declarations flatten to `recs` and whose example data is `data`. */
  lemma BuildBlockFrom(cfg: Config, dir: string, parse: string -> PropertyList,
                       camelCase: string -> string, upperCamelCase: string -> string,
                       st: Tables, u: set<RawType>, recs: seq<PropertyRecord>, st1: Tables, data: seq<Field>)
    requires WellShapedProperties(Declared(cfg, dir, parse, upperCamelCase))
    requires TypesOfProperties(Declared(cfg, dir, parse, upperCamelCase)) <= u
    requires RegistrationByName(u) && SettledTable(st.references, u)
    requires ParseProperties(Declared(cfg, dir, parse, upperCamelCase), st) == (recs, st1)
    requires Stratified(st1.references)
    requires ExampleData(Reverse(recs), st1, cfg.placeholderValues) == Success(data)
    ensures BuildBlock(cfg, dir, parse, camelCase, upperCamelCase, st, u)
            == Success((Block(BlockId(dir, camelCase), Reverse(recs),
                              Wrap(cfg.exampleBlockIdLabel, BlockId(dir, camelCase), data)), st1))
  {
  }

  lemma ReverseThree<T>(a: T, b: T, c: T)
    ensures Reverse([a, b, c]) == [c, b, a]
  {
    assert [a, b, c][1..] == [b, c] && [b, c][1..] == [c] && [c][1..] == [];
  }

  lemma DummyBuildBlock()
    ensures WellShapedProperties(Declared(DummyConfig, "block-dummy", DummyParse, UpperDummy))
    ensures TypesOfProperties(Declared(DummyConfig, "block-dummy", DummyParse, UpperDummy)) <= DummyTypes
    ensures RegistrationByName(DummyTypes)
    ensures BuildBlock(DummyConfig, "block-dummy", DummyParse, Unchanged, UpperDummy, EmptyTables, DummyTypes)
            == Success((DummyBlock, DummyTables))
  {
    DummyDeclared();
    DummyTypesConsistent();
    DummyTypesReachable();
    DummyFlattened();
    DummyExample();
    DummyBlockId();
    ReverseThree(HeaderRecord, ImageRecord, ThemeRecord);
    BuildBlockFrom(DummyConfig, "block-dummy", DummyParse, Unchanged, UpperDummy, EmptyTables, DummyTypes,
                   [HeaderRecord, ImageRecord, ThemeRecord], DummyTables, DummyData);
  }

  /** A one-directory run is its one block. */
  lemma SingleBlock(cfg: Config, dir: string, parse: string -> PropertyList,
                    camelCase: string -> string, upperCamelCase: string -> string,
                    st: Tables, u: set<RawType>, blk: Block, st1: Tables)
    requires WellShapedProperties(Declared(cfg, dir, parse, upperCamelCase))
    requires TypesOfProperties(Declared(cfg, dir, parse, upperCamelCase)) <= u
    requires RegistrationByName(u) && SettledTable(st.references, u)
    requires BuildBlock(cfg, dir, parse, camelCase, upperCamelCase, st, u) == Success((blk, st1))
    ensures forall i | 0 <= i < |[dir]| :: WellShapedProperties(Declared(cfg, [dir][i], parse, upperCamelCase))
    ensures forall i | 0 <= i < |[dir]| :: TypesOfProperties(Declared(cfg, [dir][i], parse, upperCamelCase)) <= u
    ensures BuildBlocks(cfg, [dir], parse, camelCase, upperCamelCase, st, u) == Success(([blk], st1))
  {
    SingleLoop(cfg, dir, parse, camelCase, upperCamelCase, st, u, blk, st1);
  }

  /** The loop behind `BuildBlocks` on one directory. */
  lemma SingleLoop(cfg: Config, dir: string, parse: string -> PropertyList,
                   camelCase: string -> string, upperCamelCase: string -> string,
                   st: Tables, u: set<RawType>, blk: Block, st1: Tables)
    requires WellShapedProperties(Declared(cfg, dir, parse, upperCamelCase))
    requires TypesOfProperties(Declared(cfg, dir, parse, upperCamelCase)) <= u
    requires RegistrationByName(u) && SettledTable(st.references, u)
    requires BuildBlock(cfg, dir, parse, camelCase, upperCamelCase, st, u) == Success((blk, st1))
    ensures LoopReady(cfg, [dir], parse, upperCamelCase, st, u)
    ensures BlockLoop(cfg, [dir], parse, camelCase, upperCamelCase, st, u) == Success(([blk], st1))
  {
    assert [dir][0] == dir && [dir][1..] == [];
    assert LoopReady(cfg, [], parse, upperCamelCase, st1, u);
    assert BlockLoop(cfg, [], parse, camelCase, upperCamelCase, st1, u) == Success(([], st1));
    assert [blk] + [] == [blk];
  }

  /** A run whose paths are given and whose blocks all build is written to `output + jsonFile`. */
  lemma RunWritten(opts: Options, dirs: seq<string>, parse: string -> PropertyList,
                   camelCase: string -> string, upperCamelCase: string -> string,
                   u: set<RawType>, blocks: seq<Block>, t: Tables)
    requires Merge(DefaultConfig, opts).input != "" && Merge(DefaultConfig, opts).output != ""
    requires forall i | 0 <= i < |dirs| ::
               WellShapedProperties(Declared(Merge(DefaultConfig, opts), dirs[i], parse, upperCamelCase))
    requires forall i | 0 <= i < |dirs| ::
               TypesOfProperties(Declared(Merge(DefaultConfig, opts), dirs[i], parse, upperCamelCase)) <= u
    requires RegistrationByName(u)
    requires BuildBlocks(Merge(DefaultConfig, opts), dirs, parse, camelCase, upperCamelCase, EmptyTables, u)
             == Success((blocks, t))
    ensures Generate(opts, dirs, parse, camelCase, upperCamelCase, u)
            == Written(Merge(DefaultConfig, opts).output + Merge(DefaultConfig, opts).jsonFile,
                       Output(blocks, t.references, t.enums))
  {
  }

  lemma DummyBuildBlocks()
    ensures forall i | 0 <= i < |DummyDirs| :: WellShapedProperties(Declared(DummyConfig, DummyDirs[i], DummyParse, UpperDummy))
    ensures forall i | 0 <= i < |DummyDirs| :: TypesOfProperties(Declared(DummyConfig, DummyDirs[i], DummyParse, UpperDummy)) <= DummyTypes
    ensures RegistrationByName(DummyTypes)
    ensures BuildBlocks(DummyConfig, DummyDirs, DummyParse, Unchanged, UpperDummy, EmptyTables, DummyTypes)
            == Success(([DummyBlock], DummyTables))
  {
    DummyBuildBlock();
    SingleBlock(DummyConfig, "block-dummy", DummyParse, Unchanged, UpperDummy, EmptyTables, DummyTypes,
                DummyBlock, DummyTables);
  }

  lemma OutputFile()
    ensures "./example/output/" + "data.json" == "./example/output/data.json"
  {
  }

  lemma DummyRun()
    ensures RegistrationByName(DummyTypes)
    ensures forall i | 0 <= i < |DummyDirs| :: WellShapedProperties(Declared(DummyConfig, DummyDirs[i], DummyParse, UpperDummy))
    ensures forall i | 0 <= i < |DummyDirs| :: TypesOfProperties(Declared(DummyConfig, DummyDirs[i], DummyParse, UpperDummy)) <= DummyTypes
    ensures Generate(DummyOptionsGiven, DummyDirs, DummyParse, Unchanged, UpperDummy, DummyTypes)
            == Written("./example/output/data.json", Output([DummyBlock], [ImageReference], [ThemeEnum]))
  {
    DummyBuildBlocks();
    assert DummyConfig.input == "./example/input/" && DummyConfig.output == "./example/output/";
    assert DummyConfig.jsonFile == "data.json";
    OutputFile();
    RunWritten(DummyOptionsGiven, DummyDirs, DummyParse, Unchanged, UpperDummy, DummyTypes, [DummyBlock], DummyTables);
  }
}
