/**
 * Property flattening and reference registration: `parseProperties`,
 * `parseProperty`, `getType`, `parseObjectReference` and
 * `parseEnumReference`, with the run state threaded explicitly.
 */
module Flattening {
  import opened Wrappers
  import opened Strings
  import opened DocComments
  import opened Typhen
  import opened Records

  /** `getDocComment(docComment, '@defaultValue') || 'null'`. */
  function DefaultValue(docComment: Option<seq<string>>): (r: string)
    ensures r != ""
    ensures GetDocComment(docComment, DefaultValueTag) != "" ==> r == GetDocComment(docComment, DefaultValueTag)
    ensures GetDocComment(docComment, DefaultValueTag) == "" ==> r == "null"
  {
    var text := GetDocComment(docComment, DefaultValueTag);
    if text != "" then text else "null"
  }

  /** The type string `getType` reports: `Object` for an anonymous object, else the raw name. */
  function TypeName(t: RawType): (r: string)
    ensures r != ""
    ensures r == t.rawName || (t.rawName == "" && r == "Object")
  {
    if t.rawName == "" then "Object" else t.rawName
  }

  /** The properties the `@ignore` filter keeps, in declaration order. */
  function Kept(ps: seq<RawProp>): (r: seq<RawProp>)
    ensures |r| <= |ps|
  {
    if |ps| == 0 then []
    else if IsIgnored(ps[0].docComment) then Kept(ps[1..])
    else [ps[0]] + Kept(ps[1..])
  }

  /** An absent list keeps nothing. */
  function KeptOf(pl: PropertyList): (r: seq<RawProp>)
    ensures ListSize(r) <= PropertyListSize(pl)
  {
    match pl
    case Missing => []
    case Given(ps) => KeptNoLarger(ps); Kept(ps)
  }

  lemma {:induction false} KeptNoLarger(ps: seq<RawProp>)
    ensures ListSize(Kept(ps)) <= ListSize(ps)
  {
    if |ps| > 0 {
      KeptNoLarger(ps[1..]);
    }
  }

  /** The enum members the `@ignore` filter keeps, as table entries, in declaration order. */
  function KeptMembers(ms: seq<RawMember>): (r: seq<EnumMember>)
    ensures |r| <= |ms|
  {
    if |ms| == 0 then []
    else if IsIgnored(ms[0].docComment) then KeptMembers(ms[1..])
    else [EnumMember(ms[0].rawName, ms[0].value)] + KeptMembers(ms[1..])
  }

  /**
   * What a flattened record says about the declaration it came from: its
   * fields are read off the declaration and its children describe, in order,
   * the kept properties of the child list `parseProperty` descends into.
   */
  predicate Describes(rec: PropertyRecord, p: RawProp)
    decreases PropSize(p), 1
  {
    && rec.name == p.rawName
    && rec.typeName == TypeName(p.ty)
    && rec.required == !p.isOptional
    && rec.defaultValue == DefaultValue(p.docComment)
    && rec.description == GetDocComment(p.docComment, DescriptionTag)
    && rec.placeholder == GetDocComment(p.docComment, PlaceholderTag)
    && (p.ty.rawName == "Array" ==> p.ty.element.Some?)
    && DescribesAll(rec.properties, KeptOf(ChildProperties(p.ty)))
  }

  /** Pointwise `Describes`, same length, same order. */
  predicate DescribesAll(recs: seq<PropertyRecord>, ps: seq<RawProp>)
    decreases ListSize(ps), 2
  {
    && |recs| == |ps|
    && (|ps| == 0 || (Describes(recs[0], ps[0]) && DescribesAll(recs[1..], ps[1..])))
  }

  /** `parseProperties`: an absent list yields no records. */
  function ParseProperties(pl: PropertyList, st: Tables): (out: (seq<PropertyRecord>, Tables))
    requires WellShapedProperties(pl)
    ensures Extends(st, out.1)
    ensures DescribesAll(out.0, KeptOf(pl))
    decreases PropertyListSize(pl), 3
  {
    match pl
    case Missing => ([], st)
    case Given(ps) => ParseList(ps, st)
  }

  /** The `forEach` loop of `parseProperties` (and of `parseObjectReference`). */
  function ParseList(ps: seq<RawProp>, st: Tables): (out: (seq<PropertyRecord>, Tables))
    requires WellShapedList(ps)
    ensures Extends(st, out.1)
    ensures DescribesAll(out.0, Kept(ps))
    decreases ListSize(ps), 2
  {
    if |ps| == 0 then ([], st)
    else if IsIgnored(ps[0].docComment) then ParseList(ps[1..], st)
    else
      var (rec, st1) := ParseProperty(ps[0], st);
      var (rest, st2) := ParseList(ps[1..], st1);
      assert ([rec] + rest)[1..] == rest;
      ([rec] + rest, st2)
  }

  /**
   * `parseProperty`: the type is resolved (and registered) before the child
   * list is flattened, as the object literal's field order dictates.
   */
  function ParseProperty(p: RawProp, st: Tables): (out: (PropertyRecord, Tables))
    requires WellShapedType(p.ty)
    ensures Extends(st, out.1)
    ensures Describes(out.0, p)
    ensures p.ty.rawName != "Array" && p.ty.rawName != "" ==> out.0.properties == []
    ensures RegistersObject(p.ty) ==> p.ty.rawName in ReferenceNames(out.1.references)
    ensures RegistersEnum(p.ty) ==> p.ty.rawName in EnumNames(out.1.enums)
    decreases PropSize(p), 1
  {
    var children := ChildProperties(p.ty);
    ChildrenWellShaped(p.ty);
    var (typeName, st1) := GetType(p.ty, st);
    var (kids, st2) := ParseProperties(children, st1);
    var rec := PropertyRecord(
      p.rawName,
      typeName,
      !p.isOptional,
      DefaultValue(p.docComment),
      GetDocComment(p.docComment, DescriptionTag),
      GetDocComment(p.docComment, PlaceholderTag),
      kids);
    (rec, st2)
  }

  /**
   * `getType`: registers an interface (properties present, name starting
   * with `I`) or else an enum (members present), then reports the type string.
   */
  function GetType(t: RawType, st: Tables): (out: (string, Tables))
    requires WellShapedType(t)
    ensures Extends(st, out.1)
    ensures t.rawName == "" ==> out.0 == "Object"
    ensures t.rawName != "" ==> out.0 == t.rawName
    ensures RegistersObject(t) ==> t.rawName in ReferenceNames(out.1.references)
    ensures RegistersEnum(t) ==> out.1.references == st.references && t.rawName in EnumNames(out.1.enums)
    ensures !RegistersObject(t) && !RegistersEnum(t) ==> out.1 == st
    decreases TypeSize(t), 5
  {
    var st1 :=
      if RegistersObject(t) then ParseObjectReference(t.rawName, t.properties, st)
      else if t.members.Some? then ParseEnumReference(t.rawName, t.members, st)
      else st;
    (TypeName(t), st1)
  }

  /**
   * `parseObjectReference`: first registration wins. A name already in the
   * table, or an absent list, leaves the state as it is; otherwise the
   * properties are flattened (which may register further entries) and then
   * the entry is appended.
   */
  function ParseObjectReference(name: string, pl: PropertyList, st: Tables): (out: Tables)
    requires WellShapedProperties(pl)
    ensures Extends(st, out)
    ensures name in ReferenceNames(st.references) || pl.Missing? ==> out == st
    ensures pl.Given? ==> name in ReferenceNames(out.references)
    ensures name !in ReferenceNames(st.references) && pl.Given? ==>
      && |out.references| > |st.references|
      && out.references[|out.references| - 1].name == name
      && DescribesAll(out.references[|out.references| - 1].properties, Kept(pl.items))
    decreases PropertyListSize(pl), 4
  {
    if FindReference(name, st.references).Some? || pl.Missing? then st
    else
      var (parsed, st1) := ParseList(pl.items, st);
      var refs := st1.references + [ObjectReference(name, parsed)];
      assert refs[|refs| - 1] == ObjectReference(name, parsed);
      assert ReferenceNames(refs)[|refs| - 1] == name;
      Tables(refs, st1.enums)
  }

  /**
   * `parseEnumReference`: first registration wins. A name already in the
   * table, or absent members, leaves the state as it is; otherwise exactly
   * one entry holding the kept members is appended and nothing else changes.
   */
  function ParseEnumReference(name: string, members: Option<seq<RawMember>>, st: Tables): (out: Tables)
    ensures out.references == st.references
    ensures name in EnumNames(st.enums) || members.None? ==> out == st
    ensures members.Some? ==> name in EnumNames(out.enums)
    ensures name !in EnumNames(st.enums) && members.Some? ==>
      out.enums == st.enums + [EnumReference(name, KeptMembers(members.value))]
  {
    if FindEnum(name, st.enums).Some? || members.None? then st
    else
      var enums := st.enums + [EnumReference(name, KeptMembers(members.value))];
      assert EnumNames(enums)[|enums| - 1] == name;
      Tables(st.references, enums)
  }
}
