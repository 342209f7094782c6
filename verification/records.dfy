/**
 * The engine's output records and the run state: the property records,
 * the object-reference and enum tables, and the by-name lookup
 * (`hasReference`) used on both.
 */
module Records {
  import opened Wrappers

  /** A flattened property: what `parseProperty` returns. */
  datatype PropertyRecord = PropertyRecord(
    name: string,
    typeName: string,
    required: bool,
    defaultValue: string,
    description: string,
    placeholder: string,
    properties: seq<PropertyRecord>)

  /** An entry of `references`: a named interface and its flattened properties. */
  datatype ObjectReference = ObjectReference(name: string, properties: seq<PropertyRecord>)

  /** An enum member as stored in an enum entry. */
  datatype EnumMember = EnumMember(name: string, value: int)

  /** An entry of `enums` (the source stores the members under the key `properties`). */
  datatype EnumReference = EnumReference(name: string, members: seq<EnumMember>)

  /** The run state: both tables, in registration order. */
  datatype Tables = Tables(references: seq<ObjectReference>, enums: seq<EnumReference>)

  const EmptyTables := Tables([], [])

  function RecordNames(recs: seq<PropertyRecord>): (names: seq<string>)
    ensures |names| == |recs|
    ensures forall i | 0 <= i < |recs| :: names[i] == recs[i].name
  {
    if |recs| == 0 then [] else [recs[0].name] + RecordNames(recs[1..])
  }

  function ReferenceNames(refs: seq<ObjectReference>): (names: seq<string>)
    ensures |names| == |refs|
    ensures forall i | 0 <= i < |refs| :: names[i] == refs[i].name
  {
    if |refs| == 0 then [] else [refs[0].name] + ReferenceNames(refs[1..])
  }

  function EnumNames(enums: seq<EnumReference>): (names: seq<string>)
    ensures |names| == |enums|
    ensures forall i | 0 <= i < |enums| :: names[i] == enums[i].name
  {
    if |enums| == 0 then [] else [enums[0].name] + EnumNames(enums[1..])
  }

  /** `array.find(item => item.name === name)`, as a position: the first entry of that name. */
  function FindName(names: seq<string>, name: string): (r: Option<nat>)
    ensures r.None? <==> name !in names
    ensures r.Some? ==> r.value < |names| && names[r.value] == name
    ensures r.Some? ==> forall j | 0 <= j < r.value :: names[j] != name
  {
    if |names| == 0 then None
    else if names[0] == name then Some(0)
    else match FindName(names[1..], name)
      case None => None
      case Some(k) => Some(k + 1)
  }

  /** `hasReference(name, result.references)`. */
  function FindReference(name: string, refs: seq<ObjectReference>): (r: Option<nat>)
    ensures r.None? <==> forall j | 0 <= j < |refs| :: refs[j].name != name
    ensures r.Some? ==> r.value < |refs| && refs[r.value].name == name
    ensures r.Some? ==> forall j | 0 <= j < r.value :: refs[j].name != name
  {
    FindName(ReferenceNames(refs), name)
  }

  /** `hasReference(name, result.enums)`. */
  function FindEnum(name: string, enums: seq<EnumReference>): (r: Option<nat>)
    ensures r.None? <==> forall j | 0 <= j < |enums| :: enums[j].name != name
    ensures r.Some? ==> r.value < |enums| && enums[r.value].name == name
    ensures r.Some? ==> forall j | 0 <= j < r.value :: enums[j].name != name
  {
    FindName(EnumNames(enums), name)
  }

  /** A lookup that succeeds keeps its answer when entries are appended. */
  lemma FindNameStable(names: seq<string>, more: seq<string>, name: string)
    requires FindName(names, name).Some?
    ensures FindName(names + more, name) == FindName(names, name)
  {
    var i := FindName(names, name).value;
    assert (names + more)[i] == name;
    assert forall j | 0 <= j < i :: (names + more)[j] == names[j];
  }

  lemma ReferenceNamesAppend(a: seq<ObjectReference>, b: seq<ObjectReference>)
    ensures ReferenceNames(a + b) == ReferenceNames(a) + ReferenceNames(b)
  {
  }

  lemma EnumNamesAppend(a: seq<EnumReference>, b: seq<EnumReference>)
    ensures EnumNames(a + b) == EnumNames(a) + EnumNames(b)
  {
  }

  /** `t2` is `t1` with entries appended to either table and nothing else changed. */
  predicate Extends(t1: Tables, t2: Tables) {
    && t1.references <= t2.references
    && t1.enums <= t2.enums
  }

  lemma ExtendsTransitive(t1: Tables, t2: Tables, t3: Tables)
    requires Extends(t1, t2) && Extends(t2, t3)
    ensures Extends(t1, t3)
  {
  }

  predicate NoDuplicates(names: seq<string>) {
    forall i, j | 0 <= i < j < |names| :: names[i] != names[j]
  }

  /** Each name occurs at most once in each table. */
  predicate UniqueNames(t: Tables) {
    NoDuplicates(ReferenceNames(t.references)) && NoDuplicates(EnumNames(t.enums))
  }

  /** Some enum entry of this name has no members. */
  predicate EmptyEnumNamed(enums: seq<EnumReference>, name: string) {
    exists j | 0 <= j < |enums| :: enums[j].name == name && |enums[j].members| == 0
  }

  /** Every enum entry has at least one member. */
  predicate EnumsInhabited(enums: seq<EnumReference>) {
    forall j | 0 <= j < |enums| :: |enums[j].members| > 0
  }

  function Reverse<T>(s: seq<T>): (r: seq<T>)
    ensures |r| == |s|
    ensures forall i | 0 <= i < |s| :: r[i] == s[|s| - 1 - i]
  {
    if |s| == 0 then [] else Reverse(s[1..]) + [s[0]]
  }

  function RecordSize(r: PropertyRecord): nat
  {
    1 + RecordListSize(r.properties)
  }

  function RecordListSize(recs: seq<PropertyRecord>): nat
  {
    if |recs| == 0 then 0 else RecordSize(recs[0]) + RecordListSize(recs[1..])
  }

  lemma RecordListSizeSplit(recs: seq<PropertyRecord>)
    requires |recs| > 0
    ensures RecordListSize(recs) > RecordListSize(recs[1..])
    ensures RecordListSize(recs) > RecordListSize(recs[0].properties)
    ensures RecordListSize(recs) >= RecordSize(recs[0])
  {
  }

  /**
   * The record's type, if the reference lookup finds it, is found at a
   * position below `bound`, and likewise for every record below it.
   */
  predicate RecordResolvesBelow(rec: PropertyRecord, refs: seq<ObjectReference>, bound: nat)
    decreases RecordSize(rec), 0
  {
    && (match FindReference(rec.typeName, refs) case None => true case Some(j) => j < bound)
    && ResolvesBelow(rec.properties, refs, bound)
  }

  predicate ResolvesBelow(recs: seq<PropertyRecord>, refs: seq<ObjectReference>, bound: nat)
    decreases RecordListSize(recs), 1
  {
    || |recs| == 0
    || (RecordListSizeSplit(recs);
        RecordResolvesBelow(recs[0], refs, bound) && ResolvesBelow(recs[1..], refs, bound))
  }

  /**
   * Each entry refers only to entries registered before it, so following
   * references from any entry always reaches a lower position.
   */
  predicate Stratified(refs: seq<ObjectReference>) {
    forall i | 0 <= i < |refs| :: ResolvesBelow(refs[i].properties, refs, i)
  }

  /** A list that resolves below `bound` does so record by record. */
  lemma {:induction false} ResolvesBelowEach(recs: seq<PropertyRecord>, refs: seq<ObjectReference>, bound: nat)
    requires ResolvesBelow(recs, refs, bound)
    ensures forall i | 0 <= i < |recs| :: RecordResolvesBelow(recs[i], refs, bound)
    decreases |recs|
  {
    if |recs| > 0 {
      RecordListSizeSplit(recs);
      ResolvesBelowEach(recs[1..], refs, bound);
      assert forall i | 1 <= i < |recs| :: recs[i] == recs[1..][i - 1];
    }
  }

  /** With the whole table as the bound, every list resolves below it. */
  lemma {:induction false} ResolvesBelowLength(recs: seq<PropertyRecord>, refs: seq<ObjectReference>)
    ensures ResolvesBelow(recs, refs, |refs|)
    decreases RecordListSize(recs)
  {
    if |recs| > 0 {
      RecordListSizeSplit(recs);
      ResolvesBelowLength(recs[0].properties, refs);
      ResolvesBelowLength(recs[1..], refs);
      assert RecordResolvesBelow(recs[0], refs, |refs|);
    }
  }
}
