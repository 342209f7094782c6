/**
 * Properties of the reference tables across a whole flattening: which names
 * can appear, when names stay unique, and why the object-reference table
 * comes out stratified (every entry refers only to earlier entries).
 */
module Registration {
  import opened Wrappers
  import opened Strings
  import opened DocComments
  import opened Typhen
  import opened Records
  import opened Flattening

  // ---------------------------------------------------------------------------
  // Registration is first-wins and append-only
  // ---------------------------------------------------------------------------

  /** Registering an interface a second time changes nothing, whatever the second list holds. */
  lemma ObjectRegistrationIdempotent(name: string, first: PropertyList, second: PropertyList, st: Tables)
    requires WellShapedProperties(first) && WellShapedProperties(second)
    requires first.Given?
    ensures ParseObjectReference(name, second, ParseObjectReference(name, first, st))
            == ParseObjectReference(name, first, st)
  {
  }

  /** Registering an enum a second time changes nothing, whatever the second member list holds. */
  lemma EnumRegistrationIdempotent(name: string, first: seq<RawMember>, second: Option<seq<RawMember>>, st: Tables)
    ensures ParseEnumReference(name, second, ParseEnumReference(name, Some(first), st))
            == ParseEnumReference(name, Some(first), st)
  {
  }

  // ---------------------------------------------------------------------------
  // Which names a flattening can register
  // ---------------------------------------------------------------------------

  /** Every reference name of `after` was already in `before` or belongs to `names`. */
  ghost predicate NewNamesWithin(before: Tables, after: Tables, names: set<string>) {
    forall n | n in ReferenceNames(after.references) :: n in ReferenceNames(before.references) || n in names
  }

  lemma RegisteringNamesMonotone(u1: set<RawType>, u2: set<RawType>)
    requires u1 <= u2
    ensures RegisteringNames(u1) <= RegisteringNames(u2)
  {
  }

  /** The child list of a descriptor holds only descriptors reachable from it. */
  lemma ChildTypesWithin(t: RawType)
    requires t.rawName == "Array" ==> t.element.Some?
    ensures TypesOfProperties(ChildProperties(t)) <= TypesOfType(t)
  {
    if t.rawName == "Array" {
      var e := t.element.value;
      assert TypesOfType(e) <= TypesOfType(t);
    }
  }

  lemma {:induction false} NamesFromProperties(pl: PropertyList, st: Tables)
    requires WellShapedProperties(pl)
    ensures NewNamesWithin(st, ParseProperties(pl, st).1, RegisteringNames(TypesOfProperties(pl)))
    decreases PropertyListSize(pl), 3
  {
    if pl.Given? {
      NamesFromList(pl.items, st);
    }
  }

  lemma {:induction false} NamesFromList(ps: seq<RawProp>, st: Tables)
    requires WellShapedList(ps)
    ensures NewNamesWithin(st, ParseList(ps, st).1, RegisteringNames(TypesOfList(ps)))
    decreases ListSize(ps), 2
  {
    if |ps| == 0 {
    } else if IsIgnored(ps[0].docComment) {
      NamesFromList(ps[1..], st);
      RegisteringNamesMonotone(TypesOfList(ps[1..]), TypesOfList(ps));
    } else {
      var (rec, st1) := ParseProperty(ps[0], st);
      NamesFromProperty(ps[0], st);
      NamesFromList(ps[1..], st1);
      RegisteringNamesMonotone(TypesOfType(ps[0].ty), TypesOfList(ps));
      RegisteringNamesMonotone(TypesOfList(ps[1..]), TypesOfList(ps));
    }
  }

  lemma {:induction false} NamesFromProperty(p: RawProp, st: Tables)
    requires WellShapedType(p.ty)
    ensures NewNamesWithin(st, ParseProperty(p, st).1, RegisteringNames(TypesOfType(p.ty)))
    decreases PropSize(p), 1
  {
    var children := ChildProperties(p.ty);
    ChildrenWellShaped(p.ty);
    var (typeName, st1) := GetType(p.ty, st);
    NamesFromType(p.ty, st);
    NamesFromProperties(children, st1);
    ChildTypesWithin(p.ty);
    RegisteringNamesMonotone(TypesOfProperties(children), TypesOfType(p.ty));
  }

  lemma {:induction false} NamesFromType(t: RawType, st: Tables)
    requires WellShapedType(t)
    ensures NewNamesWithin(st, GetType(t, st).1, RegisteringNames(TypesOfType(t)))
    decreases TypeSize(t), 5
  {
    if RegistersObject(t) && FindReference(t.rawName, st.references).None? {
      var ps := t.properties.items;
      var (parsed, st1) := ParseList(ps, st);
      NamesFromList(ps, st);
      RegisteringNamesMonotone(TypesOfList(ps), TypesOfType(t));
      ReferenceNamesAppend(st1.references, [ObjectReference(t.rawName, parsed)]);
      assert t.rawName in RegisteringNames(TypesOfType(t));
    }
  }

  // ---------------------------------------------------------------------------
  // Which names a flattening does register
  // ---------------------------------------------------------------------------

  /** The two tables a name can be registered in. */
  datatype TableKind = InterfaceTable | EnumTable

  /** Whether `getType` registers `t` in the table of that kind. */
  predicate RegistersIn(t: RawType, kind: TableKind) {
    match kind
    case InterfaceTable => RegistersObject(t)
    case EnumTable => RegistersEnum(t)
  }

  /** The names held by the table of that kind. */
  function NamesIn(st: Tables, kind: TableKind): seq<string> {
    match kind
    case InterfaceTable => ReferenceNames(st.references)
    case EnumTable => EnumNames(st.enums)
  }

  /**
   * The names of that kind a flattening hands to `getType`: those of the
   * kept properties' own types and, through `Array` elements and anonymous
   * objects, those of their child lists.
   */
  function Visited(pl: PropertyList, kind: TableKind): set<string>
    requires WellShapedProperties(pl)
    decreases PropertyListSize(pl), 1
  {
    match pl
    case Missing => {}
    case Given(ps) => VisitedList(ps, kind)
  }

  function VisitedList(ps: seq<RawProp>, kind: TableKind): set<string>
    requires WellShapedList(ps)
    decreases ListSize(ps), 0
  {
    if |ps| == 0 then {}
    else if IsIgnored(ps[0].docComment) then VisitedList(ps[1..], kind)
    else VisitedType(ps[0].ty, kind) + VisitedList(ps[1..], kind)
  }

  function VisitedType(t: RawType, kind: TableKind): set<string>
    requires WellShapedType(t)
    decreases TypeSize(t), 2
  {
    ChildrenWellShaped(t);
    (if RegistersIn(t, kind) then {t.rawName} else {}) + Visited(ChildProperties(t), kind)
  }

  /** Names, once registered, stay registered. */
  lemma NamesKept(st: Tables, st': Tables, kind: TableKind)
    requires Extends(st, st')
    ensures forall n | n in NamesIn(st, kind) :: n in NamesIn(st', kind)
  {
    forall n | n in NamesIn(st, kind)
      ensures n in NamesIn(st', kind)
    {
      var i :| 0 <= i < |NamesIn(st, kind)| && NamesIn(st, kind)[i] == n;
      assert NamesIn(st', kind)[i] == n;
    }
  }

  /**
   * Flattening registers every name it hands to `getType`: each kept
   * property's interface or enum, and those of its child lists, is in the
   * tables afterwards, whether it was new or already there.
   */
  lemma {:induction false} VisitedRegistered(pl: PropertyList, st: Tables, kind: TableKind)
    requires WellShapedProperties(pl)
    ensures forall n | n in Visited(pl, kind) :: n in NamesIn(ParseProperties(pl, st).1, kind)
    decreases PropertyListSize(pl), 3
  {
    if pl.Given? {
      VisitedListRegistered(pl.items, st, kind);
    }
  }

  lemma {:induction false} VisitedListRegistered(ps: seq<RawProp>, st: Tables, kind: TableKind)
    requires WellShapedList(ps)
    ensures forall n | n in VisitedList(ps, kind) :: n in NamesIn(ParseList(ps, st).1, kind)
    decreases ListSize(ps), 2
  {
    if |ps| > 0 {
      if IsIgnored(ps[0].docComment) {
        VisitedListRegistered(ps[1..], st, kind);
      } else {
        var st1 := ParseProperty(ps[0], st).1;
        VisitedPropertyRegistered(ps[0], st, kind);
        VisitedListRegistered(ps[1..], st1, kind);
        NamesKept(st1, ParseList(ps[1..], st1).1, kind);
        assert ParseList(ps, st).1 == ParseList(ps[1..], st1).1;
      }
    }
  }

  lemma {:induction false} VisitedPropertyRegistered(p: RawProp, st: Tables, kind: TableKind)
    requires WellShapedType(p.ty)
    ensures forall n | n in VisitedType(p.ty, kind) :: n in NamesIn(ParseProperty(p, st).1, kind)
    decreases PropSize(p), 1
  {
    ChildrenWellShaped(p.ty);
    var st1 := GetType(p.ty, st).1;
    VisitedRegistered(ChildProperties(p.ty), st1, kind);
    NamesKept(st1, ParseProperties(ChildProperties(p.ty), st1).1, kind);
  }

  // ---------------------------------------------------------------------------
  // Uniqueness of table names
  // ---------------------------------------------------------------------------

  lemma NoDuplicatesAppend(names: seq<string>, n: string)
    requires NoDuplicates(names) && n !in names
    ensures NoDuplicates(names + [n])
  {
  }

  /**
   * When no interface nests a registering descriptor of its own name, a
   * flattening keeps both tables free of repeated names.
   */
  lemma {:induction false} UniqueAfterProperties(pl: PropertyList, st: Tables, u: set<RawType>)
    requires WellShapedProperties(pl) && TypesOfProperties(pl) <= u && NoSelfNesting(u)
    requires UniqueNames(st)
    ensures UniqueNames(ParseProperties(pl, st).1)
    decreases PropertyListSize(pl), 3
  {
    if pl.Given? {
      UniqueAfterList(pl.items, st, u);
    }
  }

  lemma {:induction false} UniqueAfterList(ps: seq<RawProp>, st: Tables, u: set<RawType>)
    requires WellShapedList(ps) && TypesOfList(ps) <= u && NoSelfNesting(u)
    requires UniqueNames(st)
    ensures UniqueNames(ParseList(ps, st).1)
    decreases ListSize(ps), 2
  {
    if |ps| == 0 {
    } else if IsIgnored(ps[0].docComment) {
      UniqueAfterList(ps[1..], st, u);
    } else {
      var (rec, st1) := ParseProperty(ps[0], st);
      UniqueAfterProperty(ps[0], st, u);
      UniqueAfterList(ps[1..], st1, u);
    }
  }

  lemma {:induction false} UniqueAfterProperty(p: RawProp, st: Tables, u: set<RawType>)
    requires WellShapedType(p.ty) && TypesOfType(p.ty) <= u && NoSelfNesting(u)
    requires UniqueNames(st)
    ensures UniqueNames(ParseProperty(p, st).1)
    decreases PropSize(p), 1
  {
    var children := ChildProperties(p.ty);
    ChildrenWellShaped(p.ty);
    ChildTypesWithin(p.ty);
    var (typeName, st1) := GetType(p.ty, st);
    UniqueAfterType(p.ty, st, u);
    UniqueAfterProperties(children, st1, u);
  }

  lemma {:induction false} UniqueAfterType(t: RawType, st: Tables, u: set<RawType>)
    requires WellShapedType(t) && TypesOfType(t) <= u && NoSelfNesting(u)
    requires UniqueNames(st)
    ensures UniqueNames(GetType(t, st).1)
    decreases TypeSize(t), 5
  {
    if RegistersObject(t) {
      if FindReference(t.rawName, st.references).None? {
        UniqueAfterObject(t, st, u);
      }
    } else if t.members.Some? && FindEnum(t.rawName, st.enums).None? {
      var e := EnumReference(t.rawName, KeptMembers(t.members.value));
      assert GetType(t, st).1 == Tables(st.references, st.enums + [e]);
      EnumNamesAppend(st.enums, [e]);
      NoDuplicatesAppend(EnumNames(st.enums), t.rawName);
    }
  }

  /** A new interface entry: its name is not among the names its own properties register. */
  lemma {:induction false} UniqueAfterObject(t: RawType, st: Tables, u: set<RawType>)
    requires WellShapedType(t) && TypesOfType(t) <= u && NoSelfNesting(u)
    requires UniqueNames(st)
    requires RegistersObject(t) && FindReference(t.rawName, st.references).None?
    ensures UniqueNames(GetType(t, st).1)
    decreases TypeSize(t), 4
  {
    var ps := t.properties.items;
    var (parsed, st1) := ParseList(ps, st);
    var entry := ObjectReference(t.rawName, parsed);
    assert GetType(t, st).1 == Tables(st1.references + [entry], st1.enums);
    UniqueAfterList(ps, st, u);
    NamesFromList(ps, st);
    assert t in u;
    assert t.rawName !in RegisteringNames(TypesOfList(ps));
    assert t.rawName !in ReferenceNames(st1.references);
    ReferenceNamesAppend(st1.references, [entry]);
    NoDuplicatesAppend(ReferenceNames(st1.references), t.rawName);
  }

  /** An empty `IFoo`, and an `IFoo` whose one property `child` has that type. */
  const InnerFoo := RawType("IFoo", Given([]), None, None)
  const FooChild := RawProp("child", InnerFoo, false, None)
  const OuterFoo := RawType("IFoo", Given([FooChild]), None, None)
  const FooProp := RawProp("foo", OuterFoo, false, None)

  /** The tables after the nested `IFoo` alone, and after the outer one as well. */
  const InnerFooTables := Tables([ObjectReference("IFoo", [])], [])
  const OuterFooTables :=
    Tables([ObjectReference("IFoo", []), ObjectReference("IFoo", [ParseProperty(FooChild, EmptyTables).0])], [])

  lemma FooNests()
    ensures WellShapedProperties(Given([FooProp]))
    ensures RegistersObject(InnerFoo) && RegistersObject(OuterFoo)
    ensures !NoSelfNesting(TypesOfProperties(Given([FooProp])))
  {
    assert [FooChild][1..] == [] && [FooProp][1..] == [];
    assert WellShapedType(InnerFoo) && WellShapedList([FooChild]);
    assert WellShapedType(OuterFoo) && WellShapedList([FooProp]);
    assert InnerFoo in TypesOfType(InnerFoo) && TypesOfType(InnerFoo) <= TypesOfList([FooChild]);
    assert OuterFoo in TypesOfType(OuterFoo) && TypesOfType(OuterFoo) <= TypesOfList([FooProp]);
    assert OccursAt("IFoo", "I", 0);
    assert "IFoo" in RegisteringNames(TypesOfProperties(OuterFoo.properties));
  }

  lemma InnerFooFlattened()
    requires RegistersObject(InnerFoo)
    ensures WellShapedList([FooChild])
    ensures ParseList([FooChild], EmptyTables) == ([ParseProperty(FooChild, EmptyTables).0], InnerFooTables)
  {
    assert [FooChild][1..] == [];
    assert ParseObjectReference("IFoo", Given([]), EmptyTables) == InnerFooTables;
    assert GetType(InnerFoo, EmptyTables).1 == InnerFooTables;
    var (rec, st1) := ParseProperty(FooChild, EmptyTables);
    assert st1 == InnerFooTables;
    assert !IsIgnored(FooChild.docComment);
    assert ParseList([FooChild][1..], st1) == ([], st1) && [rec] + [] == [rec];
  }

  lemma OuterFooRegistered()
    requires RegistersObject(InnerFoo) && RegistersObject(OuterFoo) && WellShapedProperties(Given([FooProp]))
    ensures GetType(OuterFoo, EmptyTables).1 == OuterFooTables
  {
    InnerFooFlattened();
    assert ParseObjectReference("IFoo", OuterFoo.properties, EmptyTables) == OuterFooTables;
  }

  lemma OuterFooFlattened()
    requires RegistersObject(InnerFoo) && RegistersObject(OuterFoo) && WellShapedProperties(Given([FooProp]))
    ensures ParseProperties(Given([FooProp]), EmptyTables).1 == OuterFooTables
  {
    OuterFooRegistered();
    assert [FooProp][1..] == [];
    assert ChildProperties(FooProp.ty) == Missing;
    assert ParseProperties(Missing, OuterFooTables) == ([], OuterFooTables);
    var (rec, st1) := ParseProperty(FooProp, EmptyTables);
    assert st1 == OuterFooTables;
    assert !IsIgnored(FooProp.docComment);
    assert ParseList([FooProp][1..], st1) == ([], st1);
    assert ParseList([FooProp], EmptyTables).1 == st1;
  }

  /**
   * The no-self-nesting hypothesis is needed: flattening a property of type
   * `OuterFoo` registers the nested `IFoo` first and then appends the outer
   * one under the same name, since the name is looked up only before the
   * properties are flattened.
   */
  lemma SelfNestingRepeatsName()
    ensures WellShapedProperties(Given([FooProp]))
    ensures !NoSelfNesting(TypesOfProperties(Given([FooProp])))
    ensures ParseProperties(Given([FooProp]), EmptyTables).1.references
            == [ObjectReference("IFoo", []), ObjectReference("IFoo", [ParseProperty(FooChild, EmptyTables).0])]
    ensures !UniqueNames(ParseProperties(Given([FooProp]), EmptyTables).1)
  {
    FooNests();
    OuterFooFlattened();
    assert ReferenceNames(OuterFooTables.references)[0] == ReferenceNames(OuterFooTables.references)[1];
  }

  // ---------------------------------------------------------------------------
  // Enum entries keep a member when every declared enum keeps one
  // ---------------------------------------------------------------------------

  /** Every enum descriptor of `u` keeps at least one member after the `@ignore` filter. */
  ghost predicate EnumsKeepAMember(u: set<RawType>) {
    forall t | t in u && RegistersEnum(t) :: |KeptMembers(t.members.value)| > 0
  }

  lemma {:induction false} InhabitedAfterProperties(pl: PropertyList, st: Tables, u: set<RawType>)
    requires WellShapedProperties(pl) && TypesOfProperties(pl) <= u && EnumsKeepAMember(u)
    requires EnumsInhabited(st.enums)
    ensures EnumsInhabited(ParseProperties(pl, st).1.enums)
    decreases PropertyListSize(pl), 3
  {
    if pl.Given? {
      InhabitedAfterList(pl.items, st, u);
    }
  }

  lemma {:induction false} InhabitedAfterList(ps: seq<RawProp>, st: Tables, u: set<RawType>)
    requires WellShapedList(ps) && TypesOfList(ps) <= u && EnumsKeepAMember(u)
    requires EnumsInhabited(st.enums)
    ensures EnumsInhabited(ParseList(ps, st).1.enums)
    decreases ListSize(ps), 2
  {
    if |ps| == 0 {
    } else if IsIgnored(ps[0].docComment) {
      InhabitedAfterList(ps[1..], st, u);
    } else {
      var (rec, st1) := ParseProperty(ps[0], st);
      InhabitedAfterProperty(ps[0], st, u);
      InhabitedAfterList(ps[1..], st1, u);
    }
  }

  lemma {:induction false} InhabitedAfterProperty(p: RawProp, st: Tables, u: set<RawType>)
    requires WellShapedType(p.ty) && TypesOfType(p.ty) <= u && EnumsKeepAMember(u)
    requires EnumsInhabited(st.enums)
    ensures EnumsInhabited(ParseProperty(p, st).1.enums)
    decreases PropSize(p), 1
  {
    var children := ChildProperties(p.ty);
    ChildrenWellShaped(p.ty);
    ChildTypesWithin(p.ty);
    var (typeName, st1) := GetType(p.ty, st);
    InhabitedAfterType(p.ty, st, u);
    InhabitedAfterProperties(children, st1, u);
  }

  lemma {:induction false} InhabitedAfterType(t: RawType, st: Tables, u: set<RawType>)
    requires WellShapedType(t) && TypesOfType(t) <= u && EnumsKeepAMember(u)
    requires EnumsInhabited(st.enums)
    ensures EnumsInhabited(GetType(t, st).1.enums)
    decreases TypeSize(t), 5
  {
    if RegistersObject(t) {
      if FindReference(t.rawName, st.references).None? {
        InhabitedAfterList(t.properties.items, st, u);
      }
    } else if t.members.Some? && FindEnum(t.rawName, st.enums).None? {
      assert t in u;
    }
  }

  // ---------------------------------------------------------------------------
  // Stratification of the object-reference table
  // ---------------------------------------------------------------------------

  /**
   * A record is settled against `refs` when its type is already registered,
   * or is a name no descriptor of `u` registers (so it never will be); and
   * likewise for its children.
   */
  ghost predicate SettledRecord(rec: PropertyRecord, refs: seq<ObjectReference>, u: set<RawType>)
    decreases RecordSize(rec), 0
  {
    && (rec.typeName in ReferenceNames(refs) || rec.typeName !in RegisteringNames(u))
    && SettledRecords(rec.properties, refs, u)
  }

  ghost predicate SettledRecords(recs: seq<PropertyRecord>, refs: seq<ObjectReference>, u: set<RawType>)
    decreases RecordListSize(recs), 1
  {
    |recs| == 0 || (SettledRecord(recs[0], refs, u) && SettledRecords(recs[1..], refs, u))
  }

  /**
   * Each entry is settled against the entries before it, and every
   * registered name is one some descriptor of `u` registers under.
   */
  ghost predicate SettledTable(refs: seq<ObjectReference>, u: set<RawType>) {
    && (forall i | 0 <= i < |refs| :: SettledRecords(refs[i].properties, refs[..i], u))
    && (forall i | 0 <= i < |refs| :: refs[i].name in RegisteringNames(u))
  }

  lemma {:induction false} SettledRecordGrows(rec: PropertyRecord, refs: seq<ObjectReference>, more: seq<ObjectReference>, u: set<RawType>)
    requires SettledRecord(rec, refs, u)
    ensures SettledRecord(rec, refs + more, u)
    decreases RecordSize(rec), 0
  {
    ReferenceNamesAppend(refs, more);
    SettledRecordsGrow(rec.properties, refs, more, u);
  }

  lemma {:induction false} SettledRecordsGrow(recs: seq<PropertyRecord>, refs: seq<ObjectReference>, more: seq<ObjectReference>, u: set<RawType>)
    requires SettledRecords(recs, refs, u)
    ensures SettledRecords(recs, refs + more, u)
    decreases RecordListSize(recs), 1
  {
    if |recs| > 0 {
      SettledRecordGrows(recs[0], refs, more, u);
      SettledRecordsGrow(recs[1..], refs, more, u);
    }
  }

  /** Settledness survives any extension of the table. */
  lemma SettledRecordsExtend(recs: seq<PropertyRecord>, refs: seq<ObjectReference>, refs': seq<ObjectReference>, u: set<RawType>)
    requires SettledRecords(recs, refs, u) && refs <= refs'
    ensures SettledRecords(recs, refs', u)
  {
    assert refs' == refs + refs'[|refs|..];
    SettledRecordsGrow(recs, refs, refs'[|refs|..], u);
  }

  lemma SettledRecordExtend(rec: PropertyRecord, refs: seq<ObjectReference>, refs': seq<ObjectReference>, u: set<RawType>)
    requires SettledRecord(rec, refs, u) && refs <= refs'
    ensures SettledRecord(rec, refs', u)
  {
    assert refs' == refs + refs'[|refs|..];
    SettledRecordGrows(rec, refs, refs'[|refs|..], u);
  }

  /** Every name a descriptor registers under starts with `I`, so `Object` is never one. */
  lemma ObjectIsNotRegistering(u: set<RawType>)
    ensures "Object" !in RegisteringNames(u)
  {
    if "Object" in RegisteringNames(u) {
      var t :| t in u && RegistersObject(t) && t.rawName == "Object";
      RegistersObjectIff(t);
      assert false;
    }
  }

  lemma {:induction false} SettleProperties(pl: PropertyList, st: Tables, u: set<RawType>)
    requires WellShapedProperties(pl) && TypesOfProperties(pl) <= u && RegistrationByName(u)
    requires SettledTable(st.references, u)
    ensures SettledTable(ParseProperties(pl, st).1.references, u)
    ensures SettledRecords(ParseProperties(pl, st).0, ParseProperties(pl, st).1.references, u)
    decreases PropertyListSize(pl), 3
  {
    if pl.Given? {
      SettleList(pl.items, st, u);
    }
  }

  lemma {:induction false} SettleList(ps: seq<RawProp>, st: Tables, u: set<RawType>)
    requires WellShapedList(ps) && TypesOfList(ps) <= u && RegistrationByName(u)
    requires SettledTable(st.references, u)
    ensures SettledTable(ParseList(ps, st).1.references, u)
    ensures SettledRecords(ParseList(ps, st).0, ParseList(ps, st).1.references, u)
    decreases ListSize(ps), 2
  {
    if |ps| == 0 {
    } else if IsIgnored(ps[0].docComment) {
      SettleList(ps[1..], st, u);
    } else {
      var (rec, st1) := ParseProperty(ps[0], st);
      SettleProperty(ps[0], st, u);
      var (rest, st2) := ParseList(ps[1..], st1);
      SettleList(ps[1..], st1, u);
      SettledRecordExtend(rec, st1.references, st2.references, u);
      assert ([rec] + rest)[1..] == rest;
    }
  }

  lemma {:induction false} SettleProperty(p: RawProp, st: Tables, u: set<RawType>)
    requires WellShapedType(p.ty) && TypesOfType(p.ty) <= u && RegistrationByName(u)
    requires SettledTable(st.references, u)
    ensures SettledTable(ParseProperty(p, st).1.references, u)
    ensures SettledRecord(ParseProperty(p, st).0, ParseProperty(p, st).1.references, u)
    decreases PropSize(p), 1
  {
    var children := ChildProperties(p.ty);
    ChildrenWellShaped(p.ty);
    ChildTypesWithin(p.ty);
    var (typeName, st1) := GetType(p.ty, st);
    SettleType(p.ty, st, u);
    var (kids, st2) := ParseProperties(children, st1);
    SettleProperties(children, st1, u);
    if RegistersObject(p.ty) {
      ReferenceNamesAppend(st1.references, st2.references[|st1.references|..]);
      assert st2.references == st1.references + st2.references[|st1.references|..];
    } else if p.ty.rawName == "" {
      ObjectIsNotRegistering(u);
    } else {
      assert p.ty in u;
    }
  }

  lemma {:induction false} SettleType(t: RawType, st: Tables, u: set<RawType>)
    requires WellShapedType(t) && TypesOfType(t) <= u && RegistrationByName(u)
    requires SettledTable(st.references, u)
    ensures SettledTable(GetType(t, st).1.references, u)
    decreases TypeSize(t), 5
  {
    if RegistersObject(t) && FindReference(t.rawName, st.references).None? {
      var ps := t.properties.items;
      var (parsed, st1) := ParseList(ps, st);
      SettleList(ps, st, u);
      assert t in u;
      AppendSettledEntry(st1.references, ObjectReference(t.rawName, parsed), u);
    }
  }

  /** Appending an entry settled against the whole table keeps the table settled. */
  lemma AppendSettledEntry(refs: seq<ObjectReference>, entry: ObjectReference, u: set<RawType>)
    requires SettledTable(refs, u)
    requires SettledRecords(entry.properties, refs, u)
    requires entry.name in RegisteringNames(u)
    ensures SettledTable(refs + [entry], u)
  {
    var refs' := refs + [entry];
    forall i | 0 <= i < |refs'|
      ensures SettledRecords(refs'[i].properties, refs'[..i], u)
    {
      if i < |refs| {
        assert refs'[..i] == refs[..i];
      } else {
        assert refs'[..i] == refs;
      }
    }
  }

  /** A settled list resolves, against any table extending its prefix, below the prefix. */
  lemma {:induction false} SettledRecordsResolve(recs: seq<PropertyRecord>, prefix: seq<ObjectReference>,
                                                 refs: seq<ObjectReference>, u: set<RawType>)
    requires prefix <= refs
    requires forall i | 0 <= i < |refs| :: refs[i].name in RegisteringNames(u)
    requires SettledRecords(recs, prefix, u)
    ensures ResolvesBelow(recs, refs, |prefix|)
    decreases RecordListSize(recs)
  {
    if |recs| > 0 {
      var name := recs[0].typeName;
      match FindReference(name, refs) {
        case None =>
        case Some(j) =>
          assert name == refs[j].name;
          assert name in ReferenceNames(prefix);
          ReferenceNamesAppend(prefix, refs[|prefix|..]);
          assert refs == prefix + refs[|prefix|..];
          FindNameStable(ReferenceNames(prefix), ReferenceNames(refs[|prefix|..]), name);
      }
      RecordListSizeSplit(recs);
      SettledRecordsResolve(recs[0].properties, prefix, refs, u);
      SettledRecordsResolve(recs[1..], prefix, refs, u);
      assert RecordResolvesBelow(recs[0], refs, |prefix|);
    }
  }

  /** A settled table is stratified: following a reference always moves to an earlier entry. */
  lemma SettledIsStratified(refs: seq<ObjectReference>, u: set<RawType>)
    requires SettledTable(refs, u)
    ensures Stratified(refs)
  {
    forall i | 0 <= i < |refs|
      ensures ResolvesBelow(refs[i].properties, refs, i)
    {
      SettledRecordsResolve(refs[i].properties, refs[..i], refs, u);
    }
  }

  // ---------------------------------------------------------------------------
  // A consistent parser output meets both hypotheses
  // ---------------------------------------------------------------------------

  /** Descriptors reachable from a descriptor are never larger than it. */
  lemma {:induction false} ReachableTypesNoLarger(t: RawType)
    ensures forall s | s in TypesOfType(t) :: TypeSize(s) <= TypeSize(t)
    decreases TypeSize(t), 1
  {
    if t.properties.Given? {
      ReachableFromListSmaller(t.properties.items);
    }
    if t.element.Some? {
      ReachableTypesNoLarger(t.element.value);
    }
  }

  lemma {:induction false} ReachableFromListSmaller(ps: seq<RawProp>)
    ensures forall s | s in TypesOfList(ps) :: TypeSize(s) < ListSize(ps)
    decreases ListSize(ps), 0
  {
    if |ps| > 0 {
      ReachableTypesNoLarger(ps[0].ty);
      ReachableFromListSmaller(ps[1..]);
    }
  }

  /** Everything reachable from a reachable descriptor is reachable. */
  ghost predicate Closed(u: set<RawType>) {
    forall t | t in u :: TypesOfType(t) <= u
  }

  lemma {:induction false} TypesOfTypeClosed(t: RawType)
    ensures Closed(TypesOfType(t))
    decreases TypeSize(t), 1
  {
    if t.properties.Given? {
      TypesOfListClosed(t.properties.items);
    }
    if t.element.Some? {
      TypesOfTypeClosed(t.element.value);
    }
  }

  lemma {:induction false} TypesOfListClosed(ps: seq<RawProp>)
    ensures Closed(TypesOfList(ps))
    decreases ListSize(ps), 0
  {
    if |ps| > 0 {
      TypesOfTypeClosed(ps[0].ty);
      TypesOfListClosed(ps[1..]);
    }
  }

  /**
   * When every registering name denotes one descriptor, registration is a
   * property of the name and no interface nests its own name: a descriptor
   * strictly inside an interface is smaller than it, hence a different one.
   */
  lemma ConsistentMeetsHypotheses(u: set<RawType>)
    requires Closed(u) && Consistent(u)
    ensures RegistrationByName(u)
    ensures NoSelfNesting(u)
  {
    forall t | t in u && RegistersObject(t)
      ensures t.rawName !in RegisteringNames(TypesOfProperties(t.properties))
    {
      ReachableFromListSmaller(t.properties.items);
      assert TypesOfProperties(t.properties) <= TypesOfType(t);
    }
  }
}
