/**
 * The already-parsed interface descriptors the engine consumes (the output of
 * the `typhen` TypeScript parser, which is not part of this model), their
 * sizes, and the descriptor-level notions the flattener dispatches on.
 */
module Typhen {
  import opened Wrappers
  import opened Strings

  /**
   * A type descriptor. `properties` is the interface's or anonymous object's
   * property list, `members` an enum's members, `element` an array's element
   * type. An absent field is `Missing`/`None`.
   */
  datatype RawType = RawType(
    rawName: string,
    properties: PropertyList,
    members: Option<seq<RawMember>>,
    element: Option<RawType>)

  /** A property list that may be absent (`undefined` in the parser output). */
  datatype PropertyList = Missing | Given(items: seq<RawProp>)

  /** One declared property: its name, type, `?` marker and doc-comment lines. */
  datatype RawProp = RawProp(
    rawName: string,
    ty: RawType,
    isOptional: bool,
    docComment: Option<seq<string>>)

  /** One declared enum member. */
  datatype RawMember = RawMember(rawName: string, value: int, docComment: Option<seq<string>>)

  function TypeSize(t: RawType): nat
  {
    1 + (match t.properties case Missing => 0 case Given(ps) => ListSize(ps))
      + (match t.element case None => 0 case Some(e) => TypeSize(e))
  }

  function ListSize(ps: seq<RawProp>): nat
  {
    if |ps| == 0 then 0 else 1 + TypeSize(ps[0].ty) + ListSize(ps[1..])
  }

  function PropSize(p: RawProp): nat
  {
    1 + TypeSize(p.ty)
  }

  function PropertyListSize(pl: PropertyList): nat
  {
    match pl
    case Missing => 0
    case Given(ps) => ListSize(ps)
  }

  /** Every descriptor named `Array` carries its element type, as the parser guarantees. */
  predicate WellShapedType(t: RawType)
    decreases TypeSize(t)
  {
    && (t.rawName == "Array" ==> t.element.Some?)
    && (match t.properties case Missing => true case Given(ps) => WellShapedList(ps))
    && (match t.element case None => true case Some(e) => WellShapedType(e))
  }

  predicate WellShapedList(ps: seq<RawProp>)
    decreases ListSize(ps)
  {
    |ps| == 0 || (WellShapedType(ps[0].ty) && WellShapedList(ps[1..]))
  }

  predicate WellShapedProperties(pl: PropertyList)
  {
    match pl
    case Missing => true
    case Given(ps) => WellShapedList(ps)
  }

  /** `getType` registers an object reference: properties present and the name starts with `I`. */
  predicate RegistersObject(t: RawType) {
    t.properties.Given? && IndexOf(t.rawName, "I") == 0
  }

  /** Otherwise `getType` registers an enum when members are present. */
  predicate RegistersEnum(t: RawType) {
    !RegistersObject(t) && t.members.Some?
  }

  /** The interface-name test is a plain first-letter check. */
  lemma RegistersObjectIff(t: RawType)
    ensures RegistersObject(t) <==> t.properties.Given? && |t.rawName| > 0 && t.rawName[0] == 'I'
  {
    IndexOfZeroIsPrefix(t.rawName, "I");
    if |t.rawName| > 0 && t.rawName[0] == 'I' {
      assert t.rawName[..1] == "I";
    }
  }

  /**
   * The child list `parseProperty` descends into: the element type's
   * properties for `Array`, the own properties for an anonymous object
   * (raw name `""`), and none otherwise.
   */
  function ChildProperties(t: RawType): (r: PropertyList)
    requires t.rawName == "Array" ==> t.element.Some?
    ensures PropertyListSize(r) < TypeSize(t)
    ensures t.rawName != "Array" && t.rawName != "" ==> r == Missing
  {
    if t.rawName == "Array" then t.element.value.properties
    else if t.rawName == "" then t.properties
    else Missing
  }

  lemma ChildrenWellShaped(t: RawType)
    requires WellShapedType(t)
    ensures WellShapedProperties(ChildProperties(t))
  {
  }

  /** Every type descriptor reachable from a descriptor, including itself. */
  ghost function TypesOfType(t: RawType): set<RawType>
    decreases TypeSize(t)
  {
    {t}
      + (match t.properties case Missing => {} case Given(ps) => TypesOfList(ps))
      + (match t.element case None => {} case Some(e) => TypesOfType(e))
  }

  ghost function TypesOfList(ps: seq<RawProp>): set<RawType>
    decreases ListSize(ps)
  {
    if |ps| == 0 then {} else TypesOfType(ps[0].ty) + TypesOfList(ps[1..])
  }

  ghost function TypesOfProperties(pl: PropertyList): set<RawType>
  {
    match pl
    case Missing => {}
    case Given(ps) => TypesOfList(ps)
  }

  /** The names under which some descriptor of `u` registers an object reference. */
  ghost function RegisteringNames(u: set<RawType>): set<string>
  {
    set t | t in u && RegistersObject(t) :: t.rawName
  }

  /**
   * Whether a descriptor registers is a property of its name: no name is
   * carried both by a registering descriptor and by a non-registering one.
   */
  ghost predicate RegistrationByName(u: set<RawType>) {
    forall t1, t2 | t1 in u && t2 in u && RegistersObject(t1) && t1.rawName == t2.rawName ::
      RegistersObject(t2)
  }

  /** No interface contains, below itself, a registering descriptor of its own name. */
  ghost predicate NoSelfNesting(u: set<RawType>) {
    forall t | t in u && RegistersObject(t) :: t.rawName !in RegisteringNames(TypesOfProperties(t.properties))
  }

  /** One descriptor per registering name, as a parser resolving declarations produces. */
  ghost predicate Consistent(u: set<RawType>) {
    forall t1, t2 | t1 in u && t2 in u && RegistersObject(t1) && t1.rawName == t2.rawName :: t1 == t2
  }
}
