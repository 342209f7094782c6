/** Properties of the `@ignore` filter and of the record/declaration correspondence. */
module FlatteningLemmas {
  import opened Wrappers
  import opened DocComments
  import opened Typhen
  import opened Records
  import opened Flattening

  /** Only properties whose `@ignore` lookup is empty are kept. */
  lemma {:induction false} KeptOnlyUnignored(ps: seq<RawProp>)
    ensures forall x | x in Kept(ps) :: !IsIgnored(x.docComment)
  {
    if |ps| > 0 {
      KeptOnlyUnignored(ps[1..]);
    }
  }

  /** Every property whose `@ignore` lookup is empty is kept. */
  lemma {:induction false} KeptAllUnignored(ps: seq<RawProp>)
    ensures forall i | 0 <= i < |ps| && !IsIgnored(ps[i].docComment) :: ps[i] in Kept(ps)
  {
    if |ps| > 0 {
      KeptAllUnignored(ps[1..]);
      assert forall i | 1 <= i < |ps| :: ps[i] == ps[1..][i - 1];
    }
  }

  /** A declared property is kept exactly when its `@ignore` lookup is empty. */
  lemma KeptIff(ps: seq<RawProp>)
    ensures forall i | 0 <= i < |ps| :: ps[i] in Kept(ps) <==> !IsIgnored(ps[i].docComment)
  {
    KeptOnlyUnignored(ps);
    KeptAllUnignored(ps);
  }

  /**
   * A map over lists that works head first, one element at a time, sends a
   * concatenation to the concatenation of its images.
   */
  lemma {:induction false} ElementwiseAppend<T, U>(f: seq<T> -> seq<U>, head: T -> seq<U>, a: seq<T>, b: seq<T>)
    requires f([]) == []
    requires forall x, rest :: f([x] + rest) == head(x) + f(rest)
    ensures f(a + b) == f(a) + f(b)
  {
    if |a| == 0 {
      assert a + b == b;
    } else {
      ElementwiseAppend(f, head, a[1..], b);
      assert a == [a[0]] + a[1..];
      assert a + b == [a[0]] + (a[1..] + b);
    }
  }

  /** What the `@ignore` filter keeps of one property. */
  function KeptOne(p: RawProp): seq<RawProp> {
    if IsIgnored(p.docComment) then [] else [p]
  }

  /** The filter works element by element, so it keeps the declaration order. */
  lemma KeptAppend(a: seq<RawProp>, b: seq<RawProp>)
    ensures Kept(a + b) == Kept(a) + Kept(b)
  {
    forall x, rest
      ensures Kept([x] + rest) == KeptOne(x) + Kept(rest)
    {
      assert ([x] + rest)[1..] == rest;
    }
    ElementwiseAppend(Kept, KeptOne, a, b);
  }

  /** Filtering twice is filtering once. */
  lemma {:induction false} KeptIdempotent(ps: seq<RawProp>)
    ensures Kept(Kept(ps)) == Kept(ps)
  {
    if |ps| > 0 {
      KeptIdempotent(ps[1..]);
      if !IsIgnored(ps[0].docComment) {
        assert ([ps[0]] + Kept(ps[1..]))[1..] == Kept(ps[1..]);
      }
    }
  }

  /** What the `@ignore` filter keeps of one enum member, as a table entry. */
  function KeptMember(m: RawMember): seq<EnumMember> {
    if IsIgnored(m.docComment) then [] else [EnumMember(m.rawName, m.value)]
  }

  /** An enum member is kept exactly when its `@ignore` lookup is empty, in declaration order. */
  lemma KeptMembersAppend(a: seq<RawMember>, b: seq<RawMember>)
    ensures KeptMembers(a + b) == KeptMembers(a) + KeptMembers(b)
  {
    forall x, rest
      ensures KeptMembers([x] + rest) == KeptMember(x) + KeptMembers(rest)
    {
      assert ([x] + rest)[1..] == rest;
    }
    ElementwiseAppend(KeptMembers, KeptMember, a, b);
  }

  /** An enum whose members are all ignored is registered with no members. */
  lemma {:induction false} AllIgnoredMembers(ms: seq<RawMember>)
    requires forall i | 0 <= i < |ms| :: IsIgnored(ms[i].docComment)
    ensures KeptMembers(ms) == []
  {
    if |ms| > 0 {
      AllIgnoredMembers(ms[1..]);
    }
  }

  /** `DescribesAll` is the pointwise relation. */
  lemma {:induction false} DescribesAllPointwise(recs: seq<PropertyRecord>, ps: seq<RawProp>)
    ensures DescribesAll(recs, ps) <==>
      |recs| == |ps| && forall i | 0 <= i < |ps| :: Describes(recs[i], ps[i])
    decreases |ps|
  {
    if |ps| > 0 && |recs| == |ps| {
      DescribesAllPointwise(recs[1..], ps[1..]);
      assert forall i | 1 <= i < |ps| :: recs[i] == recs[1..][i - 1] && ps[i] == ps[1..][i - 1];
    }
  }

  /** Only `Array` and anonymous-object properties carry children; a named interface gets none. */
  lemma NoChildrenUnlessArrayOrObject(rec: PropertyRecord, p: RawProp)
    requires Describes(rec, p)
    requires p.ty.rawName != "Array" && p.ty.rawName != ""
    ensures rec.properties == []
  {
  }

  /** A declaration determines its record: two records that describe it are equal. */
  lemma {:induction false} DescribesUnique(r1: PropertyRecord, r2: PropertyRecord, p: RawProp)
    requires Describes(r1, p) && Describes(r2, p)
    ensures r1 == r2
    decreases PropSize(p), 1
  {
    DescribesAllUnique(r1.properties, r2.properties, KeptOf(ChildProperties(p.ty)));
  }

  lemma {:induction false} DescribesAllUnique(recs1: seq<PropertyRecord>, recs2: seq<PropertyRecord>, ps: seq<RawProp>)
    requires DescribesAll(recs1, ps) && DescribesAll(recs2, ps)
    ensures recs1 == recs2
    decreases ListSize(ps), 2
  {
    if |ps| > 0 {
      DescribesUnique(recs1[0], recs2[0], ps[0]);
      DescribesAllUnique(recs1[1..], recs2[1..], ps[1..]);
      assert recs1 == [recs1[0]] + recs1[1..];
      assert recs2 == [recs2[0]] + recs2[1..];
    }
  }
}
