/**
 * Example synthesis (`generateExampleJSON`): a JSON value built from a
 * block's flattened property records, following object references to
 * entries of the reference table and taking the first member of an enum.
 */
module Examples {
  import opened Wrappers
  import opened Records

  /** The JSON values the synthesizer produces. Objects keep insertion order. */
  datatype Json =
    | JString(str: string)
    | JNumber(num: int)
    | JBool(b: bool)
    | JArray(items: seq<Json>)
    | JObject(fields: seq<Field>)

  datatype Field = Field(key: string, value: Json)

  /** `config.placeholderValues`. */
  datatype Placeholders = Placeholders(str: string, boolean: bool, number: int)

  const DefaultPlaceholders := Placeholders("Lorem ipsum dolor sit amet", true, 1)

  /**
   * Why synthesis throws: `reference.properties[0].value` on an enum entry
   * with no members reads a field of `undefined`.
   */
  datatype Fault = EmptyEnum(name: string)

  function Elems(s: seq<string>): set<string> {
    set x | x in s
  }

  function Keys(fields: seq<Field>): (ks: seq<string>)
    ensures |ks| == |fields|
    ensures forall i | 0 <= i < |fields| :: ks[i] == fields[i].key
  {
    if |fields| == 0 then [] else [fields[0].key] + Keys(fields[1..])
  }

  /** Property read `object[key]`: the value stored under `key`, if any. */
  function Get(fields: seq<Field>, key: string): (r: Option<Json>)
    ensures r.None? <==> key !in Keys(fields)
  {
    match FindName(Keys(fields), key)
    case None => None
    case Some(i) => Some(fields[i].value)
  }

  /**
   * Property write `object[key] = value`: an existing key keeps its
   * position and takes the new value; a new key goes last.
   */
  function Assign(fields: seq<Field>, key: string, value: Json): (r: seq<Field>)
    ensures key in Keys(fields) ==> Keys(r) == Keys(fields)
    ensures key !in Keys(fields) ==> Keys(r) == Keys(fields) + [key]
    ensures Get(r, key) == Some(value)
    ensures forall k | k != key :: Get(r, k) == Get(fields, k)
  {
    match FindName(Keys(fields), key)
    case None =>
      var r := fields + [Field(key, value)];
      assert Keys(r) == Keys(fields) + [key];
      forall k | k != key
        ensures Get(r, k) == Get(fields, k)
      {
        if k in Keys(fields) {
          FindNameStable(Keys(fields), [key], k);
        }
      }
      r
    case Some(i) => fields[i := Field(key, value)]
  }

  /** Assigning a key the object does not hold appends one field and changes nothing else. */
  lemma AssignFresh(fields: seq<Field>, key: string, value: Json)
    requires key !in Keys(fields)
    ensures Assign(fields, key, value) == fields + [Field(key, value)]
  {
  }

  lemma ElemsAppend(a: seq<string>, b: seq<string>)
    ensures Elems(a + b) == Elems(a) + Elems(b)
  {
  }

  /** Assigning `name` adds exactly `name` to the key set. */
  lemma AssignElems(base: seq<Field>, name: string, v: Json)
    ensures Elems(Keys(Assign(base, name, v))) == Elems(Keys(base)) + {name}
  {
    if name in Keys(base) {
      assert Elems(Keys(base)) == Elems(Keys(base)) + {name};
    } else {
      ElemsAppend(Keys(base), [name]);
    }
  }

  /** A name placed after a list with no repeats is not in that list. */
  lemma DistinctFromPrefix(a: seq<string>, name: string, rest: seq<string>)
    requires NoDuplicates(a + ([name] + rest))
    ensures name !in a
  {
    var ks := a + ([name] + rest);
    assert ks[|a|] == name;
    forall i | 0 <= i < |a|
      ensures a[i] != name
    {
      assert ks[i] == a[i];
    }
  }

  /** When `name` and `rest` are new and distinct, assigning `name` appends it to the keys. */
  lemma AssignDistinct(base: seq<Field>, name: string, v: Json, rest: seq<string>)
    requires NoDuplicates(Keys(base) + ([name] + rest))
    ensures Keys(Assign(base, name, v)) + rest == Keys(base) + ([name] + rest)
  {
    DistinctFromPrefix(Keys(base), name, rest);
    assert (Keys(base) + [name]) + rest == Keys(base) + ([name] + rest);
  }

  /** One step of `Fill`: assigning `name` and then the rest covers `name` and the rest. */
  lemma FillStepKeys(base: seq<Field>, name: string, v: Json, rest: seq<string>, out: seq<Field>)
    ensures Elems(Keys(out)) == Elems(Keys(Assign(base, name, v))) + Elems(rest) ==>
              Elems(Keys(out)) == Elems(Keys(base)) + Elems([name] + rest)
    ensures NoDuplicates(Keys(base) + ([name] + rest)) ==> NoDuplicates(Keys(Assign(base, name, v)) + rest)
    ensures Keys(out) == Keys(Assign(base, name, v)) + rest && NoDuplicates(Keys(base) + ([name] + rest)) ==>
              Keys(out) == Keys(base) + ([name] + rest)
  {
    AssignElems(base, name, v);
    ElemsAppend([name], rest);
    if NoDuplicates(Keys(base) + ([name] + rest)) {
      AssignDistinct(base, name, v, rest);
    }
  }

  lemma NoFieldsNoKeys()
    ensures Keys([]) == []
    ensures Elems([]) == {}
  {
  }

  /** The value is an object whose keys are exactly the names of `recs`. */
  predicate ObjectOver(j: Json, recs: seq<PropertyRecord>) {
    j.JObject? && Elems(Keys(j.fields)) == Elems(RecordNames(recs))
  }

  /**
   * `generateExampleJSON(properties, base)`: assigns an example value for
   * each record to `base` in order. `bound` is a ghost position: every
   * reference the records reach sits below it, which is what makes the
   * recursion through the reference table terminate.
   */
  function Fill(props: seq<PropertyRecord>, base: seq<Field>, t: Tables, ph: Placeholders, ghost bound: nat)
    : (r: Result<seq<Field>, Fault>)
    requires bound <= |t.references|
    requires Stratified(t.references)
    requires ResolvesBelow(props, t.references, bound)
    ensures r.Success? ==> Elems(Keys(r.value)) == Elems(Keys(base)) + Elems(RecordNames(props))
    ensures r.Success? && NoDuplicates(Keys(base) + RecordNames(props)) ==>
              Keys(r.value) == Keys(base) + RecordNames(props)
    ensures r.Success? ==> forall k | k !in RecordNames(props) :: Get(r.value, k) == Get(base, k)
    ensures r.Failure? ==> EmptyEnumNamed(t.enums, r.error.name)
    ensures EnumsInhabited(t.enums) ==> r.Success?
    decreases bound, RecordListSize(props), 1
  {
    if |props| == 0 then
      Success(base)
    else
      RecordListSizeSplit(props);
      var v :- Example(props[0], t, ph, bound);
      var r := Fill(props[1..], Assign(base, props[0].name, v), t, ph, bound);
      assert RecordNames(props) == [props[0].name] + RecordNames(props[1..]);
      FillStepKeys(base, props[0].name, v, RecordNames(props[1..]), if r.Success? then r.value else []);
      r
  }

  /**
   * The example value of one record, in the source's order of tests:
   * a known object reference, then a known enum, then the type name.
   */
  function Example(p: PropertyRecord, t: Tables, ph: Placeholders, ghost bound: nat): (r: Result<Json, Fault>)
    requires bound <= |t.references|
    requires Stratified(t.references)
    requires RecordResolvesBelow(p, t.references, bound)
    ensures FindReference(p.typeName, t.references).Some? && r.Success? ==>
              ObjectOver(r.value, t.references[FindReference(p.typeName, t.references).value].properties)
    ensures FindReference(p.typeName, t.references).None? && FindEnum(p.typeName, t.enums).Some? ==>
              var members := t.enums[FindEnum(p.typeName, t.enums).value].members;
              r == if |members| == 0 then Failure(EmptyEnum(p.typeName)) else Success(JNumber(members[0].value))
    ensures FindReference(p.typeName, t.references).None? && FindEnum(p.typeName, t.enums).None? ==>
              && (p.typeName == "string" ==>
                    r == Success(JString(if p.placeholder != "" then p.placeholder else ph.str)))
              && (p.typeName == "boolean" ==> r == Success(JBool(ph.boolean)))
              && (p.typeName == "number" ==> r == Success(JNumber(ph.number)))
              && (p.typeName == "Object" && r.Success? ==> ObjectOver(r.value, p.properties))
              && (p.typeName == "Array" && r.Success? ==>
                    r.value.JArray? && |r.value.items| == 1 && ObjectOver(r.value.items[0], p.properties))
              && (p.typeName !in {"string", "boolean", "number", "Object", "Array"} ==>
                    r == Success(JString("TODO: " + p.typeName)))
    ensures r.Failure? ==> EmptyEnumNamed(t.enums, r.error.name)
    ensures EnumsInhabited(t.enums) ==> r.Success?
    decreases bound, RecordSize(p), 0
  {
    match FindReference(p.typeName, t.references)
    case Some(i) =>
      var fields :- Fill(t.references[i].properties, [], t, ph, i);
      Success(JObject(fields))
    case None =>
      match FindEnum(p.typeName, t.enums)
      case Some(j) =>
        var members := t.enums[j].members;
        if |members| == 0 then Failure(EmptyEnum(p.typeName)) else Success(JNumber(members[0].value))
      case None =>
        if p.typeName == "string" then
          Success(JString(if p.placeholder != "" then p.placeholder else ph.str))
        else if p.typeName == "boolean" then
          Success(JBool(ph.boolean))
        else if p.typeName == "number" then
          Success(JNumber(ph.number))
        else if p.typeName == "Object" then
          var fields :- Fill(p.properties, [], t, ph, bound);
          Success(JObject(fields))
        else if p.typeName == "Array" then
          var fields :- Fill(p.properties, [], t, ph, bound);
          Success(JArray([JObject(fields)]))
        else
          Success(JString("TODO: " + p.typeName))
  }

  /**
   * Every record whose name no later record reuses holds its own example
   * value in `fields`. A repeated name is written again by the later record,
   * and the later write wins, as repeated `base[name] = …` assignments do.
   */
  predicate HoldsExamples(fields: seq<Field>, props: seq<PropertyRecord>, t: Tables, ph: Placeholders, bound: nat)
    requires bound <= |t.references| && Stratified(t.references)
  {
    && ResolvesBelow(props, t.references, bound)
    && (ResolvesBelowEach(props, t.references, bound);
        forall i | 0 <= i < |props| && props[i].name !in RecordNames(props[i + 1..]) ::
          && Example(props[i], t, ph, bound).Success?
          && Get(fields, props[i].name) == Some(Example(props[i], t, ph, bound).value))
  }

  /** `generateExampleJSON(properties, base)` stores under each record's name that record's example. */
  lemma {:induction false} FillValues(props: seq<PropertyRecord>, base: seq<Field>, t: Tables, ph: Placeholders, bound: nat)
    requires bound <= |t.references| && Stratified(t.references)
    requires ResolvesBelow(props, t.references, bound)
    ensures Fill(props, base, t, ph, bound).Success? ==>
              HoldsExamples(Fill(props, base, t, ph, bound).value, props, t, ph, bound)
    decreases |props|
  {
    if |props| > 0 && Fill(props, base, t, ph, bound).Success? {
      RecordListSizeSplit(props);
      var v := Example(props[0], t, ph, bound).value;
      var base1 := Assign(base, props[0].name, v);
      var r := Fill(props[1..], base1, t, ph, bound);
      assert Fill(props, base, t, ph, bound) == r;
      FillValues(props[1..], base1, t, ph, bound);
      ResolvesBelowEach(props, t.references, bound);
      forall i | 0 <= i < |props| && props[i].name !in RecordNames(props[i + 1..])
        ensures Example(props[i], t, ph, bound).Success?
        ensures Get(r.value, props[i].name) == Some(Example(props[i], t, ph, bound).value)
      {
        if i == 0 {
          assert props[i + 1..] == props[1..];
        } else {
          assert props[i] == props[1..][i - 1];
          assert props[i + 1..] == props[1..][i..];
        }
      }
    }
  }

  /**
   * The nested objects `generateExampleJSON` builds hold their records'
   * examples too: the entry's records for an interface reference, the
   * record's own children for `Object` and for the one element of `Array`.
   */
  lemma ExampleValues(p: PropertyRecord, t: Tables, ph: Placeholders, bound: nat)
    requires bound <= |t.references| && Stratified(t.references)
    requires RecordResolvesBelow(p, t.references, bound)
    ensures Example(p, t, ph, bound).Success? && FindReference(p.typeName, t.references).Some? ==>
              && Example(p, t, ph, bound).value.JObject?
              && HoldsExamples(Example(p, t, ph, bound).value.fields,
                               t.references[FindReference(p.typeName, t.references).value].properties,
                               t, ph, FindReference(p.typeName, t.references).value)
    ensures Example(p, t, ph, bound).Success? && FindReference(p.typeName, t.references).None? &&
            FindEnum(p.typeName, t.enums).None? && p.typeName == "Object" ==>
              && Example(p, t, ph, bound).value.JObject?
              && HoldsExamples(Example(p, t, ph, bound).value.fields, p.properties, t, ph, bound)
    ensures Example(p, t, ph, bound).Success? && FindReference(p.typeName, t.references).None? &&
            FindEnum(p.typeName, t.enums).None? && p.typeName == "Array" ==>
              && Example(p, t, ph, bound).value.JArray?
              && |Example(p, t, ph, bound).value.items| == 1
              && Example(p, t, ph, bound).value.items[0].JObject?
              && HoldsExamples(Example(p, t, ph, bound).value.items[0].fields, p.properties, t, ph, bound)
  {
    match FindReference(p.typeName, t.references)
    case Some(k) =>
      FillValues(t.references[k].properties, [], t, ph, k);
    case None =>
      FillValues(p.properties, [], t, ph, bound);
  }

  /** `generateExampleJSON(properties, {})` at the top level of a block. */
  function ExampleData(props: seq<PropertyRecord>, t: Tables, ph: Placeholders): (r: Result<seq<Field>, Fault>)
    requires Stratified(t.references)
    ensures r.Success? ==> Elems(Keys(r.value)) == Elems(RecordNames(props))
    ensures r.Success? && NoDuplicates(RecordNames(props)) ==> Keys(r.value) == RecordNames(props)
    ensures r.Success? ==> HoldsExamples(r.value, props, t, ph, |t.references|)
    ensures r.Failure? ==> EmptyEnumNamed(t.enums, r.error.name)
    ensures EnumsInhabited(t.enums) ==> r.Success?
  {
    ResolvesBelowLength(props, t.references);
    var r := Fill(props, [], t, ph, |t.references|);
    NoFieldsNoKeys();
    FillValues(props, [], t, ph, |t.references|);
    r
  }

  /**
   * The block's example object `{[exampleBlockIdLabel]: blockId, data: …}`:
   * a label of "data" names the same key twice, and the later value wins.
   */
  function Wrap(idLabel: string, blockId: string, data: seq<Field>): (r: Json)
    ensures r.JObject?
    ensures idLabel != "data" ==> Keys(r.fields) == [idLabel, "data"]
    ensures idLabel == "data" ==> Keys(r.fields) == ["data"]
    ensures Get(r.fields, "data") == Some(JObject(data))
    ensures idLabel != "data" ==> Get(r.fields, idLabel) == Some(JString(blockId))
  {
    JObject(Assign(Assign([], idLabel, JString(blockId)), "data", JObject(data)))
  }
}
