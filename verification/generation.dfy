/**
 * One run of `generate`: the configuration merge, the empty-path guard,
 * the block id and interface file name derived from a block directory,
 * and the per-block assembly (flatten, reverse once, synthesize the
 * example, wrap it) over the shared reference tables.
 *
 * The parser that turns an interface file into descriptors, and the two
 * case-conversion libraries, are parameters.
 */
module Generation {
  import opened Wrappers
  import opened Strings
  import opened Typhen
  import opened Records
  import opened Flattening
  import opened FlatteningLemmas
  import opened Registration
  import opened Examples

  datatype Config = Config(
    input: string,
    output: string,
    jsonFile: string,
    interfaceName: string,
    exampleBlockIdLabel: string,
    placeholderValues: Placeholders)

  const DefaultConfig := Config("", "", "data.json", "I{blockId}Options.ts", "componentId", DefaultPlaceholders)

  /** The options object handed to `generate`; an absent field is one the caller did not set. */
  datatype Options = Options(
    input: Option<string>,
    output: Option<string>,
    jsonFile: Option<string>,
    interfaceName: Option<string>,
    exampleBlockIdLabel: Option<string>,
    placeholderValues: Option<Placeholders>)

  const NoOptions := Options(None, None, None, None, None, None)

  function Pick<T>(given: Option<T>, current: T): T {
    match given
    case None => current
    case Some(v) => v
  }

  /**
   * `Object.assign(config, options)`: a shallow merge, so a given
   * `placeholderValues` replaces the whole default triple.
   */
  function Merge(cfg: Config, opts: Options): (r: Config)
    ensures opts == NoOptions ==> r == cfg
    ensures opts.input.Some? ==> r.input == opts.input.value
    ensures opts.output.Some? ==> r.output == opts.output.value
  {
    Config(
      Pick(opts.input, cfg.input),
      Pick(opts.output, cfg.output),
      Pick(opts.jsonFile, cfg.jsonFile),
      Pick(opts.interfaceName, cfg.interfaceName),
      Pick(opts.exampleBlockIdLabel, cfg.exampleBlockIdLabel),
      Pick(opts.placeholderValues, cfg.placeholderValues))
  }

  /** Applying the same options twice is applying them once. */
  lemma MergeIdempotent(cfg: Config, opts: Options)
    ensures Merge(Merge(cfg, opts), opts) == Merge(cfg, opts)
  {
  }

  // ---------------------------------------------------------------------------
  // Names derived from a block directory
  // ---------------------------------------------------------------------------

  /**
   * `blockDirectory.split('-').slice(1).join('-')`: what follows the first
   * hyphen, or nothing when there is none.
   */
  function DropFirstSegment(dir: string): (r: string)
    ensures '-' !in dir ==> r == ""
    ensures '-' in dir ==> r == dir[FirstIndexOfChar(dir, '-') + 1..]
  {
    if '-' in dir then
      var i := FirstIndexOfChar(dir, '-');
      assert dir == dir[..i] + ['-'] + dir[i + 1..];
      SplitPrefix(dir[..i], dir[i + 1..], '-');
      assert Split(dir, '-')[1..] == Split(dir[i + 1..], '-');
      JoinSplit(dir[i + 1..], '-');
      Join(Split(dir, '-')[1..], '-')
    else
      SplitNoSeparator(dir, '-');
      Join(Split(dir, '-')[1..], '-')
  }

  /** `blockDirectoryToBlockId`; `camelCase` stands for the library of that name. */
  function BlockId(dir: string, camelCase: string -> string): (r: string)
    ensures '-' !in dir ==> r == camelCase("")
    ensures '-' in dir ==> r == camelCase(dir[FirstIndexOfChar(dir, '-') + 1..])
  {
    camelCase(DropFirstSegment(dir))
  }

  const BlockIdToken := "{blockId}"

  /** The interface file name: the first `{blockId}` of the pattern replaced by the converted directory. */
  function InterfaceFileName(pattern: string, dir: string, upperCamelCase: string -> string): (r: string)
    ensures !Contains(pattern, BlockIdToken) ==> r == pattern
    ensures Contains(pattern, BlockIdToken) ==>
              var k := IndexOf(pattern, BlockIdToken);
              r == pattern[..k] + upperCamelCase(dir) + pattern[k + |BlockIdToken|..]
  {
    ReplaceFirst(pattern, BlockIdToken, upperCamelCase(dir))
  }

  /** `blockDirectoryToInterfacePath`. */
  function InterfacePath(cfg: Config, dir: string, upperCamelCase: string -> string): (r: string)
    ensures cfg.input <= r
    ensures cfg.interfaceName == DefaultConfig.interfaceName ==>
              r == cfg.input + dir + "/" + ("I" + upperCamelCase(dir) + "Options.ts")
  {
    DefaultInterfaceFileName(dir, upperCamelCase);
    cfg.input + dir + "/" + InterfaceFileName(cfg.interfaceName, dir, upperCamelCase)
  }

  /** With the default pattern a block `dir` reads its options from `I<Dir>Options.ts`. */
  lemma DefaultInterfaceFileName(dir: string, upperCamelCase: string -> string)
    ensures InterfaceFileName(DefaultConfig.interfaceName, dir, upperCamelCase)
            == "I" + upperCamelCase(dir) + "Options.ts"
  {
    var s := "I" + BlockIdToken + "Options.ts";
    assert DefaultConfig.interfaceName == s;
    assert !OccursAt(s, BlockIdToken, 0) by {
      assert s[0] == 'I' && BlockIdToken[0] == '{';
    }
    ReplaceFirstBetween("I", BlockIdToken, "Options.ts", upperCamelCase(dir));
  }

  /** A pattern without the token names the same file for every block. */
  lemma FileNameWithoutToken(pattern: string, dir: string, upperCamelCase: string -> string)
    requires !Contains(pattern, BlockIdToken)
    ensures InterfaceFileName(pattern, dir, upperCamelCase) == pattern
  {
  }

  // ---------------------------------------------------------------------------
  // Blocks
  // ---------------------------------------------------------------------------

  /** An entry of `result.blocks`; the example is kept as a value rather than as indented text. */
  datatype Block = Block(blockId: string, properties: seq<PropertyRecord>, example: Json)

  /** What the run writes to `output + jsonFile`. */
  datatype Output = Output(blocks: seq<Block>, references: seq<ObjectReference>, enums: seq<EnumReference>)

  datatype Outcome =
    | MissingPaths                        // the guard: nothing parsed, nothing written
    | Thrown(fault: Fault)                // an exception escapes `generate`
    | Written(file: string, output: Output)

  /** The descriptors the parser returns for a block's interface file. */
  function Declared(cfg: Config, dir: string, parse: string -> PropertyList, upperCamelCase: string -> string): (r: PropertyList)
    ensures cfg.interfaceName == DefaultConfig.interfaceName ==>
              r == parse(cfg.input + dir + "/" + ("I" + upperCamelCase(dir) + "Options.ts"))
  {
    parse(InterfacePath(cfg, dir, upperCamelCase))
  }

  /**
   * What an example object says: it holds the label and the synthesized
   * data, whose keys are the record names, in record order when those are
   * distinct.
   */
  predicate ExampleFor(ex: Json, idLabel: string, blockId: string, props: seq<PropertyRecord>) {
    && ex.JObject?
    && (idLabel != "data" ==> Keys(ex.fields) == [idLabel, "data"])
    && (idLabel != "data" ==> Get(ex.fields, idLabel) == Some(JString(blockId)))
    && (idLabel == "data" ==> Keys(ex.fields) == ["data"])
    && Get(ex.fields, "data").Some?
    && ObjectOver(Get(ex.fields, "data").value, props)
    && (NoDuplicates(RecordNames(props)) ==>
          Keys(Get(ex.fields, "data").value.fields) == RecordNames(props))
  }

  /**
   * What a block entry says about its directory: its id, its records (the
   * kept top-level declarations, last first, each described in full), and
   * its example object.
   */
  predicate BlockFor(blk: Block, cfg: Config, dir: string, parse: string -> PropertyList,
                     camelCase: string -> string, upperCamelCase: string -> string)
  {
    var declared := KeptOf(Declared(cfg, dir, parse, upperCamelCase));
    && blk.blockId == BlockId(dir, camelCase)
    && |blk.properties| == |declared|
    && (forall j | 0 <= j < |declared| :: Describes(blk.properties[j], declared[|declared| - 1 - j]))
    && ExampleFor(blk.example, cfg.exampleBlockIdLabel, blk.blockId, blk.properties)
  }

  /**
   * The example's `data` object holds, under each record's name, that
   * record's example computed over the tables `t`.
   */
  predicate DataHoldsExamples(ex: Json, props: seq<PropertyRecord>, t: Tables, ph: Placeholders) {
    && ex.JObject?
    && Get(ex.fields, "data").Some?
    && Get(ex.fields, "data").value.JObject?
    && Stratified(t.references)
    && HoldsExamples(Get(ex.fields, "data").value.fields, props, t, ph, |t.references|)
  }

  /**
   * Each block's example holds the examples computed over the tables as
   * they stand once that block has been flattened. The tables grow from
   * block to block, and a block's example sees what was registered up to
   * and including its own flattening.
   */
  predicate ExamplesAlongRun(blocks: seq<Block>, cfg: Config, dirs: seq<string>, parse: string -> PropertyList,
                             upperCamelCase: string -> string, st: Tables)
    requires forall i | 0 <= i < |dirs| :: WellShapedProperties(Declared(cfg, dirs[i], parse, upperCamelCase))
    decreases |dirs|
  {
    && |blocks| == |dirs|
    && (|dirs| == 0 ||
        var st1 := ParseProperties(Declared(cfg, dirs[0], parse, upperCamelCase), st).1;
        && DataHoldsExamples(blocks[0].example, blocks[0].properties, st1, cfg.placeholderValues)
        && ExamplesAlongRun(blocks[1..], cfg, dirs[1..], parse, upperCamelCase, st1))
  }

  /**
   * The tables once every directory has been flattened in turn, from `st`:
   * what the run leaves in `result.references` and `result.enums`.
   */
  function TablesAlongRun(cfg: Config, dirs: seq<string>, parse: string -> PropertyList,
                          upperCamelCase: string -> string, st: Tables): (r: Tables)
    requires forall i | 0 <= i < |dirs| :: WellShapedProperties(Declared(cfg, dirs[i], parse, upperCamelCase))
    ensures Extends(st, r)
    decreases |dirs|
  {
    if |dirs| == 0 then st
    else
      var st1 := ParseProperties(Declared(cfg, dirs[0], parse, upperCamelCase), st).1;
      var r := TablesAlongRun(cfg, dirs[1..], parse, upperCamelCase, st1);
      ExtendsTransitive(st, st1, r);
      r
  }

  /** An enum entry without members stays in a table that only grows. */
  lemma EmptyEnumKept(enums: seq<EnumReference>, more: seq<EnumReference>, name: string)
    requires enums <= more && EmptyEnumNamed(enums, name)
    ensures EmptyEnumNamed(more, name)
  {
    var j :| 0 <= j < |enums| && enums[j].name == name && |enums[j].members| == 0;
    assert more[j] == enums[j];
  }

  /** Wrapping synthesized data whose keys are the record names gives an example object. */
  lemma WrapIsExample(idLabel: string, blockId: string, data: seq<Field>, props: seq<PropertyRecord>)
    requires Elems(Keys(data)) == Elems(RecordNames(props))
    requires NoDuplicates(RecordNames(props)) ==> Keys(data) == RecordNames(props)
    ensures ExampleFor(Wrap(idLabel, blockId, data), idLabel, blockId, props)
  {
  }

  /** Wrapping data that holds the examples keeps them under `data`. */
  lemma WrapHoldsExamples(idLabel: string, blockId: string, data: seq<Field>, props: seq<PropertyRecord>,
                          t: Tables, ph: Placeholders)
    requires Stratified(t.references)
    requires HoldsExamples(data, props, t, ph, |t.references|)
    ensures DataHoldsExamples(Wrap(idLabel, blockId, data), props, t, ph)
  {
  }

  /** The reversed records describe the reversed declarations. */
  lemma ReversedDescriptions(recs: seq<PropertyRecord>, ps: seq<RawProp>)
    requires DescribesAll(recs, ps)
    ensures |Reverse(recs)| == |ps|
    ensures forall j | 0 <= j < |ps| :: Describes(Reverse(recs)[j], ps[|ps| - 1 - j])
  {
    DescribesAllPointwise(recs, ps);
  }

  /** The table facts a block's flattening keeps, each under its own hypothesis. */
  lemma TableFacts(declared: PropertyList, st: Tables, u: set<RawType>)
    requires WellShapedProperties(declared) && TypesOfProperties(declared) <= u
    ensures NoSelfNesting(u) && UniqueNames(st) ==> UniqueNames(ParseProperties(declared, st).1)
    ensures EnumsKeepAMember(u) && EnumsInhabited(st.enums) ==> EnumsInhabited(ParseProperties(declared, st).1.enums)
  {
    if NoSelfNesting(u) && UniqueNames(st) {
      UniqueAfterProperties(declared, st, u);
    }
    if EnumsKeepAMember(u) && EnumsInhabited(st.enums) {
      InhabitedAfterProperties(declared, st, u);
    }
  }

  /** The block entry for records `props` over tables `t`: its example wraps the synthesized data. */
  function SynthesizeBlock(cfg: Config, blockId: string, props: seq<PropertyRecord>, t: Tables): (r: Result<Block, Fault>)
    requires Stratified(t.references)
    ensures r.Success? ==> r.value.blockId == blockId && r.value.properties == props
    ensures r.Success? ==> ExampleFor(r.value.example, cfg.exampleBlockIdLabel, blockId, props)
    ensures r.Success? ==> DataHoldsExamples(r.value.example, props, t, cfg.placeholderValues)
    ensures r.Failure? ==> EmptyEnumNamed(t.enums, r.error.name)
    ensures EnumsInhabited(t.enums) ==> r.Success?
  {
    var data :- ExampleData(props, t, cfg.placeholderValues);
    WrapIsExample(cfg.exampleBlockIdLabel, blockId, data, props);
    WrapHoldsExamples(cfg.exampleBlockIdLabel, blockId, data, props, t, cfg.placeholderValues);
    Success(Block(blockId, props, Wrap(cfg.exampleBlockIdLabel, blockId, data)))
  }

  /** One iteration of the block loop: flatten, reverse once, synthesize, wrap. */
  function BuildBlock(cfg: Config, dir: string, parse: string -> PropertyList,
                      camelCase: string -> string, upperCamelCase: string -> string,
                      st: Tables, ghost u: set<RawType>): (r: Result<(Block, Tables), Fault>)
    requires WellShapedProperties(Declared(cfg, dir, parse, upperCamelCase))
    requires TypesOfProperties(Declared(cfg, dir, parse, upperCamelCase)) <= u
    requires RegistrationByName(u)
    requires SettledTable(st.references, u)
    ensures r.Success? ==> BlockFor(r.value.0, cfg, dir, parse, camelCase, upperCamelCase)
    ensures r.Success? ==> r.value.1 == ParseProperties(Declared(cfg, dir, parse, upperCamelCase), st).1
    ensures r.Failure? ==>
              EmptyEnumNamed(ParseProperties(Declared(cfg, dir, parse, upperCamelCase), st).1.enums, r.error.name)
    ensures r.Success? ==>
              DataHoldsExamples(r.value.0.example, r.value.0.properties, r.value.1, cfg.placeholderValues)
    ensures r.Success? ==> Extends(st, r.value.1) && SettledTable(r.value.1.references, u)
    ensures r.Success? && NoSelfNesting(u) && UniqueNames(st) ==> UniqueNames(r.value.1)
    ensures EnumsKeepAMember(u) && EnumsInhabited(st.enums) ==>
              r.Success? && EnumsInhabited(r.value.1.enums)
  {
    var declared := Declared(cfg, dir, parse, upperCamelCase);
    var (recs, st1) := ParseProperties(declared, st);
    SettleProperties(declared, st, u);
    SettledIsStratified(st1.references, u);
    TableFacts(declared, st, u);
    var blk :- SynthesizeBlock(cfg, BlockId(dir, camelCase), Reverse(recs), st1);
    BuiltBlockFor(cfg, dir, parse, camelCase, upperCamelCase, st, blk);
    Success((blk, st1))
  }

  /** A block whose id, records and example come from its directory's flattening describes that directory. */
  lemma BuiltBlockFor(cfg: Config, dir: string, parse: string -> PropertyList,
                      camelCase: string -> string, upperCamelCase: string -> string, st: Tables, blk: Block)
    requires WellShapedProperties(Declared(cfg, dir, parse, upperCamelCase))
    requires blk.blockId == BlockId(dir, camelCase)
    requires blk.properties == Reverse(ParseProperties(Declared(cfg, dir, parse, upperCamelCase), st).0)
    requires ExampleFor(blk.example, cfg.exampleBlockIdLabel, blk.blockId, blk.properties)
    ensures BlockFor(blk, cfg, dir, parse, camelCase, upperCamelCase)
  {
    var declared := Declared(cfg, dir, parse, upperCamelCase);
    ReversedDescriptions(ParseProperties(declared, st).0, KeptOf(declared));
  }

  /** The first block and the blocks of the remaining directories make up the blocks of the run. */
  lemma RunStep(cfg: Config, dirs: seq<string>, parse: string -> PropertyList,
                camelCase: string -> string, upperCamelCase: string -> string,
                st: Tables, blk: Block, rest: seq<Block>)
    requires |dirs| > 0
    requires forall i | 0 <= i < |dirs| :: WellShapedProperties(Declared(cfg, dirs[i], parse, upperCamelCase))
    requires BlockFor(blk, cfg, dirs[0], parse, camelCase, upperCamelCase)
    requires DataHoldsExamples(blk.example, blk.properties,
                               ParseProperties(Declared(cfg, dirs[0], parse, upperCamelCase), st).1,
                               cfg.placeholderValues)
    requires |rest| == |dirs| - 1
    requires forall i | 0 <= i < |rest| :: BlockFor(rest[i], cfg, dirs[1..][i], parse, camelCase, upperCamelCase)
    requires ExamplesAlongRun(rest, cfg, dirs[1..], parse, upperCamelCase,
                              ParseProperties(Declared(cfg, dirs[0], parse, upperCamelCase), st).1)
    ensures forall i | 0 <= i < |dirs| :: BlockFor(([blk] + rest)[i], cfg, dirs[i], parse, camelCase, upperCamelCase)
    ensures ExamplesAlongRun([blk] + rest, cfg, dirs, parse, upperCamelCase, st)
  {
    assert ([blk] + rest)[0] == blk && ([blk] + rest)[1..] == rest;
    forall i | 0 <= i < |dirs|
      ensures BlockFor(([blk] + rest)[i], cfg, dirs[i], parse, camelCase, upperCamelCase)
    {
      if i > 0 {
        assert ([blk] + rest)[i] == rest[i - 1] && dirs[i] == dirs[1..][i - 1];
      }
    }
  }

  /** The requirements every iteration of the block loop shares. */
  ghost predicate LoopReady(cfg: Config, dirs: seq<string>, parse: string -> PropertyList,
                            upperCamelCase: string -> string, st: Tables, u: set<RawType>)
  {
    && (forall i | 0 <= i < |dirs| :: WellShapedProperties(Declared(cfg, dirs[i], parse, upperCamelCase)))
    && (forall i | 0 <= i < |dirs| :: TypesOfProperties(Declared(cfg, dirs[i], parse, upperCamelCase)) <= u)
    && RegistrationByName(u)
    && SettledTable(st.references, u)
  }

  /** What one iteration leaves is ready for the next. */
  lemma LoopReadyTail(cfg: Config, dirs: seq<string>, parse: string -> PropertyList,
                      upperCamelCase: string -> string, st: Tables, u: set<RawType>)
    requires |dirs| > 0 && LoopReady(cfg, dirs, parse, upperCamelCase, st, u)
    ensures LoopReady(cfg, dirs[1..], parse, upperCamelCase,
                      ParseProperties(Declared(cfg, dirs[0], parse, upperCamelCase), st).1, u)
  {
    SettleProperties(Declared(cfg, dirs[0], parse, upperCamelCase), st, u);
    assert forall i | 0 <= i < |dirs| - 1 :: dirs[1..][i] == dirs[i + 1];
  }

  /** `blockDiretories.forEach(...)`: one block per directory, the tables threaded through. */
  function BlockLoop(cfg: Config, dirs: seq<string>, parse: string -> PropertyList,
                     camelCase: string -> string, upperCamelCase: string -> string,
                     st: Tables, ghost u: set<RawType>): (r: Result<(seq<Block>, Tables), Fault>)
    requires LoopReady(cfg, dirs, parse, upperCamelCase, st, u)
    ensures r.Success? ==> |r.value.0| == |dirs|
    decreases |dirs|
  {
    if |dirs| == 0 then
      Success(([], st))
    else
      var (blk, st1) :- BuildBlock(cfg, dirs[0], parse, camelCase, upperCamelCase, st, u);
      var (rest, st2) :- BlockLoop(cfg, dirs[1..], parse, camelCase, upperCamelCase, st1, u);
      Success(([blk] + rest, st2))
  }

  /** The loop's blocks describe their directories, in order, each example over its own tables. */
  lemma {:induction false} LoopBlocks(cfg: Config, dirs: seq<string>, parse: string -> PropertyList,
                                      camelCase: string -> string, upperCamelCase: string -> string,
                                      st: Tables, u: set<RawType>)
    requires LoopReady(cfg, dirs, parse, upperCamelCase, st, u)
    ensures BlockLoop(cfg, dirs, parse, camelCase, upperCamelCase, st, u).Success? ==>
              var blocks := BlockLoop(cfg, dirs, parse, camelCase, upperCamelCase, st, u).value.0;
              && (forall i | 0 <= i < |dirs| :: BlockFor(blocks[i], cfg, dirs[i], parse, camelCase, upperCamelCase))
              && ExamplesAlongRun(blocks, cfg, dirs, parse, upperCamelCase, st)
    decreases |dirs|
  {
    var r := BlockLoop(cfg, dirs, parse, camelCase, upperCamelCase, st, u);
    if |dirs| > 0 && r.Success? {
      LoopReadyTail(cfg, dirs, parse, upperCamelCase, st, u);
      var first := BuildBlock(cfg, dirs[0], parse, camelCase, upperCamelCase, st, u);
      var st1 := first.value.1;
      var next := BlockLoop(cfg, dirs[1..], parse, camelCase, upperCamelCase, st1, u);
      assert r.value.0 == [first.value.0] + next.value.0;
      LoopBlocks(cfg, dirs[1..], parse, camelCase, upperCamelCase, st1, u);
      RunStep(cfg, dirs, parse, camelCase, upperCamelCase, st, first.value.0, next.value.0);
    }
  }

  /**
   * The loop leaves the tables of every directory's flattening in turn, and
   * it fails only on an enum without members that those flattenings register.
   */
  lemma {:induction false} LoopTables(cfg: Config, dirs: seq<string>, parse: string -> PropertyList,
                                      camelCase: string -> string, upperCamelCase: string -> string,
                                      st: Tables, u: set<RawType>)
    requires LoopReady(cfg, dirs, parse, upperCamelCase, st, u)
    ensures BlockLoop(cfg, dirs, parse, camelCase, upperCamelCase, st, u).Success? ==>
              BlockLoop(cfg, dirs, parse, camelCase, upperCamelCase, st, u).value.1
              == TablesAlongRun(cfg, dirs, parse, upperCamelCase, st)
    ensures BlockLoop(cfg, dirs, parse, camelCase, upperCamelCase, st, u).Failure? ==>
              EmptyEnumNamed(TablesAlongRun(cfg, dirs, parse, upperCamelCase, st).enums,
                             BlockLoop(cfg, dirs, parse, camelCase, upperCamelCase, st, u).error.name)
    decreases |dirs|
  {
    if |dirs| > 0 {
      LoopReadyTail(cfg, dirs, parse, upperCamelCase, st, u);
      var first := BuildBlock(cfg, dirs[0], parse, camelCase, upperCamelCase, st, u);
      var st1 := ParseProperties(Declared(cfg, dirs[0], parse, upperCamelCase), st).1;
      if first.Failure? {
        EmptyEnumKept(st1.enums, TablesAlongRun(cfg, dirs[1..], parse, upperCamelCase, st1).enums, first.error.name);
      } else {
        LoopTables(cfg, dirs[1..], parse, camelCase, upperCamelCase, st1, u);
      }
    }
  }

  /** The loop cannot fail when every reachable enum keeps a member. */
  lemma {:induction false} LoopSucceeds(cfg: Config, dirs: seq<string>, parse: string -> PropertyList,
                                        camelCase: string -> string, upperCamelCase: string -> string,
                                        st: Tables, u: set<RawType>)
    requires LoopReady(cfg, dirs, parse, upperCamelCase, st, u)
    ensures EnumsKeepAMember(u) && EnumsInhabited(st.enums) ==>
              BlockLoop(cfg, dirs, parse, camelCase, upperCamelCase, st, u).Success?
    decreases |dirs|
  {
    if |dirs| > 0 && EnumsKeepAMember(u) && EnumsInhabited(st.enums) {
      LoopReadyTail(cfg, dirs, parse, upperCamelCase, st, u);
      var st1 := BuildBlock(cfg, dirs[0], parse, camelCase, upperCamelCase, st, u).value.1;
      LoopSucceeds(cfg, dirs[1..], parse, camelCase, upperCamelCase, st1, u);
    }
  }

  /** `blockDiretories.forEach(...)`: the blocks in directory order over one pair of tables. */
  function BuildBlocks(cfg: Config, dirs: seq<string>, parse: string -> PropertyList,
                       camelCase: string -> string, upperCamelCase: string -> string,
                       st: Tables, ghost u: set<RawType>): (r: Result<(seq<Block>, Tables), Fault>)
    requires forall i | 0 <= i < |dirs| :: WellShapedProperties(Declared(cfg, dirs[i], parse, upperCamelCase))
    requires forall i | 0 <= i < |dirs| :: TypesOfProperties(Declared(cfg, dirs[i], parse, upperCamelCase)) <= u
    requires RegistrationByName(u)
    requires SettledTable(st.references, u)
    ensures r.Success? ==> |r.value.0| == |dirs|
    ensures r.Success? ==>
              forall i | 0 <= i < |dirs| :: BlockFor(r.value.0[i], cfg, dirs[i], parse, camelCase, upperCamelCase)
    ensures r.Success? ==> ExamplesAlongRun(r.value.0, cfg, dirs, parse, upperCamelCase, st)
    ensures r.Success? ==> r.value.1 == TablesAlongRun(cfg, dirs, parse, upperCamelCase, st)
    ensures r.Failure? ==> EmptyEnumNamed(TablesAlongRun(cfg, dirs, parse, upperCamelCase, st).enums, r.error.name)
    ensures r.Success? ==> Extends(st, r.value.1) && SettledTable(r.value.1.references, u)
    ensures r.Success? && NoSelfNesting(u) && UniqueNames(st) ==> UniqueNames(r.value.1)
    ensures EnumsKeepAMember(u) && EnumsInhabited(st.enums) ==>
              r.Success? && EnumsInhabited(r.value.1.enums)
  {
    assert LoopReady(cfg, dirs, parse, upperCamelCase, st, u);
    LoopBlocks(cfg, dirs, parse, camelCase, upperCamelCase, st, u);
    LoopTables(cfg, dirs, parse, camelCase, upperCamelCase, st, u);
    RunTables(cfg, dirs, parse, upperCamelCase, st, u);
    LoopSucceeds(cfg, dirs, parse, camelCase, upperCamelCase, st, u);
    BlockLoop(cfg, dirs, parse, camelCase, upperCamelCase, st, u)
  }

  /** The table invariants each flattening keeps hold of the tables a whole run leaves. */
  lemma {:induction false} RunTables(cfg: Config, dirs: seq<string>, parse: string -> PropertyList,
                                     upperCamelCase: string -> string, st: Tables, u: set<RawType>)
    requires forall i | 0 <= i < |dirs| :: WellShapedProperties(Declared(cfg, dirs[i], parse, upperCamelCase))
    requires forall i | 0 <= i < |dirs| :: TypesOfProperties(Declared(cfg, dirs[i], parse, upperCamelCase)) <= u
    requires RegistrationByName(u)
    requires SettledTable(st.references, u)
    ensures SettledTable(TablesAlongRun(cfg, dirs, parse, upperCamelCase, st).references, u)
    ensures NoSelfNesting(u) && UniqueNames(st) ==> UniqueNames(TablesAlongRun(cfg, dirs, parse, upperCamelCase, st))
    ensures EnumsKeepAMember(u) && EnumsInhabited(st.enums) ==>
              EnumsInhabited(TablesAlongRun(cfg, dirs, parse, upperCamelCase, st).enums)
    decreases |dirs|
  {
    if |dirs| > 0 {
      var declared := Declared(cfg, dirs[0], parse, upperCamelCase);
      SettleProperties(declared, st, u);
      TableFacts(declared, st, u);
      RunTables(cfg, dirs[1..], parse, upperCamelCase, ParseProperties(declared, st).1, u);
    }
  }

  /** The tables a run starts from hold nothing, so every table invariant holds of them. */
  lemma FreshTables(u: set<RawType>)
    ensures SettledTable(EmptyTables.references, u)
    ensures UniqueNames(EmptyTables) && EnumsInhabited(EmptyTables.enums)
  {
  }

  /**
   * `generate(options)` on a fresh module state: the directories of the
   * input folder are `dirs`, and `parse` reads an interface file.
   */
  function Generate(opts: Options, dirs: seq<string>, parse: string -> PropertyList,
                    camelCase: string -> string, upperCamelCase: string -> string,
                    ghost u: set<RawType>): (r: Outcome)
    requires var cfg := Merge(DefaultConfig, opts);
      cfg.input != "" && cfg.output != "" ==>
        forall i | 0 <= i < |dirs| :: WellShapedProperties(Declared(cfg, dirs[i], parse, upperCamelCase))
    requires var cfg := Merge(DefaultConfig, opts);
      cfg.input != "" && cfg.output != "" ==>
        forall i | 0 <= i < |dirs| :: TypesOfProperties(Declared(cfg, dirs[i], parse, upperCamelCase)) <= u
    requires RegistrationByName(u)
    ensures r.MissingPaths? <==> Merge(DefaultConfig, opts).input == "" || Merge(DefaultConfig, opts).output == ""
    ensures r.Written? ==> r.file == Merge(DefaultConfig, opts).output + Merge(DefaultConfig, opts).jsonFile
    ensures r.Written? ==> |r.output.blocks| == |dirs|
    ensures r.Written? ==>
              forall i | 0 <= i < |dirs| ::
                BlockFor(r.output.blocks[i], Merge(DefaultConfig, opts), dirs[i], parse, camelCase, upperCamelCase)
    ensures r.Written? ==>
              ExamplesAlongRun(r.output.blocks, Merge(DefaultConfig, opts), dirs, parse, upperCamelCase, EmptyTables)
    ensures r.Written? ==>
              Tables(r.output.references, r.output.enums)
              == TablesAlongRun(Merge(DefaultConfig, opts), dirs, parse, upperCamelCase, EmptyTables)
    ensures r.Thrown? ==>
              EmptyEnumNamed(TablesAlongRun(Merge(DefaultConfig, opts), dirs, parse, upperCamelCase, EmptyTables).enums,
                             r.fault.name)
    ensures r.Written? ==> Stratified(r.output.references)
    ensures r.Written? && NoSelfNesting(u) ==>
              UniqueNames(Tables(r.output.references, r.output.enums))
    ensures EnumsKeepAMember(u) ==> !r.Thrown?
  {
    var cfg := Merge(DefaultConfig, opts);
    if cfg.input == "" || cfg.output == "" then
      MissingPaths
    else
      FreshTables(u);
      match BuildBlocks(cfg, dirs, parse, camelCase, upperCamelCase, EmptyTables, u)
      case Failure(e) => Thrown(e)
      case Success((blocks, t)) =>
        SettledIsStratified(t.references, u);
        assert Tables(t.references, t.enums) == t;
        Written(cfg.output + cfg.jsonFile, Output(blocks, t.references, t.enums))
  }
}
