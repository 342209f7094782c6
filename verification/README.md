# block-documentation, modelled in Dafny

`block-documentation` (larsvanbraam) generates documentation data for UI blocks.
Every block directory holds a TypeScript options interface. A parser turns that
interface into type descriptors. `index.js` flattens the descriptors into
property records and collects every named interface and enum it meets in two
run-wide tables, `references` and `enums`. It then synthesizes one example
JSON value per block and writes everything to one `data.json`.

This project models the engine of `index.js` as pure functions over immutable
data:

- **Doc-comment lookup.** `getDocComment` is in `DocComments`. It finds the
  first comment line that mentions a tag and removes the first `tag + " "` from
  it. The string helpers it uses (`indexOf`, first-occurrence `replace`,
  `split`/`join` on one character) are in `Strings`.
- **Raw descriptors.** The parser's output is in `Typhen`: `RawType`, `RawProp`
  and `RawMember`, where an absent list is `Missing` or `None`. This module also
  holds the shape tests `getType` applies.
- **Records and tables.** `Records` holds the flattened records, the two tables
  (`Tables`, threaded explicitly instead of the module-level `result`),
  `hasReference` as a first-match lookup, and the "resolves only to earlier
  entries" discipline that makes synthesis terminate.
- **Flattening.** `Flattening` covers `parseProperties`, `parseProperty`,
  `getType`, `parseObjectReference` and `parseEnumReference`, with
  `Describes`/`DescribesAll` stating what a record says about its declaration.
  `FlatteningLemmas` states what the `@ignore` filter keeps.
- **Registration.** `Registration` covers first-wins registration, name
  uniqueness, enums keeping a member, and the proof that the tables a run builds
  are stratified.
- **Example synthesis.** `generateExampleJSON` is in `Examples`. Its JSON
  objects are ordered key/value lists, and assigning to an existing key keeps
  that key's position.
- **A whole run.** `Generation` covers `generate` over a fresh module state:
  - the `Object.assign` merge;
  - the empty input/output guard;
  - the block id;
  - the interface file name with its `{blockId}` substitution;
  - the block loop (flatten, reverse once, synthesize, wrap as
    `{[exampleBlockIdLabel]: blockId, data}`).
- **The worked example.** `Scenario` takes the repository's `block-dummy` block
  through the whole run and proves it produces the output `test/test.js`
  expects.

Three external pieces are function parameters:
- the parser, which maps an interface path to a descriptor list;
- the `camelcase` library;
- the `uppercamelcase` library.

The list of block directories is a parameter as well.

An enum whose members are all `@ignore`d makes the source throw at
`reference.properties[0].value`. The model reports this as
`Thrown(EmptyEnum(name))`.

Synthesis follows references from record to table entry. The model proves it
terminates under two hypotheses about the descriptors of one run, both stated in
`Typhen`:
- `RegistrationByName`: whether a type is registered as an interface depends
  only on its name;
- for unique names, `NoSelfNesting`: no interface nests a descriptor of its own
  name.

`Registration.ConsistentMeetsHypotheses` derives both from `Consistent`, which
says one descriptor per interface name, as a parser that resolves declarations
produces.

Behaviour of index.js worth noting:
- A property whose type is a named interface gets no child records. The
  interface's properties go only into its `references` entry
  (index.js:229-236). The expected output in `test/test.js:22-29` shows
  `"properties": []` for `image`.
- Registration appends an entry only after its properties have been flattened
  (index.js:328-340). So the "already registered" test does not stop a
  self-referential interface from recursing. The model does not claim any
  cycle breaking: its descriptors are finite trees.
- `index.js` has no string-literal-union table, no `@rawName` tag, no
  file-list input and no data-only mode, so none of these are modelled.

## Model

| member | source | states |
|---|---|---|
| Strings.IndexOf | index.js:262 | `indexOf` is -1 exactly when the pattern occurs nowhere; otherwise the pattern occurs at the result and at no earlier position |
| Strings.IndexOfZeroIsPrefix | index.js:281 | the interface-name test `rawName.indexOf('I') === 0` holds exactly when the name starts with `I` |
| Strings.ReplaceFirst | index.js:264 | a string without the pattern is returned unchanged; otherwise the result is the pattern's length shorter and the replacement's length longer |
| Strings.ReplaceFirstAtFirstOccurrence | index.js:264 | `replace` with a string pattern rewrites only the first occurrence and keeps the text before and after it |
| Strings.ReplaceFirstPrefix | index.js:264 | a line that starts with `tag + " "` loses exactly that prefix |
| Strings.ReplaceFirstBetween | index.js:430 | replacing a pattern that first occurs right after a prefix yields prefix + replacement + suffix |
| Strings.Split | index.js:418 | `split` on one character yields at least one part, and no part contains the separator |
| Strings.Join | index.js:418 | joining no parts gives "", one part gives that part, and more parts start with the first part followed by the separator |
| Strings.JoinSplit | index.js:418 | joining the parts of a split with the same character restores the string |
| Strings.SplitJoin | index.js:418 | splitting a join of separator-free parts gives the parts back |
| Strings.SplitNoSeparator | index.js:418 | a string without the separator splits into itself alone |
| Strings.SplitPrefix | index.js:418 | the text before the first separator is the first part, and the rest splits on its own |
| DocComments.FirstTaggedLine | index.js:260-266 | the loop stops at the first line that mentions the tag, and finds none exactly when no line mentions it |
| DocComments.GetDocComment | index.js:256-271 | a missing or non-array comment yields "", as does one with no line mentioning the tag; otherwise the result is the first such line with its first `tag + " "` removed |
| DocComments.LookupReadsFirstTaggedLine | index.js:260-266 | the lookup reads the first line mentioning the tag, and only that line |
| DocComments.TaggedLineYieldsText | index.js:260-266 | a first tagged line written `tag text` yields exactly `text` |
| DocComments.EmptyLookupIff | index.js:256-271 | the lookup is "" exactly when no line mentions the tag or when the first one that does is the bare `tag + " "` |
| DocComments.IsIgnored | index.js:209-213 | a property without a doc comment is never skipped; one with a comment is skipped exactly when some line mentions `@ignore` and the first such line is not the bare `@ignore ` |
| Typhen.RegistersObjectIff | index.js:281 | `getType` treats a descriptor as an interface exactly when it has properties and its name starts with `I` |
| Typhen.ChildProperties | index.js:227-236 | only `Array` (via the element type) and anonymous (`''`) descriptors have a child list; every other name has none |
| Records.FindName | index.js:307-313 | `array.find` by name finds nothing exactly when the name is absent, and otherwise returns the first entry of that name |
| Records.FindReference | index.js:108 | `hasReference(type, result.references)` finds nothing exactly when no entry has that name, and otherwise the first entry of that name |
| Records.FindEnum | index.js:115 | `hasReference(type, result.enums)` finds nothing exactly when no enum entry has that name, and otherwise the first enum entry of that name |
| Records.FindNameStable | index.js:307-313 | a lookup that succeeds keeps its answer when entries are appended to the table |
| Records.Reverse | index.js:67 | `.reverse()` keeps the length and puts element `i` at position `n - 1 - i` |
| Flattening.DefaultValue | index.js:242 | the default value is never empty: it is the `@defaultValue` text, or `"null"` when that text is empty |
| Flattening.Kept | index.js:207-214 | the `@ignore` filter never yields more properties than it is given |
| Flattening.KeptMembers | index.js:359-369 | the enum-member filter never yields more members than it is given |
| Flattening.ParseProperties | index.js:196-218 | the tables only grow, and the records describe, one to one and in order, the declared properties the `@ignore` filter keeps; an absent list yields none |
| Flattening.ParseList | index.js:207-214 | the `forEach` loop yields one describing record per kept property, in declaration order, and only appends to the tables |
| Flattening.ParseProperty | index.js:225-247 | the record carries the raw name, the `getType` string, `required == !isOptional`, the three doc-comment texts and the flattened children; a named non-`Array` type gets no children; a registering type's name is in its table afterwards |
| Flattening.TypeName | index.js:290-298 | the type string is never empty: it is the raw name, or `Object` when the raw name is empty |
| Flattening.GetType | index.js:279-299 | the type string is `Object` exactly for the empty raw name and the raw name otherwise; an interface is registered in `references`; otherwise an enum is registered in `enums` with `references` unchanged; anything else leaves both tables unchanged |
| Flattening.ParseObjectReference | index.js:320-342 | a known name or an absent list leaves the tables unchanged; otherwise the tables only grow and end with one entry of that name whose records describe the kept properties |
| Flattening.ParseEnumReference | index.js:351-376 | `references` never changes; a known name or absent members changes nothing; otherwise exactly one entry holding the kept members is appended |
| FlatteningLemmas.KeptOnlyUnignored | index.js:209-213 | every kept property has an empty `@ignore` lookup |
| FlatteningLemmas.KeptAllUnignored | index.js:209-213 | every property with an empty `@ignore` lookup is kept |
| FlatteningLemmas.KeptIff | index.js:207-214 | a declared property is kept exactly when its `@ignore` lookup is empty |
| FlatteningLemmas.KeptAppend | index.js:207-214 | the filter distributes over concatenation, so it keeps declaration order |
| FlatteningLemmas.KeptIdempotent | index.js:207-214 | filtering an already filtered list changes nothing |
| FlatteningLemmas.KeptMembersAppend | index.js:359-369 | the member filter distributes over concatenation, one member at a time, so it keeps declaration order |
| FlatteningLemmas.AllIgnoredMembers | index.js:359-374 | an enum whose members are all ignored is registered with no members |
| FlatteningLemmas.NoChildrenUnlessArrayOrObject | index.js:229-245 | a record describing a property of a named, non-`Array` type has no child records |
| FlatteningLemmas.DescribesUnique | index.js:225-247 | a declaration determines its record: two records that describe it are equal |
| Registration.ObjectRegistrationIdempotent | index.js:320-342 | registering an interface name a second time changes nothing, whatever the second property list holds |
| Registration.EnumRegistrationIdempotent | index.js:351-376 | registering an enum name a second time changes nothing, whatever the second member list holds |
| Registration.NamesFromProperties | index.js:196-247 | the only reference names flattening adds belong to interface descriptors reachable from the flattened list |
| Registration.VisitedRegistered | index.js:207-236 | flattening registers every name it hands to `getType` that qualifies: each kept property's interface (in `references`) or enum (in `enums`), and those met in `Array` element and anonymous-object child lists, is in the tables afterwards, whether new or already there |
| Registration.UniqueAfterProperties | index.js:320-376 | when no interface nests its own name, flattening keeps both tables free of duplicate names |
| Registration.SelfNestingRepeatsName | index.js:320-340 | the no-self-nesting hypothesis is needed: an `IFoo` property whose `IFoo` type has a child of an empty `IFoo` type registers the inner `IFoo` and then appends the outer one, so the reference table holds `IFoo` twice |
| Registration.UniqueAfterType | index.js:279-299 | `getType` keeps both tables free of duplicate names under the same hypothesis |
| Registration.InhabitedAfterProperties | index.js:351-376 | when every reachable enum keeps a member, flattening registers no empty enum |
| Registration.SettleProperties | index.js:320-342 | when registration depends only on the name, flattening keeps every table entry resolving to earlier entries only |
| Registration.SettledIsStratified | index.js:328-340 | a table built that way is stratified: following a reference always moves to an earlier entry |
| Registration.ConsistentMeetsHypotheses | index.js:281-288 | one descriptor per interface name implies both registration-by-name and no self-nesting |
| Examples.Get | index.js:108-160 | reading a key of an example object finds nothing exactly when the key is absent |
| Examples.Assign | index.js:113-159 | `base[name] = v` keeps an existing key in place and appends a new one; the key then reads `v` and every other key reads as before |
| Examples.Example | index.js:106-162 | an interface reference comes first and yields an object over the entry's records; then an enum yields its first member's value, or fails when it has none; then `string` yields the placeholder or the configured string, `boolean`/`number` yield their defaults, `Object` yields an object over its children, `Array` yields a one-element list of such an object, and any other name yields `"TODO: " + name` |
| Examples.Fill | index.js:102-167 | the result's keys are the base's keys plus the record names, and in order when those are distinct; keys not named by a record keep their base value; it fails only on an empty enum, and never when every enum has a member |
| Examples.FillValues | index.js:102-167 | after a successful fill, every record whose name no later record reuses holds, under its name, its own example value; a reused name holds the later record's value, as the later assignment wins |
| Examples.ExampleValues | index.js:108-156 | an interface reference yields an object holding the examples of the entry's records; an `Object` yields an object holding its children's examples; an `Array` yields a one-element list whose object holds its children's examples |
| Examples.ExampleData | index.js:76 | the block's data object has exactly the record names as keys, in record order when distinct, and each name holds its record's example; it fails only on an empty enum |
| Examples.Wrap | index.js:74-77 | the example object holds the label bound to the block id and `data` bound to the data; a label `data` leaves a single `data` key holding the data |
| Generation.Merge | index.js:50 | no options leave the configuration unchanged; a given input or output path replaces the default |
| Generation.MergeIdempotent | index.js:50 | assigning the same options twice is assigning them once |
| Generation.DropFirstSegment | index.js:418 | `split('-').slice(1).join('-')` is what follows the first hyphen, or "" when there is none |
| Generation.BlockId | index.js:416-419 | the block id is camelCase of what follows the directory's first hyphen, or camelCase of "" when there is no hyphen |
| Generation.InterfaceFileName | index.js:430 | a pattern without `{blockId}` is the file name as it stands; otherwise its first `{blockId}` is replaced by upperCamelCase of the directory and the text around it is kept |
| Generation.InterfacePath | index.js:427-433 | the path starts with the input folder; with the default pattern it is `input + dir + "/I" + upperCamelCase(dir) + "Options.ts"` |
| Generation.Declared | index.js:175-187 | with the default pattern, the parser reads `input + dir + "/I" + upperCamelCase(dir) + "Options.ts"` |
| Generation.DefaultInterfaceFileName | index.js:430 | with the default pattern `I{blockId}Options.ts`, block `dir` reads `I` + upperCamelCase(dir) + `Options.ts` |
| Generation.FileNameWithoutToken | index.js:430 | a pattern without `{blockId}` names the same file for every block |
| Generation.ReversedDescriptions | index.js:67 | after the single top-level reverse, record `j` describes declaration `n - 1 - j` |
| Generation.SynthesizeBlock | index.js:74-77 | the block entry keeps the id and the records, and its example wraps data that holds each record's example under its name; it fails only on an empty enum |
| Generation.BuildBlock | index.js:65-78 | a built block has the block id, one record per kept declaration in reverse order, and an example whose `data` holds each record's example over the tables as they stand after this block's flattening; the tables left are those of this block's flattening, and they only grow and stay stratified, duplicate-free and enum-inhabited under their hypotheses; a failure names a member-less enum that this flattening registered |
| Generation.LoopBlocks | index.js:64-79 | the loop's blocks describe their directories in order, each example holding its records' examples over the tables as they stood once that block was flattened |
| Generation.LoopTables | index.js:64-79 | the loop leaves exactly the tables of flattening every directory in turn, and fails only on a member-less enum those flattenings register |
| Generation.LoopSucceeds | index.js:115-120 | the loop never fails when every reachable enum keeps a member |
| Generation.RunTables | index.js:64-79 | the tables of a whole run are settled, duplicate-free under no self-nesting, and enum-inhabited when every reachable enum keeps a member |
| Generation.BuildBlocks | index.js:64-79 | one block per directory, in directory order, each as `BuildBlock` states; the tables left are exactly those of flattening every directory in turn from the starting tables; each block's example data holds its records' examples over the tables as they stood once that block was flattened; a failure names a member-less enum those flattenings register |
| Generation.Generate | index.js:47-79 | the run stops before parsing exactly when the merged input or output is empty; otherwise it writes `output + jsonFile` with one block per directory, each block's example data holding its records' examples, the tables of flattening every directory in turn from empty tables, and a stratified reference table, duplicate-free under no self-nesting, and it never throws when every reachable enum keeps a member; a throw names a member-less enum the run registered |
| Scenario.IdIsIgnored | example/input/block-dummy/IBlockDummyOptions.ts:6-11 | the bare `@ignore` line drops `id` |
| Scenario.DescriptionOnly | example/input/block-dummy/IBlockDummyOptions.ts:19-28 | a comment with only `@property` and a description keeps the property and yields that description, with "" for the default value and placeholder |
| Scenario.HeaderDefaultValue | example/input/block-dummy/IBlockDummyOptions.ts:15 | the header's `@defaultValue` line yields the expected default text |
| Scenario.HeaderPlaceholderValue | example/input/block-dummy/IBlockDummyOptions.ts:16 | the header's `@placeholder` line yields the expected placeholder |
| Scenario.UrlPlaceholderValue | example/input/block-dummy/interface/IImage.ts:3-8 | the `url` placeholder is `path/to/image.jpg` |
| Scenario.DummyFlattened | test/test.js:9-73 | flattening the dummy interface yields header, image, theme (no `id`), with one `IImage` and one `Theme` entry |
| Scenario.DummyExample | test/test.js:40 | the dummy block's data is `{theme: 0, image: {url: "path/to/image.jpg"}, header: "This is a defined placeholder value"}` |
| Scenario.DummyBlockId | test/test.js:10 | directory `block-dummy` has block id `dummy` |
| Scenario.DummyDeclared | index.js:427-433 | with the default pattern and `BlockDummy` as uppercamelcase of `block-dummy`, the interface read is `./example/input/block-dummy/IBlockDummyOptions.ts` |
| Scenario.DummyBuildBlock | test/test.js:9-41 | the dummy block is built with records theme, image, header and the expected example |
| Scenario.DummyRun | test/test.js:7-89 | the run with input `./example/input/` and output `./example/output/` writes `./example/output/data.json` with exactly the expected blocks, references and enums |

## Left out

- `typhen.parse` and the `types[0]` / `.type.properties` selection (index.js:181-185) are a foreign parser. The model's `parse` parameter maps an interface path straight to the descriptor list.
- `getDirectories`, `prepareOutputDirectory`, `fs.outputJsonSync` and the console messages (index.js:55, 69, 81-95, 383-407) are file-system and console work. The directory list is a parameter, and a successful run is reported as the `Written(file, output)` value.
- `JSON.stringify(…, null, 4)` (index.js:74-77) is text formatting. The example is kept as a JSON value.
- The `camelcase` and `uppercamelcase` libraries (index.js:418, 430) are parameters, not modelled. The scenario uses the identity for `camelcase`, which leaves the lower-case word `dummy` as it is, and for `uppercamelcase` a function that maps `block-dummy` to `BlockDummy`, as that library does.
- The module-level `config` and `result` persist across calls of `generate` (index.js:23-41, 50). The model covers one run from the default configuration and empty tables.
- A self-referential interface makes the source recurse without end, because registration happens after the children are parsed. Descriptors here are finite trees, so such input cannot be expressed.
- Examples.Fill: synthesis requires stratified tables, so it does not model the source's non-termination on reference cycles. `Generation.Generate` proves this requirement holds whenever registration depends only on the type name.
- Registration.UniqueAfterProperties: name uniqueness is proved only when no interface nests a descriptor of its own name. Without that, a finite tree can register an inner same-named interface first, and the outer one is then appended again. `Registration.SelfNestingRepeatsName` exhibits such a tree.
- A descriptor named `Array` without an element type makes the source throw a TypeError at index.js:231. `WellShapedType` excludes it, because the parser always supplies the element type.
- JS numbers are modelled as `int`: enum values and the `number` placeholder carry no fractions and no floating-point behaviour.
- Example objects are ordered key lists. JS puts integer-like keys first and treats `__proto__` specially; neither is modelled.
- `$` patterns in the replacement string of `replace` (index.js:264, 430) are not interpreted. The replacements used are "" and a converted directory name.
- Options: an absent field is `None`, and `Object.assign` leaves that field as it was. An options object that holds `input: undefined` explicitly is not expressible. `Object.assign` copies that `undefined` over the default (index.js:50), and `config.input.length` then throws a TypeError (index.js:53).
- Generation.Merge: `placeholderValues` is replaced as a whole, as `Object.assign` does. The contract states only the no-option case and the two path fields, which are what the guard reads. A partial `placeholderValues` object therefore leaves the missing fields `undefined` in the source, and `JSON.stringify` then drops the keys that read them; the model's placeholder record always has all three fields, so it does not model that case.
- Flattening.Kept: the contract states only that no more properties come out than go in. Which properties are kept, and in which order, is stated by `FlatteningLemmas.KeptIff` and `FlatteningLemmas.KeptAppend`.
- Flattening.KeptMembers: the contract states only that no more members come out than go in. `FlatteningLemmas.KeptMembersAppend` states that the filter works one member at a time in declaration order.
- The enum `Theme` declaration file of the example is not part of this model. Its members `LIGHT = 0` and `DARK = 1` are taken from the expected output in `test/test.js:59-73`.
- `test/index.js`, `example/index.js` and `tasks/generate-block-documentation.js` are a preview server and a build-tool wrapper, not part of the engine.
