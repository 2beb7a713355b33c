# portrait, modelled in Dafny

portrait fills in the missing members of a Rust trait implementation at
compile time. `#[portrait::make]` on a trait captures the trait's items inside
a generated `macro_rules!` template and sets up a companion `imports` module.
`#[portrait::fill(filler)]` on a partial `impl` block, or
`#[portrait::derive(Trait with filler)]` on a type, calls that template. The
template forwards the captured items, the filler's arguments and the impl
block (or the type) to a filler macro. The filler completes the
implementation by generating one item per missing trait member.

This project models that pipeline over abstract syntax. Every piece the
code inspects is a datatype:

- paths, types, expressions, patterns and attributes;
- trait items (constant, function, associated type, other);
- impl items, impl blocks and derive inputs (struct, enum, union);
- token trees with spans.

Larger syntax trees that the parsing library reads as one unit appear in a
token stream as one `NodeTok` leaf.

The modules follow the source files:

| module | models |
|---|---|
| `Syntax` | the shared syntax datatypes, `cfg` attribute filtering, comma-terminated lists |
| `Util` | `codegen/src/util.rs`: the set-once slot, the comma-separated argument loop, grouped `#[portrait(..)]` attributes, attribute stripping, span rewriting |
| `Naming` | the `snake_case + "_portrait"` companion-module naming used by make, fill and derive |
| `NoArgsParser` | `framework/src/no_args.rs` |
| `ItemMap` | `framework/src/item_map.rs`: per-kind indexes of trait and impl members and their difference, as classes whose methods update their maps |
| `ImplCompleter` | `framework/src/impl_completer.rs`: cloning the impl and appending one generated item per missing member |
| `DeriveCompleter` | `framework/src/derive_completer.rs`: building a fresh impl for a type |
| `ImplFiller`, `DeriveFiller` | the keyword-delimited readers of `framework/src/impl_filler.rs`, `framework/src/filler.rs` and `framework/src/derive_filler.rs` |
| `Make` | `codegen/src/make.rs`: argument parsing, import collection, import visibility and the template |
| `Fill`, `Derive` | `codegen/src/fill.rs` and `codegen/src/derive.rs` |
| `Transport` | the end-to-end round trip from the attribute macros through the template to the filler's reader |
| `DeriveDelegate` | `codegen/src/derive_fillers/derive_delegate.rs`: the field-delegation synthesizer |
| `Delegate`, `Log`, `DefaultFiller` | the per-member generators of `codegen/src/impl_fillers/delegate.rs`, `codegen/src/impl_fillers/log.rs` and `codegen/src/default.rs` |

Some code changes state step by step, and the model keeps that form:

- loops that push onto vectors;
- the `Once` slot's replace;
- `ImportCollector`'s set;
- the index maps and `minus`;
- log's generator state;
- `unuse_sig`;
- the where-clause pushes.

Each such loop is a method, proved equal to a specification function or a
state update. Lemmas then state what the source promises about that
function.

Rust's `HashMap` iteration order is unspecified. Where it matters (the
order of completion and the order of auto-imports), the method picks an
order, and the contracts hold for every order.

## Model

| member | source | states |
|---|---|---|
| Util.Once.Set | codegen/src/util.rs:15-23 | the slot afterwards holds the new value; the call fails with "Argument cannot be set twice" exactly when the slot was already set |
| Util.Once.GetOr | codegen/src/util.rs:25-27 | the stored value when set, otherwise the default |
| Util.SetOnce | codegen/src/util.rs:15-23 | `slot.set(..)?`: succeeds iff the slot was empty, and then holds the value; otherwise the "set twice" error |
| Util.OnceSetTwice | codegen/src/util.rs:15-23 | the first set passes, the second fails, and the slot then holds the newer value because the replace happens before the slot is inspected |
| Util.ParseArgs | codegen/src/util.rs:45-57 | the entry loop computes `ParseArgsSpec`: entries read by `parse_once`, separated by commas |
| Util.ParseArgsJoin | codegen/src/util.rs:45-57 | comma-separated entries, with or without a trailing comma, are each passed to `parse_once` once, in order, threading the argument state |
| Util.ParseArgsMissingComma | codegen/src/util.rs:49-52 | an entry followed by anything but a comma is an error |
| Util.GroupEntry | codegen/src/util.rs:104-120 | an entry starts with an identifier and reads at least one token; a group with another name leaves the arguments unchanged |
| Util.ParseGroupedAttr | codegen/src/util.rs:94-142 | the attribute loop computes `GroupedAttrSpec`, accumulating one argument value across attributes |
| Util.GroupedAttrIgnoresOthers | codegen/src/util.rs:100-101 | attributes not named `portrait` never change the outcome |
| Util.PortraitAttrs | codegen/src/util.rs:101 | keeps exactly the `portrait` attributes |
| Util.GroupedAttrAppend | codegen/src/util.rs:98-141 | reading two lists of attributes is reading the first and continuing from its result, so a key repeated across attributes still meets the set-once check |
| Util.SkipOtherGroup | codegen/src/util.rs:110-127 | a bare, `= expr` or parenthesised group with another name is skipped, and the selected group's contents are read with `parse_args` |
| Util.GroupedTrailingTokens | codegen/src/util.rs:128-131 | two entries without a comma between them give "trailing tokens" |
| Util.StripOne | codegen/src/util.rs:147-154 | an attribute with the given name becomes `cfg(all())`; any other is unchanged |
| Util.StripAttrs | codegen/src/util.rs:157-166 | every attribute of a list is stripped in place and the length is kept |
| Util.StripFields | codegen/src/util.rs:157-166 | every field's attributes are stripped and the field count is kept |
| Util.StripAttrRemovesAll | codegen/src/util.rs:144-166 | after stripping, no attribute with that name remains on the item, its variants or its fields |
| Util.StripAttrKeepsShape | codegen/src/util.rs:157-166 | stripping keeps the name, visibility, generics, variant names, field names and field types |
| Util.StripAttrIdempotent | codegen/src/util.rs:144-166 | stripping twice is stripping once |
| Util.CopyTsWithSpan | codegen/src/util.rs:81-92 | every token at every depth gets the new span, and the stream is unchanged apart from spans |
| Util.CopyTtWithSpan | codegen/src/util.rs:83-89 | one token: the new span, the same kind, and a group keeps its delimiter |
| Syntax.Path.WithLast | codegen/src/fill.rs:27-30 | replacing the last segment keeps the leading colon, the length and the other segments |
| Syntax.CfgAttrs | codegen/src/derive_fillers/derive_delegate.rs:536-538 | keeps exactly the attributes named `cfg`, in order; a list of only `cfg` attributes is unchanged |
| Syntax.ParseTerminated | codegen/src/impl_fillers/log.rs:130 | a comma-terminated list reads no more elements than tokens; a trailing comma implies a non-empty list |
| Syntax.ParseTerminatedRoundTrip | codegen/src/make.rs:124 | printing a list with or without a trailing comma and reading it back gives the list and the trailing flag |
| Syntax.CollectResultsShape | framework/src/impl_filler.rs:58-66 | collecting results succeeds iff every element does; then the results are in order, and otherwise the first failure is reported |
| Syntax.Enumerate | framework/src/impl_completer.rs:98 | some duplicate-free listing of a set of names exists |
| Syntax.NatToString | codegen/src/derive_fillers/derive_delegate.rs:195 | a decimal numeral: non-empty and made of digits |
| Syntax.NatToStringInjective | codegen/src/derive_fillers/derive_delegate.rs:445 | different field positions get different numerals |
| Naming.ToLower | codegen/src/make.rs:24 | the result is never upper case, and a non-upper-case character is unchanged |
| Naming.SnakeFrom | codegen/src/make.rs:24 | snake case has no upper-case letter and at most doubles the length |
| Naming.SnakeFromLower | codegen/src/make.rs:24 | a name with no upper-case letter is unchanged |
| Naming.SnakeCaseIdempotent | codegen/src/make.rs:24 | snake case is idempotent |
| Naming.CompanionModName | codegen/src/make.rs:23-24 | the companion module is the snake-cased trait name followed by `_portrait` |
| Naming.DefaultModPath | codegen/src/fill.rs:26-32 | the trait path with only its last segment renamed to the companion module and its generic arguments dropped |
| Naming.SnakeCaseExample | codegen/src/make.rs:24 | `FooBar` becomes `foo_bar` |
| NoArgsParser.ParseNoArgs | framework/src/no_args.rs:6-13 | succeeds iff the input is empty, else "No argument expected" |
| NoArgsParser.NoArgsRejectsAny | framework/src/no_args.rs:10-11 | any token gives "No argument expected" |
| Make.ParseItemArg | codegen/src/make.rs:110-133 | corrected entry parser (Findings row 1): an entry reads an identifier and at least one token; `__debug_print`, `auto_imports` and `name = ident` each set their own slot and nothing else, and fail iff that slot was already set; `import(..)` only appends to the imports |
| Make.ParseItemArgAsWritten | codegen/src/make.rs:126-128 | as written, `auto_imports` never changes the `auto_imports` slot |
| Make.AutoImportsAsWritten | codegen/src/make.rs:126-128 | as written, `auto_imports` sets `debug_print`, and after `__debug_print` it fails as a second set |
| Make.AutoImportsEnables | codegen/src/make.rs:126-128 | corrected: `auto_imports` sets its own slot and combines with `__debug_print` |
| Make.NameTwice | codegen/src/make.rs:116-119 | `name = a` sets the name and a second `name = ..` fails with "set twice" |
| Make.UnknownItemKey | codegen/src/make.rs:129-130 | any other key is refused |
| Make.ImportEntries | codegen/src/make.rs:120-125 | one `import(..)` entry per list of use trees |
| Make.ImportsAccumulate | codegen/src/make.rs:120-125 | repeated `import(..)` entries concatenate their use trees in order |
| Make.DescendSupers | codegen/src/make.rs:46-62 | how `super` segments resolve from inside the companion `imports` module |
| Make.ImportVisKeepsScope | codegen/src/make.rs:46-62 | the import visibility, read from inside `mod_name::imports`, reaches exactly the scope the trait's visibility reaches from the trait's module |
| Make.RebaseKeepsScope | codegen/src/make.rs:51-56 | prefixing `super::super` to a `self`/`super` path keeps the scope it names |
| Make.ImportVisFails | codegen/src/make.rs:58 | the mapping fails iff the visibility is a restricted one other than `self`, `super`, `crate` or `in path`, with "invalid visibility scope"; the mapping as written fails on exactly the same visibilities |
| Make.ImportVisAsWrittenNarrows | codegen/src/make.rs:59 | as written, `pub(in super)` is copied unchanged and then names a narrower scope from inside `imports` |
| Make.HeadsSnoc | codegen/src/make.rs:141-150 | visiting one more path adds its first segment iff it has no leading `::` |
| Make.AutoImportNamesSnoc | codegen/src/make.rs:29-31 | the collected names of more trait items are the union with the new item's path heads |
| Make.ImportCollector.constructor | codegen/src/make.rs:136-139 | the collector starts empty |
| Make.ImportCollector.VisitPath | codegen/src/make.rs:142-149 | adds the first segment of a path without a leading `::` and nothing else |
| Make.ImportCollector.VisitTraitItem | codegen/src/make.rs:29-31 | adds the heads of every path in the trait item |
| Make.ImportCollector.VisitPaths | codegen/src/make.rs:142-149 | adds the heads of every path in the list |
| Make.SuperImports | codegen/src/make.rs:33 | one `super::super::ident` import per collected name |
| Make.Run | codegen/src/make.rs:14-93 | for a given entry parser and visibility mapping (the source's own are `ParseItemArgAsWritten` and `ImportVisAsWritten`, the corrected ones `ParseItemArg` and `ImportVis`): fails with the argument error or the mapping's error, else emits the trait unchanged, every trait item in the template, `#[macro_export]` iff the trait is `pub`, the trait's name as alias, the companion name (`name = ..` or the default), the mapped visibility, the explicit imports followed by the auto-imports when enabled, and prints iff `__debug_print` (or, as written, `auto_imports`) was given |
| Make.CollectImportNames | codegen/src/make.rs:28-31 | the collector's set after visiting every trait item is the set of path heads |
| Make.AppendSuperImports | codegen/src/make.rs:33 | the explicit imports followed by one `super::super` import per collected name, in some order |
| Make.DefaultModName | codegen/src/make.rs:21-24 | with no arguments the companion module is `snake_case(trait) + "_portrait"` |
| Make.MatchInvocation | codegen/src/make.rs:69 | a matched invocation has the four keyword groups, and its ARGS and IMPL are the groups' contents |
| Make.MatchInvocationTokens | codegen/src/make.rs:69 | the template's arm matches exactly what it is written to match |
| Make.PortraitGroups | codegen/src/make.rs:71 | each trait item, in order, in its own brace group |
| Make.Expand | codegen/src/make.rs:68-77 | as written, the template expands iff its single `@IMPL` arm matches |
| Make.ExpandForwards | codegen/src/make.rs:69-76 | the expansion calls the target with the portrait groups and the ARGS, IMPL and debug flag verbatim |
| Make.DeriveInvocationUnmatched | codegen/src/make.rs:69 | as written, the invocation `#[derive]` writes matches no arm |
| Make.MatchDeriveInvocation | codegen/src/derive.rs:38-44 | a matched derive invocation has its five keyword groups, and the ARGS and INPUT are the groups' contents |
| Make.MatchDeriveInvocationTokens | codegen/src/derive.rs:38-44 | the derive arm matches exactly what `#[derive]` writes |
| Make.ExpandTemplate | codegen/src/make.rs:68-77 | corrected template: the impl arm is unchanged, and a derive arm is added |
| Make.ExpandTemplateForwardsDerive | framework/src/derive_filler.rs:58-112 | the derive arm forwards the portrait, trait path, ARGS, INPUT and debug flag in the order the derive filler reads them |
| Fill.GroupPath | codegen/src/fill.rs:97-104 | a path is read first, and more tokens are flagged |
| Fill.ParseOptions | codegen/src/fill.rs:70-95 | the `@` option loop computes `OptionsSpec` from no options |
| Fill.OptionStep | codegen/src/fill.rs:74-95 | reading one option is applying it and reading the rest |
| Fill.OptionsRoundTrip | codegen/src/fill.rs:74-95 | printed options read back as flags that are set iff present (repetition is idempotent), with the last `@MOD_PATH` winning |
| Fill.LastModPathCons | codegen/src/fill.rs:86-91 | the last `@MOD_PATH` wins |
| Fill.UnknownOptionFails | codegen/src/fill.rs:92-93 | an unknown `@` keyword is an error |
| Fill.PathAndArgs | codegen/src/fill.rs:97-104 | the filler path, then arguments iff tokens remain, which must be one parenthesised group |
| Fill.ParseFillAttr | codegen/src/fill.rs:68-107 | the attribute parser computes `FillAttrSpec` |
| Fill.PathAndArgsRoundTrip | codegen/src/fill.rs:97-104 | a path and optional parenthesised arguments read back |
| Fill.FillAttrRoundTrip | codegen/src/fill.rs:68-107 | options, the filler path and arguments read back |
| Fill.FillArgsMustBeParenthesized | codegen/src/fill.rs:100-103 | tokens after the path that are not one parenthesised group are an error |
| Fill.FillRun | codegen/src/fill.rs:7-52 | fails with the attribute error, "can only be used on trait impl blocks" or the negated-impl error, in that order; otherwise it targets the trait path, uses `@MOD_PATH` or the default module path, and writes the `@TARGET @ARGS @IMPL @DEBUG_PRINT_FILLER_OUTPUT` invocation |
| Fill.FillDefaultModPath | codegen/src/fill.rs:26-32 | without `@MOD_PATH`, the module path is the trait path with its last segment renamed to `snake_case + "_portrait"` |
| Derive.ParseDeriveAttr | codegen/src/derive.rs:71-112 | the attribute parser computes `DeriveAttrSpec` |
| Derive.DeriveAttrRoundTrip | codegen/src/derive.rs:71-112 | options, `Trait with filler` and the arguments read back |
| Derive.WithRequired | codegen/src/derive.rs:100-102 | the two paths must be separated by `with` |
| Derive.DeriveRun | codegen/src/derive.rs:9-53 | fails only when the attribute does not read; otherwise the type is emitted stripped, the trait path is the template called, the module path is `@MOD_PATH` or the default, and the invocation carries the unstripped type |
| Derive.DeriveStripsOnlyTheEmittedType | codegen/src/derive.rs:30-43 | the emitted type has no `portrait` attribute and keeps its shape, while `@INPUT` holds the original |
| Transport.PortraitRoundTrip | codegen/src/make.rs:71 | the brace groups the template writes read back as the trait items, in order |
| Transport.FillInvocationMatches | codegen/src/fill.rs:38-43 | `#[fill]` writes exactly what the template's arm matches |
| Transport.FillRoundTrip | framework/src/impl_filler.rs:51-97 | end to end: the template calls the named filler, whose reader gets back the trait items in order, the arguments, the impl block and the debug flag |
| Transport.DeriveInvocationMatches | codegen/src/derive.rs:38-44 | `#[derive]` writes the derive invocation |
| Transport.DeriveRouteAsWritten | codegen/src/make.rs:69 | as written, a successful `#[derive]` expansion reaches a template with no matching arm |
| Transport.DeriveRoundTrip | framework/src/derive_filler.rs:58-112 | with the derive arm, the derive filler's reader gets back the trait items in order, the trait path, the arguments, the unstripped type and the debug flag |
| ImplFiller.KeywordGroup | framework/src/impl_filler.rs:53-56 | a keyword followed by a brace group: its contents and the rest |
| ImplFiller.PortraitItem | framework/src/impl_filler.rs:59-64 | a portrait group must hold exactly one trait item |
| ImplFiller.WholeArgs | framework/src/impl_filler.rs:68-74 | the arguments must be read to the end |
| ImplFiller.WholeImpl | framework/src/impl_filler.rs:76-82 | the IMPL group must hold exactly one impl block |
| ImplFiller.WholeLitBool | framework/src/impl_filler.rs:84-90 | the debug group must hold exactly one bool literal, whose value is returned |
| ImplFiller.ReadPortrait | framework/src/impl_filler.rs:57-66 | the loop reads the portrait groups in order and stops at the first bad one |
| ImplFiller.ParseInput | framework/src/impl_filler.rs:51-97 | the reader computes `InputSpec` |
| ImplFiller.RunFiller | framework/src/impl_filler.rs:25-35 | a read error is returned; otherwise the filler's result, unchanged, errors included |
| ImplFiller.InputSpecIff | framework/src/impl_filler.rs:51-97 | the input reads iff every portrait group holds one item, the arguments are consumed, IMPL holds one impl, the flag is a bool, and nothing follows; the fields are then those contents, in order |
| ImplFiller.OneItemPerGroup | framework/src/impl_filler.rs:62-63 | a group with more than one item gives "braces should only contain one trait item" |
| ImplFiller.SectionsInOrder | framework/src/impl_filler.rs:68 | IMPL in place of ARGS is refused |
| ImplFiller.ArgsMustBeConsumed | framework/src/impl_filler.rs:72-74 | arguments not fully parsed are an error |
| DeriveFiller.WholePath | framework/src/derive_filler.rs:75-81 | the TRAIT_PATH group must hold exactly one path |
| DeriveFiller.WholeDeriveInput | framework/src/derive_filler.rs:91-97 | the INPUT group must hold exactly one type definition |
| DeriveFiller.ParseDeriveInput | framework/src/derive_filler.rs:58-112 | the reader computes `DeriveInputSpec` |
| DeriveFiller.RunDeriveFiller | framework/src/derive_filler.rs:26-40 | a read error is returned; otherwise the filler's result, unchanged |
| DeriveFiller.SectionsKeywords | framework/src/derive_filler.rs:58-112 | the five keyword groups, in order, are read one after the other |
| DeriveFiller.DeriveInputSpecIff | framework/src/derive_filler.rs:58-112 | the input reads iff each group is well formed and fully consumed and nothing follows; the fields are then those contents, in order |
| DeriveFiller.TraitPathMustBeWhole | framework/src/derive_filler.rs:79-81 | tokens after the trait path give "trait path not fully parsed" |
| ItemMap.IndexKeys | framework/src/item_map.rs:28-45 | a name is in a kind's index iff some item of that kind has that name, and it maps to such an item |
| ItemMap.IndexSnoc | framework/src/item_map.rs:30-42 | indexing one more item inserts it into its own kind's map only |
| ItemMap.IndexKeepsLast | framework/src/item_map.rs:33 | with repeated names the last item wins |
| ItemMap.MissingMsgAsWrittenOmitsName | framework/src/item_map.rs:53 | as written, the message is the literal `{ident}` text, the same for every name |
| ItemMap.MissingMsgNamesMember | framework/src/item_map.rs:50-73 | corrected: different names give different messages |
| ItemMap.ImplItemMap.constructor | framework/src/item_map.rs:93-110 | each kind's map is the index of the impl's items of that kind |
| ItemMap.TraitItemMap.constructor | framework/src/item_map.rs:28-45 | each kind's map is the index of the trait's items of that kind |
| ItemMap.TraitItemMap.MinusKind | framework/src/item_map.rs:49-56 | removes the names of one kind; fails, naming the kind, iff a name is missing; the other kinds are unchanged and the map only shrinks |
| ItemMap.TraitItemMap.Minus | framework/src/item_map.rs:48-77 | passes iff every impl name is in the trait under the same kind, and then each map is the trait's minus the impl's names; otherwise it fails on a missing name of the first failing kind |
| ItemMap.UnimplementedKeys | framework/src/item_map.rs:6-13 | a name is unimplemented iff the trait has it and the impl does not, under that kind |
| ItemMap.SubtractItems | framework/src/item_map.rs:6-13 | `new` followed by `minus`, with the error passed on |
| ItemMap.RemainingIsDifference | framework/src/item_map.rs:48-77 | after a successful subtraction the remaining names and the impl names partition the trait names, per kind |
| ItemMap.KindsAreSeparate | framework/src/item_map.rs:49-74 | providing a function never changes which constants are missing |
| ItemMap.ExtraMemberFails | framework/src/item_map.rs:50-73 | an impl member the trait does not declare under its kind makes the subtraction fail |
| ImplCompleter.GenerateOne | framework/src/impl_completer.rs:98-109 | a member is dispatched to the generator of its kind, and the item produced has that kind |
| ImplCompleter.GenerateSeqItems | framework/src/impl_completer.rs:98-109 | generation over a list succeeds iff each member does, with one item per member, in order |
| ImplCompleter.GenerateSeqAppend | framework/src/impl_completer.rs:98-109 | generating over two lists is generating over the first and then the second |
| ImplCompleter.Lookup | framework/src/impl_completer.rs:98 | the map's values for a list of names, in that order |
| ImplCompleter.OrderKeys | framework/src/impl_completer.rs:98-109 | the visiting order is the missing constants, then the missing functions, then the missing types, each once |
| ImplCompleter.LookupStep | framework/src/impl_completer.rs:102-105 | one more loop iteration appends one generated item |
| ImplCompleter.FailureSticks | framework/src/impl_completer.rs:103 | a generator failure ends the loop with that failure |
| ImplCompleter.AppendGenerated | framework/src/impl_completer.rs:98-109 | the loop over one kind's map visits every name once and appends the generated items, or returns the first failure |
| ImplCompleter.CompleteImpl | framework/src/impl_completer.rs:88-112 | a failed subtraction is returned before any generator call; otherwise the result is the completion for some valid visiting order |
| ImplCompleter.AppendMissing | framework/src/impl_completer.rs:93-111 | the three loops, run on the clone, give the completion for a valid order |
| ImplCompleter.Chain | framework/src/impl_completer.rs:98-109 | three loops in sequence act as one loop over the concatenated order |
| ImplCompleter.ChainTwo | framework/src/impl_completer.rs:98-105 | two loops, the second continuing from the first one's output, append the items generated for the concatenation, or its first failure |
| ImplCompleter.Assemble | framework/src/impl_completer.rs:98-111 | the three loops' combined result is the completion for some valid order: one that lists every missing member once |
| ImplCompleter.CompletionKeepsProvided | framework/src/impl_completer.rs:93 | the output is a clone of the impl: its attributes, generics, trait and self type are kept, and the provided items are a prefix |
| ImplCompleter.OrderKinds | framework/src/impl_completer.rs:98-109 | in the visiting order, constants come before functions, and functions before types |
| ImplCompleter.CompletionOnePerMember | framework/src/impl_completer.rs:98-109 | exactly one item per missing member is appended: the constants, then the functions, then the types |
| ImplCompleter.GeneratedKinds | framework/src/impl_completer.rs:99-107 | each generated item has the kind of the member it was generated for |
| ImplCompleter.CompletionFailsIff | framework/src/impl_completer.rs:98-109 | completion fails iff the generator fails on some missing member |
| ImplCompleter.OrderVisits | framework/src/impl_completer.rs:98-109 | the order visits only missing members, and every missing member |
| ImplCompleter.OrderVisitsOnlyMissing | framework/src/impl_completer.rs:98-109 | every visited member is missing from the impl |
| ImplCompleter.OrderVisitsAllMissing | framework/src/impl_completer.rs:98-109 | every missing member is visited |
| ImplCompleter.GenerateOneKey | framework/src/impl_completer.rs:98-109 | a generator that keeps names produces an item with the member's own kind and name |
| ImplCompleter.GeneratedNames | framework/src/impl_completer.rs:98-109 | with a generator that keeps names, the generated names of a kind are exactly the missing ones |
| ImplCompleter.CompletionDeclaresTrait | framework/src/impl_completer.rs:88-112 | when the impl names only trait members, the completed impl declares exactly the trait's names, per kind |
| DeriveCompleter.SelfTy | framework/src/derive_completer.rs:114-127 | the type's name followed by its bare parameter names in order, with no brackets when there are none |
| DeriveCompleter.Members | framework/src/derive_completer.rs:130-141 | the constants, functions and types of the trait, in order, skipping other items |
| DeriveCompleter.DeriveOne | framework/src/derive_completer.rs:131-142 | dispatch by kind; other items produce nothing |
| DeriveCompleter.CompleteDerive | framework/src/derive_completer.rs:92-171 | the method, with its pushes and hooks, computes `DeriveSpec` |
| DeriveCompleter.FirstFailure | framework/src/derive_completer.rs:133-139 | the first generator failure, in trait order, is the result |
| DeriveCompleter.DeriveItemsShape | framework/src/derive_completer.rs:129-144 | the items succeed iff each member does, with one item per member, in trait order |
| DeriveCompleter.MembersAreMembers | framework/src/derive_completer.rs:141 | exactly the non-other trait items are kept |
| DeriveCompleter.DeriveHeader | framework/src/derive_completer.rs:100-166 | the generics are the input's plus what the hook adds; `<>` is present iff there are params, and `where` iff there are predicates; the attributes start with the input's `cfg` attributes; the trait ref is non-negated; the self type is `SelfTy` |
| DeriveCompleter.DeriveKeepsInputGenerics | framework/src/derive_completer.rs:207-224 | with the default hooks, the generics and where-predicates are the input's and the attributes are its `cfg` attributes |
| DeriveCompleter.DeriveFailsIff | framework/src/derive_completer.rs:108-148 | the derive fails iff a hook or a member's generation fails; otherwise one item per member, in order |
| DeriveDelegate.KeyValue | codegen/src/derive_fillers/derive_delegate.rs:510-512 | `key = expr` reads three tokens and yields the expression |
| DeriveDelegate.ParseFnArg | codegen/src/derive_fillers/derive_delegate.rs:507-533 | one `parse_once` entry reads an identifier and at least one token; `reduce = e` and `reduce_base = e` store `e` in their own slot, a bare `try` stores no constructor and `try = e` stores `e`, nothing else changes, and each fails iff its slot was already set; a malformed `= expr` gives its parse error |
| DeriveDelegate.ReduceTwice | codegen/src/derive_fillers/derive_delegate.rs:509-512 | `reduce = e` is stored, and a second `reduce` fails with "set twice" |
| DeriveDelegate.UnknownKeyRefused | codegen/src/derive_fillers/derive_delegate.rs:529-531 | a key other than `reduce`, `reduce_base` or `try` is refused |
| DeriveDelegate.IsSelfTyIff | codegen/src/derive_fillers/derive_delegate.rs:486-492 | a type counts as `Self` iff it is `Self` under any number of references |
| DeriveDelegate.SelfRefs | codegen/src/derive_fillers/derive_delegate.rs:486-492 | the reference layers of a `Self` type |
| DeriveDelegate.RefsOfSelf | codegen/src/derive_fillers/derive_delegate.rs:489 | `Self` under references is `Self` |
| DeriveDelegate.TransformArgCases | codegen/src/derive_fillers/derive_delegate.rs:438-484 | a receiver becomes `__portrait_self_{ord}`; a `Self` parameter fails in enum arms and otherwise destructures `self` to the field; any other parameter must be an identifier and is passed by name |
| DeriveDelegate.SelfVarInjective | codegen/src/derive_fillers/derive_delegate.rs:445 | different fields get different local names |
| DeriveDelegate.Indexed | codegen/src/derive_fillers/derive_delegate.rs:405-408 | the fields paired with their positions |
| DeriveDelegate.FieldCallShape | codegen/src/derive_fillers/derive_delegate.rs:409-431 | a field's call is `Trait::name(args)` with one translated argument per input, in order, and gets `?` iff `try` is set |
| DeriveDelegate.TransformArgFieldsShape | codegen/src/derive_fillers/derive_delegate.rs:397-436 | one call per field, in field order, or the first failure |
| DeriveDelegate.FoldUnfold | codegen/src/derive_fillers/derive_delegate.rs:342-346 | the fold can be taken apart again into its base and operands, so it is the left fold in field order |
| DeriveDelegate.ReduceCalls | codegen/src/derive_fillers/derive_delegate.rs:328-346 | the loop over the mutable `stack` builds the left fold `(f)((f)(b, e1), e2)..` |
| DeriveDelegate.SingleField | codegen/src/derive_fillers/derive_delegate.rs:321-322 | with one field, the body is that field's call, whatever the return type or `reduce` |
| DeriveDelegate.Aggregation | codegen/src/derive_fillers/derive_delegate.rs:326-393 | otherwise, in order: `reduce` folds from `reduce_base` or the first call, failing on an empty struct without a base; `()` gives one `;` statement per field; `Self` gives one struct expression with one value per field, in order; anything else is the aggregation error |
| DeriveDelegate.FieldMembersDistinct | codegen/src/derive_fillers/derive_delegate.rs:184-189 | distinct fields are addressed by distinct members |
| DeriveDelegate.FieldPats | codegen/src/derive_fillers/derive_delegate.rs:248-268 | one field pattern per field: its member bound to `__portrait_self_{ord}` |
| DeriveDelegate.TransformEnum | codegen/src/derive_fillers/derive_delegate.rs:221-308 | the loop pushing arms computes `TransformEnumSpec` |
| DeriveDelegate.EnumArmsFailure | codegen/src/derive_fillers/derive_delegate.rs:236-246 | the first failing variant's error is the result |
| DeriveDelegate.EnumArmsShape | codegen/src/derive_fillers/derive_delegate.rs:235-295 | one arm per variant, in order, with pattern `Self::V { member: __portrait_self_{ord}, .. }` |
| DeriveDelegate.EnumRefusesSelfParam | codegen/src/derive_fillers/derive_delegate.rs:449-455 | a `Self` parameter inside an enum arm gives "only supported for structs" |
| DeriveDelegate.OutputTy | codegen/src/derive_fillers/derive_delegate.rs:25-51 | no return type means `()`; without `try` the return type is used as is |
| DeriveDelegate.TryPayload | codegen/src/derive_fillers/derive_delegate.rs:35-45 | with `try`, `R<T, ..>` yields `T`, and a path without angle-bracketed arguments is an error |
| DeriveDelegate.GenerateFnShape | codegen/src/derive_fillers/derive_delegate.rs:18-104 | a union is refused; a generated function keeps the signature and the `cfg` attributes, and with `try` its body is one call of the configured constructor or `Ok` |
| DeriveDelegate.FieldBounds | codegen/src/derive_fillers/derive_delegate.rs:120-144 | one `FieldTy: Trait` predicate per field, in order |
| DeriveDelegate.AddFieldBounds | codegen/src/derive_fillers/derive_delegate.rs:140-154 | the pushes append the data's field bounds to the predicates |
| DeriveDelegate.VariantBoundsCount | codegen/src/derive_fillers/derive_delegate.rs:146-151 | an enum gets exactly one bound per field of every variant |
| DeriveDelegate.NewGenerator | codegen/src/derive_fillers/derive_delegate.rs:7 | the generator is built only from empty arguments |
| DeriveDelegate.DelegateDerive | codegen/src/derive_fillers/derive_delegate.rs:10-16 | a trait with a constant or a type cannot be derived; otherwise the where clause gains the field bounds and the params are kept |
| Delegate.ParseDelegateArg | codegen/src/impl_fillers/delegate.rs:182-194 | a type, then optionally `; expr` |
| Delegate.DelegateArgRoundTrip | codegen/src/impl_fillers/delegate.rs:182-194 | a printed argument reads back |
| Delegate.TraitPathOf | codegen/src/impl_fillers/delegate.rs:18 | the impl's trait path, an error when there is none |
| Delegate.BareArgs | codegen/src/impl_fillers/delegate.rs:146-155 | the bare parameter names, in order |
| Delegate.GenerateFn | codegen/src/impl_fillers/delegate.rs:36-136 | the loop over the inputs computes `GenFn` |
| Delegate.DelegateInputsShape | codegen/src/impl_fillers/delegate.rs:51-112 | the inputs translate iff each does, one argument per input, in order |
| Delegate.DelegateInputCases | codegen/src/impl_fillers/delegate.rs:55-110 | a receiver becomes the value with `&` iff it is a reference and `mut` iff it is mutable; a receiver or typed `self` needs a value; other identifiers lose `mut` |
| Delegate.GenFnShape | codegen/src/impl_fillers/delegate.rs:36-136 | the function keeps its signature apart from `mut`, carries the `cfg` attributes and one `#[inline]`, and its body is one `<D as Trait>::name(..)` call with one argument per input |
| Delegate.ReceiverNeedsValue | codegen/src/impl_fillers/delegate.rs:69-77 | without a value, a function with a receiver fails |
| Delegate.MutStripped | codegen/src/impl_fillers/delegate.rs:102-105 | a `mut x` parameter is passed as `x` |
| Delegate.GenConst | codegen/src/impl_fillers/delegate.rs:12-34 | succeeds iff the impl names a trait; a constant becomes `<D as Trait>::NAME`, keeping its name, generics, type and `cfg` attributes |
| Delegate.GenType | codegen/src/impl_fillers/delegate.rs:138-170 | succeeds iff the impl names a trait; a type becomes `<D as Trait>::Name<params>`, with no brackets when there are none |
| Log.ParseRetTy | codegen/src/impl_fillers/log.rs:118-124 | the optional `-> Type` reads tokens iff present |
| Log.ParseLogArg | codegen/src/impl_fillers/log.rs:114-134 | the argument parser reads no more than its input |
| Log.RetTyRoundTrip | codegen/src/impl_fillers/log.rs:118-124 | a printed return type reads back |
| Log.LogArgRoundTrip | codegen/src/impl_fillers/log.rs:114-134 | a printed logger, return type and prefix read back |
| Log.WithTrailingComma | codegen/src/impl_fillers/log.rs:31-33 | a comma is added iff the prefix is non-empty and not already trailing |
| Log.TrailingCommaSettles | codegen/src/impl_fillers/log.rs:31-33 | adding the comma is idempotent across calls |
| Log.CfgArgs | codegen/src/impl_fillers/log.rs:51-54 | a `cfg` attribute must have parenthesised arguments, which are returned |
| Log.LogType | codegen/src/impl_fillers/log.rs:78-104 | the associated type is the `-> Type` given, else `()`, keeping the trait type's name, generics and `cfg` attributes |
| Log.LogGenerator.constructor | codegen/src/impl_fillers/log.rs:11 | the generator holds the parsed argument |
| Log.LogGenerator.GenerateConst | codegen/src/impl_fillers/log.rs:13-22 | constants always fail |
| Log.LogGenerator.GenerateFn | codegen/src/impl_fillers/log.rs:24-76 | updates the stored prefix with the trailing comma, then returns the logging function |
| Log.LogGenerator.GenerateType | codegen/src/impl_fillers/log.rs:78-104 | the type is the given return type or `()`, keeping the name, generics and `cfg` attributes |
| Log.CollectFmtArgs | codegen/src/impl_fillers/log.rs:38-63 | the loop computes the format arguments, skipping receivers |
| Log.PlaceholdersCount | codegen/src/impl_fillers/log.rs:65 | `n` placeholders joined by `", "` contain `n` `{:?}` |
| Log.FmtStringPlaceholders | codegen/src/impl_fillers/log.rs:65 | the format string `name(..)` has one placeholder per argument |
| Log.FmtArgsShape | codegen/src/impl_fillers/log.rs:40-63 | one format argument per typed parameter, and none for receivers |
| Log.LogFnPlaceholders | codegen/src/impl_fillers/log.rs:65-75 | the body calls the logger with the prefix and a format string with as many placeholders as there are arguments; the signature and `cfg` attributes are kept |
| Log.LogImplGenerator | codegen/src/impl_fillers/log.rs:13-33 | in every generated function the prefix is followed by a comma iff it is non-empty or already had one; constants always fail |
| DefaultFiller.UnusedSig | codegen/src/default.rs:67-83 | `#[allow(unused_variables)]` is appended to every typed parameter; receivers, the count and the rest of the signature are kept |
| DefaultFiller.UnuseSig | codegen/src/default.rs:67-83 | the in-place loop computes `UnusedSig` |
| DefaultFiller.UnuseSigTwice | codegen/src/default.rs:70 | the attribute is pushed, not set, so a second application adds it again |
| DefaultFiller.GenConst | codegen/src/default.rs:8-31 | `Default::default()`, keeping the name, generics, type and `cfg` attributes |
| DefaultFiller.GenFn | codegen/src/default.rs:33-53 | the body is `{ Default::default() }`, with the signature passed through `unuse_sig` and only the `cfg` attributes kept |
| DefaultFiller.GenType | codegen/src/default.rs:55-64 | types always fail |
| DefaultFiller.DefaultGenerator | codegen/src/default.rs:6 | the generator is built only from empty arguments |
| DefaultFiller.DefaultRun | codegen/src/default.rs:7-65 | over the missing members, it succeeds iff none is a type, and every constant and function then returns `Default::default()` |

## Left out

- The random template name (codegen/src/make.rs:44) is a parameter of `Make.Run`, and no contract depends on it.
- The `println!` dumps of make, fill, derive and the fillers are console output. The debug flags are modelled, the printing is not.
- The Rust grammar of `syn` is not modelled. Types, expressions, paths, trait items, impl blocks and derive inputs are `NodeTok` leaves, read and printed by construction.
- Error texts that come from `syn` itself ("expected `,`", lookahead errors) are stand-in constants.
- `->` is the two punctuation tokens `-` and `>`.
- A `MetaList` with a non-parenthesis delimiter is not distinguished from a parenthesised one.
- `heck::to_snake_case` is approximated by ASCII snake case: an underscore before an upper-case letter that follows a word character, then lower case. It does not split acronyms or digits the way `heck` does.
- `set_sig_arg_span` (codegen/src/util.rs:59-73), as used by delegate.rs:47 and log.rs:36, changes only spans. Spans carry no meaning in the model. `copy_ts_with_span` itself is modelled.
- `Span::join` in `Once::set` is a diagnostic location only.
- codegen/src/lib.rs and framework/src/lib.rs are entry wrappers and re-exports. They refer to `Generate`, `Context` and `completer_filler`, which are not shown. default.rs's `Generate`/`Context` are modelled as the impl generator and its context.
- framework/src/filler.rs is the same reader as framework/src/impl_filler.rs, so one model serves both.
- derive.rs's `@` option loop is the same as fill.rs's, so `Fill.ParseOptions` serves both.
- `ImportCollector` visits paths in attributes, generics, signatures, types and bounds. Paths inside default bodies, expressions and patterns are not visited.
- The `u32::try_from(ord).expect("too many fields")` panic is not modelled, because positions are unbounded `nat`.
- The `expect("checked in framework")` on the trait path in delegate.rs is modelled as an error result.
- The impl generators' `generate_*` methods take `&mut self`. Only log's mutates its state, and only log's generator is a class. The others are values of total functions.
- `extend_generics` and `extend_attrs` are modelled as hooks that return the predicates and attributes to append (the `Vec` push semantics), not as in-place slice updates.
- `strip_attr` visits attributes of the item, its variants and its fields. Attributes nested inside types or expressions are not visited.
- `tests/derive_delegate_either.rs`'s `enum_either` option is refused by `FnArgs::parse_once`, so the model has no such option.
- Make.ParseItemArg: models the corrected `auto_imports` branch of Findings row 1, so that the rest of the model gets the intended behaviour; the branch as written is `Make.ParseItemArgAsWritten`, and `Make.Run` takes either one.
- ItemMap.TraitItemMap.MinusKind: fails with the corrected message of Findings row 2, which names the missing member; the source's message is the literal text `{ident}` (`ItemMap.MissingMsgAsWritten`). Only the error text differs: when and on which kind it fails is as in the source.
- ItemMap.TraitItemMap.Minus: passes on `MinusKind`'s corrected message (Findings row 2).
- ItemMap.SubtractItems: passes on `MinusKind`'s corrected message (Findings row 2).
- ImplCompleter.CompleteImpl: returns the subtraction's error, which carries the corrected message of Findings row 2.
- Log.LogImplGenerator: the generator value passed to the completer uses the prefix after its first update, because `Log.TrailingCommaSettles` shows every later call sees the same state.
- The order in which `HashMap`/`HashSet` iterate is not modelled. The contracts of `ImplCompleter.CompleteImpl` and `Make.Run` hold for every order.
- Make.ExpandTemplate: a template arm matches token for token. `macro_rules!` matching of `$x:path` and `$($t:tt)*` fragments is not modelled.

## Findings

| source | as written | input that shows it | evidently intended | confidence | as-written member | corrected member |
|---|---|---|---|---|---|---|
| codegen/src/make.rs:126-128 | the `auto_imports` key sets the `debug_print` slot | `#[portrait::make(auto_imports)]` turns on printing and leaves auto-imports off; `#[portrait::make(__debug_print, auto_imports)]` fails with "Argument cannot be set twice" | `self.auto_imports.set(true, ..)` | high, not executed | Make.AutoImportsAsWritten | Make.AutoImportsEnables |
| framework/src/item_map.rs:53,62,71 | the error text is a plain string literal containing `{ident}`, not a `format!` | an impl with an extra constant `EXTRA` reports "no associated constant called {ident} in trait" | the member's name in the message | high, not executed | ItemMap.MissingMsgAsWrittenOmitsName | ItemMap.MissingMsgNamesMember |
| codegen/src/make.rs:59 | a `pub(in path)` visibility is copied unchanged onto the imports two modules deeper | for `pub(in super) trait T` in module `m`, the imports in `m::t_portrait::imports` become visible only inside `m::t_portrait` instead of inside `m`'s parent | rebase a relative `in self`/`in super` path by `super::super`, as lines 51-56 do for `self` and `super` | medium, not executed | Make.ImportVisAsWrittenNarrows | Make.ImportVisKeepsScope |
| codegen/src/make.rs:69 | the template has a single `@TARGET @ARGS @IMPL` arm | any successful `#[portrait::derive(T with f)]`: its `@TRAIT_PATH`/`@INPUT` invocation (codegen/src/derive.rs:38-44) matches no arm | a second arm forwarding TRAIT_PATH and INPUT to the derive filler | medium, not executed | Transport.DeriveRouteAsWritten | Transport.DeriveRoundTrip |
