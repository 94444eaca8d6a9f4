# custard front end, modelled in Dafny

custard is a Lisp dialect that compiles to JavaScript. This project models the front
half of its compiler and proves properties of the model:

- **the reader**: a tokenizer built from the token regular expression, the recursive
  descent `form` / `list` / `atom` over a token cursor, and the classification of atoms;
- **the printer** `prStr`, with round-trip lemmas (reading printed atoms gives them back);
- **the form and writer types** (`Form`, the writer kinds and their tag predicates);
- **the compile-time environment**: a scope stack, scope paths (innermost index first,
  root `[0]`), the append-only reference log, and the rule that makes `set` refuse a
  name already used as an outer variable;
- **the transpiler dispatch** (`transpileExpressionWithNextCall`) and the algebra of
  `JsModule {imports, body}` fragments;
- **the construct writers** of the base library: `const`/`let`/`assign`, `return`, `when`,
  `if`/`else`, `scope`, `fn`, `procedure`, `array`, the operator writers,
  `incrementF`/`decrementF`, `while`, `for`, `forEach` and `recursive`, with the shared
  helpers `functionPrelude`, `buildFn`, `buildProcedure`, `buildScope`,
  `transpilingForAssignment` and `transpilingForVariableDeclaration`.

Layout. Each imperative part of the source is a Dafny method over mutable state, and it is
proved equal to a pure specification function. The properties are then proved about the
functions.

| file | module | contents |
|---|---|---|
| wrappers.dfy | Wrappers | `Option`, `Result`, `Outcome` |
| strings.dfy | Strings | split/join on a character, decimal numerals |
| json.dfy | Json | JSON string literals (`JSON.stringify` on strings) |
| types.dfy | Types | `Form`, `KeyValue`, `Writer`, `DirectKind`, tag constructors and predicates |
| fragments.dfy | TranspileFragments | `JsModule`, `concatJsModules`, `extendBody`, `appendJsStatement`, `asCall`, atom rendering |
| environment.dfy | Environment | `EnvState` with its operations as functions; class `Env` whose methods update fields |
| env_scenarios.dfy | EnvScenarios | the environment's test scenarios, proved for any distinct names |
| grammar.dfy | Grammar | tokenizer, `AtomOf`, class `Scanner`, the `ReadForm`/`ReadList`/`ReadAtom` methods and their specification `FormAt` |
| printer.dfy | Printer | `PrStr` and the round trips |
| common.dfy | Common | `isNonExpressionCall`, `tryToSet`, `functionPrelude`, variable mutation |
| safe.dfy | Safe | the safe library's writer table and the `if`/`else` partition |
| unbounded.dfy | Unbounded | `recursive`'s name registration |
| transpile_spec.dfy | TranspileSpec | one mutually recursive family of specification functions, one per writer |
| transpile_props.dfy | TranspileProps | loops proved equal to joins: comma lists, statements, object entries |
| writer_props.dfy | WriterProps | what each writer emits and refuses, stated on the specification |
| transpile.dfy | Transpile | the transpiler and writers as methods over `Env`, each proved equal to its specification function |

Every specification function of the transpiler returns a `Run` (a result and the
environment state afterwards). Each ensures `Kept`: the run only moved the environment
forward (scopes appended, numbering and log only grown), and a successful run leaves the
scope stack as deep as it found it. A failed run may leave scopes pushed, as the source does.

Decisions where the source is not self-contained:

- `src/internal/env.ts` is not part of this model. The environment follows the behaviour
  its tests pin down (src/env.test.ts). `set` fails with the "define recursively" hint
  when the log of the name holds a reference made from the current scope or one of its
  descendants that resolved to a scope strictly enclosing the current one. The rule is
  the same for every writer, the `RecursiveConst` that `recursive` registers included:
  `recursive` checks the result of that `set` and aborts on an error
  (src/lib/base/iteration/unbounded.ts:190-193). The log is append-only, because
  references from popped scopes still count in the tests. `isDefinedInThisScope` ignores
  `RecursiveConst` entries; otherwise `recursive` could never be followed by its `const`.
- `const` and `let` are the writers that `transpilingForVariableDeclaration` builds
  (src/lib/base/common.ts:150-278), which handles the REPL top level and key-values
  targets. The older `transpilingForAssignment` callbacks of src/lib/base/safe.ts:32-62
  are not used for them; `transpilingForAssignment` (src/lib/base/common.ts:120-148) is
  modelled as the argument checks of that writer.
- The REPL helpers of `cu-env` (`pseudoTopLevelReference`, `pseudoTopLevelAssignment`,
  `CU_ENV`), `tmpVarOf`, and the direct writers whose source is not part of this model
  (`break`, `continue`, `import`) are fields of a `Host` value that is a parameter.
- A scope is at the REPL top level when REPL mode is on and every scope from it to the
  root was pushed by `pushInherited`.
- `transpileAssignee` (used by `forEach`) is not shown. It is modelled as the non-REPL
  assignee of `transpilingForVariableDeclaration`. `isStatement` is modelled as
  `isNonExpressionCall`.
- The files mix two versions (plain-string `JsSrc` and `JsModule`). Writers of
  src/lib/base/safe.ts and src/lib/base/unbounded.ts that put transpiled parts into
  template strings (src/lib/base/safe.ts:75, 102, 265; src/lib/base/unbounded.ts:57, 117,
  160) are modelled in the `JsModule` version: the text around a part is added to its
  body, and the imports of all parts are concatenated in order. One `Form` type holds
  every variant. The safe library's local `functionPrelude`/`buildFn`/`buildProcedure`
  (src/lib/base/safe.ts:303-400) are the same as those of src/lib/base/common.ts on bodies,
  and are modelled once. Its "last statement" message prints a property-access head
  through a template literal, joined with `,`; `buildScope` uses `showSymbolAccess`,
  joined with `.`.
- `incrementF` and `decrementF` (src/lib/base/safe.ts:105-106) pass one operator string where
  `transpilingForVariableMutation` (src/lib/base/common.ts:280-284) takes two callbacks. The
  model reads the operator as both callbacks, each appending it to its argument (`x++`).
- Async writers are sequential calls in source order. The `isAsync` flag of `functionPrelude`,
  `buildFn`, `buildProcedure` and `buildScope` is the `inherit` flag of the scope push
  (src/lib/base/common.ts:334): an async function's scope is pushed as `pushInherited`.
  Every writer of this core passes `false`.
- `if` recognises `else` by comparing the writer a symbol resolves to with the writer of
  `else` as a value (`Safe.IsElse`). The source compares object identity with
  `Safe.__else` (src/lib/base/safe.ts:211). The two differ only for a distinct writer
  object that equals `aContextualKeyword("if")`, which no writer of this core creates.
- `x === undefined` argument checks also fire for the `undefined` atom, as in the source.
  Missing arguments are read as `undefined`.

## Model

| member | source | states |
|---|---|---|
| Strings.Split | src/grammar.ts:88-92 | splitting on `.` gives at least one part and no part contains the separator |
| Strings.SplitAtLeastTwo | src/grammar.ts:88-92 | a token containing `.` splits into at least two segments |
| Strings.SplitJoin | packages/processor/src/printer.ts:26-27 | splitting the `.`-join of separator-free segments gives the segments back |
| Strings.JoinSplit | src/grammar.ts:88-92 | joining the split parts with the separator gives the original text back |
| Strings.SplitNoSeparator | src/grammar.ts:88-92 | text without the separator splits into itself alone |
| Strings.SplitPrefix | src/grammar.ts:88-92 | splitting `a.b` with `a` separator-free gives `a` followed by the split of `b` |
| Strings.DigitValue | src/grammar.ts:69 | a decimal digit has a value below ten |
| Strings.DigitChar | packages/processor/src/printer.ts:22-23 | the printed digit is a digit whose value is the one printed |
| Strings.ShowNat | packages/processor/src/printer.ts:22-23 | the decimal of a natural number is all digits |
| Strings.ShowInt | packages/processor/src/printer.ts:22-23 | the decimal of a negative number is `-` followed by digits, of a non-negative one just digits |
| Strings.DecimalValueShowNat | packages/processor/src/printer.ts:22-23 | reading back the printed decimal gives the number |
| Json.EscapeChar | packages/processor/src/printer.ts:18-19 | a character is escaped exactly when it is `"`, `\` or a control character |
| Json.Escape | packages/processor/src/printer.ts:18-19 | the escaped text is never shorter than the string, and is the string itself when no character needs an escape |
| Json.Quote | packages/processor/src/printer.ts:18-19 | `JSON.stringify` of a string starts and ends with `"` |
| Json.EscapeHasNoBareQuote | packages/processor/src/printer.ts:18-19 | every `"` inside an escaped string is preceded by `\` |
| Types.IsCuSymbol | src/types.ts:67-69 | true exactly for symbols, false for `undefined` |
| Types.StringifyForm | src/lib/base/common.ts:255-257 | `JSON.stringify` in messages: `undefined` as `undefined`, a string as its JSON literal, a list in brackets, the record atoms as `{"t":…}` objects |
| Types.AContextualKeyword | src/types.ts:41-42 | the contextual keyword carries tag 0 and the given companion |
| Types.AVar | src/types.ts:47-48 | `aVar()` carries tag 1 |
| Types.AConst | src/types.ts:53-54 | `aConst()` carries tag 2 |
| Types.ARecursiveConst | src/types.ts:59-60 | `aRecursiveConst()` carries tag 3 |
| Types.IsContextualKeyword | src/types.ts:43-45 | true exactly for contextual keywords |
| Types.IsVar | src/types.ts:49-51 | true exactly for `Var` |
| Types.IsConst | src/types.ts:55-57 | true exactly for `Const` |
| Types.IsRecursiveConst | src/types.ts:61-63 | true exactly for `RecursiveConst` |
| Types.TagPredicatesExclusive | src/types.ts:41-63 | each predicate holds on its own constructor's output and on no other |
| TranspileFragments.Concat | src/internal/transpile.ts:320-332 | `concatJsModules` concatenates imports and bodies separately, in argument order |
| TranspileFragments.Cons | src/internal/transpile.ts:320-332 | the imports and bodies of a list headed by `m` start with `m`'s |
| TranspileFragments.ImportsSnoc | src/internal/transpile.ts:320-332 | appending a module appends its imports and body |
| TranspileFragments.Concat2 | src/internal/transpile.ts:320-332 | two modules concatenate field by field |
| TranspileFragments.Concat3 | src/internal/transpile.ts:320-332 | three modules concatenate field by field |
| TranspileFragments.Concat4 | src/internal/transpile.ts:320-332 | four modules concatenate field by field |
| TranspileFragments.Concat5 | src/internal/transpile.ts:320-332 | five modules concatenate field by field |
| TranspileFragments.Concat7 | src/internal/transpile.ts:320-332 | the body of seven concatenated modules is their bodies in order |
| TranspileFragments.ConcatAssociative | src/internal/transpile.ts:325-331 | the pairwise `plus` is associative |
| TranspileFragments.EmptyNeutral | src/internal/transpile.ts:345-355 | the empty module is neutral, and bodies without imports concatenate as strings |
| TranspileFragments.ExtendBodyKeepsImports | src/internal/transpile.ts:334-343 | `extendBody` never changes imports; two extensions compose into one |
| TranspileFragments.StatementsShape | src/internal/transpile.ts:310-318 | the folded block is every statement followed by `;\n`, in the imports as well as in the body, as `appendJsStatement` writes it |
| TranspileFragments.SemicolonsSnoc | src/internal/transpile.ts:310-318 | `appendJsStatement` adds `;\n` to the imports and to the body of the new statement |
| TranspileFragments.JoinedShape | src/internal/transpile.ts:290-308 | a separated list's body is the bodies joined with the separator; its imports are all imports |
| TranspileFragments.JoinedImports | src/internal/transpile.ts:290-308 | a separated list's imports are the concatenation of all imports; separators add none |
| TranspileFragments.TerminatedImports | src/internal/transpile.ts:252-256 | a list with a separator after every item has exactly the items' imports |
| TranspileFragments.TerminatedJoined | src/internal/transpile.ts:252-258 | a non-empty terminated list is the joined list followed by one more separator |
| TranspileFragments.JoinedBodyLeft | src/internal/transpile.ts:296-306 | the left fold of the comma loop gives the joined bodies, with no trailing separator |
| TranspileFragments.JoinSnoc | src/internal/transpile.ts:301-305 | joining one more part adds the separator and the part |
| TranspileFragments.BodyList | src/internal/transpile.ts:320-332 | the bodies of the modules, in order |
| TranspileFragments.AsCall | src/internal/transpile.ts:276-288 | nothing for non-lists and for other heads; otherwise the head symbol's name, or the first property-access segment, and the rest of the list |
| TranspileFragments.AsCallHeadName | src/internal/transpile.ts:276-288 | the name `asCall` returns is the shown head or its first segment |
| TranspileFragments.AtomSrc | src/internal/transpile.ts:153-161 | a string renders as its JSON literal (`Json.Quote`), `undefined` as `void 0`, booleans as `!0`/`!1`, `Integer32` as its decimal, a number as its text, with no imports |
| Environment.Init | src/env.test.ts:14-29 | a fresh environment has the builtins as its only scope, path `[0]` and an empty log |
| Environment.PushOf | src/env.test.ts:34-44 | the k-th push from path p enters path `[k] ++ p` with a new empty scope |
| Environment.PopOf | src/env.test.ts:96-106 | pop drops the innermost scope and path entry and keeps the log |
| Environment.LookupFrom | src/env.test.ts:83-93 | the found scope is the nearest one defining the name; none is found only if no scope defines it |
| Environment.NearestDefinition | src/env.test.ts:83-93 | the nearest defining scope is the one lookup finds |
| Environment.ReferState | src/env.test.ts:21-29 | `referTo` changes only the log; scopes, path and numbering stay |
| Environment.AnyOuterRefIff | src/env.test.ts:365-469 | the recursive scan of the log finds an outer reference exactly when one exists |
| Environment.SetOf | src/env.test.ts:349-360 | `set` touches only the innermost scope: outer scopes, path, log and numbering stay |
| Environment.ReferKeepsLogWf | src/env.test.ts:21-29 | after `referTo` every log entry still records a scope path and the path of an enclosing definition |
| Environment.InitInvariants | src/env.test.ts:14 | the fresh environment satisfies the numbering and log invariants |
| Environment.OperationsKeepNumbering | src/env.test.ts:96-140 | push, pop, set and referTo keep the sibling numbering consistent with the paths |
| Environment.OthersKeepLogWf | src/env.test.ts:34-44 | set, push and pop keep the log well formed |
| Environment.ReferAppendsOne | src/env.test.ts:19-29 | `referTo` returns the nearest definition's writer and appends exactly `{r: current path, e: {s: defining path, i: name}}` |
| Environment.ReferKeepsOtherLogs | src/env.test.ts:46-56 | `referTo` leaves every other name's log unchanged |
| Environment.ReferUnboundFails | src/env.test.ts:19 | `referTo` of an undefined name fails and changes nothing |
| Environment.PushShiftsLookup | src/env.test.ts:35-37 | after a push the same definitions are found one scope further out |
| Environment.PushPopNextSibling | src/env.test.ts:96-106 | push then pop restores scopes and path and counts the child, so the next push enters the next sibling |
| Environment.SetUnreferencedPasses | src/env.test.ts:369-372 | `set` of a never-referred name succeeds and binds it in the innermost scope |
| Environment.SetPassesWithoutOuterReferences | src/env.test.ts:471-490 | `set` succeeds when every earlier reference came from an enclosing scope or resolved inside the current one |
| Environment.SetAfterOuterReferenceFails | src/env.test.ts:374-381 | after referring to an outer name from the current scope, `set` of it fails with the recursive hint, whatever the writer |
| Environment.SetAfterChildOuterReferenceFails | src/env.test.ts:392-401 | a reference from an already popped child scope makes `set` fail just the same, whatever the writer |
| Environment.SetRule | src/env.test.ts:365-469 | `set` (`SetOutcome`) fails exactly when the name's log holds an outer reference from the current scope, always with the recursive hint, and the same way for every writer |
| Environment.ReferRule | src/env.test.ts:13-29 | `referTo` (`ReferResult`) succeeds exactly when some scope defines the name, with the nearest scope's writer and index; otherwise it fails with "No variable `x` is defined!" |
| Environment.Env.constructor | src/env.test.ts:14 | `init` builds the initial state |
| Environment.Env.Push | src/env.test.ts:6-10 | the fields become `PushOf` of the old state |
| Environment.Env.PushInherited | src/lib/base/iteration/unbounded.ts:49 | the fields become `PushOf` of the old state, marked inherited |
| Environment.Env.Pop | src/env.test.ts:6-10 | the fields become `PopOf` of the old state |
| Environment.Env.Lookup | src/env.test.ts:83-84 | the loop finds the nearest scope defining the name |
| Environment.Env.Find | src/lib/base/common.ts:61 | `find` returns the writer of the nearest definition, or nothing |
| Environment.Env.FindWithIsAtTopLevel | src/lib/base/common.ts:296 | the writer together with the index of its defining scope |
| Environment.Env.HasOuterReference | src/env.test.ts:365-469 | the loop over the log decides whether the name was used as an outer variable here or below |
| Environment.Env.IsDefinedInThisScope | src/lib/base/common.ts:160 | true exactly when the innermost scope defines the name (recursive consts aside) |
| Environment.Env.Set | src/env.test.ts:365-490 | outcome and new fields are `SetOutcome` and `SetOf` of the old state, for every writer (`SetRule`) |
| Environment.Env.ReferTo | src/env.test.ts:13-29 | result and new fields are `ReferResult` and `ReferState` of the old state |
| Environment.Env.ReferToAccess | src/internal/transpile.ts:176-180 | resolves the first segment, logs it, then walks the namespace members |
| EnvScenarios.LoggingTestRootAndChild | src/env.test.ts:13-60 | the root references log `[0]`→`[0]`; the first child's references log path `[0, 0]` with defining path `[0]` |
| EnvScenarios.LoggingTestGrandchild | src/env.test.ts:61-130 | in the k-th grandchild every reference logs path `[k, 0, 0]` with the right defining path, and popping counts the child |
| EnvScenarios.LoggingTestNestedDefinition | src/env.test.ts:349-360 | a name set in a nested scope logs that scope's full path as its defining path |
| EnvScenarios.SetRefusesRecursiveReference | src/env.test.ts:366-382 | test 1: both root sets pass, and setting the referred outer name in the child is refused |
| EnvScenarios.SetRefusesRecursiveReferenceFromChild | src/env.test.ts:384-402 | test 2: a reference from a popped grandchild makes the child's set refused |
| EnvScenarios.SetRefusesBackReference | src/env.test.ts:404-433 | test 3: in the child and the grandchild, setting `v0` passes and setting the back-referred `v1` is refused |
| EnvScenarios.SetRefusesBackReferenceFromChild | src/env.test.ts:435-468 | test 4: the same, with the references made from popped inner scopes |
| EnvScenarios.ChildBackReferenceRound | src/env.test.ts:443-453 | one round of test 4: a child's outer reference to `v1` lets `v0` be set and refuses `v1` |
| EnvScenarios.SecondChildRound | src/env.test.ts:454-466 | after the first round of test 4 (`v0` set, `v1` refused), a new child scope is in the first round's position, so the round repeats there |
| EnvScenarios.TwoChildRounds | src/env.test.ts:443-466 | both rounds of test 4 from any scope where `v1` is defined further out and `v0` was referred to only from outside it |
| EnvScenarios.BackReferenceRound | src/env.test.ts:412-420 | one round of test 3: referring here to `v1`, defined further out, lets `v0` be set and refuses `v1` with the `recursive` hint |
| EnvScenarios.TwoBackReferenceRounds | src/env.test.ts:412-431 | both rounds of test 3, the second in a child of the scope of the first |
| EnvScenarios.SetAcceptsInnerReferences | src/env.test.ts:471-490 | test 5: references that were not to outer variables never refuse a set |
| EnvScenarios.ScopePathsOfTheLoggingTest | src/env.test.ts:34-361 | the eleven scopes of the logging test have exactly the paths it expects |
| Grammar.SkipIgnored | src/grammar.ts:6 | skips exactly the run of whitespace and commas |
| Grammar.QuotedBodyEnd | src/grammar.ts:10 | a quoted body stops only at `"`, `\` or the end |
| Grammar.NonSpecialEnd | src/grammar.ts:14 | a bare token runs over non-special characters only |
| Grammar.TokenEnd | src/grammar.ts:16-21 | a token ends within the input |
| Grammar.TokensWellFormed | src/grammar.ts:6-21 | every token is a special character, a quoted string, or a bare run with no separator and no `"` |
| Grammar.TokenizeStep | src/grammar.ts:16-21 | the tokenizer emits the matched token and continues after it |
| Grammar.TokenShape | src/grammar.ts:8-14 | one match of the regular expression is a well-formed token |
| Grammar.Tokenize | src/grammar.ts:6-21 | the text yields no more tokens than it has characters, and every token is well formed: not empty, and free of separators and double quotes unless quoted |
| Grammar.TokenizeFrom | src/grammar.ts:6-21 | from index `i`, at most one token per remaining character |
| Grammar.Unescape | src/grammar.ts:67 | unescaping never lengthens the text and leaves a text without `\` as it is |
| Grammar.QuotedBodyStrips | src/grammar.ts:65-66 | the first character, the body and the last character of a token give the token back; a shorter token has an empty body |
| Grammar.QuotedBodyOfQuoted | src/grammar.ts:65-66 | the body of a text put between double quotes is that text |
| Grammar.ToInt32 | src/grammar.ts:76 | `| 0` is congruent modulo 2^32, exact in the int32 range, and wraps the upper half |
| Grammar.AtomOf | src/grammar.ts:59-63 | `atom` fails exactly on the empty token |
| Grammar.AtomOfErrors | src/grammar.ts:59-98 | the failure is "Unexpected end of input!"; every result is an atom |
| Grammar.AtomOfLiterals | src/grammar.ts:64-85 | strings iff the token has a quote; Integer32 iff integer numeral, valued by ToInt32; Float64 iff fraction numeral; the three reserved words |
| Grammar.AtomOfNames | src/grammar.ts:86-97 | property accesses rejoin to the token; symbols hold the token, which has no `.` |
| Grammar.NumeralsAreBare | src/grammar.ts:69-85 | numerals hold no quote and are not reserved words; integer numerals hold no `.` |
| Grammar.AtomAt | src/grammar.ts:59-63 | a read atom advances the cursor, stays within the tokens and is never a list |
| Grammar.FormAt | src/grammar.ts:27-33 | a successful `form` advances the cursor and stays within the tokens |
| Grammar.ListAt | src/grammar.ts:35-57 | a successful `list` advances the cursor and yields a list |
| Grammar.ItemsAt | src/grammar.ts:42-56 | the item loop, on success, advances the cursor and yields a list |
| Grammar.AtomsOf | src/grammar.ts:59-98 | one atom per atom token |
| Grammar.FlatItems | src/grammar.ts:42-56 | atoms up to `)` read as the list of those atoms, in order |
| Grammar.AtomStep | src/grammar.ts:48-52 | each item read is appended after the earlier ones |
| Grammar.FlatList | src/grammar.ts:35-57 | `( a1 … an )` reads as the list of the atoms, consuming n + 2 tokens |
| Grammar.ShiftList | src/grammar.ts:35-57 | reading a list depends only on the tokens from the cursor on |
| Grammar.ShiftForm | src/grammar.ts:27-33 | reading a form depends only on the tokens from the cursor on |
| Grammar.ShiftItems | src/grammar.ts:42-56 | reading items depends only on the tokens from the cursor on |
| Grammar.Scanner.constructor | src/grammar.ts:27 | a cursor at the first token |
| Grammar.Scanner.Peek | src/grammar.ts:28 | the token at the cursor, empty at the end |
| Grammar.Scanner.Next | src/grammar.ts:36 | the token at the cursor, and the cursor advances unless at the end |
| Grammar.ReadForm | src/grammar.ts:27-33 | the method's result and cursor are those of `FormAt` |
| Grammar.ReadList | src/grammar.ts:35-57 | the `while (true)` loop's result and cursor are those of `ListAt` |
| Grammar.ReadAtom | src/grammar.ts:59-98 | the result and cursor are those of `AtomAt` |
| Grammar.TokenizeEnd | src/grammar.ts:16-21 | only separators left yields no more tokens |
| Grammar.TokenizesInteger | packages/test/src/reader.test.ts:9-14 | `123` and `123 ` tokenize to `123` |
| Grammar.ReadsInteger | packages/test/src/reader.test.ts:9-14 | `123` reads as Integer32 123 |
| Grammar.NegativeFractionNumeral | packages/test/src/reader.test.ts:21-22 | `-800.19` is a fraction numeral |
| Grammar.PositiveFractionNumeral | packages/test/src/reader.test.ts:18-19 | `789.1` is a fraction numeral |
| Grammar.ReadsFractions | packages/test/src/reader.test.ts:18-22 | `-800.19` and `789.1` read as Float64 |
| Grammar.TokenizesNegativeFraction | packages/test/src/reader.test.ts:21-22 | `-800.19` is one token |
| Grammar.TokenizesSpacedFraction | packages/test/src/reader.test.ts:18-19 | ` 789.1  ` is the single token `789.1` |
| Grammar.TokenizesEscapedString | packages/test/src/reader.test.ts:30-31 | `   "\\aaa"` is one quoted token |
| Grammar.ReadsEscapedString | packages/test/src/reader.test.ts:30-31 | the quoted `\\aaa` reads as the string `\aaa` |
| Grammar.TokenizesUnclosedList | packages/test/src/reader.test.ts:172-176 | `(p 45` tokenizes to `(`, `p`, `45` |
| Grammar.TokenizesUnclosedString | packages/test/src/reader.test.ts:181-185 | `(p "hello)` tokenizes to `(`, `p`, `"hello)` |
| Grammar.UnterminatedQuoteRunsToTheEnd | src/grammar.ts:10 | an unterminated quote runs to the end of the input |
| Grammar.UnclosedListFails | src/grammar.ts:59-63 | an unclosed list of atoms fails with "Unexpected end of input!" |
| Grammar.UnclosedInputsFail | packages/test/src/reader.test.ts:172-185 | `(p 45` and `(p "hello)` both fail with "Unexpected end of input!" |
| Printer.PrStr | packages/processor/src/printer.ts:3-35 | fails exactly on unprintable forms; a list prints as its printed elements joined by `, ` in brackets; a string as its JSON literal, an integer as its decimal, a symbol as its name, a property access as its segments joined by `.`, the reserved atoms as their words, a number as its text; LiteralArray and LiteralObject fail with their messages |
| Printer.PrStrAll | packages/processor/src/printer.ts:4-6 | every element printed, one string per element |
| Printer.PrStrAllElements | packages/processor/src/printer.ts:4-6 | the k-th printed element is the print of the k-th element |
| Printer.RoundTrip | packages/processor/src/printer.ts:7-27 | reading a printed readable atom gives the atom back |
| Printer.ReservedRoundTrip | packages/processor/src/printer.ts:7-14 | `true`/`false`/`undefined` print as their words and read back |
| Printer.IntegerRoundTrip | packages/processor/src/printer.ts:22-23 | every int32 prints and reads back as itself |
| Printer.StringRoundTrip | packages/processor/src/printer.ts:18-19 | a string without control characters other than newline reads back from its JSON literal |
| Printer.UnescapeEscape | src/grammar.ts:67 | the reader's unescape inverts JSON escaping on such strings |
| Printer.SymbolRoundTrip | packages/processor/src/printer.ts:24-25 | a plain name reads back as its symbol |
| Printer.FractionNumeralHasDot | src/grammar.ts:69 | every fraction numeral contains `.` |
| Printer.PropertyAccessRoundTrip | packages/processor/src/printer.ts:26-27 | segments without `.` or `"` print joined by `.` and read back, unless the text is a numeral |
| Printer.DottedNameIsPropertyAccess | src/grammar.ts:86-92 | a non-numeric token with `.` reads as its split segments |
| Printer.DottedIsNotReserved | src/grammar.ts:79-85 | a token with `.` is not a reserved word |
| Printer.JoinHasSeparator | packages/processor/src/printer.ts:27 | joining two or more parts puts the separator in the text |
| Printer.JoinAvoids | packages/processor/src/printer.ts:27 | joining parts that avoid a character keeps avoiding it |
| Common.IsNonExpressionCall | src/lib/base/common.ts:41-62 | only a call can be a non-expression call, and its head then finds a direct writer |
| Common.NonExpressionCallHead | src/lib/base/common.ts:41-62 | a non-expression call is a list whose head is a symbol or a property access |
| Common.TryToSet | src/lib/base/common.ts:159-169 | passes iff the name is not defined here and `set` accepts it; "already defined" without calling `set`; on success the name is bound to the writer |
| Common.BindParams | src/lib/base/common.ts:337-350 | binding parameters keeps the depth and only moves the environment forward |
| Common.Prelude | src/lib/base/common.ts:314-353 | on success the body is non-empty and exactly one scope was pushed, by `push(isAsync)` |
| Common.BindParamsBinds | src/lib/base/common.ts:337-350 | on success every parameter is a symbol, bound as Var, and the names are collected in order |
| Common.BindParamsKeepsVars | src/lib/base/common.ts:345 | a parameter bound as Var stays bound while later ones are bound |
| Common.PreludeBindsParameters | src/lib/base/common.ts:321-352 | on success one scope is pushed on top of the old ones, inherited exactly when `isAsync`; every parameter is a Var in it, and the text is `(a, b) => {\n` |
| Common.PreludeErrors | src/lib/base/common.ts:321-344 | a non-list parameter form and an empty body fail before the push; a non-symbol parameter fails |
| Common.BindParamsRefuses | src/lib/base/common.ts:338-344 | any non-symbol parameter makes binding fail |
| Common.MutationOf | src/lib/base/common.ts:280-312 | succeeds only for exactly one symbol bound to a Var, and never changes the environment; its errors and texts are `WriterProps.MutationErrors` and `WriterProps.MutationText` |
| WriterProps.MutationErrors | src/lib/base/common.ts:285-302 | a second argument is the "must receive only one symbol" error; otherwise a non-symbol is the "must be a name of a variable" error, and a symbol not found or not bound to a Var is the "declared by `let`" error; it succeeds exactly when none of these holds |
| WriterProps.MutationText | src/lib/base/common.ts:304-311 | for a `let` variable `x`: at the REPL top level the text is `pseudoTopLevelAssignment(x, whenTopRepl(pseudoTopLevelReference(x)))`, elsewhere `otherwise(x)` |
| WriterProps.IncrementLetVariable | src/lib/base/safe.ts:105 | `(incrementF x)` on a `let` variable outside the REPL top level is `x++` |
| Common.ShorthandsInOrder | src/lib/base/common.ts:239-246 | the corrected shorthand step appends `name,` after the pattern so far, keeping source order |
| Common.ShorthandsReversedAsWritten | src/lib/base/common.ts:245 | as written, shorthands `a b` produce `b,a,{}` instead of `{a,b,}` |
| Safe.SafeScope | src/lib/base/safe.ts:109-301 | every name of the safe library is bound to a direct writer except `else`, the contextual keyword with companion `if`; `const`, `let` and `if` are their writers |
| Safe.IsElse | src/lib/base/safe.ts:211 | only a symbol that finds a contextual keyword with companion `if` is `else` |
| Safe.ElseIndex | src/lib/base/safe.ts:210-219 | the index of the first `else`, with none before it; none only if no form is `else` |
| Safe.PartitionElse | src/lib/base/safe.ts:207-225 | both branches are no larger than the forms |
| Safe.PartitionElseSplits | src/lib/base/safe.ts:207-225 | fails iff two forms are `else`, with the "more than once" message; otherwise the forms are the true branch, the `else`, then the false branch, and neither branch holds an `else` |
| Unbounded.RecursiveName | src/lib/base/iteration/unbounded.ts:172-189 | a member passes iff it is a call whose head finds `const` with a symbol first argument; each other case has its message |
| Unbounded.RegisterFrom | src/lib/base/iteration/unbounded.ts:172-194 | registration keeps the depth; the first bad member aborts with its error and no change; a first member whose name `set` refuses aborts with the recursive hint and no change |
| Unbounded.RegisterKeeps | src/lib/base/iteration/unbounded.ts:172-194 | a name registered stays registered while the rest are |
| Unbounded.RegisteredNames | src/lib/base/iteration/unbounded.ts:172-194 | after success every member is a list whose second item is a symbol never referred to as an outer name from here, bound as RecursiveConst |
| TranspileSpec.FailAfter | src/lib/base/iteration/unbounded.ts:70-95 | an error raised after the environment changed keeps those changes |
| TranspileSpec.Refuse | src/internal/transpile.ts:62-65 | an error raised before any change leaves the environment as it was |
| TranspileSpec.Abort | src/internal/transpile.ts:73-75 | an inner error propagates unchanged with the inner state |
| TranspileSpec.Chain | src/internal/transpile.ts:296-306 | two successive runs that keep the scope discipline keep it together |
| TranspileSpec.SymbolSrc | src/internal/transpile.ts:164-190 | symbol and property-access rendering keeps the scope discipline |
| TranspileSpec.ExprWithNext | src/internal/transpile.ts:58-216 | `transpileExpressionWithNextCall` keeps the scope discipline |
| TranspileSpec.AtomEmitted | src/internal/transpile.ts:153-161 | atoms render without touching the environment |
| TranspileSpec.CallForm | src/internal/transpile.ts:62-77 | a call form keeps the scope discipline |
| TranspileSpec.ArraySrc | src/internal/transpile.ts:191-203 | a literal array keeps the scope discipline |
| TranspileSpec.ObjectSrc | src/internal/transpile.ts:204-209 | a key-values form keeps the scope discipline |
| TranspileSpec.Expr | src/internal/transpile.ts:40-49 | `transpileExpression` keeps the scope discipline |
| TranspileSpec.CallOf | src/internal/transpile.ts:79-149 | writer dispatch on the head keeps the scope discipline |
| TranspileSpec.ArgsCall | src/internal/transpile.ts:113-125 | a call's arguments keep the scope discipline |
| TranspileSpec.JoinWithCommaFrom | src/internal/transpile.ts:290-308 | the comma loop keeps the scope discipline |
| TranspileSpec.KeyValuesFrom | src/internal/transpile.ts:218-259 | the object loop keeps the scope discipline |
| TranspileSpec.EntrySrc | src/internal/transpile.ts:224-251 | an object entry keeps the scope discipline |
| TranspileSpec.BlockFrom | src/internal/transpile.ts:261-274 | the block loop keeps the scope discipline |
| TranspileSpec.MapFrom | src/lib/base/safe.ts:243-245 | mapping `transpileExpression` keeps the scope discipline and yields one result per form |
| TranspileSpec.IndentedFrom | src/lib/base/common.ts:373-384 | the indented statement loop keeps the scope discipline |
| TranspileSpec.ReplDestructureFrom | src/lib/base/common.ts:179-227 | REPL destructuring keeps the scope discipline |
| TranspileSpec.ReplDestructureEntry | src/lib/base/common.ts:182-225 | one REPL destructuring entry keeps the scope discipline |
| TranspileSpec.ReplMember | src/lib/base/common.ts:198-208 | the member access of a REPL destructuring keeps the scope discipline |
| TranspileSpec.AssigneeFrom | src/lib/base/common.ts:239-269 | the destructuring loop keeps the scope discipline |
| TranspileSpec.AssigneeEntry | src/lib/base/common.ts:240-268 | one destructuring entry keeps the scope discipline (shorthand order and pair reading corrected, see Findings) |
| TranspileSpec.PairEntryAsWritten | src/lib/base/common.ts:248-267 | the pair step as written, reading the first two entries of the whole form, keeps the scope discipline |
| TranspileSpec.DestructuringPattern | src/lib/base/common.ts:237-270 | the `{…}` pattern keeps the scope discipline |
| TranspileSpec.NamedAssignee | src/lib/base/common.ts:231-236 | succeeds iff the name is not defined here and `set` accepts it, emitting the name and binding it; "already defined" changes nothing |
| TranspileSpec.Assignee | src/lib/base/common.ts:230-274 | an assignee keeps the scope discipline |
| TranspileSpec.Declare | src/lib/base/common.ts:157-278 | a declaration's binding keeps the scope discipline |
| TranspileSpec.LocalDeclare | src/lib/base/common.ts:230-275 | a non-REPL declaration keeps the scope discipline |
| TranspileSpec.ReplDeclare | src/lib/base/common.ts:171-228 | a REPL top-level declaration keeps the scope discipline |
| TranspileSpec.Declaration | src/lib/base/common.ts:129-145 | `const`/`let` keep the scope discipline |
| TranspileSpec.AssignOf | src/lib/base/safe.ts:171-181 | `assign` keeps the scope discipline |
| TranspileSpec.ReturnOf | src/lib/base/safe.ts:66-81 | `return` keeps the scope discipline |
| TranspileSpec.WhenOf | src/lib/base/safe.ts:83-103 | `when` keeps the scope discipline |
| TranspileSpec.Transpiling1Of | src/lib/base/common.ts:64-97 | a unary writer keeps the scope discipline |
| TranspileSpec.Transpiling2Of | src/lib/base/common.ts:99-117 | a binary writer keeps the scope discipline |
| TranspileSpec.IfOf | src/lib/base/safe.ts:199-241 | `if` keeps the scope discipline |
| TranspileSpec.IfBranches | src/lib/base/safe.ts:243-265 | the branches of `if` keep the scope discipline |
| TranspileSpec.ScopeOf | src/lib/base/safe.ts:184-197 | `scope` only moves the environment forward and on success leaves the scope depth as it found it |
| TranspileSpec.BuiltScopeOf | src/lib/base/common.ts:435-452 | `buildScope` keeps the scope discipline; its `isAsync` is handed to `buildFn` |
| TranspileSpec.FnOf | src/lib/base/common.ts:360-405 | `buildFn` restores the scope depth on success |
| TranspileSpec.FnBody | src/lib/base/common.ts:372-404 | the statements of `buildFn` restore the depth on success |
| TranspileSpec.FnReturn | src/lib/base/common.ts:386-404 | the last statement of `buildFn` restores the depth on success |
| TranspileSpec.LastReturn | src/lib/base/common.ts:393-404 | the returned last statement pops the function's scope on success |
| TranspileSpec.ProcedureOf | src/lib/base/common.ts:407-433 | `buildProcedure` restores the scope depth on success |
| TranspileSpec.ProcedureBody | src/lib/base/common.ts:419-432 | the procedure's statements restore the depth on success |
| TranspileSpec.ArrayOf | src/lib/base/safe.ts:292-298 | `array` keeps the scope discipline |
| TranspileSpec.LoopBody | src/lib/base/iteration/unbounded.ts:51-57 | a loop body pops the inherited scope on success |
| TranspileSpec.WhileOf | src/lib/base/iteration/unbounded.ts:25-60 | `while` restores the scope depth on success |
| TranspileSpec.WhileLoop | src/lib/base/iteration/unbounded.ts:44-57 | the body of `while` restores the depth on success |
| TranspileSpec.ForOf | src/lib/base/iteration/unbounded.ts:62-121 | `for` restores the scope depth on success |
| TranspileSpec.ForHeader | src/lib/base/iteration/unbounded.ts:97-103 | the initialiser of `for` keeps the scope discipline |
| TranspileSpec.ForCondition | src/lib/base/iteration/unbounded.ts:104-107 | the condition of `for` keeps the scope discipline |
| TranspileSpec.ForFinal | src/lib/base/iteration/unbounded.ts:108-118 | the final expression and body of `for` restore the depth on success |
| TranspileSpec.ForEachOf | src/lib/base/iteration/unbounded.ts:123-164 | `forEach` restores the scope depth on success |
| TranspileSpec.ForEachVariable | src/lib/base/iteration/unbounded.ts:138-141 | the loop variable of `forEach` keeps the scope discipline |
| TranspileSpec.ForEachRest | src/lib/base/iteration/unbounded.ts:143-161 | the iterable and body of `forEach` restore the depth on success |
| TranspileSpec.RecursiveOf | src/lib/base/iteration/unbounded.ts:166-199 | `recursive` keeps the scope discipline; its registration and refusals are stated by `RecursiveRegistersFirst` and `RecursiveRefusesOuterName` |
| TranspileSpec.InvokeDirect | src/lib/base/safe.ts:109-298 | every direct writer of the safe library keeps the scope discipline |
| TranspileProps.EntriesFrom | src/internal/transpile.ts:223-251 | one result per entry, keeping the scope discipline |
| TranspileProps.SeparatedStep | src/internal/transpile.ts:301-305 | a comma after each item gives the terminated list; none after the last gives the joined list |
| TranspileProps.StatementsStep | src/internal/transpile.ts:271 | `appendJsStatement` extends the statement list by one |
| TranspileProps.JoinWithCommaLast | src/internal/transpile.ts:301-302 | the last item is appended without a comma |
| TranspileProps.JoinWithCommaJoined | src/internal/transpile.ts:290-308 | the comma loop fails as the map fails, else it is the results joined by `,` with no trailing comma |
| TranspileProps.KeyValuesTerminated | src/internal/transpile.ts:222-257 | the object loop fails as its entries fail, else it is the entries each followed by `,` |
| TranspileProps.BlockStatements | src/internal/transpile.ts:261-274 | the block fails at the first failing statement, else it is every statement followed by `;\n` |
| TranspileProps.IndentedStep | src/lib/base/common.ts:378-383 | one more `  <src>;\n` line extends the indented body by that statement |
| TranspileProps.IndentedStatements | src/lib/base/common.ts:373-384 | the indented loop fails as the map fails, else it is the head followed by each statement as `  <src>;\n` |
| WriterProps.EmptyCallRefused | src/internal/transpile.ts:62-65 | an empty call fails with "Invalid function call: empty" and changes nothing |
| WriterProps.AtomRendered | src/internal/transpile.ts:153-161 | atoms render by `AtomSrc` with no next call and no change |
| WriterProps.SymbolRendered | src/internal/transpile.ts:164-175 | a symbol logs one reference; it succeeds iff found, emitting its name or the REPL pseudo reference, with its writer as the next call |
| WriterProps.PropertyAccessRendered | src/internal/transpile.ts:176-190 | a property access succeeds iff it resolves, emitting the `.`-joined segments or the REPL pseudo reference |
| WriterProps.LiteralArrayRendered | src/internal/transpile.ts:191-203 | a literal array is `[`, the elements joined by `,`, `]` |
| WriterProps.KeyValuesRendered | src/internal/transpile.ts:204-209 | a key-values form is `{`, each entry followed by `,`, `}` |
| WriterProps.ShorthandEntry | src/internal/transpile.ts:225-234 | a shorthand entry is its name, or `k: <pseudo ref>` at the REPL top level; it fails iff the name is unbound |
| WriterProps.ArgsCallJoined | src/internal/transpile.ts:113-125 | a call is its opening, the arguments joined by `,`, and `)` |
| WriterProps.CallOfJoined | src/internal/transpile.ts:79-141 | non-writer heads call with the arguments joined by `,` after the right opening |
| WriterProps.CallOpenShapes | src/internal/transpile.ts:84-140 | non-symbol heads open `(head)(`, function-with-env heads `head.call(CU_ENV,`, variables `head(` |
| WriterProps.CallOfRefusedHead | src/internal/transpile.ts:96-110 | a contextual keyword head fails naming its companion; a namespace head fails as just a namespace |
| WriterProps.CallOfDirectWriter | src/internal/transpile.ts:143-147 | a direct writer head is invoked on the unevaluated arguments and its result is returned unchanged |
| WriterProps.DeclarationChecks | src/lib/base/common.ts:129-139 | a third argument and a target that is neither symbol nor key values are errors, before any change |
| WriterProps.DeclarationValueFirst | src/lib/base/common.ts:141-145 | the value is transpiled first; its error aborts, else the declaration binds |
| WriterProps.DeclareSymbol | src/lib/base/common.ts:150-278 | off the REPL top level, declaring `x` succeeds iff it is not defined here and `set` accepts it, emitting `keyword x = e` and binding `x` |
| WriterProps.DeclareSymbolRefused | src/lib/base/common.ts:159-164 | declaring a name already defined here fails "already defined" and changes nothing |
| WriterProps.LocalDeclareSymbol | src/lib/base/common.ts:231-236 | the local declaration fails as binding fails, else it is `keyword x = e`; it succeeds iff `x` is not defined here and `set` accepts it, binding `x` in the innermost scope |
| WriterProps.DeclareSymbolAtRepl | src/lib/base/common.ts:171-178 | at the REPL top level the declaration binds `x` and emits the pseudo top-level assignment |
| WriterProps.AssignSymbol | src/lib/base/safe.ts:171-181 | `assign` to a Const fails with "NOT declared by `let`", otherwise emits `x = e` |
| WriterProps.AssignChecks | src/lib/base/common.ts:129-139 | `assign` rejects a third argument and a bad target before any change |
| WriterProps.ReturnShapes | src/lib/base/safe.ts:66-81 | `return` for no argument, `return e` for one, an error for more |
| WriterProps.WhenShape | src/lib/base/safe.ts:83-103 | `when` fails on a missing condition or body, else emits `if(c){\n<block>\n}` |
| WriterProps.Transpiling1Order | src/lib/base/common.ts:77-88 | the argument is transpiled first; extra arguments then fail "exactly one expression"; else the template wraps the argument |
| WriterProps.BinaryText | src/lib/base/safe.ts:112-162 | an operator writer's text is `(a op b)` |
| WriterProps.Transpiling2Shape | src/lib/base/common.ts:99-117 | both arguments in order, an error aborting, then `(a op b)` |
| WriterProps.ArrayIsLiteral | src/lib/base/safe.ts:292-298 | `array` emits exactly what a literal array of the same forms emits |
| WriterProps.IfChecks | src/lib/base/safe.ts:199-241 | `if`: the condition first; a second `else` fails; missing forms before or after `else`, or no `else`, fail with their messages |
| WriterProps.IfBranchesText | src/lib/base/safe.ts:243-265 | `if` emits `(c ? t : f)` from the transpiled branches |
| WriterProps.ConditionalTextOf | src/lib/base/safe.ts:249-265 | several true forms become `(t1, t2)`, false forms are joined by `, ` |
| WriterProps.BuildFnSteps | src/lib/base/common.ts:360-385 | prelude, then every statement but the last indented; each error aborts |
| WriterProps.FnReturnRefused | src/lib/base/common.ts:386-392 | a non-expression last statement fails naming its head |
| WriterProps.FnReturnText | src/lib/base/common.ts:393-404 | on success the function ends `  return <last>;\n}` and its scope is popped |
| WriterProps.FnReturnAborts | src/lib/base/common.ts:393-396 | a failing last statement aborts with its error |
| WriterProps.LastReturnText | src/lib/base/common.ts:397-404 | the returned last statement is appended as `  return <e>;\n` and closed with `}` after a pop |
| WriterProps.LastReturnAborts | src/lib/base/common.ts:394-396 | the error of the last statement propagates |
| WriterProps.ReturnText | src/lib/base/common.ts:397-404 | the text of the function end is `  return e;\n}` |
| WriterProps.BuildProcedureSteps | src/lib/base/common.ts:407-433 | every form becomes `  <src>;\n` with no `return`, and the scope is popped on success |
| WriterProps.ProcedureBodyText | src/lib/base/common.ts:419-432 | the procedure body is the head, the indented statements and `}`, after a pop |
| WriterProps.LoopBodyText | src/lib/base/iteration/unbounded.ts:51-57 | a loop body is `{statements}` after the header, and the inherited scope is popped |
| WriterProps.WhileChecks | src/lib/base/iteration/unbounded.ts:31-42 | `while` fails on a missing condition or a statement condition, before any change |
| WriterProps.WhileLoopText | src/lib/base/iteration/unbounded.ts:44-57 | the condition is transpiled before `pushInherited`; the header is `while(c)` |
| WriterProps.ForChecks | src/lib/base/iteration/unbounded.ts:70-95 | `for` pushes first, then fails on a missing initialiser, condition or final form, or a statement condition |
| WriterProps.ForHeaderText | src/lib/base/iteration/unbounded.ts:97-103 | the header starts `for(i;` |
| WriterProps.ForConditionText | src/lib/base/iteration/unbounded.ts:104-107 | the condition follows as `c;` |
| WriterProps.ForFinalText | src/lib/base/iteration/unbounded.ts:108-118 | the final expression closes the header `f)` before the body |
| WriterProps.AssigneeSymbol | src/lib/base/common.ts:231-236 | a symbol assignee succeeds iff not defined here and accepted by `set`, emitting the name |
| WriterProps.PairEntryDeclaresValue | src/lib/base/common.ts:248-267 | a pair `key: x` fails with its key's error, else succeeds iff `x` is not defined here and `set` accepts it, adding `key:x,` and binding `x` |
| WriterProps.PairEntryAsWrittenRefusesOnePair | src/lib/base/common.ts:248 | as written, every one-pair pattern is refused, with "undefined is not" a symbol once its key transpiles |
| WriterProps.ForEachBindsConst | src/lib/base/iteration/unbounded.ts:130-141 | the loop variable is bound as Const in the fresh inherited scope |
| WriterProps.ForEachChecks | src/lib/base/iteration/unbounded.ts:130-147 | `forEach` pushes first, then fails on a missing variable, a bad assignee or a missing iterable |
| WriterProps.ForEachRestText | src/lib/base/iteration/unbounded.ts:149-161 | the header is `for(const x of it)` before the body |
| WriterProps.RecursiveRegistersFirst | src/lib/base/iteration/unbounded.ts:166-199 | no members is an error; every name, none referred to as an outer name from here, is registered as RecursiveConst before any member is transpiled; the result is the block |
| WriterProps.RecursiveRefusesOuterName | src/lib/base/iteration/unbounded.ts:190-193 | when `set` refuses the first member's name, `recursive` fails with the recursive hint before transpiling anything |
| WriterProps.RecursiveAfterOuterReference | src/lib/base/iteration/unbounded.ts:190-193 | in `(const g 1) (scope (g) (recursive (const g …) …))` the registration of `g` is refused with the recursive hint |
| Transpile.TranspileExpression | src/internal/transpile.ts:40-49 | the method's result and new environment are those of `Expr` |
| Transpile.TranspileExpressionWithNextCall | src/internal/transpile.ts:58-216 | result and new environment are those of `ExprWithNext` |
| Transpile.TranspileLiteralArray | src/internal/transpile.ts:191-203 | result and environment are those of `ArraySrc` |
| Transpile.TranspileObject | src/internal/transpile.ts:204-209 | result and environment are those of `ObjectSrc` |
| Transpile.TranspileName | src/internal/transpile.ts:164-190 | result and environment are those of `SymbolSrc` |
| Transpile.TranspileCall | src/internal/transpile.ts:62-77 | result and environment are those of `CallForm` |
| Transpile.TranspileCallOf | src/internal/transpile.ts:79-149 | result and environment are those of `CallOf` |
| Transpile.TranspileJoinWithComma | src/internal/transpile.ts:290-308 | the loop's result and environment are those of `JoinWithCommaFrom` from the empty module |
| Transpile.TranspileKeyValues | src/internal/transpile.ts:218-259 | the loop's result and environment are those of `KeyValuesFrom` |
| Transpile.TranspileEntry | src/internal/transpile.ts:224-251 | result and environment are those of `EntrySrc` |
| Transpile.TranspileBlock | src/internal/transpile.ts:261-274 | the loop's result and environment are those of `BlockFrom` |
| Transpile.TranspileEach | src/lib/base/safe.ts:243-245 | the loop's results and environment are those of `MapFrom` |
| Transpile.InvokeDirectWriter | src/internal/transpile.ts:143-147 | result and environment are those of `InvokeDirect` |
| Transpile.TryToSetName | src/lib/base/common.ts:159-169 | result and environment are those of `TryToSet` |
| Transpile.TranspilingForVariableDeclaration | src/lib/base/common.ts:150-278 | result and environment are those of `Declaration` |
| Transpile.DeclareVariable | src/lib/base/common.ts:157-278 | result and environment are those of `Declare` |
| Transpile.DeclareLocally | src/lib/base/common.ts:230-275 | result and environment are those of `LocalDeclare` |
| Transpile.DeclareAtReplTopLevel | src/lib/base/common.ts:171-228 | result and environment are those of `ReplDeclare` |
| Transpile.DestructureAtReplTopLevel | src/lib/base/common.ts:179-227 | the loop's result and environment are those of `ReplDestructureFrom` |
| Transpile.DestructureEntryAtReplTopLevel | src/lib/base/common.ts:182-225 | result and environment are those of `ReplDestructureEntry` |
| Transpile.MemberAtReplTopLevel | src/lib/base/common.ts:198-208 | result and environment are those of `ReplMember` |
| Transpile.RefuseAssignee | src/lib/base/common.ts:135-139 | a target that is neither symbol nor key values fails without change |
| Transpile.AssignName | src/lib/base/common.ts:231-236 | result and environment are those of `NamedAssignee` |
| Transpile.TranspileAssignee | src/lib/base/common.ts:230-274 | result and environment are those of `Assignee` |
| Transpile.DestructureAssignee | src/lib/base/common.ts:237-270 | result and environment are those of `DestructuringPattern` |
| Transpile.DestructureEntries | src/lib/base/common.ts:239-269 | the loop's result and environment are those of `AssigneeFrom` from `{` |
| Transpile.DestructureEntry | src/lib/base/common.ts:240-268 | result and environment are those of `AssigneeEntry` |
| Transpile.WriteAssign | src/lib/base/safe.ts:171-181 | result and environment are those of `AssignOf` |
| Transpile.WriteReturn | src/lib/base/safe.ts:66-81 | result and environment are those of `ReturnOf` |
| Transpile.WriteWhen | src/lib/base/safe.ts:83-103 | result and environment are those of `WhenOf` |
| Transpile.TranspilingForVariableMutation | src/lib/base/common.ts:280-312 | the result is `MutationOf` of the environment, which it does not change: the errors of `WriterProps.MutationErrors` and the texts of `WriterProps.MutationText` |
| Transpile.Transpiling1 | src/lib/base/common.ts:64-97 | result and environment are those of `Transpiling1Of` |
| Transpile.Transpiling2 | src/lib/base/common.ts:99-117 | result and environment are those of `Transpiling2Of` |
| Transpile.PartitionAtElse | src/lib/base/safe.ts:207-225 | the loop with its `elseIsFound` flag computes `PartitionElse` |
| Transpile.WriteIf | src/lib/base/safe.ts:199-267 | result and environment are those of `IfOf` |
| Transpile.WriteIfBranches | src/lib/base/safe.ts:243-265 | result and environment are those of `IfBranches` |
| Transpile.WriteScope | src/lib/base/safe.ts:184-197 | result and environment are those of `ScopeOf` |
| Transpile.BuildScope | src/lib/base/common.ts:435-452 | result and environment are those of `BuiltScopeOf` |
| Transpile.FunctionPrelude | src/lib/base/common.ts:314-353 | result and environment are those of `Prelude` |
| Transpile.BindParameters | src/lib/base/common.ts:336-350 | the parameter loop: result and environment are those of `BindParams` from no names |
| Transpile.BuildFn | src/lib/base/common.ts:360-405 | result and environment are those of `FnOf` |
| Transpile.BuildFnBody | src/lib/base/common.ts:372-404 | result and environment are those of `FnBody` |
| Transpile.FunctionReturn | src/lib/base/common.ts:386-404 | result and environment are those of `FnReturn` |
| Transpile.ReturnLast | src/lib/base/common.ts:393-404 | result and environment are those of `LastReturn` |
| Transpile.TranspileIndented | src/lib/base/common.ts:373-384 | the loop's result and environment are those of `IndentedFrom` |
| Transpile.BuildProcedure | src/lib/base/common.ts:407-433 | result and environment are those of `ProcedureOf` |
| Transpile.BuildProcedureBody | src/lib/base/common.ts:419-432 | result and environment are those of `ProcedureBody` |
| Transpile.WriteArray | src/lib/base/safe.ts:292-298 | result and environment are those of `ArrayOf` |
| Transpile.TranspileLoopBody | src/lib/base/iteration/unbounded.ts:51-57 | result and environment are those of `LoopBody` |
| Transpile.WriteWhile | src/lib/base/iteration/unbounded.ts:25-60 | result and environment are those of `WhileOf` |
| Transpile.WriteFor | src/lib/base/iteration/unbounded.ts:62-121 | result and environment are those of `ForOf` |
| Transpile.WriteForHeader | src/lib/base/iteration/unbounded.ts:97-103 | result and environment are those of `ForHeader` |
| Transpile.WriteForCondition | src/lib/base/iteration/unbounded.ts:104-107 | result and environment are those of `ForCondition` |
| Transpile.WriteForFinal | src/lib/base/iteration/unbounded.ts:108-118 | result and environment are those of `ForFinal` |
| Transpile.WriteForEach | src/lib/base/iteration/unbounded.ts:123-164 | result and environment are those of `ForEachOf` |
| Transpile.WriteForEachVariable | src/lib/base/iteration/unbounded.ts:132-141 | result and environment are those of `ForEachVariable` |
| Transpile.WriteForEachRest | src/lib/base/iteration/unbounded.ts:143-161 | result and environment are those of `ForEachRest` |
| Transpile.WriteRecursive | src/lib/base/iteration/unbounded.ts:166-199 | result and environment are those of `RecursiveOf`, which aborts when `set` refuses a member's name |
| Transpile.RegisterRecursive | src/lib/base/iteration/unbounded.ts:172-194 | the loop, which returns `set`'s error, has the result and environment of `RegisterFrom` |

## Left out

- Input and output, the REPL loop, worker threads and module loading (the callers of the transpiler).
- Float64 values are kept as their decimal text: `Number()` parsing and `toString` normalisation are floating point and are not modelled.
- Grammar.ToInt32: the integer value is reduced exactly; the double rounding of `Number()` above 2^53 is not modelled.
- The regular-expression engine itself: the tokenizer is written by hand from the token pattern's pieces, and the model stops at the first empty match.
- The scanner class of the reader is not part of this model; `Scanner` is a token sequence with a cursor that yields the empty token at the end.
- `src/internal/env.ts`, `cu-env`, `tmpVarOf`, `writerIsAtReplTopLevel` and `pushInherited`'s REPL bookkeeping are not part of this model; their behaviour is the `Host` parameter and the rules stated above.
- The library writers whose source is not part of this model (`break`, `continue`, `import`, namespaces' members) are `External` writers given by the host.
- Json.EscapeChar: characters outside the Basic Multilingual Plane and lone surrogates are treated as ordinary characters.
- EnvScenarios.LoggingTestGrandchild: the forty-step logging test is replayed through its root and first child, one generic grandchild and the nested definition, and its scope paths are checked separately; it is not replayed as one literal sequence.
- The reader's `LiteralArray`, `LiteralObject` and `none` expectations belong to a newer reader than src/grammar.ts, which reads neither `[`/`{` nor `none`.
- The reader's "Unexpected token left!" check for an extra closing parenthesis belongs to the reader's caller, which is not part of this model.
- Promises: every `await` is a sequential call.
- TranspileSpec.AssigneeEntry: the transpiler (`Transpile.DestructureEntry` and the specification functions) appends shorthands after the pattern and reads each pair from itself, as the two Findings rows intend; the text as written is modelled by `Common.AddShorthandAsWritten` and `TranspileSpec.PairEntryAsWritten` and proved to differ, but the transpiler does not run it.

## Findings

| source | as written | input that shows it | evidently intended | confidence | as-written member | corrected member |
|---|---|---|---|---|---|---|
| src/lib/base/common.ts:245 | `extendBody(assignee, `${kvOrSym.v},`)` passes the name as the prefix, so each shorthand is put before the pattern built so far | `(const { a b } o)` outside the REPL, with `o` bound: the pattern text is `b,a,{}` instead of `{a,b,}` | append the name after the pattern, as the pair case does with `concatJsModules` | high, not executed | Common.ShorthandsReversedAsWritten | Common.ShorthandsInOrder |
| src/lib/base/common.ts:248 | `const [k, v] = id.v` reads the key and the value from the first two entries of the whole key-values form, not from the pair being visited | `(const { [a b] } o)` outside the REPL, with `a` (callable), `b` and `o` bound in an enclosing scope: the key is transpiled as the call `a(b)`, the value is the missing second entry, and the declaration fails with "const's assignee must be a symbol, but undefined is not!" | `const [k, v] = kvOrSym`, as the REPL branch (src/lib/base/common.ts:196) does | high, not executed | WriterProps.PairEntryAsWrittenRefusesOnePair | WriterProps.PairEntryDeclaresValue |
