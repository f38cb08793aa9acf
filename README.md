# Angustifolia interpreter core in Dafny

This project models the core of the Angustifolia scripting interpreter (a
C++ interpreter for a small dynamically typed language) across its three
generations, and proves properties of the model:

- **the line processor of the first generation** (`src/parser.cpp`):
  - the entry registry and its lookups (`Order`, `GetRequiredCount`, `RemoveByTemplate`) and the
    keyword/operator tables;
  - the merge pass of `Processor::Build`, which glues raw tokens into tokens;
  - the operator-precedence reduction of a line (`OtherSymbols`, `Assemble`, `RightBracket`,
    `SelfOperator`, `Colon`, the guard and per-line reset of `Start`);
  - the block-control state machine of `ScriptMachine` (`if`/`elif`/`else`, `while`, `end`) and its
    `Run` loop;
- **the meta machine of the second generation** (`src/machine.cpp`):
  - comment stripping and line continuation;
  - the `def ... end` extraction of `PreProcessing`;
  - the argument binding of `MetaProcessing` and `Calling`;
  - the control block (`if`, `case`/`when`, `while`, `continue`, `break`, `end`) and the skip and
    dispatch switch of `Run`;
- **the worker machine of the third generation** (`src/machine_kisaragi.cc`):
  - every `Command*` transition of the top worker and the scope stack;
  - function catching (`InitFunctionCatching`, `FinishFunctionCatching`), `Skipping`, and argument
    generation;
  - the block-removal pass of `Preprocessor`;
- **the built-in types** (`src/base_type.cpp`):
  - array construction, copy, subscript and size;
  - the raw-string subscript;
  - the argument assembly of `FunctionCall`;
- **the analyzer records** (`src/analyzer.h`).

## How the model is organised

Each core file becomes one or more modules:

| module | file |
|---|---|
| `Common` | shared: `Option`/`Result`, `size_t` arithmetic, decimal text |
| `Objects` | shared: tokens, objects, messages, scopes, bindings |
| `Analyzer` | analyzer.dfy |
| `Parser`, `ParserLexer`, `ParserProcessor`, `ParserMachine` | parser_*.dfy |
| `MetaLines`, `MetaDefs`, `MetaMachine` | meta_*.dfy |
| `KisaragiWorker`, `KisaragiCatch`, `KisaragiCalls`, `KisaragiMachine` | kisaragi_*.dfy |
| `BaseType` | base_type.dfy |

The same pattern runs through all of them:

- **Pure code** is a function with lemmas.
- **Code that updates state in place** is a `class` whose methods are proved against a specification function of the old state:
  - the registry `Parser.EntryRegistry`;
  - `ParserProcessor.Processor` with its operand and operator deques;
  - `ParserMachine.ScriptMachine`;
  - `MetaMachine.Machine` with its `ControlBlock`;
  - `KisaragiMachine.Machine` with its worker, instruction and scope stacks.

  Every method ensures that the new state equals a specification function applied to the old state, for example `Top() == IfOrWhile(old(Top()), ...)`. The properties the source promises are lemmas about those functions.
- **Loops** (merge pass, operand collection, header parsing, skipping, argument binding, array filling) are `while`/`for` loops with invariants, proved against the same functions.

**Scopes.** The scope container behind `entry::CreateManager`, `DisposeManager` and `GetCurrentContainer` is a stack of finite maps. The Kisaragi `obj_stack_` is the same. So every transition states how many scopes it opens and closes.

**Undefined behaviour.** Undefined behaviour in the source is `None` in the specification functions, or a precondition of the method that performs it. This covers:
- `top()` or `pop()` on an empty `std::stack`;
- `back()` of an empty deque;
- an index past a vector.

**Observed behaviour.** Several behaviours of the source are modelled as written and stated as lemmas rather than corrected. The source's own defects that were corrected are listed under "## Findings".
- `MetaMachine.IfBlockScopes`: in the second generation an `if` always opens a scope, and an `elif` or `else` that enters opens another, but `end` disposes only one. A false `if` whose later branch runs therefore leaves a scope behind.
- `KisaragiWorker.IfEndDropsScope`: a Kisaragi `if` opens no scope, but its `end` pops one. An if-block therefore drops the scope of the enclosing block.
- `KisaragiWorker.IterationSavesMode`: every iteration of a Kisaragi `while` saves the mode again, because the head runs `SwitchToMode` each time. The mode stack grows by one per iteration.
- `KisaragiWorker.ElifIgnoresValue`: a Kisaragi `elif` enters its branch without looking at its own value.
- `KisaragiCatch.CaughtFunction`: a header with one `optional` marker followed by `variable` is refused with "Variable parameter can be defined only once.", because the check is on the marker count. The least argument count `params.size() - counter` wraps as a `size_t`.
- `BaseType.LastCharacterRefused`: `RawStringGetElement` refuses the index of the last character.

**Constants from headers.** Constants defined in headers outside the core have representative, pairwise distinct spellings: keyword spellings, type ids, reserved names such as `__object`, `__size` and `__case`, and message codes. The array type id that `CommandReturn` uses is taken to be the one of `ArrayConstructor`.

**Helpers outside the core.** These are parameters of the operations that use them:
- the token classifiers (`Kit::GetDataType`, `util::GetTokenType`). The one exception is the blank class of `Kit::GetTokenType`, which the line cleaning of the second generation uses: it is taken to be space, tab, carriage return and newline, the characters `IsBlankStr` tests;
- the per-type object copy (`type::GetObjectCopy`);
- the processing of a line, which gives its result and the scopes it leaves;
- the method list of arrays.

## Model

| member | source | states |
|---|---|---|
| Analyzer.DefaultArgument | src/analyzer.h:23-30 | the default argument is a placeholder with empty data, null token type and a placeholder domain |
| Analyzer.MakeArgument | src/analyzer.h:32-44 | the three-argument constructor stores data, type and token type verbatim, gives the domain `("", AT_HOLDER)`, and the argument is a placeholder exactly when its type is |
| Analyzer.GetMainToken | src/analyzer.h:89-91 | the main token is the line's first token (`front()`); an analyzer without tokens is outside its precondition (`front()` of an empty vector) |
| Analyzer.MainTokenStable | src/analyzer.h:89-91 | tokens added after the first leave the main token unchanged |
| Analyzer.NewAnalyzer | src/analyzer.h:86-103 | a new analyzer is not healthy, holds the given index and has no tokens or output |
| Analyzer.DefaultAnalyzer | src/analyzer.h:86 | the default analyzer is the one with index 0 |
| Common.DecimalRoundTrip | src/machine.cpp:546 | reading back the decimal text `to_string` gives a count yields the count |
| Common.SuffixedNamesDistinct | src/machine.cpp:545-549 | variadic names built as a head followed by distinct counts are distinct |
| Objects.FindObjectSpec | src/machine_kisaragi.cc:393-456 | a name lookup through the scope stack succeeds exactly when some scope binds it, and then returns the innermost binding |
| Objects.BindingMapKeys | src/machine.cpp:534-564 | the names bound are exactly the names inserted |
| Objects.BindingMapFirstWins | src/machine.cpp:534-564 | bindings inserted with `std::map::insert` keep the value of the first insertion of each name |
| Parser.GenericTokenRoundTrip | src/parser.cpp:29-74 | naming a generic token and classifying the name are inverse |
| Parser.GenericNameRoundTrip | src/parser.cpp:29-74 | a name classified as a generic token is that token's name, and the empty name is none |
| Parser.GetOperatorCode | src/parser.cpp:76-91 | a string has an operator code exactly when it is an operator spelling; `=` and `++`/`--` get their own codes |
| Parser.GetGenericProvider | src/parser.cpp:112-117 | a registered control keyword gives its provider, any other gives a provider that is not good |
| Parser.FirstMatchSpec | src/parser.cpp:119-140 | the registry search finds a provider exactly when one matches id, type and size, and then the earliest registered one |
| Parser.OrderResolution | src/parser.cpp:119-140 | `Order` returns the keyword's provider for a control keyword, the `set` provider for `=`, the `binop` provider for any other operator, and otherwise the first matching registered entry |
| Parser.RequiredCountSpec | src/parser.cpp:142-150 | `GetRequiredCount` is the arity of the `set` provider for `=`, of the `binop` provider for any other operator, and 0 for a name `Order` resolves to nothing |
| Parser.RemoveFirstSpec | src/parser.cpp:152-157 | removing by template erases exactly the first equal provider and keeps the others in order (as multisets and positions) |
| Parser.EntryRegistry.Inject | src/parser.cpp:103-105 | registering appends the provider after all earlier ones |
| Parser.EntryRegistry.LoadGenProvider | src/parser.cpp:107-110 | a keyword provider is added only when the keyword has none yet |
| Parser.EntryRegistry.RemoveByTemplate | src/parser.cpp:152-157 | the registry becomes the old one with the first equal provider removed |
| Parser.GetBasicToken | src/parser.cpp:160-172 | each special symbol gets its own class, and every other string is an ordinary token |
| Parser.GetBooleanValue | src/parser.cpp:175-180 | the false literal, `"0"` and `""` are false, and every other string is true |
| Parser.PriorityLevels | src/parser.cpp:602-621 | `=` and `var` bind at 0, comparisons at 1, `+ -` at 2, `* / \` at 3, everything else at 4 |
| Parser.GetHead | src/parser.cpp:652-659 | the head of a tag is its longest prefix without `:`, followed in the tag by `:` when shorter |
| Parser.HeadAndTail | src/parser.cpp:636-659 | a tag splits at its first `:` into head and rest |
| Parser.SplitJoinRoundTrip | src/parser.cpp:636-650 | splitting a tag's fields at `\|` and joining them with `\|` gives the text back |
| Parser.Spilt | src/parser.cpp:636-650 | a tag without `:` has no fields; otherwise the fields, joined with `\|`, are the text after the first `:` with every `:` dropped, and no field contains `\|` |
| ParserLexer.MergePass | src/parser.cpp:499-576 | the merge loop produces exactly the specified token list, or stops at the specified error |
| ParserLexer.MergeIteration | src/parser.cpp:502-575 | one iteration of the loop body equals the specification step on one raw token |
| ParserLexer.CountBrackets | src/parser.cpp:512-513 | brackets open and close the nesting count |
| ParserLexer.CheckBreak | src/parser.cpp:514-531 | outside a literal, a `[` whose preceding token is not an identifier, `]` or `)` stops the loop as an illegal subscript, and a comma preceded by a symbol other than `]`, `)`, `++`, `--` or a quote stops it as an illegal comma |
| ParserLexer.AbsorbToken | src/parser.cpp:533-573 | quotes open and close literals; `.` between integers, `++`, `--`, `<=`, `>=`, `==`, `!=` are glued |
| ParserLexer.ErrorPersists | src/parser.cpp:514-531 | once the loop has broken, later prefixes leave the state unchanged |
| ParserLexer.StepExtends | src/parser.cpp:533-573 | each iteration that does not break appends its raw token, whole, to the last token or as a new token |
| ParserLexer.RunPreservesText | src/parser.cpp:501-576 | while the loop has not broken, its tokens spell the raw tokens read so far and are no more numerous |
| ParserLexer.MergeOutcomeSpec | src/parser.cpp:499-592 | a healthy line's tokens spell the raw tokens in order and are no more numerous; a line is healthy exactly when it has no error message; an open literal makes it unhealthy; the line ends with the message "Bracket/Square Bracket is missing" exactly when its bracket count is not zero, which overrides a comma error found first |
| ParserProcessor.Processor.Build | src/parser.cpp:427-600 | a healthy line keeps its merged tokens with their classes, and their text spells the raw tokens; an unhealthy one keeps no tokens and records its error |
| ParserProcessor.Classify | src/parser.cpp:587-595 | each stored token keeps its text, in order, with the class the classifier gives it |
| ParserProcessor.Processor.Start | src/parser.cpp:1100-1121 | a line that failed to build is refused with its error and nothing is compiled; otherwise the per-line state is reset |
| ParserProcessor.TakeOperands | src/parser.cpp:712-719 | up to `count` operands move off the top in order, stopping at an opening bracket |
| ParserProcessor.OperandsStopAtParen | src/parser.cpp:712-719 | taking all operands stops right above the last `(`, which is then dropped |
| ParserProcessor.OperandsWithoutParen | src/parser.cpp:712-719 | without a `(` every operand is taken |
| ParserProcessor.CommaFromSplit | src/parser.cpp:721-726 | the `var` loop splits the operand deque right above the topmost comma |
| ParserProcessor.Processor.CollectOperands | src/parser.cpp:712-719 | the operand loop of `Assemble` equals `TakeOperands` |
| ParserProcessor.TakeUntilComma | src/parser.cpp:721-726 | the `var` operands are the entries above the topmost comma, which stays on the deque |
| ParserProcessor.Processor.CollectUntilComma | src/parser.cpp:721-726 | the `var` operand loop equals `TakeUntilComma` |
| ParserProcessor.BindCovers | src/parser.cpp:736-775 | every parameter gets a binding and nothing else does |
| ParserProcessor.BindPositional | src/parser.cpp:736-775 | with distinct names, each parameter is bound to its own operand, or an empty object once the operands ran out |
| ParserProcessor.BindLast | src/parser.cpp:736-775 | with distinct names, each pass of the binding loop adds the latest parameter, whose name was not bound before, and keeps every earlier binding |
| ParserProcessor.BindLacks | src/parser.cpp:736-775 | a name that is none of the parameters' names gets no binding |
| ParserProcessor.ReduceArity | src/parser.cpp:728-735 | a fixed-arity callee runs only on exactly its parameter count, an auto-filled one on at least one operand; otherwise the line fails with the source's message |
| ParserProcessor.AssembleUnknownCallee | src/parser.cpp:686-693 | an operator whose callee is unknown is popped and reported as "Activity not found" |
| ParserProcessor.AssemblePops | src/parser.cpp:661-844 | `Assemble` pops the operator deque whenever the line stays healthy |
| ParserProcessor.Processor.Assemble | src/parser.cpp:661-844 | the reduction of the top operator equals `AssembleSpec` on the old stacks, whose `__nop` path is the corrected one of the second finding |
| ParserProcessor.AssembleSpec | src/parser.cpp:661-844 | a reduction that keeps the line healthy pops the operator; no reduction drops a stored temporary object or lowers their count |
| ParserProcessor.Processor.NopReduction | src/parser.cpp:700-709 | the `__nop` reduction of the method equals the corrected `NopReduce` of the second finding; the path as written is undefined on every input |
| ParserProcessor.Processor.CalleeReduction | src/parser.cpp:686-843 | the reduction of a named callee equals `CalleeReduce` |
| ParserProcessor.Processor.Reduction | src/parser.cpp:728-843 | the arity check, binding and run equal `Reduce` |
| ParserProcessor.Processor.RunCallee | src/parser.cpp:800-843 | running the callee equals `Finalize`, which pops the operator and keeps every stored temporary object |
| ParserProcessor.NopCollapse | src/parser.cpp:700-708 | the corrected `__nop` reduction ends with the group's value and never grows the deque |
| ParserProcessor.NopCollapseGroup | src/parser.cpp:700-708 | the `__nop` reduction keeps everything below the last `(` and puts the group's value in place of the rest |
| ParserProcessor.NopPathCounterexample | src/parser.cpp:700-708 | for the line `(1)` the reduction as written reads the back of an empty deque, while the corrected one leaves `1` |
| ParserProcessor.Extras | src/parser.cpp:776-799 | after the parameters `Assemble` keeps every binding made, adds the line index on a `for` line and the operator text for an operator entry, and for a method binds the receiver popped off the operands; a method whose receiver cannot be found is undefined |
| ParserProcessor.Processor.AddExtras | src/parser.cpp:776-799 | the method adds the bindings `Extras` specifies |
| ParserProcessor.CloseGroupSymbols | src/parser.cpp:886-899 | a successful `)` removes the nearest `(`, every operator above it and the callee below it, and nothing else |
| ParserProcessor.RightBracketSymbols | src/parser.cpp:886-899 | the same for `RightBracket` with reductions by `Assemble` |
| ParserProcessor.Processor.RightBracket | src/parser.cpp:886-899 | the method reduces to the nearest `(` as the specification does |
| ParserProcessor.OtherSymbolsPlacement | src/parser.cpp:956-976 | a new operator is pushed on top, or inserted right above the highest entry that stops the scan, so that every entry above it binds tighter |
| ParserProcessor.Processor.OtherSymbols | src/parser.cpp:956-976 | the method places the operator as specified |
| ParserProcessor.Processor.InsertSymbol | src/parser.cpp:961-973 | an operator that binds looser than the top goes in right above the entry that stops the scan, and the operand split point is the one the scan computes |
| ParserProcessor.SelfOpForms | src/parser.cpp:1073-1090 | `++`/`--` push exactly one operator: postfix after an identifier, prefix otherwise |
| ParserProcessor.Processor.SelfOperator | src/parser.cpp:1073-1090 | the method pushes that operator |
| ParserProcessor.Processor.Colon | src/parser.cpp:1092-1098 | a colon is legal only in a `for` line |
| ParserMachine.RootEnters | src/parser.cpp:202-215 | an `if` enters its branch and opens a scope exactly when its value is true, saving the mode either way |
| ParserMachine.BranchEnters | src/parser.cpp:217-230 | an `elif` enters exactly when no branch was taken, the block is skipping and its value is true |
| ParserMachine.LeafEnters | src/parser.cpp:232-249 | an `else` is taken exactly when no earlier branch was, and afterwards a branch was taken |
| ParserMachine.NestedOnlyCounts | src/parser.cpp:310-374 | inside a head opened in skipped code, `elif`, `else` and `end` only move the nesting counter |
| ParserMachine.IfBlockRestores | src/parser.cpp:202-308 | with the corrected `TailSign`, a whole if-block leaves the control state as it found it |
| ParserMachine.LoopRewinds | src/parser.cpp:251-308 | the `end` of a running `while` body rewinds to the head line |
| ParserMachine.LoopRoundTrip | src/parser.cpp:251-308 | a whole loop whose head turns false ends after its `end` with the loop stacks and mode restored |
| ParserMachine.ScriptMachine.ConditionRoot | src/parser.cpp:202-215 | the method's new state is `Root` of the old |
| ParserMachine.ScriptMachine.ConditionBranch | src/parser.cpp:217-230 | the method's new state is `Branch` of the old |
| ParserMachine.ScriptMachine.ConditionLeaf | src/parser.cpp:232-249 | the method's new state is `Leaf` of the old |
| ParserMachine.ScriptMachine.HeadSign | src/parser.cpp:251-280 | the method's new state is `Head` of the old |
| ParserMachine.ScriptMachine.TailSign | src/parser.cpp:282-308 | the method's new state is the corrected `Tail` of the old |
| ParserMachine.ScriptMachine.Run | src/parser.cpp:310-374 | an empty script returns the empty message after resetting the mode, counter, position and health; otherwise the object scope is opened, the lines run as `Iterate` gives them (each line's result and the scopes it leaves, then `Dispatch` on the result's code, which closes blocks with the corrected `Tail` of the first finding, then the next line), and the scope is disposed at the end, a dispose of no scope being undefined |
| ParserMachine.ScriptMachine.MainLoop | src/parser.cpp:323-369 | the main loop equals `Iterate` from the state it starts in, with `end` handled by the corrected `Tail` |
| ParserMachine.ScriptMachine.Turn | src/parser.cpp:324-368 | one line of the main loop takes a run of `Iterate` resumed after `n` lines to the same run resumed after `n + 1`, or ends it with the line's result |
| ParserMachine.ScriptMachine.RunLine | src/parser.cpp:324-368 | one line of the main loop equals `Advance`: the line runs and leaves its scopes, a fatal result stops, otherwise `Dispatch` switches on the code (an `end` by the corrected `Tail`) and the position advances |
| ParserMachine.IterateStops | src/parser.cpp:323-369 | the main loop runs past the last line unless the machine turns unhealthy, a line reports a fatal error, a stack is popped empty or the fuel runs out |
| ParserMachine.LoopFirstEnd | src/parser.cpp:282-308 | the first `end` of a running body records the tail and rewinds to the line before the head |
| ParserMachine.LoopExit | src/parser.cpp:251-308 | a head that turns false jumps to the recorded tail, and the `end` there leaves the loop with its stacks restored |
| ParserMachine.NestedIfEndRewindsLoop | src/parser.cpp:282-308 | as written, the `end` of an `if` inside a running `while` body also rewinds the loop |
| ParserMachine.SkippedIfDropsScope | src/parser.cpp:202-215 | as written, a false `if` opens no scope but its `end` disposes one |
| MetaLines.IsBlankStr | src/machine.cpp:432-440 | a string is blank exactly when every character is a space, tab, carriage return or newline |
| MetaLines.IndentationAndCommentProc | src/machine.cpp:47-79 | the loop computes the cleaned line: indentation and trailing blanks dropped, a comment outside literals cut off |
| MetaLines.CleanEdges | src/machine.cpp:47-79 | a cleaned line is empty or starts and ends with a non-blank character |
| MetaLines.CleanDropsComment | src/machine.cpp:47-79 | nothing from the first `#` outside a literal survives |
| MetaLines.CommentLineIsEmpty | src/machine.cpp:47-79 | a line whose first non-blank character is `#` cleans to the empty line |
| MetaLines.ContinueLine | src/machine.cpp:95-117 | the inner loop appends the following cleaned lines while the text ends in `_`, dropping the `_` |
| MetaLines.MultilineProcessing | src/machine.cpp:81-123 | the logical lines are the specified joins of the cleaned lines, each carrying the index of its first line |
| MetaLines.LinesWithoutContinuation | src/machine.cpp:81-123 | without continuation marks the logical lines are the non-empty cleaned lines, in order, with their own indices |
| MetaLines.LinesWellFormed | src/machine.cpp:81-123 | every logical line is non-empty, starts at a non-empty cleaned line, and does not end in `_`; the line indices rise |
| MetaLines.ContinuationJoins | src/machine.cpp:95-117 | a line ending in `_` outside a literal is joined with the next one |
| MetaDefs.ScanLine | src/machine.cpp:625-655 | one line of the first pass of `PreProcessing` equals `StepDef` |
| MetaDefs.CloseLine | src/machine.cpp:642-650 | the `end` that closes the open `def` records its range in `skipped_idx` and makes the function as `CloseDef` specifies |
| MetaDefs.RemoveRanges | src/machine.cpp:658-668 | the second pass keeps the lines `Kept` specifies, jumping over each recorded range |
| MetaDefs.StepDef | src/machine.cpp:625-655 | after one line of the first pass every recorded range still starts before it ends, and an open `def` lies before the next line |
| MetaDefs.ScanDefs | src/machine.cpp:625-655 | every range the first pass records starts before it ends |
| MetaDefs.Extract | src/machine.cpp:614-655 | every range `PreProcessing` records starts before it ends |
| MetaDefs.RangeMap | src/machine.cpp:647 | the map from the first to the last line of each range sends every start to a later line |
| MetaDefs.ExtractShape | src/machine.cpp:614-655 | after the first pass every range runs from a `def` line to an `end` line, and each function made is made of one range |
| MetaDefs.ScanDefsShape | src/machine.cpp:625-655 | the recorded ranges are in order, disjoint, and run from a `def` line to an `end` line; each function made is made of one range |
| MetaDefs.NestedDefStops | src/machine.cpp:625-655 | a nested `def` stops the pass, and the ranges found before it are still removed |
| MetaDefs.KeptJumps | src/machine.cpp:658-668 | the second pass jumps from the start of a range to the line after its end |
| MetaDefs.KeptCopies | src/machine.cpp:658-668 | the second pass copies a line that starts no range |
| MetaDefs.KeptOutside | src/machine.cpp:658-668 | the second pass keeps exactly the lines outside every range, in order |
| MetaDefs.PreProcessingKeeps | src/machine.cpp:614-671 | after `PreProcessing` the stored lines are exactly those outside the recorded `def ... end` ranges |
| MetaMachine.UnwindFrame | src/machine.cpp:404-430 | unwinding stops at Cycle or at an empty mode stack and changes only the mode, mode stack, condition stack and nested-head count |
| MetaMachine.UnwindPrefix | src/machine.cpp:404-430 | unwinding pops the mode and condition stacks, and every condition it pops becomes a nested head |
| MetaMachine.UnwindLevels | src/machine.cpp:404-430 | unwinding counts exactly the Condition modes among the levels it leaves |
| MetaMachine.ContinueJumps | src/machine.cpp:404-415 | `continue` always ends in CycleJump with the continue flag set |
| MetaMachine.BreakJumpsOnlyInLoop | src/machine.cpp:417-430 | `break` sets CycleJump and the break flag exactly when unwinding reached a loop |
| MetaMachine.RootEnters | src/machine.cpp:262-273 | an `if` saves the mode, opens a scope and enters Condition exactly when its value is true |
| MetaMachine.BranchEnters | src/machine.cpp:275-291 | an `elif` enters exactly when no branch was taken, the block is skipping and its value is true; it ends a running branch |
| MetaMachine.LeafEnters | src/machine.cpp:293-324 | an `else` with a taken branch skips to the end; one without enters and marks the block taken |
| MetaMachine.WhenAtMostOnce | src/machine.cpp:243-260 | `case` saves the mode and waits; `when` runs at most one branch |
| MetaMachine.WhensInBlock | src/machine.cpp:243-260 | after any `when` lines a `case` block is still open with its own condition on top, and nothing else changed |
| MetaMachine.CaseBlockRestores | src/machine.cpp:243-260 | a `case` block closed by its `end` gives the state back whatever `when` lines came between |
| MetaMachine.IfBlockScopes | src/machine.cpp:262-402 | an if-block restores the mode and every stack; its scopes are restored too, except that a false `if` followed by an `elif` or `else` that enters leaves one scope behind |
| MetaMachine.LoopEnds | src/machine.cpp:366-372 | the first `end` of a running body records the tail and rewinds to the line before the head |
| MetaMachine.LoopLeaves | src/machine.cpp:383-391 | the `end` reached by the jump of a false head leaves the loop and gives back the state from before it, with the break flag cleared |
| MetaMachine.LoopRoundTrip | src/machine.cpp:326-402 | a whole loop whose head turns false leaves with the loop stacks and mode restored |
| MetaMachine.BreakLeavesIf | src/machine.cpp:417-430 | a `break` inside an if-block in a loop leaves the block without disposing its scope and counts its `end` as a nested head |
| MetaMachine.SkippedLines | src/machine.cpp:742-774 | outside the jump modes every line is executed; in a jump mode a skipped line changes nothing except counting nested heads |
| MetaMachine.NestedOnlyCounts | src/machine.cpp:815-839 | inside a head counted in skipped code, `elif`, `else` and `end` only move the counter |
| MetaMachine.NamedScopesBind | src/machine.cpp:673-692 | `InitGlobalObject` binds `__name__` to the module name and keeps every other binding and outer scope |
| MetaMachine.IterateStops | src/machine.cpp:736-845 | the main loop runs past the last line unless the machine turns unhealthy, a line reports a fatal error or a stop, or a stack is popped empty |
| MetaMachine.Machine.CaseHead | src/machine.cpp:243-248 | the method's new state is the specified `case` transition |
| MetaMachine.Machine.WhenHead | src/machine.cpp:250-260 | the method's new state is `When` of the old |
| MetaMachine.Machine.ConditionRoot | src/machine.cpp:262-273 | the method's new state is `Root` of the old |
| MetaMachine.Machine.ConditionBranch | src/machine.cpp:275-291 | the method's new state is `Branch` of the old |
| MetaMachine.Machine.ConditionLeaf | src/machine.cpp:293-324 | the method's new state is `Leaf` of the old |
| MetaMachine.Machine.HeadSign | src/machine.cpp:326-355 | the method's new state is `Head` of the old |
| MetaMachine.Machine.TailSign | src/machine.cpp:357-402 | the method's new state is `Tail` of the old |
| MetaMachine.Machine.CloseBlockSign | src/machine.cpp:358-363 | closing a condition or case block pops the condition, restores the mode and disposes a scope |
| MetaMachine.Machine.RewindLoopSign | src/machine.cpp:366-372 | the end of a running body records the tail, rewinds to the head and empties the scope |
| MetaMachine.Machine.ContinueLoopSign | src/machine.cpp:373-381 | the end of a body skipped by `continue` rewinds and runs again |
| MetaMachine.Machine.LeaveLoopSign | src/machine.cpp:383-390 | the end of a skipped body leaves the loop and disposes its scope |
| MetaMachine.Machine.Continue | src/machine.cpp:404-415 | the method's new state is the specified `continue` |
| MetaMachine.Machine.Break | src/machine.cpp:417-430 | the method's new state is the specified `break` |
| MetaMachine.Machine.UnwindModes | src/machine.cpp:404-430 | the unwinding loop equals `Unwind`, and reports the undefined case |
| MetaMachine.Machine.ResetBlock | src/machine.cpp:694-705 | a run starts in Normal mode with empty stacks at line 0 |
| MetaMachine.Machine.PreProcessing | src/machine.cpp:614-671 | the stored lines become those outside the `def ... end` ranges, and the functions made are those ranges' bodies; a nested `def` stops the pass and is recorded by its line, the returned message is not modelled |
| MetaMachine.Machine.InitGlobalObject | src/machine.cpp:673-692 | the scopes become `NamedScopes` of the old ones |
| MetaMachine.Machine.MainLoop | src/machine.cpp:736-845 | the main loop equals `Iterate`: each line is judged or executed in the current control state and scopes, leaves its scopes, and is dispatched on its code |
| MetaMachine.Machine.RunLine | src/machine.cpp:742-845 | one line of the main loop equals `Advance` |
| MetaMachine.Machine.Turn | src/machine.cpp:742-845 | one line of the main loop takes a run of `Iterate` resumed after `n` lines to the same run resumed after `n + 1`, or ends it with the line's result |
| MetaMachine.Machine.Run | src/machine.cpp:720-852 | a run opens and closes its global scope around the main loop, whose result is `Iterate` |
| MetaMachine.BindArguments | src/machine.cpp:534-564 | a variadic call binds the fixed parameters by position, the rest as `head0`, `head1`, ..., their count under `__size` and the receiver last; it is undefined (`None`: an index past `args` or `parms`, or `back()` of an empty vector) when a fixed parameter has no name or no argument, or the entry has no parameter; a normal call is undefined (`None`) exactly when it has fewer arguments than parameters, and surplus arguments are not bound; an auto-fill call binds at most the supplied arguments; a method call with no arguments is undefined (`parms.back()` of an empty vector) |
| MetaMachine.BindVariadic | src/machine.cpp:534-553 | the variadic branch of the binding, with the same refusal and bindings |
| MetaMachine.BindFixed | src/machine.cpp:554-561 | the normal and auto-fill branches of the binding |
| MetaMachine.CallingMap | src/machine.cpp:162-169 | `Calling` binds exactly the parameter names |
| MetaMachine.CallingFirstWins | src/machine.cpp:162-169 | `Calling` binds each parameter name to the object at its first position |
| KisaragiWorker.NonZeroDigitValue | src/machine_kisaragi.cc:265-270 | a digit string reads as a non-zero number exactly when one of its digits is not zero |
| KisaragiWorker.TruthyInteger | src/machine_kisaragi.cc:250-283 | an integer raw string is true exactly when its value is not zero |
| KisaragiWorker.TruthyQuoted | src/machine_kisaragi.cc:250-283 | a quoted raw string is true exactly when it is not empty once unquoted |
| KisaragiWorker.TruthyLiterals | src/machine_kisaragi.cc:250-283 | the boolean literals read as themselves, and a non-string object is true unless it is null |
| KisaragiWorker.IfOrWhileArity | src/machine_kisaragi.cc:326-328 | anything but one argument is "Too many arguments." and changes nothing else |
| KisaragiWorker.IfPushes | src/machine_kisaragi.cc:285-288 | an `if` saves the mode, pushes its truth value and enters exactly when it is true; no scope is opened |
| KisaragiWorker.ElifIgnoresValue | src/machine_kisaragi.cc:313-324 | an `elif` enters its branch exactly when no branch was taken and the block is skipping, whatever its value |
| KisaragiWorker.ElseMarksTaken | src/machine_kisaragi.cc:332-367 | after an `else` the top condition is true, and the `else` runs exactly when no branch ran before |
| KisaragiWorker.ScanWhenMatch | src/machine_kisaragi.cc:425-450 | the guard scan matches exactly when some guard equals the sample with only strings before it |
| KisaragiWorker.ScanWhenFails | src/machine_kisaragi.cc:425-450 | the guard scan fails exactly when a guard that is not a string comes before any matching guard |
| KisaragiWorker.WhenEntersIff | src/machine_kisaragi.cc:393-456 | a `when` enters its branch exactly when the block waits, no branch was taken, and a guard equals the case sample with only strings before it |
| KisaragiWorker.WhenAtMostOne | src/machine_kisaragi.cc:393-456 | once a branch was taken no later `when` enters |
| KisaragiWorker.CaseEndBalanced | src/machine_kisaragi.cc:369-391 | a `case` block that opens and ends gives back the state it started from |
| KisaragiWorker.IfEndDropsScope | src/machine_kisaragi.cc:458-463 | the `end` of an if-block pops the enclosing block's scope |
| KisaragiWorker.ConditionEndPops | src/machine_kisaragi.cc:458-463 | an `end` of a condition or case block pops exactly one condition, one saved mode and one scope |
| KisaragiWorker.LoopEndRewinds | src/machine_kisaragi.cc:465-497 | the end of a running body goes back to the line before the loop head, keeps the scope depth and empties the loop's scope |
| KisaragiWorker.FalseLoopRestores | src/machine_kisaragi.cc:289-312 | a `while` whose first test is false, followed by its `end`, restores the loop stacks, mode and scopes |
| KisaragiWorker.IterationSavesMode | src/machine_kisaragi.cc:289-312 | every `while` test saves the mode again, also at the top of a later iteration |
| KisaragiCatch.HeaderParams | src/machine_kisaragi.cc:115-148 | without a misplaced variadic marker, the parameters are the header entries that are not markers, in order, and the counter is the number of markers; with one, the loop stops with the "twice" or "not last" variadic error |
| KisaragiCatch.VariadicSecondToLast | src/machine_kisaragi.cc:122-135 | an accepted variadic marker is the second-to-last header entry |
| KisaragiCatch.HeaderFlags | src/machine_kisaragi.cc:115-148 | the optional and variadic flags are set exactly when their markers are met |
| KisaragiCatch.CaughtFunction | src/machine_kisaragi.cc:98-157 | an accepted header makes, in the current scope, a function named by its first entry with those parameters, the argument mode of its markers, the least count `params - counter` (wrapping) and the body between header and `end` |
| KisaragiCatch.SkipEnds | src/machine_kisaragi.cc:186-241 | a skip either reaches the end of the instructions with "Expect 'end'" or stops at a stopping segment, recording its position, command and origin; an `end` it stops at leaves no block open |
| KisaragiCatch.SkipSegmentsOnly | src/machine_kisaragi.cc:186-241 | a skip looks only at segments |
| KisaragiCatch.SkipFirstStop | src/machine_kisaragi.cc:186-241 | with no block open and no pending skip, a skip stops at the first stopping segment |
| KisaragiCalls.NormalBindSpec | src/machine_kisaragi.cc:557-578 | a normal call binds exactly when the counts agree, each parameter to its own argument; otherwise it refuses with the source's message |
| KisaragiCalls.AutoFillBindSpec | src/machine_kisaragi.cc:614-641 | an auto-fill call binds exactly when the argument count is between the least count and the parameter count, padding the missing trailing parameters with empty objects |
| KisaragiCalls.AutoSizeCheckSpec | src/machine_kisaragi.cc:580-590 | a variadic call is refused with "Too few arguments." exactly when there are fewer arguments than parameters |
| KisaragiCalls.BindBackAt | src/machine_kisaragi.cc:573-577 | with distinct names, each parameter is bound to its own argument |
| KisaragiCalls.BindBackLoop | src/machine_kisaragi.cc:573-577 | the binding loop binds parameters from the last backwards to the arguments popped from the back |
| KisaragiCalls.GenerateNormal | src/machine_kisaragi.cc:557-578 | `Generate_Normal` equals `NormalBind` |
| KisaragiCalls.GenerateAutoFill | src/machine_kisaragi.cc:614-641 | `Generate_AutoFill` equals `AutoFillBind` |
| KisaragiMachine.ParseHeaderLoop | src/machine_kisaragi.cc:115-148 | the header loop computes `ParseHeader` |
| KisaragiMachine.ScanWhenLoop | src/machine_kisaragi.cc:425-450 | the guard loop computes `ScanWhen` |
| KisaragiMachine.SkipLoop | src/machine_kisaragi.cc:195-240 | the scan loop computes `SkipFrom` |
| KisaragiMachine.NewArray | src/machine_kisaragi.cc:517-521 | the returned array is new and holds the values in order |
| KisaragiMachine.Machine.SetSegmentInfo | src/machine_kisaragi.cc:243-248 | only the top worker changes, to `SegmentInfo` of it |
| KisaragiMachine.Machine.CommandIfOrWhile | src/machine_kisaragi.cc:250-330 | only the top worker and scopes change, to `IfOrWhile` of them |
| KisaragiMachine.Machine.WhileLine | src/machine_kisaragi.cc:289-312 | a `while` line leaves the worker and scopes as `WhileHead` gives them, and no other worker |
| KisaragiMachine.Machine.CommandElse | src/machine_kisaragi.cc:332-367 | only the top worker changes, to `Else` of it |
| KisaragiMachine.Machine.CommandCase | src/machine_kisaragi.cc:369-391 | only the top worker and scopes change, to `OpenCase` of them |
| KisaragiMachine.Machine.CommandWhen | src/machine_kisaragi.cc:393-456 | only the top worker changes, to `When` of it |
| KisaragiMachine.Machine.WhenGuards | src/machine_kisaragi.cc:416-455 | the guards of a `when` in a waiting block with no branch taken change the worker as `When` does |
| KisaragiMachine.Machine.CommandConditionEnd | src/machine_kisaragi.cc:458-463 | only the top worker and scopes change, to `ConditionEnd` of them |
| KisaragiMachine.Machine.CommandLoopEnd | src/machine_kisaragi.cc:465-497 | only the top worker and scopes change, to `LoopEnd` of them |
| KisaragiMachine.Machine.CommandReturn | src/machine_kisaragi.cc:499-528 | without a caller the return is only reported; otherwise the callee's worker, instructions and scope are dropped and the caller receives the empty object, the single value or an array of all values |
| KisaragiMachine.Machine.InitFunctionCatching | src/machine_kisaragi.cc:84-96 | the header strings are appended, an empty list is "Empty argument list.", and the header index is remembered |
| KisaragiMachine.Machine.FinishFunctionCatching | src/machine_kisaragi.cc:98-157 | only the top worker and scopes change, to `FinishCatching` of them |
| KisaragiMachine.Machine.CopyBody | src/machine_kisaragi.cc:111-113 | the copied body is the instructions after the header up to the worker's index, and empty when the index is not past the header |
| KisaragiMachine.Machine.Skipping | src/machine_kisaragi.cc:186-241 | only the top worker changes, to `SkipFrom` of it |
| KisaragiMachine.Machine.GenerateArgs | src/machine_kisaragi.cc:541-555 | the call binds as `CallBind` says, and a refusal is recorded as the top worker's error |
| KisaragiMachine.Machine.RemoveCaughtBlocks | src/machine_kisaragi.cc:693-706 | the current instructions become those `Kept` outside the caught blocks; nothing else changes |
| BaseType.StringFamilyWidens | src/base_type.cpp:18-22 | the string family is the raw, byte and wide strings, one more than a case-block accepts |
| BaseType.CreateArrayCopy | src/base_type.cpp:5-16 | the copy is a new vector of the same length whose element `i` copies element `i` with its type id, methods and token type |
| BaseType.ArrayConstructor | src/base_type.cpp:24-52 | a size that is not positive is "Illegal array size."; otherwise a new array of exactly `size` copies of the initial value, or of empty objects |
| BaseType.ArrayGetElement | src/base_type.cpp:54-64 | a subscript inside the vector gives a reference sharing the vector at that slot; any other is "Subscript is out of range." |
| BaseType.NegativeSubscriptPasses | src/base_type.cpp:54-64 | as written, a negative subscript passes the check and reads outside the vector |
| BaseType.SubscriptAgrees | src/base_type.cpp:54-64 | wherever the code as written is defined, the corrected subscript agrees with it |
| BaseType.ArrayGetSize | src/base_type.cpp:66-69 | the size text reads back as the number of elements |
| BaseType.RawStringGetElement | src/base_type.cpp:88-103 | an index below `size - 1` gives the character as a quoted literal, a negative one throws, any other is "Subscript is out of range." |
| BaseType.RawElementUnquotes | src/base_type.cpp:88-103 | unquoting the element gives the character back |
| BaseType.LastCharacterRefused | src/base_type.cpp:98 | the last character's index is refused |
| BaseType.AssemblingForNormal | src/base_type.cpp:335-355 | it accepts exactly when every parameter finds an argument before the receiver (surplus accepted) and binds parameter `i` to argument `i` and the receiver to the last |
| BaseType.AssemblingForAutoFilling | src/base_type.cpp:319-333 | it always accepts, binding the parameters that find an argument before the receiver, then the receiver |
| BaseType.AssemblingForAutosized | src/base_type.cpp:291-317 | it always accepts, binding all but the last parameter positionally, the rest of the arguments as `head0...`, their count as `__size`, then the receiver |
| BaseType.FunctionCallAsWritten | src/base_type.cpp:357-380 | as written, an auto-filling entry runs both assemblies and is refused with "Argument error." whenever the normal one refuses |
| BaseType.AutoFillFallsThrough | src/base_type.cpp:366-377 | an auto-filling call with fewer arguments than parameters fails the normal check |
| BaseType.FunctionCall | src/base_type.cpp:357-379 | a bad entry is refused; a variadic one assembles variadically; a normal one is refused with "Argument error." exactly when its assembly refuses; an auto-filling one always assembles |
| BaseType.NormalBindsEach | src/base_type.cpp:335-355 | with distinct names, each parameter maps to its own argument and the receiver to the last one |
| BaseType.FillBindsPrefix | src/base_type.cpp:319-333 | auto-filling binds exactly the parameters that find an argument, each to its own |
| BaseType.SizeNameNotSuffixed | src/base_type.cpp:305-314 | a numbered variadic name never collides with `__size` |
| BaseType.VariadicRecordsCount | src/base_type.cpp:291-317 | `__size` maps to the number of numbered arguments |
| BaseType.VariadicBindsNumbered | src/base_type.cpp:305-311 | the `j`-th numbered name maps to the argument after the fixed ones |

## Left out

- Logging and event sinks (`trace::Log`, `trace::AddEvent`, the wall-clock logger): a logged error is an error result or the worker's error field.
- File and console I/O: the `ScriptMachine` and `Machine` constructors, `Terminal`, and the stream, regex, print and wide-string built-ins of `base_type.cpp`.
- `s2ws`/`ws2s` and everything wide-string: they depend on the locale.
- The character-splitting phase of `Processor::Build`: `Kit` is not part of this model, so only the merge pass over a given list of raw tokens is modelled.
- `FunctionTunnel`, `RunAsFunction`, `ResetContainer` and the tail-recursion branch of `Run`: a global function table, recursion into `Run`, and unwinding of containers that are not part of this model.
- The main loops of the Kisaragi `Preprocessor` and `Run`: as written they do not advance on every path, so they never finish. Only the block-removal pass and the individual commands are modelled.
- `FetchObject` and the per-type object copy: Kisaragi commands take their arguments already fetched, and `CommandReturn` returns the value itself rather than a copy.
- KisaragiMachine.Machine.CommandCase: the object the source builds for the case sample with a comma operator is a parameter.
- KisaragiMachine.Machine.FinishFunctionCatching: closure capture is not modelled. The source's guard makes the captured record always empty.
- KisaragiMachine.Machine.GenerateArgs: the binding of a variadic call is not modelled, only its "Too few arguments." check. As written it pops more arguments than it binds and never stores the variadic array.
- The `_` inside a string literal in `MultilineProcessing` makes the source loop forever. That input is `None` in the model.
- ParserMachine.ScriptMachine.Run and MetaMachine.Machine.Run: the run has a fuel bound, so a line program that never ends is cut off after `fuel` lines.
- ParserMachine.ScriptMachine.Run, ParserMachine.ScriptMachine.MainLoop and ParserMachine.ScriptMachine.RunLine: the run closes blocks with the corrected `Tail` of the first finding, not with `TailSign` as written (`TailAsWritten`). An `end` that closes an if-block inside a running `while` body therefore does not rewind the loop, and the `end` of a false `if` disposes no scope.
- ParserProcessor.Processor.Start: only the health guard and the per-line reset are modelled. The token loop that sends each token to its handler is left out, because most of its handlers are not part of this model: `EqualMark`, `Comma`, `LeftSquareBracket`, `RightSquareBracket`, `LeftBracket`, `FunctionAndObject` and `OtherTokens`. Also left out are the "Illegal token." error for a null-typed token, `FinalProcessing`, and the final override to a fatal bad-expression result when the line turned unhealthy. The handlers that are modelled (`OtherSymbols`, `RightBracket`, `SelfOperator`, `Colon`) are stated one by one.
- MetaMachine.Machine.MainLoop, MetaMachine.Machine.Run, ParserMachine.ScriptMachine.MainLoop and ParserMachine.ScriptMachine.Run: running a line is a function parameter. It sees the line's index, the scopes, and the control block in the second generation or the mode in the first, and it returns the result and the new scopes. Effects of a line outside the scopes, such as the entry registry or the function table, are not modelled.
- MetaLines.IndentationAndCommentProc: as written, `last` is read before it is set when the first character is a quote, which is undefined behaviour. The model reads it as NUL, so a leading quote always opens a literal.
- ParserProcessor.BindPositional and ParserProcessor.Extras: the source binds `&` parameters and the method receiver with `Object::Ref`, as aliases of the caller's object. The model binds the object's value, so writes through such a parameter do not reach the caller's object.
- KisaragiWorker.TruthyInteger and KisaragiWorker.NonZeroDigitValue: `stol` throws `out_of_range` for an integer literal wider than `long`. The model reads any digit string, so such a literal is true whenever a digit is not zero.
- MetaMachine.Machine.PreProcessing: the returned message is not modelled. This covers the "Define function in function is not supported." error and the processing result of the last `def` line. The nested `def` is recorded as the scan's `fatal` line and stops the pass.
- BaseType.ArrayConstructor and BaseType.CreateArrayCopy: the per-type copy is a function parameter. Copies of nested arrays are therefore equal values, not independent vectors. Reading the size with `stoi`, the argument type check and the constructor flag are not modelled.
- BaseType.ArrayGetElement: the reference object keeps the element's type id, methods and token type. `Object::Ref` is not part of this model.
- The Kisaragi `SwitchToMode`/`GoLastMode`, `MachineWorker()` and the header constants are not part of this model. They are given the behaviour their names and uses imply.

## Findings

| source | as written | input that shows it | evidently intended | confidence | as-written member | corrected member |
|---|---|---|---|---|---|---|
| src/parser.cpp:282-308 | the loop half of `TailSign` is a second `if`, not `else if`, so an `end` that closes an if-block falls into the loop handling; the block's scope is disposed even when a false `if` opened none | an `if` nested in a running `while` body, closed by its `end` | closing an if-block only restores its state; a scope is disposed only when one was opened | high, not executed | ParserMachine.NestedIfEndRewindsLoop | ParserMachine.IfBlockRestores |
| src/parser.cpp:700-708 | the `__nop` path pushes `tokens.back()` of an empty deque | the line `(1)` | push the group's value `res`, which is saved and never used | high, not executed | ParserProcessor.NopPathCounterexample | ParserProcessor.NopCollapseGroup |
| src/base_type.cpp:54-64 | only `idx < size` is checked | subscript `-1` | refuse negative subscripts too | high, not executed | BaseType.NegativeSubscriptPasses | BaseType.ArrayGetElement |
| src/base_type.cpp:366-377 | the auto-fill case has no `break` and falls into the normal assembly, which refuses missing arguments | calling an auto-filling entry with fewer arguments than parameters | the auto-fill assembly alone decides, and it always accepts | medium, not executed | BaseType.AutoFillFallsThrough | BaseType.FunctionCall |
