# Polyglot transpiler: a verified model of its core

The system takes a Python module and decides, for each piece of it, which target language should implement that piece: Rust, C++, Go or Java. It then produces a rough translation of the piece into that language. The model covers the system's core:

- **Feature analysis** (`Analyzer`). A walk over a piece's syntax tree counts the following:
  - arithmetic operations;
  - I/O calls and other calls;
  - loops and conditionals;
  - classes, coroutines and string constants.

  It also flags naive direct recursion: a call to the name of the function currently being visited.
- **The cost model** (`Decision`). A fixed weight table scores each target language against the feature record. The engine picks the first language with the highest score. When the engine has a neural fallback and the lead of the best score over the runner-up is below 0.1, it reports the contest as inconclusive.
- **The lowering visitors** (`Transpiler`, `RustLowering`, `CppLowering`, `GoLowering`, `JavaLowering`, `Polyglot`).
  - All four visitors share an emitter with an indentation level and a stack of variable scopes.
  - Each visitor turns the statements it knows into lines of its target language and walks through everything else. `transpile` picks a visitor by the language label.
  - Each lowering is a pure function from a tree and an emitter state to the new emitter state. The visitor classes are proved to compute exactly that function.
- **The segment pipeline** (`Segments`, `Markers`, `Heuristic`, `Splitter`, `Comfort`). The pieces of a parsed module pass through three strategies, in order:
  1. splitting at `# SPLIT` marker lines;
  2. a heuristic that tags complex definitions;
  3. a neural strategy.

  A comfort pass at the end merges short neighbouring pieces, as long as the merged span stays under a line bound.
- **Two rules of the command-line driver** (`Reporting`):
  - the feature vector handed to the neural classifier;
  - the name of the file each translated piece is written to.

Some behaviour of the code differs from its documented intent. The model follows the code:

- The heuristic strategy is described as splitting long or complex definitions. The code never splits: it returns the segment itself and, for a too-complex definition, appends the tag `complex`.
- The C++ visitor prints every binary operator other than `*` and `-` as `+`, and drops parentheses.
- The Go visitor prints every binary operator as `+`.
- The Java visitor prints every comparison as `>=`.
- The Java visitor sets the current class name at every class and never restores it. A class nested in a method body therefore renames the outer class's later `__init__` constructors.

## Model

| member | source | states |
|---|---|---|
| Analyzer.FeatureAnalyzer.constructor | src/analyzer.py:22-24 | starts with an all-zero record and no current function |
| Analyzer.FeatureAnalyzer.Analyze | src/analyzer.py:26-29 | resets the record, walks the tree, and returns the record it leaves behind; that record is `Features(tree)` |
| Analyzer.FeatureAnalyzer.Visit | src/analyzer.py:31-83 | dispatching on the node kind performs exactly the walk `Walk` from the current (record, current function) state |
| Analyzer.FeatureAnalyzer.VisitBinOp | src/analyzer.py:31-34 | one more arithmetic operation, then the children |
| Analyzer.FeatureAnalyzer.VisitCall | src/analyzer.py:36-53 | counts an I/O call or another call by callee name, sets the recursion flag on a call to the current function's name, then the children |
| Analyzer.FeatureAnalyzer.VisitLoop | src/analyzer.py:55-61 | `for` and `while` each count one loop, then the children |
| Analyzer.FeatureAnalyzer.VisitIf | src/analyzer.py:63-65 | one more conditional, then the children |
| Analyzer.FeatureAnalyzer.VisitAsyncFunctionDef | src/analyzer.py:67-69 | one more coroutine, then the function-definition handling |
| Analyzer.FeatureAnalyzer.VisitFunctionDef | src/analyzer.py:71-74 | the body is walked with the definition's name current, and afterwards no name is current |
| Analyzer.FeatureAnalyzer.VisitClassDef | src/analyzer.py:76-78 | one more class, then the children |
| Analyzer.FeatureAnalyzer.VisitConstant | src/analyzer.py:80-83 | a string constant counts one string operation |
| Analyzer.FeatureAnalyzer.GenericVisit | src/analyzer.py:34 | the children are walked in field order |
| Analyzer.WalkCounts | src/analyzer.py:31-83 | each counter a walk produces is the starting counter plus the number of matching nodes in the tree, whatever the order and the current function |
| Analyzer.FeaturesCount | src/analyzer.py:26-29 | every counter of `analyze(tree)` equals a plain count of nodes: BinOp, I/O call, For/While, If, other call, ClassDef, AsyncFunctionDef, string constant |
| Analyzer.CallsCountedOnce | src/analyzer.py:44-48 | every call is counted exactly once, as I/O or as another call |
| Analyzer.WalkMonotone | src/analyzer.py:31-83 | a walk never decreases a counter and never clears the recursion flag |
| Analyzer.RecursionSticky | src/analyzer.py:50-51 | once the recursion flag is set, it stays set |
| Analyzer.CurrentAfterWalk | src/analyzer.py:71-74 | after a walk, no name is current if the tree contains a function definition; otherwise the name current before the walk still is |
| Analyzer.SelfCallDetected | src/analyzer.py:50-51 | with a non-empty current name and no nested definition, a call to that name sets the flag |
| Analyzer.DirectRecursionDetected | src/analyzer.py:50-51 | a function that calls itself with no nested definition is flagged recursive |
| Analyzer.RecursionNeedsNamedCall | src/analyzer.py:50-51 | soundness: the flag is only set because of a call to a non-empty name that was current or is defined in the tree |
| Analyzer.NestedDefHidesSelfCall | src/analyzer.py:71-74 | a nested definition resets the current name, so the outer function's later self-call goes undetected |
| Analyzer.CallStatementWithoutCurrent | src/analyzer.py:50-51 | outside any function, a call never sets the flag |
| Decision.TableShape | src/decision_engine.py:10-23 | the table has exactly the four languages, all with positive weights |
| Decision.ScoreAtLeastBase | src/decision_engine.py:26-44 | a score is at least ten times the language's base cost |
| Decision.ScoreMonotone | src/decision_engine.py:26-44 | more of every feature never lowers a score |
| Decision.ScoreIgnoresConditionalsAndCalls | src/decision_engine.py:26-44 | the number of conditionals and other calls does not affect any score |
| Decision.FirstMaxIndex | src/decision_engine.py:57 | the index of the first maximum: no value is larger, no earlier value is equal |
| Decision.Max | src/decision_engine.py:58 | the maximum occurs in the list and bounds every value |
| Decision.SortDescCorrect | src/decision_engine.py:61 | sorting in reverse gives a descending permutation of the scores |
| Decision.SortedUnique | src/decision_engine.py:61 | any two descending permutations of the same values are equal |
| Decision.SortDescTopTwo | src/decision_engine.py:61-62 | the two first sorted values are the maximum and the maximum of the rest |
| Decision.BestIsFirstMaximum | src/decision_engine.py:52-58 | the chosen language has the highest score, and is the first such in table order |
| Decision.MarginIsLead | src/decision_engine.py:61-62 | the margin is the best score's smallest lead over any other language, and that lead is attained |
| Decision.DecideNoneIff | src/decision_engine.py:64-66 | the engine reports inconclusive if and only if it has the fallback and some other language is within 0.1 of the best |
| Decision.DecideWithoutFallback | src/decision_engine.py:64-68 | without the fallback, the engine always returns the best language and all scores |
| Decision.TieRequestsFallback | src/decision_engine.py:64-66 | a tie with the fallback enabled is always inconclusive |
| Decision.OneClassPicksJava | src/decision_engine.py:10-44 | interim scores for a single class; Java wins clearly |
| Decision.ArithmeticLoopsPickRust | src/decision_engine.py:10-44 | interim scores for one operation in three loops; Rust wins with a lead of 0.5 |
| Decision.EmptyRecordPicksRust | src/decision_engine.py:10-68 | an empty record picks Rust with a lead of 0.5, even with the fallback |
| Decision.DecisionEngine.constructor | src/decision_engine.py:47-48 | records the fallback flag |
| Decision.DecisionEngine.Decide | src/decision_engine.py:50-68 | the loop over the table computes `DecisionOf`, the decision described by the lemmas above |
| Transpiler.Pad | src/polyglot.py:33-37 | four spaces per level, none for level 0 or below |
| Transpiler.DefinedPush | src/polyglot.py:49-53 | a name is defined in a stack with a new top frame iff it is in that frame or below it |
| Transpiler.DefineMakesDefined | src/polyglot.py:55-56 | defining a name makes it defined and keeps every earlier name defined |
| Transpiler.PopHides | src/polyglot.py:46-47 | after popping a scope, exactly the names of the remaining frames are defined |
| Transpiler.BaseTranspiler.constructor | src/polyglot.py:28-31 | an empty buffer, level 0, one empty global scope |
| Transpiler.BaseTranspiler.Emit | src/polyglot.py:36-37 | appends the text, padded to the current level |
| Transpiler.BaseTranspiler.EnterScope | src/polyglot.py:43-44 | pushes an empty scope |
| Transpiler.BaseTranspiler.ExitScope | src/polyglot.py:46-47 | pops the top scope; an empty stack stays empty |
| Transpiler.BaseTranspiler.IsDefined | src/polyglot.py:49-53 | the loop over the stack answers whether some frame holds the name |
| Transpiler.BaseTranspiler.DefineVar | src/polyglot.py:55-56 | adds the name to the top scope |
| Transpiler.BaseTranspiler.Joined | src/polyglot.py:39-41 | the output text is the buffer joined by newlines |
| Polyglot.Transpile | src/polyglot.py:9-25 | an unsupported label gives the placeholder comment followed by the untouched source |
| Polyglot.TranspileDependsOnTree | src/polyglot.py:9-25 | a supported label's output depends on the tree alone; otherwise the output determines the source |
| Polyglot.ModuleStartsWithBanner | src/polyglot.py:70-71 | a lowered module starts with its language's banner line (Rust here; C++, Go and Java at lines 246-247, 350-351 and 444-445) |
| Polyglot.TranspileCode | src/polyglot.py:9-25 | the dispatch on the label, with a visitor built for the call, returns `Transpile` |
| Polyglot.TranspileRust | src/polyglot.py:13-23 | a fresh Rust visitor returns the joined lowering of the tree |
| Polyglot.TranspileCpp | src/polyglot.py:15-23 | a fresh C++ visitor returns the joined lowering of the tree |
| Polyglot.TranspileGo | src/polyglot.py:17-23 | a fresh Go visitor returns the joined lowering of the tree |
| Polyglot.TranspileJava | src/polyglot.py:19-23 | a fresh Java visitor, with no current class, returns the joined lowering of the tree |
| RustLowering.Op | src/polyglot.py:208-214 | the operator falls back to `?` exactly for power and unnamed operators |
| RustLowering.Cmp | src/polyglot.py:216-243 | a comparison prints as `<=` exactly for `<=` and unnamed comparisons |
| RustLowering.StringRequoted | src/polyglot.py:216-243 | a string constant prints as its text in double quotes |
| RustLowering.UnhandledExpressionsAreZero | src/polyglot.py:216-243 | every other expression prints as `0` |
| RustLowering.ParenthesisedUnlessPow | src/polyglot.py:216-243 | a binary operation is wrapped in parentheses exactly when it is not a power; a power prints as a call of `i32::pow` |
| RustLowering.HasReturnListAny | src/polyglot.py:105-111 | a body has a return iff some statement of it has one |
| RustLowering.HasReturnListIff | src/polyglot.py:105-111 | a body has a return iff one of its statements is a `return`, or an `if` with a return in its branches |
| RustLowering.FunctionHeaderReturnType | src/polyglot.py:86-111 | the signature gets `-> i32` exactly when the body returns |
| RustLowering.FunctionStartsWithHeader | src/polyglot.py:86-103 | a function's first line is its signature at the current level |
| RustLowering.DefineParamsSilent | src/polyglot.py:92-96 | defining the parameters emits nothing and leaves the level alone |
| RustLowering.LowerExtends | src/polyglot.py:69-243 | lowering any statement keeps the earlier lines, indents new lines at least to the current level, restores the level and the scope depth, and only adds names to the top scope |
| RustLowering.DeclareThenRebind | src/polyglot.py:113-139 | the first assignment declares `let mut`, the second rebinds without `let` |
| RustLowering.DivisionIsCastBack | src/polyglot.py:123-139 | a division on the right is cast back with `as i32`, with `let mut` for a new name and without it for a known one |
| RustLowering.ComplexAssignmentSkipped | src/polyglot.py:114-121 | a target that is neither a name nor an attribute emits only the skip comment and defines nothing |
| RustLowering.IfAssignKeepsScopes | src/polyglot.py:189-206 | an `if` leaves the scope stack as it found it |
| RustLowering.IfBranchNamesAreForgotten | src/polyglot.py:189-206 | a name first assigned inside a branch is declared again after the `if` |
| RustLowering.RangeStepDropsHeader | src/polyglot.py:151-175 | `range` with three arguments emits no loop header, only the closing brace |
| RustLowering.RangeFromZero | src/polyglot.py:156-160 | `range(a)` opens the loop with `for v in 0..a {` at the current level |
| RustLowering.RangeFromStart | src/polyglot.py:156-164 | `range(a, b)` opens the loop with `for v in a..b {` at the current level |
| RustLowering.NonRangeLoopVanishes | src/polyglot.py:151-175 | a loop over anything but `range` emits nothing and leaves the state as it was |
| RustLowering.ModuleShape | src/polyglot.py:70-84 | a module starts with its banner, ends with `}` and restores level and scope depth |
| RustLowering.DemoCallsPerKeyword | src/polyglot.py:75-82 | a function gets one demo line in `main` for each of `heavy`, `recursive` and `collatz` in its name |
| RustLowering.UnmatchedGetNoCall | src/polyglot.py:75-82 | statements that are not functions with one of those words in the name add nothing to `main` |
| RustLowering.ExpressionsEmitNothing | src/polyglot.py:39-41 | expressions met by the generic walk emit nothing |
| RustLowering.RustTranspiler.Visit | src/polyglot.py:39-41 | the visit computes `Lower` and returns the joined buffer |
| RustLowering.RustTranspiler.VisitModule | src/polyglot.py:70-84 | computes `Lower` on the module |
| RustLowering.RustTranspiler.EmitDemoCalls | src/polyglot.py:75-82 | the loop over the module body emits exactly `DemoCalls` |
| RustLowering.RustTranspiler.BaseVisitModule | src/polyglot.py:58-61 | each statement of the body in turn, between the two header lines |
| RustLowering.RustTranspiler.VisitFunctionDef | src/polyglot.py:86-103 | computes `Lower` on the function definition |
| RustLowering.RustTranspiler.DefineParameters | src/polyglot.py:92-96 | the parameter declarations, each parameter defined in the top scope |
| RustLowering.RustTranspiler.VisitAssign | src/polyglot.py:113-139 | computes `Lower` on the assignment |
| RustLowering.RustTranspiler.VisitAugAssign | src/polyglot.py:141-145 | computes `Lower` on the augmented assignment |
| RustLowering.RustTranspiler.VisitReturn | src/polyglot.py:147-149 | computes `Lower` on the return |
| RustLowering.RustTranspiler.VisitFor | src/polyglot.py:151-175 | computes `Lower` on the loop |
| RustLowering.RustTranspiler.VisitWhile | src/polyglot.py:177-187 | computes `Lower` on the loop |
| RustLowering.RustTranspiler.VisitIf | src/polyglot.py:189-206 | computes `Lower` on the conditional |
| RustLowering.RustTranspiler.VisitBranch | src/polyglot.py:189-206 | a branch is lowered one level deeper in a scope of its own, which is dropped afterwards |
| CppLowering.Op | src/polyglot.py:330-347 | `*` and `-` are kept; every other operator prints as `+` |
| CppLowering.Cmp | src/polyglot.py:321-328 | a comparison prints as `==` exactly for `==` and unnamed comparisons |
| CppLowering.PrecedenceIsLost | src/polyglot.py:330-347 | `(a + b) * c` and `a + b * c` print the same |
| CppLowering.UnnamedOperatorsAreSums | src/polyglot.py:330-347 | any operator other than `*` and `-` prints as `+` |
| CppLowering.ParamDecls | src/polyglot.py:270 | every parameter is declared `int` |
| CppLowering.LowerKeeps | src/polyglot.py:245-347 | lowering keeps the earlier lines, indents new lines at least to the current level and restores the level and the scope stack |
| CppLowering.FunctionEndsWithFallback | src/polyglot.py:267-278 | a function is its signature, its body, `return 0; // Fallback` and `}` |
| CppLowering.ListProductIsZeroVector | src/polyglot.py:284-301 | `t = [..] * n` becomes a zero vector of size `n` |
| CppLowering.HeadedLines | src/polyglot.py:246-252 | the five header lines, from the banner to `using namespace std;` |
| CppLowering.ModuleShape | src/polyglot.py:246-265 | a module is the header, the body, a `main` that ends in `return 0;`, and `}` |
| CppLowering.DemoCallsPerKeyword | src/polyglot.py:255-262 | a function gets one demo line in `main` for each of `factorial`, `fibonacci` and `power` in its name |
| CppLowering.UnmatchedGetNoCall | src/polyglot.py:255-262 | statements that are not functions with one of those words in the name add nothing to `main` |
| CppLowering.ExpressionsEmitNothing | src/polyglot.py:39-41 | expressions met by the generic walk emit nothing |
| CppLowering.CppTranspiler.Visit | src/polyglot.py:39-41 | the visit computes `Lower` and returns the joined buffer |
| CppLowering.CppTranspiler.VisitModule | src/polyglot.py:246-265 | computes `Lower` on the module |
| CppLowering.CppTranspiler.EmitHeader | src/polyglot.py:247-251 | the banner and the four header lines, in order |
| CppLowering.CppTranspiler.EmitDemoCalls | src/polyglot.py:255-262 | the loop over the module body emits exactly `DemoCalls` |
| CppLowering.CppTranspiler.BaseVisitModule | src/polyglot.py:58-61 | each statement of the body in turn |
| CppLowering.CppTranspiler.VisitFunctionDef | src/polyglot.py:267-278 | computes `Lower` on the function definition |
| CppLowering.CppTranspiler.VisitReturn | src/polyglot.py:280-282 | computes `Lower` on the return |
| CppLowering.CppTranspiler.VisitAssign | src/polyglot.py:284-301 | computes `Lower` on the assignment |
| CppLowering.CppTranspiler.VisitSubscript | src/polyglot.py:303-304 | computes `Lower` on the subscript |
| CppLowering.CppTranspiler.VisitIf | src/polyglot.py:306-319 | computes `Lower` on the conditional |
| CppLowering.CppTranspiler.VisitBranch | src/polyglot.py:306-319 | a branch is lowered one level deeper |
| GoLowering.FormatArgsMatchHoles | src/polyglot.py:416-441 | an f-string has as many format arguments as placeholders |
| GoLowering.StaticFStringKeepsSeparator | src/polyglot.py:416-441 | an f-string with no placeholder still prints with a trailing `, ` |
| GoLowering.EveryOperatorIsPlus | src/polyglot.py:416-441 | every binary operator prints as `+`, so two operations that differ only in their operator print the same |
| GoLowering.OkListConcat | src/polyglot.py:349-441 | a body is accepted iff both of its parts are |
| GoLowering.LowerListConcat | src/polyglot.py:39-41 | lowering a concatenated body lowers its parts in turn |
| GoLowering.LowerKeeps | src/polyglot.py:349-441 | lowering keeps the earlier lines, indents new lines at least to the current level and restores the level and the scope stack |
| GoLowering.HeadedLines | src/polyglot.py:350-356 | the five header lines start with the banner and `package main` |
| GoLowering.ModuleShape | src/polyglot.py:350-364 | a module is the header, the body and a `main` closed by `}` |
| GoLowering.DemoCallIffLog | src/polyglot.py:359-362 | a function or coroutine gets a call in `main` exactly when its name contains `log` |
| GoLowering.UnmatchedGetNoCall | src/polyglot.py:359-362 | statements that are not functions with `log` in the name add nothing to `main` |
| GoLowering.IfIsFlattened | src/polyglot.py:39-41 | an `if` has no handler: both branches are lowered in sequence and the test disappears |
| GoLowering.WhileIsFlattened | src/polyglot.py:39-41 | a `while` has no handler: only its body is lowered |
| GoLowering.OtherCallLeavesBlankLine | src/polyglot.py:374-383 | a call statement other than `print` emits a blank line |
| GoLowering.RangeUsesFirstArgument | src/polyglot.py:385-395 | a `range` loop's header uses the first argument, whatever follows it |
| GoLowering.ExpressionsEmitNothing | src/polyglot.py:39-41 | expressions met by the generic walk emit nothing |
| GoLowering.GoTranspiler.Visit | src/polyglot.py:39-41 | the visit computes `Lower` and returns the joined buffer |
| GoLowering.GoTranspiler.VisitModule | src/polyglot.py:350-364 | computes `Lower` on the module |
| GoLowering.GoTranspiler.EmitHeader | src/polyglot.py:351-355 | the banner, the package clause, the two imports and a blank line |
| GoLowering.GoTranspiler.EmitDemoCalls | src/polyglot.py:359-362 | the loop over the module body emits exactly `DemoCalls` |
| GoLowering.GoTranspiler.BaseVisitModule | src/polyglot.py:58-61 | each statement of the body in turn |
| GoLowering.GoTranspiler.VisitAsyncFunctionDef | src/polyglot.py:366-372 | computes `Lower` on the coroutine |
| GoLowering.GoTranspiler.VisitExpr | src/polyglot.py:374-383 | computes `Lower` on the expression statement |
| GoLowering.GoTranspiler.VisitFor | src/polyglot.py:385-395 | computes `Lower` on the loop |
| GoLowering.GoTranspiler.VisitAssign | src/polyglot.py:397-414 | computes `Lower` on the assignment |
| GoLowering.GoTranspiler.ExprText | src/polyglot.py:416-441 | the recursive rendering returns `Render` |
| GoLowering.GoTranspiler.ExprTexts | src/polyglot.py:416-441 | the loop over arguments returns their renderings in order |
| JavaLowering.Op | src/polyglot.py:547-566 | `-` is kept and every other operator prints as `+` |
| JavaLowering.AttributeIgnoresObject | src/polyglot.py:547-566 | an attribute prints as `this.<attr>`, whatever its object |
| JavaLowering.EveryComparisonIsAtLeast | src/polyglot.py:547-566 | every comparison prints as `>=`, so two comparisons that differ only in their operator print the same |
| JavaLowering.LowerKeeps | src/polyglot.py:443-566 | lowering keeps the earlier lines, indents new lines at least to the current level and restores the level and the scope stack |
| JavaLowering.ModuleShape | src/polyglot.py:444-464 | a module starts with the banner and `public class Main {` and ends with `}` |
| JavaLowering.DemoCallsForExactNames | src/polyglot.py:453-460 | a class gets two demo lines if it is named exactly `EnterpriseCustomerManager`, three if `BankAccount`, none otherwise |
| JavaLowering.UnmatchedGetNoCall | src/polyglot.py:453-460 | statements that are not classes with one of those two names add nothing to `main` |
| JavaLowering.DemoCallsKeeps | src/polyglot.py:453-460 | the demo lines keep the earlier output and are written at the current level |
| JavaLowering.ClassShape | src/polyglot.py:466-480 | a class line, the six fixed fields, its methods, `}` |
| JavaLowering.CurrentClassLeaks | src/polyglot.py:466-480 | the current class name is never restored after a class |
| JavaLowering.ConstructorIgnoresBody | src/polyglot.py:482-508 | an `__init__` is lowered the same whatever its body |
| JavaLowering.ConstructorTakesClassName | src/polyglot.py:482-508 | an `__init__` becomes a public constructor named after the class |
| JavaLowering.NamesAndFreeFunctionsVanish | src/polyglot.py:533-537 | an assignment to a plain name, and a free function, emit nothing |
| JavaLowering.ExpressionsEmitNothing | src/polyglot.py:39-41 | expressions met by the generic walk emit nothing |
| JavaLowering.JavaTranspiler.Visit | src/polyglot.py:39-41 | the visit computes `Lower` and returns the joined buffer |
| JavaLowering.JavaTranspiler.VisitModule | src/polyglot.py:444-464 | computes `Lower` on the module |
| JavaLowering.JavaTranspiler.BaseVisitModule | src/polyglot.py:58-61 | each statement of the body in turn |
| JavaLowering.JavaTranspiler.EmitDemoCalls | src/polyglot.py:453-460 | the demo lines for the collected classes, in order |
| JavaLowering.JavaTranspiler.EmitManagerDemo | src/polyglot.py:454-456 | the two lines that build and print an `EnterpriseCustomerManager` |
| JavaLowering.JavaTranspiler.EmitAccountDemo | src/polyglot.py:457-460 | the three lines that build an account, deposit and withdraw |
| JavaLowering.JavaTranspiler.VisitClassDef | src/polyglot.py:466-480 | computes `Lower` on the class |
| JavaLowering.JavaTranspiler.EmitFields | src/polyglot.py:470-475 | the six fixed field declarations, in order |
| JavaLowering.JavaTranspiler.VisitMethods | src/polyglot.py:476-478 | each plain function of the class body becomes a method, in order; other members are skipped |
| JavaLowering.JavaTranspiler.VisitMethod | src/polyglot.py:482-508 | computes the method's lowering |
| JavaLowering.JavaTranspiler.VisitConstructor | src/polyglot.py:488-499 | an `__init__` becomes a constructor named after the current class, with the canned body |
| JavaLowering.JavaTranspiler.EmitConstructorBody | src/polyglot.py:491-497 | three fixed assignments for `BankAccount`, two for any other class |
| JavaLowering.JavaTranspiler.VisitPlainMethod | src/polyglot.py:500-508 | any other method returns `boolean` for `validate` and `String` otherwise, with its body lowered |
| JavaLowering.JavaTranspiler.MethodParams | src/polyglot.py:482-508 | the parameter declarations, `self` dropped |
| JavaLowering.JavaTranspiler.VisitIf | src/polyglot.py:510-523 | computes `Lower` on the conditional |
| JavaLowering.JavaTranspiler.VisitReturn | src/polyglot.py:525-531 | computes `Lower` on the return |
| JavaLowering.JavaTranspiler.VisitAssign | src/polyglot.py:533-537 | computes `Lower` on the assignment |
| JavaLowering.JavaTranspiler.VisitAugAssign | src/polyglot.py:539-545 | computes `Lower` on the augmented assignment |
| Segments.ParsedModule.constructor | src/parser.py:17-22 | a module's path, source and segments |
| Markers.ChunksAreRuns | src/strategies/markers.py:18-47 | the chunks are, in order, exactly the maximal non-empty runs of non-marker lines, and together they hold every non-marker line |
| Markers.PiecesShape | src/strategies/markers.py:23-47 | each piece has id `<id>_p<k>` and the chunk's lines joined by newlines. It is either an explicit split that ends at its last line, or the last piece, a remainder that ends where the segment ended |
| Markers.RemainderIffNoTrailingMarker | src/strategies/markers.py:39-47 | the last piece is a remainder iff the last line is not a marker |
| Markers.PieceIdsDistinct | src/strategies/markers.py:28-42 | piece ids are distinct |
| Markers.OnlyMarkersGiveNothing | src/strategies/markers.py:23-49 | a segment made only of marker lines yields no piece at all |
| Markers.Apply | src/strategies/markers.py:12-49 | the loop over lines computes `Split` |
| Heuristic.Tagged | src/strategies/heuristic.py:16-57 | only the tags can change, by one `complex` at the end, exactly for a definition whose complexity is above the threshold |
| Heuristic.TagsAgain | src/strategies/heuristic.py:54-55 | applying the strategy twice tags the segment twice |
| Heuristic.UntaggedStable | src/strategies/heuristic.py:16-57 | an untouched segment stays untouched |
| Heuristic.HeuristicStrategy.constructor | src/strategies/heuristic.py:9-11 | records the two bounds, 20 lines and 50 by default |
| Heuristic.HeuristicStrategy.Apply | src/strategies/heuristic.py:16-57 | one piece, `Tagged` of the segment |
| Comfort.MergeAllShape | src/comfort.py:29-36 | a merged run spans from its first to its last segment, joins ids by `_` and code by newlines, and ends its tags with `balanced_merge` |
| Comfort.RunsPartition | src/comfort.py:14-51 | the runs partition the input in order; the output has one segment per run and is empty iff the input is |
| Comfort.RunsWellGrouped | src/comfort.py:21-49 | every merge stayed within the maximum, only a short segment starts a merge, and a run that started short ended because the next merge would exceed the maximum |
| Comfort.ComfortBalancer.constructor | src/comfort.py:10-12 | the bounds, 5 and 50 by default |
| Comfort.ComfortBalancer.Balance | src/comfort.py:14-51 | the loop with its buffer computes `Balanced` |
| Splitter.StageIsConcatenation | src/splitter.py:22-28 | a stage concatenates the segments' pieces in order |
| Splitter.StageConcat | src/splitter.py:24-27 | a stage over two lists is the two stages in turn |
| Splitter.DefaultOrder | src/splitter.py:10-34 | markers, then heuristic (20, 50), then neural, then one comfort pass with 5 and 50 |
| Splitter.HeuristicStageTagsOnly | src/splitter.py:22-28 | the heuristic stage keeps count and order and changes tags only |
| Splitter.MarkerStageUnmarked | src/splitter.py:22-28 | the marker stage leaves a list without markers unchanged |
| Splitter.PipelineSnoc | src/splitter.py:22-28 | one more strategy is one more stage |
| Splitter.SplitterOrchestrator.constructor | src/splitter.py:10-16 | the default strategy order and comfort bounds |
| Splitter.SplitterOrchestrator.ApplyStrategy | src/splitter.py:26 | one strategy's pieces of one segment |
| Splitter.SplitterOrchestrator.RunStage | src/splitter.py:23-28 | the inner loop computes `Stage` |
| Splitter.SplitterOrchestrator.ProcessModule | src/splitter.py:18-34 | the module's segments become `Processed` of the old ones; the same module is returned |
| Strings.NatToStringRoundTrip | main.py:227 | decimal digits read back to the number |
| Strings.SplitOnNewlineJoin | src/strategies/markers.py:18-26 | joining the pieces of a split by newlines gives back the text |
| Reporting.FallbackVector | main.py:186-190 | nine non-negative entries, the recursion flag as 0 or 1 |
| Reporting.FallbackVectorInjective | main.py:186-190 | the vector determines the feature record |
| Reporting.SegmentFileNamesDistinct | main.py:219-227 | distinct results get distinct file names, whatever their languages |
| Reporting.CppFileName | main.py:222-227 | the second result in C++ is written to `segment_1_Cpp.cpp` |

## Left out

- **Parsing and source text.** Parsing Python (`ast.parse`, `CodeParser.parse_source`/`parse_file`, `ast.get_source_segment`) and the complexity estimate are not modelled. A tree and a segment's complexity are inputs.
- **The trees.** They contain only the node kinds the visitors distinguish. Every other kind is one generic node with children.
  - A bare `return` is modelled as a return of an unnamed expression.
  - Tuple targets and multiple assignment targets are not modelled.
  - `for`/`while` `else` clauses are not modelled.
  - A comparison carries only its first operator and operand.
  - A call's keyword arguments (`Call.keywords`) are not modelled. The analyzer would count the calls and string constants inside them; for example, `print("a", end="")` has two string constants there but one in the model.
  - The decorators, argument defaults, argument annotations and return annotation of `FunctionDef` and `AsyncFunctionDef` are not modelled. The analyzer would count the calls and string constants inside them, such as the call in `@cache(maxsize=1)` or the string in `def f(x="s")`.
  - The bases, keywords and decorators of `ClassDef` are not modelled, so the calls and string constants inside them are not counted.
  - The `format_spec` of `FormattedValue` is not modelled, so the string constants inside it are not counted.
  - The analyzer's counts are therefore exact only for trees without these fields.
- **Python exceptions.** Where a visitor would raise, such as `.id` on a non-name or `args[0]` of an empty call, the model has a precondition instead (`Ok`, `Renderable`, `Accepts`). Trees that make the source raise are outside the model.
  - One exception has no precondition. `exit_scope` and `define_var` would raise on an empty scope stack, but `WithoutScope` and `WithVar` leave an empty stack as it is. No visitor reaches an empty stack: every visitor starts with one frame and pops only frames it pushed (`RustLowering.LowerExtends` and the `LowerKeeps` lemmas).
- **The generic walk.** `generic_visit` is modelled as a walk over the children in field order. A node kind without a handler passes through it.
- **The Go `BinOp` branch.** `_expr` has a second `BinOp` branch, and it is unreachable: the first `BinOp` test returns for every `BinOp`. The dead branch would also fail for any operator other than `Mult`, because `op` is then unbound. The model keeps only the reachable branch.
- **I/O and interfaces.** Reading and writing files, `click` output and the command-line interface of main.py are not modelled, except the fallback-vector and file-name rules. Also left out:
  - the generated runner;
  - the HTML, graph and live visualizers and the `visuals` package.

  `visuals_cli.py`, `src/visualizer.py` and `src/html_visualizer.py` are not part of this model.
- **The neural parts.** Both take their weights from a randomly initialised torch network, so they are parameters:
  - the neural strategy's verdict is a function `neural` from a segment to its pieces;
  - the neural classifier is not modelled.
- **Strategy names.** The strategies' `name()` texts are not modelled. Strategies are a datatype rather than subclasses of an abstract base class.
- **Splitter.SplitterOrchestrator.ProcessModule.** Segments are values. The in-place `tags.append` of the heuristic strategy is therefore not seen through other references to the same segment object, and such aliasing is not modelled.
- **Heuristic.HeuristicStrategy.Apply.** The walk over the definition's body reads `end_lineno` but never uses it. The model keeps the walk and leaves out the line check.
- **Python `splitlines`.** It is modelled as splitting at `\n` only, with no trailing empty line. Other line separators such as `\r` are not recognised.
- **Floating point.** Weights and scores are exact reals. Binary floating point can differ from them where a lead is within rounding of 0.1.
- **Integer width.** None applies: Python integers are unbounded, and so are Dafny's.
- **Segments.ParsedModule.** `path` and `source` are constants, because nothing in the core assigns them.
