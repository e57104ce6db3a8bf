# TSLox core in Dafny

A model of the language pipeline of TSLox, a tree-walking interpreter for a small
Lox-style language written in TypeScript, with proofs about it. The model follows the
pipeline's own stages:

- **tokens** (`tokens.dfy`, module `Tokens`) — the token record and the 41 token kinds
  of `src/types.ts`.
- **scanner** (`scanner.dfy`, module `Scanning`) — the cursor-based lexer of
  `src/scanner.ts`, kept as a class with `src`, `start`, `current` and `line` fields and
  a token buffer. Each method is proved to do exactly what a specification function
  (`ScanOne`, `StringStep`, `LexFrom`, …) computes. Properties of a whole scan are
  lemmas about those functions. The scanner's quirks are kept: a `//` comment consumes
  only its two slashes, and a lone `o` vanishes.
- **parser** (`parser.dfy`, module `Parsing`) — the recursive-descent expression parser
  of `src/parser.ts`, kept as a class with a mutable cursor. The parse error that
  escapes through an exception becomes an absent result (`None`). The specification
  functions `ParseTernary`, `ParseLeftAssoc`, `ParseUnary`, `ParsePrimary` and their
  helpers give the cursor and diagnostics after each rule.
- **syntax trees** (`ast.dfy`, module `Ast`) — the expression variants (with the field
  names the parser, resolver, interpreter and printers use) and the thirteen statement
  variants of `src/statements.ts`. Variable and Assign nodes carry a `NodeId`, so the
  resolver's identity-keyed side table is a `map<NodeId, nat>`.
- **debug printers** (`ast_printer.dfy`, `rpn_printer.dfy`) — the prefix and postfix
  (reverse Polish) serialisers, as recursive functions.
- **resolver** (`resolution.dfy`, `resolver.dfy`) — the static pass of
  `src/resolver.ts`:
  - `Resolution` holds specification functions over the resolver's state: the scope
    stack, the current function kind, the diagnostics and the side table.
  - `Resolving.Resolver` is the class. It pushes and pops scopes in place, saves and
    restores `currentFunction`, and writes distances into the interpreter's table with
    a downward loop. Every method is proved equal to its `Resolution` function.
- **environment** (`environment.dfy`, module `Environments`) — `src/environment.ts` as a
  class with `define` and `get`. Separately, an arena of frames supplies the pieces
  that `src/interpreter.ts` uses but `src/environment.ts` lacks (see "Left out").
- **values and evaluation** (`values.dfy`, `evaluation.dfy`) — runtime values,
  truthiness, equality, the operand checks and the expression visitors as total
  functions returning a value or a failure, together with the frames after any
  assignment.
- **statements** (`interpreter.dfy`, module `Interpreting`) — statement execution. The
  control-flow exceptions (break, continue, return, RuntimeError) and `process.exit`
  become an `Outcome`. The `Interpreter` class holds the frames, the current frame
  `env`, the side table `locals`, the printed output and a function counter. Each of
  its methods is proved equal to a specification function (`Exec`, `ExecBlock`,
  `ExecWhile`, …).
- **execution properties** (`execution_props.dfy`) — lemmas about those functions:
  - what running a statement may change;
  - how loops end, and switch selection;
  - declarations, `print`, and block scoping.

Diagnostics are an appended list of `(line, where, message)` records. `where` is `""`
for a lexical error, `at end` at EOF, and otherwise `at 'lexeme'`.

## Model

| member | source | states |
|---|---|---|
| `Tokens.OrdinalInjective` | src/types.ts:19-37 | the enumeration has 41 distinct kinds: distinct kinds have distinct ordinals, and ordinal 40 belongs to EOF alone |
| `Tokens.OrdinalRoundTrip` | src/types.ts:19-37 | every kind is recovered from its numeric enum value |
| `Tokens.TokenToStringKind` | src/types.ts:14-16 | `toString` starts with the kind's number in decimal, then a single space; the kind can be read back from that prefix, and the lexeme follows the space |
| `Common.NatToString` | src/types.ts:15 | a number in a template string is written as non-empty decimal digits with no leading zero |
| `Common.ParseNatToString` | src/types.ts:15 | reading the decimal text of a natural back gives the natural, so the text determines the number |
| `Diagnostics.WhereNamesToken` | src/lox.ts:31-34 | the location text is `at end` exactly when the token is EOF; at any other token the lexeme can be read back from it |
| `Scanning.FindKeyword` | src/scanner.ts:4-21 | a word found in the table gets the kind it is paired with there, and a word not in the table gets none |
| `Scanning.KeywordKinds` | src/scanner.ts:4-21 | the keyword table never maps a word to IDENTIFIER or EOF |
| `Scanning.UnreservedWords` | src/scanner.ts:4-21 | `break`, `continue`, `switch`, `case`, `default` and `exit` have no kind of their own, so they scan as IDENTIFIER |
| `Scanning.Scanner.constructor` | src/scanner.ts:23-32 | a new scanner holds the source, no tokens, cursor 0 and line 1 |
| `Scanning.Scanner.ScanTokens` | src/scanner.ts:34-42 | the loop scans to the end of the input and appends one EOF token with an empty lexeme, a null literal and the final line; the result is the whole scanning loop `LexFrom` |
| `Scanning.Scanner.ScanToken` | src/scanner.ts:44-82 | one call moves the cursor, the line, the tokens and the diagnostics exactly as `ScanOne` says |
| `Scanning.Scanner.ScanSymbol` | src/scanner.ts:47-81 | the punctuation, operator, blank, `/`, `o` and unexpected-character branches do exactly what `SymbolStep` says |
| `Scanning.Scanner.AddToken` | src/scanner.ts:84-92 | appends one token whose lexeme is the source text from `start` to the cursor, on the current line |
| `Scanning.Scanner.Advance` | src/scanner.ts:98-100 | returns the character under the cursor and moves the cursor one place |
| `Scanning.Scanner.Peek` | src/scanner.ts:102-106 | the character `dist` places ahead, or NUL past the end |
| `Scanning.Scanner.Match` | src/scanner.ts:108-114 | consumes one character exactly when it is the expected one, and says whether it did |
| `Scanning.Scanner.ScanString` | src/scanner.ts:116-134 | does exactly what `StringStep` says: a STRING token up to the closing quote, or "Unterminated string." |
| `Scanning.Scanner.SkipToQuote` | src/scanner.ts:117-121 | stops at the next double quote or the end, and counts every newline it passes |
| `Scanning.Scanner.ScanNumber` | src/scanner.ts:148-160 | appends a NUMBER token spanning the number text, whose value is read from that text |
| `Scanning.Scanner.SkipDigits` | src/scanner.ts:149-150 | stops at the end of the run of digits |
| `Scanning.Scanner.ScanIdentifier` | src/scanner.ts:162-169 | appends a token spanning the maximal word, with the keyword kind of that text or IDENTIFIER |
| `Scanning.Emit` | src/scanner.ts:84-92 | the added token's lexeme is exactly the consumed text, and it carries the current line |
| `Scanning.ScanOne` | src/scanner.ts:44-82 | every `scanToken` call consumes at least one character and raises the line count by exactly the newlines it consumed; it adds a token whose lexeme is the consumed text or reports an error, never both |
| `Scanning.StringStep` | src/scanner.ts:116-134 | a string either yields a STRING token or reports "Unterminated string." |
| `Scanning.UnexpectedCharacter` | src/scanner.ts:74-81 | "Unexpected character." is reported exactly for the characters no branch handles; one character is consumed and scanning continues |
| `Scanning.UpperCaseUnexpected` | src/scanner.ts:140-142 | an upper-case letter is not a letter to the scanner: it is an unexpected character |
| `Scanning.StringLiteral` | src/scanner.ts:116-134 | a token exists exactly when a closing quote follows; it spans both quotes and its literal is the text between them; otherwise the rest of the input is consumed and the error is reported |
| `Scanning.TwoCharOperators` | src/scanner.ts:60-63 | `!`, `=`, `<` and `>` followed by `=` give the two-character kind, and otherwise the one-character kind |
| `Scanning.CommentSlashes` | src/scanner.ts:64-67 | `//` consumes only its two slashes and emits nothing; the rest of the line is scanned as code |
| `Scanning.LetterO` | src/scanner.ts:73 | `o` followed by `r` gives an OR token; a lone `o` is dropped with no token and no error |
| `Scanning.NumberToken` | src/scanner.ts:148-160 | a digit starts a NUMBER token: digits, optionally a `.` followed by at least one digit; it cannot be extended; a `.` with no digit after it is left for the next token |
| `Scanning.NumberShape` | src/scanner.ts:149-157 | the text consumed for a number has number shape and ends where the shape cannot continue |
| `Scanning.WordToken` | src/scanner.ts:162-169 | a word is a maximal run of `[a-z0-9_]` and gets its keyword kind or IDENTIFIER |
| `Scanning.ScanOneNotEof` | src/scanner.ts:44-82 | `scanToken` never adds an EOF token |
| `Scanning.StepPreserves` | src/scanner.ts:35-38 | one round of the loop keeps the produced tokens consistent with the source |
| `Scanning.LexPreserves` | src/scanner.ts:35-38 | the whole loop keeps the produced tokens consistent with the source and only appends tokens and errors |
| `Scanning.ScanShape` | src/scanner.ts:34-42 | the whole scan's output:<br>• the token list ends with exactly one EOF token, on the last line of the input<br>• every other token's lexeme is the source text of its own span<br>• spans are in order and do not overlap<br>• each token's line is the line its text ends on<br>• every error is lexical and lies within the input's lines |
| `Parsing.AdvancePos` | src/parser.ts:151-156 | `advance` moves one token on, but never past EOF |
| `Parsing.OpLevel` | src/parser.ts:25-75 | each binary operator belongs to exactly one precedence level |
| `Parsing.ParseTernary` | src/parser.ts:109-124 | the cursor only moves forward and stays on the list; diagnostics are only appended; a parse error escapes only after one has been reported; a success consumes a token |
| `Parsing.ParseTernaryArms` | src/parser.ts:112-121 | the same progress guarantees for the part after `?` |
| `Parsing.ParseLeftAssoc` | src/parser.ts:25-75 | the same progress guarantees for equality, comparison, term and factor |
| `Parsing.LeftAssocRest` | src/parser.ts:28-33 | the `while` loop of a level keeps the progress guarantees |
| `Parsing.ParseUnary` | src/parser.ts:77-86 | the same progress guarantees for `unary` |
| `Parsing.ParsePrimary` | src/parser.ts:88-107 | the same progress guarantees for `primary` |
| `Parsing.ParseGroup` | src/parser.ts:99-104 | the same progress guarantees for a parenthesised group |
| `Parsing.SyncFrom` | src/parser.ts:178-194 | `synchronize` stops at the first point that is at EOF, just after a `;` or just before `return`, and passes no such point |
| `Parsing.TernaryShaped` | src/parser.ts:109-124 | a ternary's tree is one the grammar produces, and every error it adds has one of the parser's three messages |
| `Parsing.ArmsShaped` | src/parser.ts:112-121 | both arms of a ternary are parsed right-recursively as ternaries |
| `Parsing.LeftAssocShaped` | src/parser.ts:25-75 | binary operators associate to the left and nest by precedence: equality, then comparison, term and factor |
| `Parsing.RestShaped` | src/parser.ts:28-33 | each matched operator wraps what was built so far as its left operand |
| `Parsing.UnaryShaped` | src/parser.ts:77-86 | `!` and `-` nest right-recursively; anything else is a primary |
| `Parsing.PrimaryShaped` | src/parser.ts:88-107 | `primary` yields a literal or a group, and reports only its own messages |
| `Parsing.GroupShaped` | src/parser.ts:99-104 | a group holds any expression of the grammar |
| `Parsing.ParseNeverRaises` | src/parser.ts:13-19 | `parse` always returns a tree of the grammar; when a parse error escapes it returns `Literal(null)` and an error has been reported |
| `Parsing.MissingColon` | src/parser.ts:118-120 | a missing `:` reports "Expect '?' to have matching ':'." at the current token, raises nothing and returns the condition alone |
| `Parsing.TermOverFactor` | src/parser.ts:51-75 | any token list shaped `NUMBER + NUMBER * NUMBER EOF` parses as the sum of the first number and the product of the other two, with no error |
| `Parsing.TrailingTokensIgnored` | src/parser.ts:13-19 | `parse` need not consume all tokens: any list shaped `NUMBER NUMBER EOF` gives the first number and no error |
| `Parsing.SyncSkipsDeclarations` | src/parser.ts:182-193 | the declaration-keyword cases only leave the `switch`, so the token is skipped like any other |
| `Parsing.Parser.constructor` | src/parser.ts:9-11 | a new parser holds the tokens, cursor 0 and no diagnostics |
| `Parsing.Parser.Parse` | src/parser.ts:13-19 | returns the parsed tree, or `Literal(null)` when a parse error escapes, with cursor and diagnostics as `ParseTernary` says |
| `Parsing.Parser.Expression` | src/parser.ts:21-23 | is `ternary` |
| `Parsing.Parser.Ternary` | src/parser.ts:109-124 | cursor, diagnostics and result are exactly `ParseTernary`'s |
| `Parsing.Parser.TernaryArms` | src/parser.ts:112-121 | cursor, diagnostics and result are exactly `ParseTernaryArms`'s |
| `Parsing.Parser.LeftAssoc` | src/parser.ts:25-75 | `equality`, `comparison`, `term` and `factor` leave cursor, diagnostics and result exactly as `ParseLeftAssoc` says |
| `Parsing.Parser.JoinLeft` | src/parser.ts:28-35 | the `while` loop of a level ends as `LeftAssocRest` says |
| `Parsing.Parser.Unary` | src/parser.ts:77-86 | cursor, diagnostics and result are exactly `ParseUnary`'s |
| `Parsing.Parser.Primary` | src/parser.ts:88-107 | cursor, diagnostics and result are exactly `ParsePrimary`'s |
| `Parsing.Parser.Group` | src/parser.ts:99-104 | the rest of a parenthesised group: a `Grouping` when `)` follows the inner expression, otherwise "Expect ')' after expression." is reported and the parse fails; cursor and diagnostics are exactly `ParseGroup`'s |
| `Parsing.Parser.Match` | src/parser.ts:126-135 | returns true exactly when the current token is not EOF and has one of the kinds, and then consumes exactly that token |
| `Parsing.Parser.Consume` | src/parser.ts:137-142 | returns the matched token and steps past it, or reports the message at the current token and raises |
| `Parsing.Parser.Advance` | src/parser.ts:151-156 | never moves past EOF, and returns the token behind the cursor |
| `Parsing.Parser.Error` | src/parser.ts:170-173 | appends one diagnostic for the token and message |
| `Parsing.Parser.Synchronize` | src/parser.ts:175-195 | steps past the current token, then stops at the first point after a `;`, before `return` or at EOF |
| `AstPrinting.VariantFormats` | src/ast_printer.ts:9-41 | output is pre-order, one format per variant, each operand after one space:<br>• Binary prints as `(op left right)`<br>• Grouping prints as `(group e)`<br>• Unary prints as `(op e)`<br>• Ternary prints as `(? c t f)` |
| `AstPrinting.LiteralPrint` | src/ast_printer.ts:17-21 | a literal prints as `nil` for null, and otherwise as its `String` text |
| `AstPrinting.ParenCount` | src/ast_printer.ts:31-40 | every non-literal node adds exactly one `(` and one `)`, so the output has as many of each as the tree has interior nodes |
| `AstPrinting.OperandsParenCount` | src/ast_printer.ts:33-35 | the operand loop adds exactly the operands' parentheses |
| `RpnPrinting.PrintIsPostOrder` | src/rpn_printer.ts:10-30 | the output is the post-order traversal with single spaces: `left right op`, `e not`, `e neg`; groups add nothing |
| `RpnPrinting.SingleOperand` | src/rpn_printer.ts:32-41 | `parenthesize` writes its operand's text and then the name, with nothing between |
| `RpnPrinting.GroupingTransparent` | src/rpn_printer.ts:14-16 | `Grouping(e)` prints exactly as `e` |
| `RpnPrinting.OtherUnary` | src/rpn_printer.ts:24-30 | a unary operator other than `!` and `-` is written straight after its operand, with no space |
| `RpnPrinting.SumText` | src/rpn_printer.ts:10-12 | `15 + 5` prints as `15 5 +` |
| `RpnPrinting.QuotientText` | src/rpn_printer.ts:24-28 | `-(15 + 5) / 2` prints as `15 5 + neg 2 /` |
| `RpnPrinting.MixedExample` | src/rpn_printer.ts:10-30 | `15 + 5 - -(15 + 5) / 2` prints as `15 5 + 15 5 + neg 2 / -` |
| `Values.FromLiteral` | src/interpreter.ts:30-32 | a literal evaluates to the value of the same kind |
| `Environments.Environment.constructor` | src/environment.ts:5 | a new environment has no bindings |
| `Environments.Environment.Define` | src/environment.ts:7-9 | binds the name to the value, replacing any earlier binding, and changes nothing else |
| `Environments.Environment.Get` | src/environment.ts:11-16 | returns the bound value, or the RuntimeError for the token, and changes nothing |
| `Environments.GetAfterDefine` | src/environment.ts:7-14 | after `define(n, v)`, `get` of `n` gives `v`, whether or not `n` was bound |
| `Environments.DefineLeavesOthers` | src/environment.ts:7-9 | `define` leaves every other name as it was |
| `Environments.GetUnbound` | src/environment.ts:11-16 | `get` fails exactly for an unbound name, with a RuntimeError carrying the token and "Undefined variable 'NAME'." |
| `Environments.Ancestor` | src/interpreter.ts:326 | the frame `distance` steps up the chain exists within the arena, and distance 0 is the current frame |
| `Environments.GlobalsReachable` | src/interpreter.ts:322-329 | in a well-linked arena the globals are reachable from every frame |
| `Environments.AssignAt` | src/interpreter.ts:311 | `assignAt` succeeds exactly when that frame exists, and keeps the chain |
| `Environments.AssignGlobal` | src/interpreter.ts:313 | `assign` on the globals succeeds exactly for a name already bound there; otherwise it fails with "Undefined variable" for the token |
| `Environments.PushLinked` | src/interpreter.ts:211-214 | a new block frame keeps the arena well linked |
| `Environments.GetAtAfterAssignAt` | src/interpreter.ts:311 | a value assigned at a distance is what `getAt` at that distance then reads |
| `Evaluation.WithoutPointZero` | src/interpreter.ts:153-158 | a trailing `.0` is removed, and any other text is kept |
| `Evaluation.StringifyText` | src/interpreter.ts:149-161 | nil prints as `nil`; a number prints as its text, less any trailing `.0`; a string prints as itself |
| `Evaluation.CheckNumberOperand` | src/interpreter.ts:163-168 | passes exactly for a number |
| `Evaluation.CheckNumberOperands` | src/interpreter.ts:170-175 | passes exactly for two numbers |
| `Evaluation.StringOrNumber` | src/interpreter.ts:177-185 | passes exactly for two strings or two numbers |
| `Evaluation.ApplyUnary` | src/interpreter.ts:52-63 | `!` negates truthiness for any operand; `-` succeeds exactly on a number; any other operator is a plain error |
| `Evaluation.TruthyExactly` | src/interpreter.ts:132-139 | only nil and false are falsy; 0 and "" are truthy |
| `Evaluation.EqualityIsSameValue` | src/interpreter.ts:141-147 | nil equals only nil; values of different types are never equal; equality is same-value equality; `!=` is its negation |
| `Evaluation.PlusOperands` | src/interpreter.ts:82-87 | `+` adds two numbers or joins two strings, and fails for every other pair with a RuntimeError at the operator |
| `Evaluation.OperandChecks` | src/interpreter.ts:74-110 | `-` checks only its right operand; `*` and `/` need two numbers; comparisons need two numbers or two strings |
| `Evaluation.NumericStringMinus` | src/interpreter.ts:79-81 | `-` checks only its right operand, so a string holding a number literal on the left is subtracted from as that number |
| `Evaluation.StrLessTotal` | src/interpreter.ts:94-105 | string `<` is a strict total order |
| `Evaluation.StringComparisons` | src/interpreter.ts:97-105 | on strings, `>=` is `>` or equal, and `<=` is `<` or equal |
| `Evaluation.Eval` | src/interpreter.ts:187-189 | evaluation only rebinds names: the chain of frames keeps its shape; variables are read and assigned by the corrected distance rule (see Findings) |
| `Evaluation.CallWith` | src/interpreter.ts:112-130 | a call keeps the chain of frames |
| `Evaluation.EvalArgs` | src/interpreter.ts:121 | arguments are evaluated left to right; on success there is one value per argument |
| `Evaluation.ShortCircuit` | src/interpreter.ts:34-46 | `and` and `or` return the deciding operand; the right operand is evaluated only when the left does not decide |
| `Evaluation.LeftBeforeRight` | src/interpreter.ts:74-77 | the left operand is evaluated first; its failure is the result and the right operand is not evaluated |
| `Evaluation.CallChecks` | src/interpreter.ts:112-130 | a non-callable callee fails before any argument is evaluated; an argument count different from the arity fails with "Expected N arguments but got M."; only then is the function called |
| `Evaluation.ReadOnly` | src/interpreter.ts:306-316 | only an assignment changes the frames |
| `Evaluation.ArgsReadOnly` | src/interpreter.ts:121 | arguments without assignments leave the frames as they were |
| `Evaluation.AssignVariable` | src/interpreter.ts:306-316 | the corrected store keeps the chain of frames (see Findings) |
| `Evaluation.DistanceZeroMisses` | src/interpreter.ts:322-329 | as written, the lookup at distance 0 in `{ var a = 1; print a; }` goes to the globals and fails; the corrected lookup finds `a` |
| `Evaluation.AsWrittenDistanceRule` | src/interpreter.ts:306-329 | as written, for every input, a recorded distance of 0 reads and assigns the globals exactly as an unresolved name does, and any other distance behaves as the corrected rule |
| `Evaluation.DistanceZeroDiverges` | src/interpreter.ts:306-329 | whenever the innermost frame binds a name the globals lack and the recorded distance is 0, the as-written lookup fails with "Undefined variable" where the corrected one reads the binding, and the as-written store fails where the corrected one succeeds |
| `Evaluation.DistanceZeroAssignsGlobal` | src/interpreter.ts:306-316 | as written, the assignment at distance 0 goes to the globals and fails; the corrected store succeeds |
| `Evaluation.ResolvedLookup` | src/interpreter.ts:322-329 | the corrected lookup reads the frame the resolver recorded, at any distance; a name with no recorded distance is read from the globals |
| `Evaluation.AssignThenLookUp` | src/interpreter.ts:306-329 | after a corrected assignment, the corrected lookup of the same reference reads the assigned value |
| `Interpreting.EvaluatingKeepsChain` | src/interpreter.ts:187-189 | the interpreter's own evaluator keeps the chain of frames |
| `Interpreting.Interpreter.constructor` | src/interpreter.ts:8-14 | the globals are the current frame and hold only `clock`; the side table and output are empty |
| `Interpreting.Interpreter.Resolve` | src/interpreter.ts:195-197 | records the distance for the node and changes no other entry |
| `Interpreting.Interpreter.Evaluate` | src/interpreter.ts:187-189 | the result and new frames are `EvalIn`'s, and the state stays valid |
| `Interpreting.Interpreter.Interpret` | src/interpreter.ts:16-28 | in the REPL a lone expression statement prints its value; otherwise the statements run in order, and a `break`, `continue` or `return` that escapes them is reported as a runtime error with the exception's message, as `Run` says |
| `Interpreting.RunReportsSignals` | src/interpreter.ts:16-28 | `interpret` never ends with a loop or return signal: an escaping `break`, `continue` or `return` becomes a thrown error with the message `break`, `continue` or `return` (the messages of the exception classes, src/interpreter.ts:341-362), and every other outcome and the state are passed on |
| `Interpreting.Interpreter.ExecuteAll` | src/interpreter.ts:204-205 | runs statements in order up to the first that does not end normally, as `ExecStmts` says |
| `Interpreting.Interpreter.Execute` | src/interpreter.ts:191-193 | every statement variant runs its own visitor, as `Exec` says |
| `Interpreting.Interpreter.VisitBlock` | src/interpreter.ts:211-214 | a block runs in a fresh frame enclosed by the current one |
| `Interpreting.Interpreter.ExecuteBlock` | src/interpreter.ts:199-209 | the statements run with the given frame current, and the previous frame is restored however they end |
| `Interpreting.Interpreter.Define` | src/interpreter.ts:268 | `env.define` rebinds one name in the current frame |
| `Interpreting.Interpreter.VisitFunction` | src/interpreter.ts:225-229 | binds a new function value under its name, as `ExecFunction` says |
| `Interpreting.Interpreter.VisitIf` | src/interpreter.ts:231-237 | evaluates the condition, then runs the branch it selects, if any |
| `Interpreting.Interpreter.VisitPrint` | src/interpreter.ts:239-242 | appends the value's `stringify` text to the output |
| `Interpreting.Interpreter.VisitReturn` | src/interpreter.ts:244-247 | the value, or nil without one, leaves as a return |
| `Interpreting.Interpreter.VisitVar` | src/interpreter.ts:263-270 | the initialiser's value, or nil, is bound in the current frame |
| `Interpreting.Interpreter.VisitSwitch` | src/interpreter.ts:249-261 | the case loop ends as `ExecCases` says |
| `Interpreting.Interpreter.VisitWhile` | src/interpreter.ts:272-292 | the loop and its catch clause end as `ExecWhile` says |
| `Interpreting.Interpreter.Round` | src/interpreter.ts:275-276 | one pass either goes round again with one unit of fuel less, or ends the loop as `ExecWhile` says |
| `Interpreting.Interpreter.Caught` | src/interpreter.ts:277-289 | the catch clause does what `CaughtInLoop` says: `continue` runs the loop again, and other signals end it |
| `Interpreting.Interpreter.NextRound` | src/interpreter.ts:281-287 | `continue` in a `for` loop runs the increment, then the loop again |
| `ExecutionProperties.EvalInFollows` | src/interpreter.ts:220-223 | evaluating only rebinds names: the chain, the output and the counter stay |
| `ExecutionProperties.DefineInFollows` | src/interpreter.ts:227 | `define` rebinds one name in the current frame, so the name then reads as the value, and changes nothing else |
| `ExecutionProperties.ExecFollows` | src/interpreter.ts:191-193 | running any statement:<br>• keeps the state valid<br>• leaves the current frame current<br>• only adds frames<br>• only appends output |
| `ExecutionProperties.IfFollows` | src/interpreter.ts:231-237 | the same for `if` |
| `ExecutionProperties.BlockFollows` | src/interpreter.ts:199-214 | the same for a block: the previous frame is restored |
| `ExecutionProperties.StmtsFollows` | src/interpreter.ts:204-205 | the same for a statement list |
| `ExecutionProperties.CasesFollows` | src/interpreter.ts:249-261 | the same for a switch |
| `ExecutionProperties.WhileFollows` | src/interpreter.ts:272-292 | the same for a loop |
| `ExecutionProperties.CaughtFollows` | src/interpreter.ts:277-289 | the same for the loop's catch clause |
| `ExecutionProperties.NextRoundFollows` | src/interpreter.ts:281-287 | the same for the increment of a `for` loop |
| `ExecutionProperties.WhileEnds` | src/interpreter.ts:272-292 | break, return and every error from a `while` body are swallowed: the loop ends normally, by `exit`, or out of fuel |
| `ExecutionProperties.ForEnds` | src/interpreter.ts:272-292 | a desugared `for` loop whose increment is an expression statement never lets `break`, `continue` or `return` escape: it ends normally, by `exit`, out of fuel, or with an error |
| `ExecutionProperties.NextRoundEnds` | src/interpreter.ts:281-287 | the increment either fails or sends the loop round again |
| `ExecutionProperties.ContinueRunsIncrement` | src/interpreter.ts:278-287 | `continue` in a `for` loop runs `body.statements[1]`, then the whole loop again. The increment runs in the state the body's block left behind, where the block's frame has already been popped (`BlockScope`): one scope further out than the one the resolver recorded its distances for, as the source does |
| `ExecutionProperties.IntendedPassesOn` | src/interpreter.ts:272-292 | in the intended loop, an error in the condition and a `return`, error or `exit` from the body leave the loop unchanged |
| `ExecutionProperties.IntendedLoopContains` | src/interpreter.ts:272-292 | in the intended loop, `break` and `continue` never escape the loop |
| `ExecutionProperties.ReturnSwallowed` | src/interpreter.ts:272-292 | as written, a `return` from a `while` body ends the loop normally; the intended loop passes the return on with its value |
| `ExecutionProperties.ConditionErrorSwallowed` | src/interpreter.ts:272-292 | as written, a runtime error in the loop condition ends the loop normally; the intended loop reports it |
| `ExecutionProperties.FirstEqual` | src/interpreter.ts:250-256 | finds the first case value equal to the subject, or reports that none is |
| `ExecutionProperties.SwitchSelects` | src/interpreter.ts:249-261 | the first case equal to the subject runs and ends the switch; with no equal case the default runs |
| `ExecutionProperties.EvaluatingReadOnly` | src/interpreter.ts:251-252 | the interpreter's evaluator leaves the state alone on an expression without assignments |
| `ExecutionProperties.SwitchOnPureCases` | src/interpreter.ts:249-261 | switch selection by the first equal case, for case expressions and a subject that have no assignments |
| `ExecutionProperties.VarBinds` | src/interpreter.ts:263-270 | `var x;` binds nil in the current frame; `var x = e;` binds the value of `e`, or fails with `e`'s error |
| `ExecutionProperties.FunctionBinds` | src/interpreter.ts:225-229 | a function declaration binds a fresh function value, with a new identity, under its name |
| `ExecutionProperties.PrintAppends` | src/interpreter.ts:239-242 | `print` appends exactly one line, the value's `stringify` text |
| `ExecutionProperties.BlockScope` | src/interpreter.ts:211-214 | a block's statements see a fresh empty frame enclosed by the current one; afterwards the old frame is current again |
| `Resolution.Distance` | src/resolver.ts:194-201 | the distance to the innermost scope holding the name, which is below the stack depth with no nearer scope holding it; none exactly when no scope holds the name |
| `Resolution.ResolveLocalRecords` | src/resolver.ts:195-198 | `resolveLocal` records `scopes.length - 1 - i` for the innermost scope `i` holding the name, and changes nothing else |
| `Resolution.ResolveLocalGlobal` | src/resolver.ts:195-201 | nothing is recorded when no scope holds the name |
| `Resolution.ExprNested` | src/resolver.ts:93-142 | resolving an expression leaves the scopes alone; it only appends diagnostics and adds side-table entries |
| `Resolution.ArgsNested` | src/resolver.ts:103-109 | the same for a call's arguments |
| `Resolution.DeclareDefineNested` | src/resolver.ts:153-168 | `declare` and `define` touch the innermost scope only |
| `Resolution.ParamsNested` | src/resolver.ts:183-186 | the parameter loop touches the innermost scope only |
| `Resolution.ScopeRestored` | src/resolver.ts:144-151 | a pushed scope that is popped leaves the scope stack exactly as it was |
| `Resolution.StmtNested` | src/resolver.ts:16-91 | every statement leaves the stack depth, the outer scopes and the function kind as they were; diagnostics are only appended and entries never dropped |
| `Resolution.ClauseNested` | src/resolver.ts:26-29 | the same for a case |
| `Resolution.StmtsNested` | src/resolver.ts:170-176 | the same for a statement list |
| `Resolution.ClausesNested` | src/resolver.ts:46-48 | the same for a switch's cases |
| `Resolution.FunctionNested` | src/resolver.ts:178-192 | a function gets a scope of its own, and `currentFunction` is restored afterwards |
| `Resolution.ProgramNested` | src/resolver.ts:170-176 | a program resolved at top level ends with no scope open and outside any function |
| `Resolution.DefaultIgnored` | src/resolver.ts:43-49 | the default statement of a switch is never resolved |
| `Resolution.RedeclarationReported` | src/resolver.ts:153-161 | declaring a name already in the innermost scope reports "Already a variable with this name in this scope.", and only then; the name is marked not ready |
| `Resolution.GlobalsUntracked` | src/resolver.ts:153-168 | at global level `declare` and `define` do nothing, so a `var` only resolves its initialiser |
| `Resolution.UndefinedLocalReported` | src/resolver.ts:136-142 | reading a name marked not ready in the innermost scope reports "Can't read local variable in its own initializer." and records distance 0 |
| `Resolution.OwnInitializerReported` | src/resolver.ts:51-60 | a local `var a = a;` is reported at the reference; the name ends defined in the innermost scope |
| `Resolution.ReturnChecked` | src/resolver.ts:85-91 | a `return` with `currentFunction` NONE reports "Can't return from top-level code."; inside a function it reports nothing |
| `Resolution.ReturnInFunctionAccepted` | src/resolver.ts:67-72 | a top-level function whose body is a bare return reports nothing |
| `Resolution.ParamsScope` | src/resolver.ts:182-186 | the parameters, and only they, are added to the innermost scope, each defined |
| `Resolution.ParameterResolvesLocally` | src/resolver.ts:178-192 | a reference to a parameter from the body is recorded at distance 0 |
| `Resolution.RecursiveReferenceResolves` | src/resolver.ts:67-72 | inside a block, a function's own name is declared and defined before its body, which sees it one scope out |
| `Resolving.Resolver.constructor` | src/resolver.ts:8-14 | a new resolver has no scope open and is outside any function |
| `Resolving.Resolver.BeginScope` | src/resolver.ts:144-147 | pushes an empty scope, as `BeginScope` says |
| `Resolving.Resolver.EndScope` | src/resolver.ts:149-151 | pops the innermost scope, as `EndScope` says |
| `Resolving.Resolver.Declare` | src/resolver.ts:153-161 | the state after `declare` is `Declare`'s |
| `Resolving.Resolver.Define` | src/resolver.ts:163-168 | the state after `define` is `Define`'s |
| `Resolving.Resolver.ResolveLocal` | src/resolver.ts:194-201 | the downward loop records exactly the distance `Distance` gives, or nothing |
| `Resolving.Resolver.ResolveExpression` | src/resolver.ts:93-134 | every expression visitor leaves the state `ResolveExpr` gives |
| `Resolving.Resolver.VisitCall` | src/resolver.ts:103-109 | resolves the callee, then each argument in order |
| `Resolving.Resolver.VisitVariable` | src/resolver.ts:136-142 | the own-initializer check, then `resolveLocal` |
| `Resolving.Resolver.Resolve` | src/resolver.ts:170-176 | every statement visitor leaves the state `ResolveStmt` gives |
| `Resolving.Resolver.ResolveStatements` | src/resolver.ts:172-173 | resolves the statements in order |
| `Resolving.Resolver.VisitBlock` | src/resolver.ts:16-20 | resolves the block inside a scope of its own |
| `Resolving.Resolver.VisitCase` | src/resolver.ts:26-29 | resolves the condition, then the statement |
| `Resolving.Resolver.VisitSwitch` | src/resolver.ts:43-49 | resolves the subject and every case, but not the default |
| `Resolving.Resolver.VisitVar` | src/resolver.ts:51-60 | declares the name, resolves the initialiser, then defines the name |
| `Resolving.Resolver.VisitFunction` | src/resolver.ts:67-72 | declares and defines the name, then resolves the function |
| `Resolving.Resolver.VisitIf` | src/resolver.ts:74-79 | resolves the condition and both branches |
| `Resolving.Resolver.VisitReturn` | src/resolver.ts:85-91 | reports a top-level return, then resolves the value |
| `Resolving.Resolver.ResolveFunction` | src/resolver.ts:178-192 | saves the kind, resolves the parameters and body in a new scope, pops it and restores the kind, as `ResolveFunction` says |

## Left out

- Numbers are exact reals, not IEEE doubles:
  - `parseFloat` of a number's text is its exact decimal value (`Scanning.ParseNumber`);
  - `+`, `-`, `*` and `/` are exact;
  - division by zero gives 0 instead of an infinity or NaN;
  - `Evaluation.ToNumber`: the unchecked left operand of `-` converts as JavaScript does for numbers, booleans, nil and strings in number-literal shape; every other string and every function converts as 0, where JavaScript gives NaN or the value of other numeric forms (leading blanks, exponents, hexadecimal, `Infinity`).
- The text JavaScript writes for a number (`String(n)`, `toString`) is a parameter `showNumber` of the printers and the interpreter. It is not modelled.
- `Callable`, `Clock` and `LFunction` are not part of this model. A function value has an identity, an arity and a text, and what a call returns comes from a parameter (`CallOracle`). Interpreted function bodies are therefore never run.
- `src/interpreter.ts` uses `new Environment(enclosing)`, `getAt`, `assignAt` and `assign`, which `src/environment.ts` does not define. These are assumptions of this model, stated over an arena of frames (`Environments.Frame`, `Push`, `GetAt`, `AssignAt`, `AssignGlobal`). A missing frame gives a plain error.
- Loops take fuel. Each round of a `while` loop uses one unit, and running out is the outcome `OutOfFuel`. The model says nothing about loops that run longer than the fuel allows.
- The interpreter's evaluator is a field fixed at construction. The constructor installs `Eval`, and the statement properties hold for any evaluator that keeps the chain of frames.
- Evaluation.Eval: reads and assigns variables by the corrected distance rule (`LookUpVariable`, `AssignVariable`), not by `if (distance)` as `src/interpreter.ts:306-329` is written; a reference resolved to the innermost scope therefore finds its binding where the source would go to the globals. The as-written rule is `LookUpAsWritten`/`AssignAsWritten`, stated for every input by `Evaluation.AsWrittenDistanceRule` and `Evaluation.DistanceZeroDiverges` (see Findings).
- Interpreting.Interpreter.constructor: installs `Eval`, so the interpreter it builds inherits the corrected distance rule above rather than the variable access of `src/interpreter.ts` as written.
- Scanning.ScanOne: a string is a sequence of Unicode characters, not of UTF-16 code units; a character above U+FFFF counts once, so an unexpected one is reported once where `scanner.ts` reports each surrogate half.
- Evaluation.StrLess: compares Unicode characters, not UTF-16 code units; strings with characters above U+FFFF can order differently from JavaScript's `<` (`"😀" < "\uFFFF"` is true in JavaScript and false here).
- `visitCaseStmt` of the interpreter calls itself forever. Running a stand-alone Case statement is modelled as the host's "Maximum call stack size exceeded" error, and switch never reaches it.
- `process.exit` is the outcome `Exited`. `console.log` appends to an output list, and the diagnostics reporter appends to a list of records. The runtime-error reporter in `interpret` becomes the outcome `Threw`, including for a `break`, `continue` or `return` that escapes the program.
- `src/statements.ts` becomes the `Ast.Stmt` datatype:
  - a constructor stores its fields unchanged because a datatype value is exactly its fields;
  - `accept` calling its own visitor is a `match` on the variant (`Interpreting.Interpreter.Execute`, `Resolving.Resolver.Resolve`);
  - `Switch`, `Case`, `While`'s `isFor` flag and the field-less `Break`, `Continue` and `Exit` are variants with those fields.
- `src/expressions.ts` is an outdated stub and is not part of this model. The expression variants follow the names the parser, resolver, interpreter and printers use.
- `RpnPrinting.Print` requires a tree without ternaries, calls, variables, assignments or logical nodes. `rpn_printer.ts` has no visitor for them.
- `AstPrinting.Print` likewise requires a tree without calls, variables, assignments or logical nodes.
- `Scanning.Scanner.Advance` requires the cursor to be before the end of the input. Every call in `scanner.ts` is made only after that has been checked.
- The drivers (`src/lox.ts` `run`, `src/main.ts`), terminal colours, code generators and test runners are not part of this model.
- The interpreter runs loops by the catch clause as written (`Interpreting.ExecWhile`), since `WhileEnds` and the other loop properties describe the source's behaviour. The intended loop of the `visitWhileStmt` finding, `ExecutionProperties.ExecWhileIntended`, stands beside it and is not installed; loops nested in its body run as written.
- The parser's `check`, `peek`, `previous` and `isAtEnd` are functions of the cursor (`CheckAt`, `AtEnd`, `Peek`, `Previous`) with no separate contract.

## Findings

| source | as written | input that shows it | evidently intended | confidence | as-written member | corrected member |
|---|---|---|---|---|---|---|
| src/interpreter.ts:322-329 | `if (distance)` is false for a recorded distance of 0, so a reference resolved to the innermost scope is looked up in the globals | `{ var a = 1; print a; }` with no global `a`: the lookup fails with "Undefined variable 'a'." | use the recorded distance whenever there is one, 0 included | high; not executed | `Evaluation.DistanceZeroMisses` | `Evaluation.ResolvedLookup` |
| src/interpreter.ts:306-316 | the same test in `visitAssignExpr` sends an assignment at distance 0 to the globals | `{ var a = 1; a = 2; }` with no global `a`: fails with "Undefined variable 'a'." | store at the recorded distance whenever there is one | high; not executed | `Evaluation.DistanceZeroAssignsGlobal` | `Evaluation.AssignThenLookUp` |
| src/interpreter.ts:272-292 | the catch in `visitWhileStmt` acts only on `ContinueException` and swallows every other exception: `return` and runtime errors from the condition or the body end the loop normally | `fun f() { while (true) return 1; } print f();` prints nil; `while (nil < 1) {}` reports no error | the loop handles only `break` and `continue`; `return` and runtime errors leave it | high; not executed | `ExecutionProperties.ReturnSwallowed` | `ExecutionProperties.IntendedLoopContains` |
