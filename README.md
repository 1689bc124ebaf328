# lang, modelled in Dafny

This project models the core of `lang`, a small interpreted language
written in TypeScript. The model covers:

- the cursor (`Position`);
- the character lexer (`Lexer`), which turns source text into tokens;
- the token record (`Token`);
- the token-list parser (`Parser`), which builds expressions out of literals and one level each of multiplicative and additive operators;
- the AST node classes;
- the interpreter's variable scope (`Environment`) and its error-carrying result (`RuntimeResult`);
- the evaluator for numeric literals and unary and binary expressions;
- the diagnostic printer (`Error.asString`);
- the `either`/`both` helpers;
- the command-line argument scan of `main.ts`.

The source follows two styles, and the model keeps them:

- **Objects that change their fields in place are classes with those fields.**
  - `Position.advance` updates `index`, `line` and `column`.
  - The lexer moves its cursor with `yum`.
  - The parser `shift`s its token list.
  - `Environment` and `RuntimeResult` update their fields.

  Each method is proved against a pure function that describes the same loop or branch chain. The properties of the source are lemmas about those functions.
- **Plain data and expressions stay plain.** AST nodes, tokens, the token classification and the evaluator are datatypes and functions.

Files and modules:

| file | module | source |
|---|---|---|
| `position.dfy` | `Positions` | `position.ts` |
| `token.dfy` | `Tokens` | `token.ts` |
| `error.dfy` | `Errors` | `error.ts` |
| `general.dfy` | `General` | `utils/general.ts` |
| `main.dfy` | `Cli` | `main.ts`, the argument scan |
| `lexer_spec.dfy` | `LexSpec` | `lexer.ts`, as functions of the text and a cursor value |
| `lexer.dfy` | `Lexing` | `lexer.ts`, the `Lexer` class proved against `LexSpec` |
| `lexer_props.dfy` | `LexProperties` | what the lexer produces |
| `nodes.dfy` | `Nodes` | `nodes.ts` |
| `parser.dfy` | `Parsing` | `parser.ts` |
| `interpreter.dfy` | `Interpreting` | `interpreter.ts` |
| `wrappers.dfy` | `Wrappers` | `Option` |
| `decimal.dfy` | `Decimal` | the decimal text JavaScript prints for an integer, with a parser back |

The files come from different revisions of the program, and the model keeps each file's own view.

- `lexer.ts` emits the kinds `LogicalOp`, `CompOp`, `Operator`, `Symbol`, `Paren`, `Bracket` and `Brace`. Every token gets a clone of its left position. Only comment, number, string and identifier tokens also get a right position (lexer.ts:94-198). Operators, comparisons, symbols, brackets and the EOF token do not (lexer.ts:48-73, 88). That token is `LexSpec.LexToken`, whose right position is optional.
- `token.ts`, which `parser.ts` is written against, has the kinds `BinOp`, `UnOp` and the rest, and no positions. That token is `Tokens.Token`.

JavaScript behaviour that matters to the code is written out explicitly:

- **`substr` with a negative start counts from the end.** The lexer's constructor starts at index -1, so its first `yum` hands `advance` the last character of the text. A text that ends in `"\n"` therefore starts on line 1 (`LexSpec.Start`).
- **Reading a field of `undefined` throws a TypeError.** The parser reads `.type` of the token after the list is exhausted. The evaluator reads `pos.left` of a node without a span. In the model, this outcome is `Threw` in `Parsing` and `Interpreting`, and a `null` result for the `Interpreter` methods.
- **Falsy stored values count as absent.** `lookupVar` uses JavaScript truthiness (`Value.Truthy`).
- **`%` truncates toward zero.** The remainder has the sign of the dividend.

Source quirks, stated and proved as they are:

- **Additive and multiplicative levels fold one operator only.** `parseAdditiveExpr` and `parseMultiplicativeExpr` return from inside their `while` loop. So `1 + 2 + 3` parses as `1 + 2` and leaves `+ 3` unconsumed.
- **Comments end at a pair, not a character.** A `//` comment ends only at `"\r\n"`, not at a bare `"\n"`.
- **A second dot ends a number.** It does not raise an error.
- **Stepping back after a number or identifier can count a newline twice.** The `yum(-1)` hands `advance` the character after the word. When that character is a newline, the line number is bumped there, and again when the newline itself is consumed. So the token after `"12\n"` or `"word\n"` starts two lines further down.
- **The "/" that closes a block comment is read again.** The comment leaves the cursor on the `*` of `*/`, and tokenize's step lands on the `/`. When `/` is an operator, it comes out as an `Operator` token right after the comment.
- **`%` by zero is not checked.** It yields `NaN`, while `/` by zero fails with "Cannot divide by 0".

Node fields named like Dafny keywords, or shared between node classes with different types, are renamed in `Nodes.Node`:

- `NumericLiteral.value` is `number`.
- `VarDeclaration.value` and `VarAssignment.value` are `init`.
- `UnaryExpr.node` is `operand`.
- `CallExpr.ident`, declared as an `IdentifierNode`, is `callee`, typed as any `Node`, because `ident` is a string in the other classes.

## Model

| member | source | states |
|---|---|---|
| Positions.Advanced | position.ts:17-27 | `index` grows by exactly `delta`; for `"\n"` the column ends at 0 and the line grows by 1, for any delta; otherwise the column grows by `delta` and the line is unchanged; the file name never changes |
| Positions.Position.constructor | position.ts:8-13 | the four fields hold the arguments |
| Positions.Position.Advance | position.ts:17-27 | updates the object in place to `Advanced` of its old value and returns the same object |
| Positions.Position.Clone | position.ts:30-32 | a fresh Position with equal file name, index, line and column |
| Positions.WalkTracksLines | position.ts:17-27 | advancing one character at a time over a text adds its length to the index, its newline count to the line, and leaves the column at the run after the last newline (or grown by the length when there is none) |
| Positions.WalkFront | position.ts:17-27 | walking a text is advancing over its first character and walking the rest |
| Tokens.Token.Match | token.ts:23-25 | true exactly when both the kind and the value are the given ones |
| Tokens.TokenTypeOfOrdinal | token.ts:1-11 | every kind has a distinct enum number below 10 that maps back to it |
| Tokens.Token.AsString | token.ts:28-30 | `[kind: value]`: a single-digit kind number between the bracket and `": "`, then the value's text and a closing bracket |
| Tokens.AsStringRoundTrip | token.ts:28-30 | `[kind: value]` can be read back into the kind and the printed value |
| Tokens.NullAndStringNullPrintAlike | token.ts:28-30 | a `null` value and the string "null" print the same |
| Errors.Error.AsString | error.ts:13-20 | starts with the position's file name and a ':', ends with ": " and the details |
| Errors.PrintedRoundTrip | error.ts:13-20 | `file:line:column: details` splits back into its four parts when the file name has no ':' |
| Errors.AsStringRoundTrip | error.ts:13-20 | `asString` prints the position's file name, the one-based line and column, and the details, in a form that parses back to exactly those |
| Errors.OneBased | error.ts:15-16 | line 0 and column 0 print as `1:1` |
| General.CountPositiveIffMember | utils/general.ts:13-24 | the number of candidates equal to the value is positive exactly when the value is among them |
| General.Either | utils/general.ts:1-11 | true exactly when some candidate equals the value; false with no candidates |
| General.Both | utils/general.ts:13-24 | its counter is positive exactly when some candidate equals the value |
| Cli.UserArgs | main.ts:12-13 | the first two entries of `process.argv` are dropped |
| Cli.ScanArguments | main.ts:20-53 | the first argument that stops the scan decides the error ("Undefined argument", "Filename already specified!"); without one, the shell starts exactly when no non-empty file name was given, and the valid flags are kept in order |
| LexSpec.Substr | lexer.ts:19-21 | `substr`: the slice when in range, empty past the end, never longer than asked |
| LexSpec.Start | lexer.ts:10-16 | the cursor after the constructor is at index 0, column 0, on line 1 exactly when the text ends with a newline |
| LexSpec.Scan | lexer.ts:39-85 | one iteration emits a token at the cursor that is not EOF, or nothing and leaves the cursor; the cursor never moves back past its start |
| Lexing.Lexer.constructor | lexer.ts:10-16 | a fresh cursor at `Start` of the text |
| Lexing.Lexer.At | lexer.ts:19-21 | the `range` characters at the cursor, fewer near the end, none past it |
| Lexing.Lexer.Yum | lexer.ts:24-26 | the cursor advances by `delta`, told the character it was on |
| Lexing.Lexer.NotEof | lexer.ts:29-31 | for a cursor not before the start, true exactly when there is a character under it |
| Lexing.Lexer.Collect | lexer.ts:102-105 | the shared collecting loop computes `Run` |
| Lexing.Lexer.MakeComment | lexer.ts:94-108 | computes `ScanComment` with the closing pair "\r\n" |
| Lexing.Lexer.MakeMultilineComment | lexer.ts:111-125 | computes `ScanComment` with the closing pair "*/" |
| Lexing.Lexer.MakeNumber | lexer.ts:128-157 | computes `ScanNumber`: the loop, then one step back |
| Lexing.Lexer.MakeString | lexer.ts:160-176 | computes `ScanString` |
| Lexing.Lexer.MakeIdent | lexer.ts:179-198 | computes `ScanIdent` |
| Lexing.Lexer.ScanOne | lexer.ts:40-83 | the priority chain of one iteration computes `Scan` |
| Lexing.Lexer.Tokenize | lexer.ts:36-91 | returns `LexLoop` of the starting cursor, and the list ends with exactly one EOF token, placed at or past the end of the text |
| LexSpec.Tokenize | lexer.ts:36-91 | the token list is never empty and its last token is EOF |
| LexProperties.LexLoopEndsWithEof | lexer.ts:39-88 | the loop keeps what was pushed so far as a prefix and appends exactly one EOF token, last, at index \|code\| or beyond |
| LexProperties.TokenizeEndsWithEof | lexer.ts:36-91 | every token list ends with the only EOF token |
| LexProperties.FirstRuleUnrolled | lexer.ts:41-83 | the priority table is tried in order: "//", "/*", logical operators, two-character comparisons, one-character comparisons, operators, symbols, parentheses, brackets, braces, digits, quotes, identifier characters |
| LexProperties.ScanEmitsIffRuleMatches | lexer.ts:41-83 | one iteration emits a token exactly when some row of the table matches at the cursor |
| LexProperties.ScanKindFollowsFirstRule | lexer.ts:41-83 | the token's kind is that of the first matching row (an identifier may become a keyword) |
| LexProperties.UnknownCharacterSkipped | lexer.ts:81-85 | a character in no class is skipped without a token |
| LexProperties.TwoCharacterOperator | lexer.ts:47-54 | a two-character logical or comparison operator is one token at the cursor, and the scan resumes two characters further on |
| LexProperties.RunText | lexer.ts:102-105 | a collecting loop's text is exactly the characters it stepped over |
| LexProperties.RunWalk | lexer.ts:102-105 | its cursor is the one reached by advancing over those characters one at a time |
| LexProperties.RunStops | lexer.ts:102-105 | it stops at the first index where its condition fails, or at the end of the text |
| LexProperties.CommentContents | lexer.ts:94-125 | the comment text runs from after the two opening characters to the first closing pair or the end; the cursor is left on the closing pair |
| LexProperties.LineCommentIgnoresBareNewline | lexer.ts:102 | without a "\r" after it, a line comment runs to the end of the text |
| LexProperties.StringContents | lexer.ts:160-176 | the string value is exactly the characters up to the next occurrence of the same quote, with no escapes; an unterminated string runs to the end |
| LexProperties.IdentContents | lexer.ts:179-198 | the word is the maximal run of identifier and digit characters; it is a Keyword exactly when it is in the keyword list; the cursor ends on its last character |
| LexProperties.NumberLoopText | lexer.ts:134-146 | the number loop's text is exactly the characters it stepped over |
| LexProperties.NumberLoopShape | lexer.ts:134-146 | those characters are digits and dots with at most one dot, and the float flag is set exactly when a dot was taken |
| LexProperties.NumberLoopStops | lexer.ts:134-146 | the loop stops at a character that is neither a digit nor a dot, at a second dot, or at the end |
| LexProperties.NumberContents | lexer.ts:128-157 | the number token's lexeme is the maximal run of digits with at most one dot, parsed as a float exactly when it has a dot; a second dot ends it |
| LexProperties.NumberLoopKeepsLine | lexer.ts:134-146 | the number loop never changes the line |
| LexProperties.NumberBeforeNewlineBumpsLine | lexer.ts:149 | when a newline follows a number, the step back bumps the line and zeroes the column |
| LexProperties.IdentRunKeepsLine | lexer.ts:184-187 | the identifier loop never changes the line |
| LexProperties.IdentBeforeNewlineBumpsLine | lexer.ts:190 | when a newline follows an identifier, the step back bumps the line and zeroes the column |
| LexProperties.NumberThenNewlineCountsTwice | lexer.ts:75-85 | a number followed by an unclassified newline gives the number token, and the next iteration starts after the newline two lines further down, at column 0 |
| LexProperties.IdentThenNewlineCountsTwice | lexer.ts:81-85 | the same for an identifier or keyword followed by a newline |
| LexProperties.BlockCommentCloserReadAgain | lexer.ts:119-124 | after a closed block comment the next iteration starts on the "/" of its closing pair, and with "/" an operator it pushes an Operator token "/" there |
| Nodes.TypeName | nodes.ts:37-221 | each of the fifteen node classes has its own `type` tag, equal to the class's name |
| Nodes.NewProgram | nodes.ts:37-45 | an empty program body |
| Nodes.NewBlockStatement | nodes.ts:37-221 | a block with the given body, empty by default |
| Nodes.NewNode | nodes.ts:4-16 | the span runs from `left` to `right`, or from `left` to `left` without a right position; every other field is unchanged |
| Nodes.SetPos | nodes.ts:24-31 | the span is `(left, right)` and every other field is unchanged |
| Nodes.NewNodeIsSetPos | nodes.ts:4-31 | `newNode` is `setPos` with the right position defaulting to the left |
| Nodes.SetPosTwice | nodes.ts:24-31 | a second `setPos` overrides the first |
| Parsing.Parser.constructor | parser.ts:8-11 | stores the file name and the token list |
| Parsing.Parser.At | parser.ts:14-22 | the first token, or `undefined` once the list is exhausted |
| Parsing.Parser.Yum | parser.ts:25-35 | removes and returns the first token; on an exhausted list returns `undefined` and changes nothing |
| Parsing.Parser.NotEof | parser.ts:38-40 | true exactly when the token under the cursor is not EOF |
| Parsing.Parser.Parse | parser.ts:47-49 | the result and the remaining list are those of the additive level |
| Parsing.Parser.ParseExpr | parser.ts:54-56 | the result and the remaining list are those of the additive level |
| Parsing.Parser.ParseAdditiveExpr | parser.ts:60-79 | computes `ParseAdditiveSpec` of the list it starts with, consuming from the front |
| Parsing.Parser.ParseMultiplicativeExpr | parser.ts:82-101 | computes `ParseMultiplicativeSpec` of the list it starts with, consuming from the front |
| Parsing.Parser.ParseLiteral | parser.ts:106-141 | computes `ParseLiteralSpec`: one token consumed, or a throw on an exhausted list |
| Parsing.LiteralClassification | parser.ts:106-141 | numbers, strings and identifiers give a literal node holding the token's value; "undefined", "null", "true" and "false" are Literal; any other kind gives `undefined` |
| Parsing.ParseLiteralConsumesOne | parser.ts:106-108 | parseLiteral consumes exactly one token, and throws exactly when the list is exhausted |
| Parsing.MultiplicativeFoldsOnce | parser.ts:82-101 | the multiplicative level folds at most one `*`, `/` or `%` (kept as the whole token), consumes exactly the tokens its result was built from, and throws only on an exhausted list |
| Parsing.AdditiveFoldsOnce | parser.ts:60-79 | the additive level folds at most one `+` or `-` (kept as the token's value) between two multiplicative results, consumes exactly the tokens its result was built from, and throws only on an exhausted list |
| Parsing.ChainedAdditionStopsAfterOne | parser.ts:58-79 | `1 + 2 + 3` parses as `1 + 2` and leaves `+ 3` and EOF |
| Parsing.ChainedProductStopsAfterOne | parser.ts:58-101 | `2 * 3 / 4` parses as `2 * 3` and leaves `/ 4` and EOF |
| Parsing.EofAloneThrows | parser.ts:25-40 | a list holding only EOF throws: parseLiteral consumes the EOF and `notEof` then reads past the end |
| Parsing.SingleNumber | parser.ts:60-110 | a number followed by EOF parses to that literal and leaves EOF |
| Interpreting.Lookup | interpreter.ts:41-47 | the binding when it is truthy, `undefined` otherwise; only this scope is consulted |
| Interpreting.Declare | interpreter.ts:23-30 | a name without a truthy binding is stored and the value is returned when truthy (`undefined` when falsy); a name with one keeps it, the scope is unchanged, and `undefined` is returned |
| Interpreting.DeclareThenLookup | interpreter.ts:23-47 | after a declaration the name looks up as the declaration's answer, or as its old binding when refused; no other name changes |
| Interpreting.Assign | interpreter.ts:32-39 | a name without a truthy binding leaves the scope unchanged and returns `undefined`; otherwise that key is overwritten and the value is returned when truthy |
| Interpreting.AssignThenLookup | interpreter.ts:32-47 | after an assignment the name looks up as the assignment's answer; no other name changes |
| Interpreting.RedeclarationRefused | interpreter.ts:23-30 | declaring a name twice keeps the first truthy value |
| Interpreting.FalsyDeclarationInvisible | interpreter.ts:23-47 | a falsy declared value is invisible to lookup, and a later set of that name is refused |
| Interpreting.Environment.constructor | interpreter.ts:18-21 | no variables, and the given parent |
| Interpreting.Environment.LookupVar | interpreter.ts:41-47 | is `Lookup` of this scope's own variables; `parent` is never read |
| Interpreting.Environment.DeclareVar | interpreter.ts:23-30 | the new variables and the answer are `Declare` of the old ones |
| Interpreting.Environment.SetVar | interpreter.ts:32-39 | the new variables and the answer are `Assign` of the old ones |
| Interpreting.RuntimeResult.constructor | interpreter.ts:54-57 | value and error both start null |
| Interpreting.RuntimeResult.Register | interpreter.ts:59-65 | copies the argument's error when it has one, never clears an existing error, keeps the value, and returns the argument's value |
| Interpreting.RuntimeResult.Success | interpreter.ts:67-70 | sets the value, keeps the error, returns the same object |
| Interpreting.RuntimeResult.Failure | interpreter.ts:72-75 | sets the error, keeps the value, returns the same object |
| Interpreting.ModSignAndBound | interpreter.ts:176-177 | JavaScript `%`: the remainder has the sign of the dividend and is smaller than the divisor in size |
| Interpreting.Eval | interpreter.ts:79-181 | every failure is either "Cannot divide by 0" or the no-visit message; a node other than a numeric literal, unary or binary expression never succeeds |
| Interpreting.Interpreter.Visit | interpreter.ts:79-96 | returns a fresh result reporting `Eval` of the node: exactly one of value and error set, or a throw |
| Interpreting.Interpreter.NoVisit | interpreter.ts:98-101 | a failure at the node's left position naming its type; a node without a span throws |
| Interpreting.Interpreter.VisitNumericLiteral | interpreter.ts:103-105 | a number result holding the literal's value |
| Interpreting.Interpreter.VisitUnaryExpr | interpreter.ts:137-149 | reports `Eval` of the node |
| Interpreting.Interpreter.VisitBinaryExpr | interpreter.ts:151-181 | reports `Eval` of the node |
| Interpreting.LeftFailureShortCircuits | interpreter.ts:153-155 | a failure or throw on the left is the answer, whatever the right side is |
| Interpreting.RightFailurePropagates | interpreter.ts:157-159 | after a successful left side, a failure or throw on the right is the answer |
| Interpreting.DivisionByZeroFails | interpreter.ts:171-173 | dividing by a right side that is 0 fails at the right operand's left position with "Cannot divide by 0" |
| Interpreting.ModuloByZeroIsNaN | interpreter.ts:176-177 | `%` by 0 is not checked and yields NaN |
| Interpreting.UnaryPrefix | interpreter.ts:137-149 | "-" negates the operand's number; any other prefix passes the operand's result through unchanged; an operand's failure is passed through |
| Interpreting.DoubleNegation | interpreter.ts:144-146 | `- - x` evaluates to `x` |
| Interpreting.UndispatchedNodeFails | interpreter.ts:95-101 | a node type `visit` does not dispatch fails at its left position with "This AST node has not been setup for interpretation yet: " and its type |
| Interpreting.EvalAgreesWithArithmetic | interpreter.ts:151-181 | on a tree of literals and `+ - * / %` without a zero divisor, the evaluator answers the value real arithmetic gives |

## Left out

- `shell.ts`, `run.ts` and the file reading and console output of `main.ts` (main.ts:1-3, 55-65) are I/O. `Cli.ScanArguments` returns what `main` goes on to do instead of doing it.
- The contents of `strings.json`, the lexer's character classes and keyword list, are not part of this model. They are the parameter `LexSpec.Classes`, with `includes` read as set membership.
- Floating point: numbers are real numbers. IEEE rounding, overflow to Infinity, and `-0` are not modelled.
- `parseFloat` and `parseInt` of a number lexeme are not modelled. A number token keeps its lexeme and whether it holds a dot.
- Lexing.Lexer.Tokenize: the lexer's tokens hold value copies (`PosValue`) of the cloned positions. Those clones are fresh and nobody else refers to them.
- The `Token` constructor with positions that `lexer.ts` calls is not part of this model. Its fields are taken from the call sites.
- Nodes.NewNode, Nodes.SetPos: these update the node in place and return the same object. The model returns an updated value, so node identity and aliasing are not captured.
- Interpreting.Interpreter.Visit requires the evaluated tree to reach no `Identifier`, `VarDeclaration` or `VarAssignment` node. `visit_Identifier`, `visit_VarDeclaration` and `visit_VarAssignment` (interpreter.ts:107-135) visit whatever the scope returns: an unevaluated node, or `undefined`, which throws. They also nest one RuntimeResult inside another. The scope calls they make are modelled: `DeclareVar`, `SetVar`, `LookupVar`.
- Interpreting.Interpreter.VisitUnaryExpr: the source negates the operand's value object in place. The model builds a new value, so aliasing of that object is not captured.
- JavaScript loose `==` is modelled as strict equality, wherever the compared values have the same type. This covers `Token.match`, `either`, `both`, the operator tests and `right.value == 0`. Cross-type conversions are not modelled.
- Tokens.Token.AsString prints numbers only when they are integral and below 10^21 in size, which is where JavaScript's number-to-text is plain decimal.
- Errors.Error.AsString prints the line and column as plain decimal integers. JavaScript switches to exponent form from 10^21, which no real position reaches.
- LexSpec.Substr, Positions.Advanced: the text is a sequence of Unicode code points. JavaScript strings index UTF-16 code units, so after each character outside the Basic Multilingual Plane the source's index and column are one larger than the model's.
- Environment keys that collide with `Object.prototype` members (such as `"constructor"`) are not modelled: every name starts unbound.
