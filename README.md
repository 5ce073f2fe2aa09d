# Funktionsplotter expression compiler, modelled in Dafny

This project models the part of the Funktionsplotter that turns a formula typed by the user into an expression tree.

- `Tokenizer.tokenize` scans the text once, left to right, into typed tokens.
- `ConvertToRPN.toRPN` converts the tokens to Reverse Polish Notation in three parts:
  - a pass that marks prefix `+` and `-` as unary (`u+`, `u-`);
  - a shunting-yard stack machine driven by a precedence table;
  - a recursive split of `cond ? a : b` into three separately converted parts.
- `Parser.parse` builds the tree from the RPN on a value stack and checks arities and the number of trees left over. `parseNumber` reads the text of a number.
- Beside the pipeline sit:
  - the validating constructors of the `ComparisonExpr` and `ConditionalExpr` records;
  - the serialiser of a tree into the DOT graph language (`erstelleASTalsDot` and `erstelleASTKnoten`);
  - the variable-name scanner `extractVariableName` of the plotter.

## How the model is built

Each operation that works step by step is a Dafny `method` with the loops of the Java code: `Tokenize`, `ReadNumber`, `ReadWord`, `PreprocessUnaryOperators`, `ScanConditionalOperators`, `ToRpn`, `HandleConditionalExpression`, `Parse`, `ApplyToken`, `WriteNode`, `ToDot` and `ExtractVariableName`. Each method is proved equal to a specification function:

| method | specification function |
|---|---|
| `Tokenize` | `Lex` |
| `PreprocessUnaryOperators` | `Preprocess` |
| `ScanConditionalOperators` | `HasConditionalOperators` |
| `ToRpn` | `ToRpnSpec` |
| `HandleConditionalExpression` | `ConditionalSpec` |
| `Parse` | `ParseSpec` |
| `WriteNode` | `NodeText` |
| `ToDot` | `Dot` |
| `ExtractVariableName` | `VariableName` |

The properties the program promises are lemmas about those functions.

- Java exceptions are values of a `Result` datatype. Each error constructor carries what the exception's message is built from, and a `Message` function rebuilds the message text.
- A Java `Stack` is a `seq` whose last element is the top.
- `erstelleASTKnoten` shares its `int[] idCounter` and its `StringBuilder` across the recursion. The model keeps both: the counter is an `array<int>` of length 1, and the `StringBuilder` is a small class with a `contents` field.
- There are two copies of the serialiser, in `src/main/java/lvp/functionPlotter/plotter/FunctionPlotter.java` and in the top-level `FunctionPlotter.java`. They are identical, so one model stands for both. The table below cites each copy.
- The numeric payload of a `Constant` is symbolic: `Pi`, `E` or `Lit(text)`, a decimal literal kept by its text.

Where the code and its documentation disagree, the model follows the code.

- Token kinds: `TokenType` declares eight kinds, but the converter also refers to `COMPARISON`, `QUESTION_MARK` and `COLON`. The model has all eleven.
  - The tokenizer never produces those three, and never produces `UNARY_OPERATOR`. It rejects `<`, `>`, `=`, `!`, `?` and `:`.
  - So through `parse`, the conditional path of `toRPN` cannot be reached (lemma `LexedTokens`, example `ParseConditionalInput`). `toRPN` is still modelled on arbitrary token lists.
- Unary test: `isUnaryOperator` tests `"+-".contains(value)`. Besides `+` and `-`, that also accepts the texts `""` and `"+-"`, and the model keeps this.
- Associativity: every binary operator pops on equal precedence, so `^` is left-associative (`2^3^2` gives `2 3 ^ 2 ^`).
- Number literals: the tokenizer accepts any run of digits and dots as a number, for example `1.2.3`. `parseNumber` then throws `NumberFormatException`, which `parse` does not convert into a `ParseException`.
- Named constants: case matters to the tokenizer but not to `parseNumber`.
  - With a lower-case `e`: `"pi"` and `"e"` are numbers, `"E"` is a variable and `"PI"` is a function name.
  - `parseNumber` accepts `"PI"` and `"E"` as well.
- No conditional node: the `?:` marker of the conditional RPN becomes a `BinaryOp("?:", …)`.
- Unreachable throws: two throws of the source cannot happen, and the model states why.
  - The `default` branch of the standard conversion (ConvertToRPN.java:81-83) is reached only by `?` or `:`, which send the list to the conditional path instead.
  - The `EmptyStackException` handler of `parse` (Parser.java:91-94) is never triggered, because every pop is guarded by a size test.

## Model

| member | source | states |
|---|---|---|
| Tokenizer.NumberRunEnd | src/main/java/lvp/functionPlotter/parser/Tokenizer.java:26-32 | the number run read from i is the maximal run of digits and dots: every character before the end is one, the character at the end is not |
| Tokenizer.WordRunEnd | src/main/java/lvp/functionPlotter/parser/Tokenizer.java:34-39 | the identifier run is the maximal run of letters and digits starting at i |
| Tokenizer.ClassifyWord | src/main/java/lvp/functionPlotter/parser/Tokenizer.java:40-47 | the token of an identifier carries the identifier's text unchanged |
| Tokenizer.SymbolToken | src/main/java/lvp/functionPlotter/parser/Tokenizer.java:49-56 | exactly the eight characters `+ - * / ^ , ( )` have a one-character token, whose text is that character |
| Tokenizer.ReadNumber | src/main/java/lvp/functionPlotter/parser/Tokenizer.java:26-32 | the inner loop ends at the end of the maximal number run and returns exactly the characters it passed |
| Tokenizer.ReadWord | src/main/java/lvp/functionPlotter/parser/Tokenizer.java:34-39 | the inner loop ends at the end of the maximal identifier run and returns exactly the characters it passed |
| Tokenizer.Tokenize | src/main/java/lvp/functionPlotter/parser/Tokenizer.java:13-62 | the loop returns what the scan specification `Lex` gives, for every input, including the error for a rejected character |
| Tokenizer.LexFromNumber | src/main/java/lvp/functionPlotter/parser/Tokenizer.java:26-32 | a digit or dot starts a NUMBER token holding the maximal run, and the scan goes on after the run |
| Tokenizer.LexFromWord | src/main/java/lvp/functionPlotter/parser/Tokenizer.java:34-47 | a letter starts an identifier token holding the maximal run, and the scan goes on after the run |
| Tokenizer.LexFromSymbol | src/main/java/lvp/functionPlotter/parser/Tokenizer.java:49-56 | any other non-whitespace character yields its one-character token or fails with that character |
| Tokenizer.LexSucceedsIff | src/main/java/lvp/functionPlotter/parser/Tokenizer.java:21-57 | tokenize succeeds if and only if every character is whitespace, a digit, a dot, a letter or one of `+ - * / ^ , ( )` |
| Tokenizer.LexFromOkIff | src/main/java/lvp/functionPlotter/parser/Tokenizer.java:21-57 | the scan from any position succeeds if and only if every character from there on is accepted |
| Tokenizer.LexFailsAtFirstBadChar | src/main/java/lvp/functionPlotter/parser/Tokenizer.java:55 | a failing tokenize reports the first rejected character, with the message "Unexpected character: " followed by it |
| Tokenizer.LexFromFirstBad | src/main/java/lvp/functionPlotter/parser/Tokenizer.java:55 | the scan from i fails with the first rejected character after i |
| Tokenizer.LexOutput | src/main/java/lvp/functionPlotter/parser/Tokenizer.java:21-57 | on success the token texts concatenate to the input with whitespace removed; every token has the shape of its kind (NUMBER is a digit-and-dot run or `pi`/`e`; VARIABLE is one letter other than `e`; FUNCTION is two or more letters and digits other than `pi`; OPERATOR is one of `+ - * / ^`; no UNARY_OPERATOR, COMPARISON, `?` or `:`); there are at most as many tokens as non-whitespace characters |
| Tokenizer.LexFromConcat | src/main/java/lvp/functionPlotter/parser/Tokenizer.java:21-57 | from any position no character is dropped or reordered: the token texts concatenate to the non-whitespace rest of the input |
| Tokenizer.LexFromWellFormed | src/main/java/lvp/functionPlotter/parser/Tokenizer.java:26-56 | every token the scan emits has the shape of its kind |
| Tokenizer.LexEmptyIff | src/main/java/lvp/functionPlotter/parser/Tokenizer.java:17-24 | the token list is empty if and only if the input is empty or whitespace only |
| Tokenizer.Lex | src/main/java/lvp/functionPlotter/parser/Tokenizer.java:13-62 | the specification of tokenize: the scan from position 0, a token list or the character it refuses |
| Text.ToLower | src/main/java/lvp/functionPlotter/parser/Parser.java:115 | `toLowerCase` keeps the length and maps exactly the upper-case letters A-Z to lower case |
| Text.NatToString | src/main/java/lvp/functionPlotter/plotter/FunctionPlotter.java:401 | the decimal text of a node id is a non-empty string of digits without a leading zero |
| Text.NatToStringValue | src/main/java/lvp/functionPlotter/plotter/FunctionPlotter.java:401 | the digits of the numeral, read back, give the number it was written for |
| Text.NatToStringInjective | src/main/java/lvp/functionPlotter/plotter/FunctionPlotter.java:401 | two numbers have the same numeral exactly when they are equal |
| Text.Contains | src/main/java/lvp/functionPlotter/parser/ConvertToRPN.java:213 | `String.contains`: the needle occurs in the haystack as a contiguous block |
| Ast.Size | src/main/java/lvp/functionPlotter/plotter/FunctionPlotter.java:396 | every tree has at least one node, which is the amount the id counter advances by |
| Stacks.Reversed | src/main/java/lvp/functionPlotter/parser/ConvertToRPN.java:87-89 | popping the whole stack yields as many tokens as it holds |
| Stacks.ReversedMultiset | src/main/java/lvp/functionPlotter/parser/ConvertToRPN.java:87-89 | flushing the stack loses and adds no token |
| Stacks.ReversedPopTop | src/main/java/lvp/functionPlotter/parser/ConvertToRPN.java:87-89 | flushing pops the top first, then the rest in order |
| Tokens.OperandsElements | src/main/java/lvp/functionPlotter/parser/ConvertToRPN.java:43 | the operand sequence of a list holds exactly its NUMBER and VARIABLE tokens |
| Tokens.OperandsAppend | src/main/java/lvp/functionPlotter/parser/ConvertToRPN.java:43 | the operands of two lists one after the other are the operands of each, in order |
| ConvertToRpn.Preprocess | src/main/java/lvp/functionPlotter/parser/ConvertToRPN.java:164-181 | the unary pass keeps the number of tokens |
| ConvertToRpn.PreprocessSpec | src/main/java/lvp/functionPlotter/parser/ConvertToRPN.java:164-181 | token i is reclassified against the ORIGINAL token before it, not against the already processed one |
| ConvertToRpn.PreprocessUnaryOperators | src/main/java/lvp/functionPlotter/parser/ConvertToRPN.java:164-181 | the loop keeps the length and yields, at every position, the token reclassified against its original predecessor |
| ConvertToRpn.ReclassifyKinds | src/main/java/lvp/functionPlotter/parser/ConvertToRPN.java:170-177 | a token is either kept or is an OPERATOR turned into UNARY_OPERATOR with "u" put before its text |
| ConvertToRpn.IsUnaryOperator | src/main/java/lvp/functionPlotter/parser/ConvertToRPN.java:212-231 | an OPERATOR whose text `"+-"` contains that is first or follows a LEFT_PAREN, an OPERATOR or a COMMA |
| ConvertToRpn.UnaryTexts | src/main/java/lvp/functionPlotter/parser/ConvertToRPN.java:213 | the texts `"+-".contains` accepts are exactly `""`, `+`, `-` and `+-` |
| ConvertToRpn.PreprocessLexed | src/main/java/lvp/functionPlotter/parser/ConvertToRPN.java:212-231 | on tokens as the tokenizer makes them, token i becomes unary exactly when it is an OPERATOR `+` or `-` that is first or follows a LEFT_PAREN, an OPERATOR or a COMMA; it then reads `u+` or `u-`, and every other token is unchanged |
| ConvertToRpn.PreprocessOperands | src/main/java/lvp/functionPlotter/parser/ConvertToRPN.java:164-181 | the unary pass leaves the NUMBER and VARIABLE tokens as they were |
| ConvertToRpn.PreprocessConditional | src/main/java/lvp/functionPlotter/parser/ConvertToRPN.java:30-35 | the unary pass neither creates nor removes a `?` or `:`, so it does not change which path toRPN takes |
| ConvertToRpn.ReclassifyStable | src/main/java/lvp/functionPlotter/parser/ConvertToRPN.java:212-231 | no token of a processed list is reclassified again |
| ConvertToRpn.PreprocessIdempotent | src/main/java/lvp/functionPlotter/parser/ConvertToRPN.java:164-181 | running the unary pass twice gives what running it once gives |
| ConvertToRpn.PreprocessTagged | src/main/java/lvp/functionPlotter/parser/ConvertToRPN.java:170-177 | after the pass every UNARY_OPERATOR still begins with the "u" tag |
| ConvertToRpn.PreprocessUnchanged | src/main/java/lvp/functionPlotter/parser/ConvertToRPN.java:164-181 | a list with no unary position comes out of the pass unchanged |
| ConvertToRpn.Precedence | src/main/java/lvp/functionPlotter/parser/ConvertToRPN.java:240-257 | precedence lies between -1 and 4; it is 4 exactly for `u+`/`u-`, and -1 exactly for `?`, `:` and the `?:` marker |
| ConvertToRpn.PrecedenceTable | src/main/java/lvp/functionPlotter/parser/ConvertToRPN.java:240-257 | the levels of the table: a COMPARISON 0, `+` and `-` 1, `*` and `/` 2, `^` 3, any other operator text 0 |
| ConvertToRpn.ShouldPopOperator | src/main/java/lvp/functionPlotter/parser/ConvertToRPN.java:191-202 | a LEFT_PAREN or FUNCTION on top is never popped; any other top is popped when it binds tighter than the incoming token and kept when it binds less tightly; at equal precedence it is popped for a binary incoming token (left associativity) and kept for a unary one (right associativity) |
| ConvertToRpn.HasConditionalOperators | src/main/java/lvp/functionPlotter/parser/ConvertToRPN.java:97-104 | some token of the list is a `?` or a `:` |
| ConvertToRpn.ScanConditionalOperators | src/main/java/lvp/functionPlotter/parser/ConvertToRPN.java:97-104 | the for-each loop returns true if and only if some token is a `?` or a `:` |
| ConvertToRpn.TwoOperatorsOrder | src/main/java/lvp/functionPlotter/parser/ConvertToRPN.java:54-60 | for any operands a, b, c and binary operators o1, o2, `a o1 b o2 c` converts to `a b o1 c o2` when o1 binds at least as tightly as o2, and to `a b c o2 o1` otherwise |
| ConvertToRpn.Combine | src/main/java/lvp/functionPlotter/parser/ConvertToRPN.java:143-151 | the conditional result succeeds exactly when all three parts do; it is condition, true part, false part and the `?:` marker in that order; the first failing part's error wins |
| ConvertToRpn.ScanConditional | src/main/java/lvp/functionPlotter/parser/ConvertToRPN.java:115-128 | a successful scan finds the ? before the : and both inside the list |
| ConvertToRpn.NextConditional | src/main/java/lvp/functionPlotter/parser/ConvertToRPN.java:115-128 | the next `?` or `:` from i, with no such token in between |
| ConvertToRpn.ScanSkips | src/main/java/lvp/functionPlotter/parser/ConvertToRPN.java:115-128 | the scan passes over every token that is neither `?` nor `:` |
| ConvertToRpn.ConditionalScan | src/main/java/lvp/functionPlotter/parser/ConvertToRPN.java:115-135 | the outcome of the scan, case by case: no `?` or `:` at all, a `:` first, a `?` with no `:` after it, a second `?` before the `:`, or the positions of the first `?` and the first `:` after it |
| ConvertToRpn.ConditionalScanOk | src/main/java/lvp/functionPlotter/parser/ConvertToRPN.java:137-151 | on a successful scan the ? comes first, no other `?` or `:` lies before the `:`, and the result is the three slices around them converted and combined (everything after the first `:` is the false part) |
| ConvertToRpn.PopUntilLeftParen | src/main/java/lvp/functionPlotter/parser/ConvertToRPN.java:47-52 | the loop moves operators to the output until a LEFT_PAREN is on top |
| ConvertToRpn.PopYielding | src/main/java/lvp/functionPlotter/parser/ConvertToRPN.java:54-60 | the loop moves operators to the output while the top yields to the incoming token |
| ConvertToRpn.ShuntToken | src/main/java/lvp/functionPlotter/parser/ConvertToRPN.java:41-85 | one iteration of the loop, on output and operator stack, as the step function of the stack machine gives it |
| ConvertToRpn.FlushOperators | src/main/java/lvp/functionPlotter/parser/ConvertToRPN.java:87-89 | after the loop all operators left go to the output, top first |
| ConvertToRpn.ToRpn | src/main/java/lvp/functionPlotter/parser/ConvertToRPN.java:28-92 | toRPN returns what the specification `ToRpnSpec` gives on every token list: the unary pass, then the conditional split or the stack machine |
| ConvertToRpn.HandleConditionalExpression | src/main/java/lvp/functionPlotter/parser/ConvertToRPN.java:110-154 | the scan and the recursive conversion of the three parts return what `ConditionalSpec` gives, including the four errors |
| ConvertToRpn.ToRpnSpec | src/main/java/lvp/functionPlotter/parser/ConvertToRPN.java:28-92 | the specification of toRPN: the unary pass, then the conditional split when a `?` or `:` occurs, otherwise the stack machine run and flushed |
| ConvertToRpn.ConditionalSpec | src/main/java/lvp/functionPlotter/parser/ConvertToRPN.java:110-154 | the specification of handleConditionalExpression: the scan, its four errors, and the three parts converted and combined |
| ConvertToRpn.Step | src/main/java/lvp/functionPlotter/parser/ConvertToRPN.java:41-85 | one iteration of the for loop of toRPN on output and operator stack |
| ConvertToRpn.Run | src/main/java/lvp/functionPlotter/parser/ConvertToRPN.java:41-85 | output and operator stack after the for loop of toRPN |
| ConvertToRpn.PopOnce | src/main/java/lvp/functionPlotter/parser/ConvertToRPN.java:49-51 | moving the top operator to the output loses and adds no token |
| ConvertToRpn.PopOnceInvariant | src/main/java/lvp/functionPlotter/parser/ConvertToRPN.java:49-51 | moving the top operator keeps the machine invariant: everything comes from the input, no `)` or `,` anywhere, operands only in the output and in input order |
| ConvertToRpn.PopToLeftParenKeeps | src/main/java/lvp/functionPlotter/parser/ConvertToRPN.java:47-52 | popping to the LEFT_PAREN loses no token and keeps the invariant |
| ConvertToRpn.PopWhileYieldsKeeps | src/main/java/lvp/functionPlotter/parser/ConvertToRPN.java:54-60 | popping operators that yield loses no token and keeps the invariant |
| ConvertToRpn.CloseParenKeeps | src/main/java/lvp/functionPlotter/parser/ConvertToRPN.java:64-79 | a `)` keeps the invariant |
| ConvertToRpn.InvariantExtend | src/main/java/lvp/functionPlotter/parser/ConvertToRPN.java:41-85 | reading a token that is not an operand keeps the invariant |
| ConvertToRpn.StepKeeps | src/main/java/lvp/functionPlotter/parser/ConvertToRPN.java:41-85 | each loop iteration keeps the invariant over the tokens read so far |
| ConvertToRpn.OperatorStepKeeps | src/main/java/lvp/functionPlotter/parser/ConvertToRPN.java:45-62 | a step on an operator, function or parenthesis keeps the invariant |
| ConvertToRpn.StepContents | src/main/java/lvp/functionPlotter/parser/ConvertToRPN.java:41-62 | a step on any token other than `)` or `,` only adds that token, wherever it goes |
| ConvertToRpn.RunFromKeeps | src/main/java/lvp/functionPlotter/parser/ConvertToRPN.java:41-85 | the loop keeps the invariant, and without `)` or `,` it loses and adds no token |
| ConvertToRpn.RunKeeps | src/main/java/lvp/functionPlotter/parser/ConvertToRPN.java:41-85 | after the loop the invariant holds for the whole input, and without `)` or `,` output and stack together are a permutation of it |
| ConvertToRpn.StandardRpnOutput | src/main/java/lvp/functionPlotter/parser/ConvertToRPN.java:41-89 | the standard path outputs only input tokens, never `)` or `,`, keeps the NUMBER and VARIABLE tokens in input order, and for input without `)` or `,` outputs a permutation of its input |
| ConvertToRpn.PopToLeftParenAt | src/main/java/lvp/functionPlotter/parser/ConvertToRPN.java:66-68 | popping to the LEFT_PAREN outputs the operators above the innermost `(`, top first, and stops there |
| ConvertToRpn.RightParenStep | src/main/java/lvp/functionPlotter/parser/ConvertToRPN.java:64-79 | `)` pops to the matching `(`, drops it and then emits a FUNCTION directly beneath it; an unmatched `)` empties the stack into the output and is otherwise ignored |
| ConvertToRpn.RunFromConcat | src/main/java/lvp/functionPlotter/parser/ConvertToRPN.java:41-85 | the loop over two lists is the loop over the first, continued on the second |
| ConvertToRpn.ToRpnOutput | src/main/java/lvp/functionPlotter/parser/ConvertToRPN.java:28-154 | toRPN fails only on the conditional path; its output never holds `)`, `,`, `?` or `:`, keeps the NUMBER and VARIABLE tokens in input order, and keeps the "u" tag of every unary operator |
| ConvertToRpn.ToRpnClean | src/main/java/lvp/functionPlotter/parser/ConvertToRPN.java:28-92 | no toRPN output holds `)`, `,`, `?` or `:`, however deeply conditionals are split |
| ConvertToRpn.ConditionalClean | src/main/java/lvp/functionPlotter/parser/ConvertToRPN.java:110-154 | no conditional output holds `)`, `,`, `?` or `:` |
| ConvertToRpn.ToRpnOperands | src/main/java/lvp/functionPlotter/parser/ConvertToRPN.java:28-92 | toRPN keeps the NUMBER and VARIABLE tokens in input order |
| ConvertToRpn.ConditionalOperands | src/main/java/lvp/functionPlotter/parser/ConvertToRPN.java:110-154 | the conditional path keeps the NUMBER and VARIABLE tokens in input order |
| ConvertToRpn.ToRpnTagged | src/main/java/lvp/functionPlotter/parser/ConvertToRPN.java:28-92 | every UNARY_OPERATOR of a toRPN output keeps its "u" tag |
| ConvertToRpn.ConditionalTagged | src/main/java/lvp/functionPlotter/parser/ConvertToRPN.java:110-154 | every UNARY_OPERATOR of a conditional output keeps its "u" tag |
| ConvertToRpn.OperandsOfSplit | src/main/java/lvp/functionPlotter/parser/ConvertToRPN.java:138-140 | the three slices around `?` and `:` hold all the operands of the list, in order |
| ConvertToRpn.OperandsOfConditional | src/main/java/lvp/functionPlotter/parser/ConvertToRPN.java:148-151 | the combined conditional output has the operands of its three parts, in order |
| RpnExamples.PrecedenceExample | src/main/java/lvp/functionPlotter/parser/ConvertToRPN.java:240-257 | `3 + 4 * 2` gives `3 4 2 * +` |
| RpnExamples.LeftAssociativeExample | src/main/java/lvp/functionPlotter/parser/ConvertToRPN.java:201 | `2 - 3 - 4` gives `2 3 - 4 -` |
| RpnExamples.PowerExample | src/main/java/lvp/functionPlotter/parser/ConvertToRPN.java:201 | `2 ^ 3 ^ 2` gives `2 3 ^ 2 ^`: power is left-associative |
| RpnExamples.PrefixMinusExample | src/main/java/lvp/functionPlotter/parser/ConvertToRPN.java:192-198 | `- 3 ^ 2` gives `3 u- 2 ^`: the unary minus binds tighter than `^` |
| RpnExamples.ParenthesesExample | src/main/java/lvp/functionPlotter/parser/ConvertToRPN.java:64-79 | `( 3 + 4 ) * 2` gives `3 4 + 2 *` |
| RpnExamples.SingleOperand | src/main/java/lvp/functionPlotter/parser/ConvertToRPN.java:43 | a single operand converts to itself |
| RpnExamples.TwoOperands | src/main/java/lvp/functionPlotter/parser/ConvertToRPN.java:43 | two operands convert to themselves; the converter does not check arity |
| RpnExamples.TrailingOperator | src/main/java/lvp/functionPlotter/parser/ConvertToRPN.java:54-60 | an operand followed by an operator converts to both, in order |
| RpnExamples.ConditionalExample | src/main/java/lvp/functionPlotter/parser/ConvertToRPN.java:137-151 | `x ? 1 : 2` gives `x 1 2 ?:` |
| RpnExamples.NestedConditionalExample | src/main/java/lvp/functionPlotter/parser/ConvertToRPN.java:117-118 | a second `?` before the `:` is refused as a nested conditional |
| RpnExamples.StrayColonExample | src/main/java/lvp/functionPlotter/parser/ConvertToRPN.java:122-123 | a `:` before any `?` is refused |
| Parser.ParseNumber | src/main/java/lvp/functionPlotter/parser/Parser.java:114-120 | a text parseNumber refuses fails with a NumberFormatException for that very text |
| Parser.ParseNumberCases | src/main/java/lvp/functionPlotter/parser/Parser.java:114-120 | `pi` and `e` in any case give the constants, a decimal literal gives itself, and every other text fails |
| Parser.DecimalLower | src/main/java/lvp/functionPlotter/parser/Parser.java:115-118 | a decimal literal is not taken for a named constant, in any case |
| Parser.BuildStep | src/main/java/lvp/functionPlotter/parser/Parser.java:40-89 | a step succeeds only on the five kinds parse handles and with enough trees on the stack; it replaces the operands it takes by one tree and keeps the rest of the stack; underflow and any other kind throw a ParseException at the token's RPN index |
| Parser.ApplyToken | src/main/java/lvp/functionPlotter/parser/Parser.java:40-89 | one iteration of the loop of parse does what the step specification gives, including every exception |
| Parser.Parse | src/main/java/lvp/functionPlotter/parser/Parser.java:26-105 | parse returns what `ParseSpec` gives for every input: tokenize, toRPN, the empty check, the loop, the leftover check and the final pop |
| Parser.BuildTree | src/main/java/lvp/functionPlotter/parser/Parser.java:30-104 | the specification of parse after toRPN: the empty check, the loop, the leftover check and the final pop |
| Parser.ParseSpec | src/main/java/lvp/functionPlotter/parser/Parser.java:26-105 | the specification of parse: tokenize, toRPN, then the tree |
| Parser.ParseOk | src/main/java/lvp/functionPlotter/parser/Parser.java:27-28 | once tokenize and toRPN succeed, parse builds the tree from the RPN |
| Parser.BuildStepReadable | src/main/java/lvp/functionPlotter/parser/Parser.java:46-82 | on a token parse can read, a step fails exactly on underflow, with a ParseException at the token's index |
| Parser.BuildFromOkIff | src/main/java/lvp/functionPlotter/parser/Parser.java:37-95 | on readable tokens the loop succeeds exactly when no token finds fewer trees than it takes; the stack then has grown by the net effect of the tokens (+1 per operand, -1 per binary operator, 0 per unary operator or function); a failure is a ParseException at an index inside the list |
| Parser.BuildTreeOkIff | src/main/java/lvp/functionPlotter/parser/Parser.java:30-104 | on readable tokens a tree is built exactly when the RPN is non-empty, never underflows and leaves exactly one tree; every failure is a ParseException |
| Parser.BuildFromConcat | src/main/java/lvp/functionPlotter/parser/Parser.java:37-95 | the loop over two lists is the loop over the first, continued on the second at the following index |
| Parser.UnaryStep | src/main/java/lvp/functionPlotter/parser/Parser.java:58-69 | a unary operator takes the top tree and makes a UnaryOp whose operator is the text with the leading "u" removed |
| Parser.OperatorStep | src/main/java/lvp/functionPlotter/parser/Parser.java:46-56 | a binary operator pops the right operand first, so the left operand is the earlier tree |
| Parser.CallStep | src/main/java/lvp/functionPlotter/parser/Parser.java:71-82 | a function takes the top tree as its one and only argument |
| Parser.ConstantText | src/main/java/lvp/functionPlotter/parser/Parser.java:42 | the text written for a constant parses back to that constant |
| Parser.PostfixBuilds | src/main/java/lvp/functionPlotter/parser/Parser.java:37-95 | the postfix form of a tree parse can build pushes exactly that tree onto any stack |
| Parser.BuildPostfix | src/main/java/lvp/functionPlotter/parser/Parser.java:30-104 | round trip: parse's tree builder, given the postfix form of a buildable tree, returns that tree |
| Parser.BuildStepPostfix | src/main/java/lvp/functionPlotter/parser/Parser.java:40-89 | a step on a canonical token extends the postfix form of the stack by that token |
| Parser.BuildFromPostfix | src/main/java/lvp/functionPlotter/parser/Parser.java:37-95 | the loop on canonical tokens extends the postfix form of the stack by those tokens |
| Parser.PostfixOfBuild | src/main/java/lvp/functionPlotter/parser/Parser.java:30-104 | the other round trip: the postfix form of the tree built from canonical RPN is that RPN |
| Parser.BuildStepBuildable | src/main/java/lvp/functionPlotter/parser/Parser.java:40-89 | each step pushes only decimal literals, named constants and one-argument calls |
| Parser.BuildFromBuildable | src/main/java/lvp/functionPlotter/parser/Parser.java:37-95 | the loop builds only buildable trees |
| Parser.BuildTreeBuildable | src/main/java/lvp/functionPlotter/parser/Parser.java:30-104 | every tree parse builds has one-argument calls and decimal literals only |
| Parser.BuildFromTagged | src/main/java/lvp/functionPlotter/parser/Parser.java:67 | when every unary operator carries its "u" tag, `substring(1)` never fails |
| Parser.BuildFromErrors | src/main/java/lvp/functionPlotter/parser/Parser.java:37-95 | the loop fails only with a ParseException, a NumberFormatException or a failing `substring(1)` |
| Parser.BuildFromNumberFormat | src/main/java/lvp/functionPlotter/parser/Parser.java:42 | a NumberFormatException comes from a NUMBER token of the list that parseNumber refuses, and carries its text |
| Parser.LexedTokens | src/main/java/lvp/functionPlotter/parser/Parser.java:27 | tokenize output has no `?` or `:` and no untagged unary operator, and every token has the shape of its kind |
| Parser.BuildTreeOfLexed | src/main/java/lvp/functionPlotter/parser/Parser.java:30-104 | on the RPN of tokenizer output, the tree builder never fails on `substring(1)`; a NumberFormatException names a digit-and-dot token from the input that is no decimal literal |
| Parser.ParseFailures | src/main/java/lvp/functionPlotter/parser/Parser.java:26-105 | parse fails with a tokenizer exception exactly when tokenize fails; it never fails in toRPN or in `substring(1)`; its NumberFormatException names a digit-and-dot token of the input with two or more dots or none but dots |
| ParserExamples.ParsePrecedence | src/main/java/lvp/functionPlotter/parser/Parser.java:26-28 | `3 + 4 * 2` parses to `BinaryOp("+", 3, BinaryOp("*", 4, 2))` |
| ParserExamples.ParseParentheses | src/main/java/lvp/functionPlotter/parser/Parser.java:26-28 | `(3+4)*2` parses to `BinaryOp("*", BinaryOp("+", 3, 4), 2)` |
| ParserExamples.ParsePrefixMinus | src/main/java/lvp/functionPlotter/parser/Parser.java:26-28 | `-3^2` parses to `BinaryOp("^", UnaryOp("-", 3), 2)` |
| ParserExamples.ParseEmpty | src/main/java/lvp/functionPlotter/parser/Parser.java:30-33 | the empty input throws `ParseException("Empty expression", 0)` |
| ParserExamples.ParseTwoNumbers | src/main/java/lvp/functionPlotter/parser/Parser.java:97-102 | `2 3` leaves two trees and throws a ParseException at offset 3, the input length |
| ParserExamples.TwoNumbersMessage | src/main/java/lvp/functionPlotter/parser/Parser.java:100-101 | the message says "expected 1 result, got 2 elements remaining" |
| ParserExamples.ParseDanglingOperator | src/main/java/lvp/functionPlotter/parser/Parser.java:46-52 | `2+` throws "Insufficient operands for operator '+'" at RPN index 1 |
| ParserExamples.DanglingOperatorMessage | src/main/java/lvp/functionPlotter/parser/Parser.java:50-51 | the message of that exception, spelled out |
| ParserExamples.ParseTwoDots | src/main/java/lvp/functionPlotter/parser/Parser.java:114-120 | `1.2.3` is tokenized as one number and then refused by parseNumber with a NumberFormatException |
| ParserExamples.ParseNumberUpperPi | src/main/java/lvp/functionPlotter/parser/Parser.java:115-116 | parseNumber reads `PI` as pi |
| ParserExamples.TreeConditional | src/main/java/lvp/functionPlotter/parser/Parser.java:46-56 | the conditional RPN `x 1 2 ?:` builds a BinaryOp `?:` over two trees and then leaves two trees, so building it fails |
| ParserExamples.ParseConditionalInput | src/main/java/lvp/functionPlotter/parser/Tokenizer.java:55 | `x?1:2` fails in the tokenizer at the `?` |
| Records.IsValidOperator | src/main/java/lvp/functionPlotter/ast/ComparisonExpr.java:37-44 | the six comparison operators `< > <= >= == !=` |
| Records.NewComparison | src/main/java/lvp/functionPlotter/ast/ComparisonExpr.java:15-29 | construction succeeds exactly when the operator is one of `< > <= >= == !=` and both operands are present, and then keeps its arguments; otherwise the checks fail in the order null or empty operator, invalid operator, left, right, each with its message |
| Records.ComparisonRoundTrip | src/main/java/lvp/functionPlotter/ast/ComparisonExpr.java:37-44 | a record rebuilt from its own fields is accepted exactly when its operator is valid, and then comes back unchanged |
| Records.ValidOperatorShape | src/main/java/lvp/functionPlotter/ast/ComparisonExpr.java:37-44 | every valid operator has one or two characters and ends in `<`, `>` or `=`, so it is never empty |
| Records.NewConditional | src/main/java/lvp/functionPlotter/ast/ConditionalExpr.java:15-26 | construction succeeds exactly when all three parts are present and keeps them; the condition is checked first, then the true part, then the false part, each with its message |
| Records.ConditionalRoundTrip | src/main/java/lvp/functionPlotter/ast/ConditionalExpr.java:15-26 | a conditional record rebuilt from its own fields comes back unchanged |
| FunctionPlotter.StringBuilder.Append | src/main/java/lvp/functionPlotter/plotter/FunctionPlotter.java:401 | `append` adds its text at the end of the builder |
| FunctionPlotter.WriteNode | src/main/java/lvp/functionPlotter/plotter/FunctionPlotter.java:395-432 | erstelleASTKnoten returns the id the counter held, advances the counter by exactly the number of nodes of the subtree, and appends exactly the subtree's lines |
| FunctionPlotter.ToDot | src/main/java/lvp/functionPlotter/plotter/FunctionPlotter.java:373-385 | erstelleASTalsDot returns the header, the default-node line, the lines of the tree numbered from 0 and the closing brace |
| FunctionPlotter.Lines | src/main/java/lvp/functionPlotter/plotter/FunctionPlotter.java:395-432 | the lines erstelleASTKnoten writes: the node, the subtrees with consecutive ids, then the edges to the subtree roots |
| FunctionPlotter.NodeText | src/main/java/lvp/functionPlotter/plotter/FunctionPlotter.java:395-432 | the text erstelleASTKnoten appends, the rendering of those lines |
| FunctionPlotter.Dot | src/main/java/lvp/functionPlotter/plotter/FunctionPlotter.java:373-385 | the string erstelleASTalsDot returns |
| FunctionPlotter.NodeNamesDistinct | src/main/java/lvp/functionPlotter/plotter/FunctionPlotter.java:401 | two node ids get the same DOT name exactly when they are equal, so the pre-order numbering gives every node its own name |
| FunctionPlotter.LinesIds | FunctionPlotter.java:109-147 | node ids are handed out in pre-order, consecutively from the counter's starting value |
| FunctionPlotter.ArgLinesIds | FunctionPlotter.java:139-142 | the arguments of a call are numbered one after the other, each from where the previous one ended |
| FunctionPlotter.LinesTargets | FunctionPlotter.java:114-143 | the edges of a tree lead, in output order, to the roots of its subtrees as each node writes them: `links` then `rechts`, `operand`, or `arg0` … `argN-1` |
| FunctionPlotter.ArgLinesTargets | FunctionPlotter.java:139-142 | the edges of a call lead to its arguments' roots, in order |
| FunctionPlotter.ChildCount | src/main/java/lvp/functionPlotter/plotter/FunctionPlotter.java:400-429 | every node except the root is the target of exactly one edge, and no edge leads elsewhere |
| FunctionPlotter.ArgChildCount | src/main/java/lvp/functionPlotter/plotter/FunctionPlotter.java:422-429 | every node in the arguments' subtrees is the target of exactly one edge |
| FunctionPlotter.ChildIdsLength | src/main/java/lvp/functionPlotter/plotter/FunctionPlotter.java:400-429 | a tree writes one edge fewer than it has nodes |
| FunctionPlotter.LinesEdges | src/main/java/lvp/functionPlotter/plotter/FunctionPlotter.java:400-429 | every edge leads from a node of the subtree to a later node of the subtree |
| FunctionPlotter.ArgLinesEdges | src/main/java/lvp/functionPlotter/plotter/FunctionPlotter.java:424-428 | every edge of the argument loop leads from the call node or a node inside an argument to a later node |
| FunctionPlotter.DotGraphNodes | FunctionPlotter.java:87-99 | the graph has the nodes 0 … n-1 in pre-order, and every edge leads forward between them |
| FunctionPlotter.DotGraphEdges | FunctionPlotter.java:109-147 | every node other than the root 0 has exactly one incoming edge, and there are n-1 edges for n nodes: the graph is a tree |
| FunctionPlotter.LoopNext | src/main/java/lvp/functionPlotter/plotter/FunctionPlotter.java:288-310 | one round of the outer loop never moves backwards |
| FunctionPlotter.Scannable | src/main/java/lvp/functionPlotter/plotter/FunctionPlotter.java:288-310 | the outer loop, once at i, reaches the end of the input |
| FunctionPlotter.VariableName | src/main/java/lvp/functionPlotter/plotter/FunctionPlotter.java:285-313 | the name the loop finds: the last one-letter run, or `x` |
| FunctionPlotter.ScannableAllowed | src/main/java/lvp/functionPlotter/plotter/FunctionPlotter.java:288-310 | from a position the loop gets past, only whitespace, letters and digits remain |
| FunctionPlotter.ScannableLexes | src/main/java/lvp/functionPlotter/plotter/FunctionPlotter.java:288-310 | every input on which the loop terminates is one tokenize accepts, so the statement about the name applies to it |
| FunctionPlotter.ExtractVariableName | src/main/java/lvp/functionPlotter/plotter/FunctionPlotter.java:285-313 | on an input where the loop ends, extractVariableName returns the name `VariableName` gives |
| FunctionPlotter.WordRunEndAt | src/main/java/lvp/functionPlotter/plotter/FunctionPlotter.java:298-301 | the inner loop stops at the first character that is neither a letter nor a digit |
| FunctionPlotter.NameFromTokens | src/main/java/lvp/functionPlotter/plotter/FunctionPlotter.java:285-313 | the scanned name is the text of the last one-letter identifier token of the input |
| FunctionPlotter.LastOneLetterIs | src/main/java/lvp/functionPlotter/plotter/FunctionPlotter.java:305-308 | the last one-letter token wins; with none, the default stays |
| FunctionPlotter.VariableNameIsLastOneLetter | src/main/java/lvp/functionPlotter/plotter/FunctionPlotter.java:285-313 | on tokenizable input the name is `x` when no one-letter run occurs, and otherwise the last one-letter run, even `e`; longer runs such as `sin` or `x2` never change it |
| FunctionPlotter.NameSkipsNumber | src/main/java/lvp/functionPlotter/plotter/FunctionPlotter.java:288-310 | a run of digits and dots does not change the name |
| FunctionPlotter.NameShape | src/main/java/lvp/functionPlotter/plotter/FunctionPlotter.java:286-309 | the name is always `x` or a single letter |
| FunctionPlotter.PlusNeverPassed | src/main/java/lvp/functionPlotter/plotter/FunctionPlotter.java:288-310 | on `y+1` the `+` leaves the index where it is, so the loop never reaches the end; skipping it would give `y` |

## Left out

- Parser.ParseNumber: only texts of digits and dots are modelled as accepted decimals, meaning at least one digit and at most one dot. Other forms that `Double.parseDouble` accepts are treated as refused: signs, exponents, `Infinity`, `NaN`, hexadecimal and a trailing `d` or `f`. The tokenizer never passes such a text on as a NUMBER, so `parse` behaves the same.
- Number values: `double` values, `Math.PI`, `Math.E` and floating-point arithmetic are not modelled. A constant is kept symbolic.
- Constant labels: Java's conversion of a double to text in a DOT label is a parameter `show` of the serialiser.
- Character classes: `Character.isWhitespace`, `isDigit`, `isLetter` and `isLetterOrDigit` are modelled on ASCII only. Letters and digits of other scripts are not modelled.
- Id counter width: the `int` counter of the serialiser is unbounded. A tree with more than 2^31-1 nodes, which would make it wrap, is not modelled.
- Console output: the `System.out.println` calls of `extractVariableName` and the plotter are not modelled, nor those `parse` makes before each exception it throws (Parser.java:31, 48-49, 60-61, 73-74, 85-86, 92, 98-99); they print and change no state the model has.
- Text.ToLower: `toLowerCase` in `parseNumber` uses the default locale. The model, `Parser.ParseNumber` and `ParserExamples.ParseNumberUpperPi` take a locale that maps `A`-`Z` to `a`-`z`; under a Turkish locale `PI` becomes `pı` and is refused with a NumberFormatException, which the model does not capture.
- Call arguments: `FunctionCall` declares varargs, but the parser and the serialiser use it as a list, and the model keeps a `seq<Expr>`.
- Conditional records: `Expr` is sealed to five variants, and `ComparisonExpr` and `ConditionalExpr` are outside them. They are separate records here that the parser never builds.
- Evaluation: none of the modelled files contains one.
- Plotter rest: the drawing, axis and curve code, `calculateStep`, `findClosestDivisor`, `parseInterval` and the notebook user interface are not modelled. They are floating-point geometry and calls into graphics and UI libraries that are not part of this model. The same holds for the rest of the top-level `FunctionPlotter.java` and for the demo scripts.
- Unreachable handler: the `EmptyStackException` handler of `parse` is not modelled. A size test guards every pop of the loop, so it cannot be triggered.
- FunctionPlotter.ExtractVariableName: the method requires an input on which its loop terminates. On any other input the Java loop runs forever (see Findings). `FunctionPlotter.VariableName` gives the name the loop was evidently meant to find.

## Findings

| source | as written | input that shows it | evidently intended | confidence | as-written member | corrected member |
|---|---|---|---|---|---|---|
| src/main/java/lvp/functionPlotter/plotter/FunctionPlotter.java:288-310 | the outer loop advances only on whitespace and on a run that starts with a letter; any other character leaves `i` unchanged, forever | `y+1` (equally any operator, parenthesis or leading digit, as in `2*x`) | skip the character and go on, returning the last one-letter identifier, or `x` | not executed | FunctionPlotter.PlusNeverPassed | FunctionPlotter.VariableNameIsLastOneLetter |
