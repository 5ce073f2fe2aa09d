/** Whole-pipeline runs of Parser.parse on small inputs. */
module ParserExamples {
  import opened Results
  import opened Tokens
  import opened Ast
  import opened Tokenizer
  import opened ConvertToRpn
  import opened RpnExamples
  import opened Parser
  import opened Stacks
  import Text

  function Literal(s: string): Expr { Constant(Lit(s)) }

  /** A decimal literal token pushes its constant. */
  lemma NumberStep(stack: seq<Expr>, text: string, i: nat)
    requires IsDecimal(text)
    ensures BuildStep(stack, Number(text), i) == Ok(stack + [Literal(text)])
  {
    ParseNumberCases(text);
  }

  /** One successful step at the front of the RPN. */
  lemma BuildFromCons(stack: seq<Expr>, t: Token, rest: seq<Token>, offset: nat)
    requires BuildStep(stack, t, offset).Ok?
    ensures BuildFrom(stack, [t] + rest, offset) == BuildFrom(BuildStep(stack, t, offset).value, rest, offset + 1)
  {
    assert ([t] + rest)[0] == t && ([t] + rest)[1..] == rest;
  }

  /** A single digit is a decimal literal. */
  lemma DigitDecimal(s: string)
    requires |s| == 1 && '0' <= s[0] <= '9'
    ensures IsDecimal(s)
  {
    assert Text.IsDigit(s[0]);
  }

  /** From the space before the 4 on, "3 + 4 * 2" scans to * 2. */
  lemma LexPrecedenceTail()
    ensures LexFrom("3 + 4 * 2", 5) == Ok([Op("*"), Number("2")])
  {
    var s := "3 + 4 * 2";
    var t2 := [Number("2")];
    assert LexFrom(s, 9) == Ok([]);
    assert NumberRunEnd(s, 8) == 9 && s[8..9] == "2";
    LexFromNumber(s, 8);
    assert [Number("2")] + [] == t2;
    assert LexFrom(s, 8) == Ok(t2);
    assert LexFrom(s, 7) == Ok(t2);
    LexFromSymbol(s, 6);
    assert SymbolToken('*') == Some(Op("*"));
    assert LexFrom(s, 6) == Ok([Op("*")] + t2);
    assert [Op("*")] + t2 == [Op("*"), Number("2")];
  }

  /** From the space after the 3 on, "3 + 4 * 2" scans to + 4 * 2. */
  lemma LexPrecedenceMiddle()
    ensures LexFrom("3 + 4 * 2", 1) == Ok([Op("+"), Number("4"), Op("*"), Number("2")])
  {
    var s := "3 + 4 * 2";
    LexPrecedenceTail();
    var t6 := [Op("*"), Number("2")];
    assert NumberRunEnd(s, 4) == 5 && s[4..5] == "4";
    LexFromNumber(s, 4);
    var t4 := [Number("4")] + t6;
    assert LexFrom(s, 4) == Ok(t4);
    assert LexFrom(s, 3) == Ok(t4);
    LexFromSymbol(s, 2);
    assert SymbolToken('+') == Some(Op("+"));
    assert LexFrom(s, 2) == Ok([Op("+")] + t4);
    assert [Op("+")] + t4 == [Op("+"), Number("4"), Op("*"), Number("2")];
  }

  /** "3 + 4 * 2" scans to five tokens. */
  lemma LexPrecedence()
    ensures Lex("3 + 4 * 2") == Ok([Number("3"), Op("+"), Number("4"), Op("*"), Number("2")])
  {
    var s := "3 + 4 * 2";
    LexPrecedenceMiddle();
    var t2b := [Op("+"), Number("4"), Op("*"), Number("2")];
    assert NumberRunEnd(s, 0) == 1 && s[0..1] == "3";
    LexFromNumber(s, 0);
    assert LexFrom(s, 0) == Ok([Number("3")] + t2b);
    assert [Number("3")] + t2b == [Number("3"), Op("+"), Number("4"), Op("*"), Number("2")];
  }

  /** The RPN a b c q p builds a p (b q c). */
  lemma TreeRightNested(a: string, b: string, c: string, p: string, q: string, inputLength: nat)
    requires IsDecimal(a) && IsDecimal(b) && IsDecimal(c)
    ensures BuildTree([Number(a), Number(b), Number(c), Op(q), Op(p)], inputLength)
         == Ok(BinaryOp(p, Literal(a), BinaryOp(q, Literal(b), Literal(c))))
  {
    var m := BinaryOp(q, Literal(b), Literal(c));
    var e := BinaryOp(p, Literal(a), m);
    assert Postfix(Literal(a)) == [Number(a)];
    assert Postfix(Literal(b)) == [Number(b)];
    assert Postfix(Literal(c)) == [Number(c)];
    assert Buildable(Literal(b)) && Buildable(Literal(c));
    assert Buildable(m);
    assert Buildable(e);
    assert Postfix(m) == [Number(b), Number(c), Op(q)];
    assert Postfix(e) == [Number(a)] + [Number(b), Number(c), Op(q)] + [Op(p)];
    assert Postfix(e) == [Number(a), Number(b), Number(c), Op(q), Op(p)];
    BuildPostfix(e, inputLength);
  }

  /** "3 + 4 * 2" parses to 3 + (4 * 2). */
  lemma ParsePrecedence()
    ensures ParseSpec("3 + 4 * 2") == Ok(BinaryOp("+", Literal("3"), BinaryOp("*", Literal("4"), Literal("2"))))
  {
    LexPrecedence();
    PrecedenceExample();
    ParseOk("3 + 4 * 2", [Number("3"), Op("+"), Number("4"), Op("*"), Number("2")],
            [Number("3"), Number("4"), Number("2"), Op("*"), Op("+")]);
    DigitDecimal("3");
    DigitDecimal("4");
    DigitDecimal("2");
    TreeRightNested("3", "4", "2", "+", "*", 9);
  }

  /** The last three characters of "(3+4)*2" scan to ) * 2. */
  lemma LexParenthesesTail()
    ensures LexFrom("(3+4)*2", 4) == Ok([Token(RIGHT_PAREN, ")"), Op("*"), Number("2")])
  {
    var s := "(3+4)*2";
    assert NumberRunEnd(s, 6) == 7 && s[6..7] == "2";
    LexFromNumber(s, 6);
    var t6 := [Number("2")];
    assert [Number("2")] + [] == t6;
    assert LexFrom(s, 6) == Ok(t6);
    LexFromSymbol(s, 5);
    assert SymbolToken('*') == Some(Op("*"));
    var t5 := [Op("*")] + t6;
    assert LexFrom(s, 5) == Ok(t5);
    LexFromSymbol(s, 4);
    assert SymbolToken(')') == Some(Token(RIGHT_PAREN, ")"));
    assert [Token(RIGHT_PAREN, ")")] + t5 == [Token(RIGHT_PAREN, ")"), Op("*"), Number("2")];
  }

  /** From the + on, "(3+4)*2" scans to + 4 ) * 2. */
  lemma LexParenthesesMiddle()
    ensures LexFrom("(3+4)*2", 2) == Ok([Op("+"), Number("4"), Token(RIGHT_PAREN, ")"), Op("*"), Number("2")])
  {
    var s := "(3+4)*2";
    LexParenthesesTail();
    var t4 := [Token(RIGHT_PAREN, ")"), Op("*"), Number("2")];
    assert NumberRunEnd(s, 3) == 4 && s[3..4] == "4";
    LexFromNumber(s, 3);
    var t3 := [Number("4")] + t4;
    assert LexFrom(s, 3) == Ok(t3);
    LexFromSymbol(s, 2);
    assert SymbolToken('+') == Some(Op("+"));
    assert LexFrom(s, 2) == Ok([Op("+")] + t3);
    assert [Op("+")] + t3 == [Op("+"), Number("4"), Token(RIGHT_PAREN, ")"), Op("*"), Number("2")];
  }

  /** "(3+4)*2" scans to seven tokens. */
  lemma LexParentheses()
    ensures Lex("(3+4)*2") == Ok([Token(LEFT_PAREN, "("), Number("3"), Op("+"), Number("4"),
                                  Token(RIGHT_PAREN, ")"), Op("*"), Number("2")])
  {
    var s := "(3+4)*2";
    LexParenthesesMiddle();
    var t2 := [Op("+"), Number("4"), Token(RIGHT_PAREN, ")"), Op("*"), Number("2")];
    assert NumberRunEnd(s, 1) == 2 && s[1..2] == "3";
    LexFromNumber(s, 1);
    var t1 := [Number("3")] + t2;
    assert LexFrom(s, 1) == Ok(t1);
    LexFromSymbol(s, 0);
    assert SymbolToken('(') == Some(Token(LEFT_PAREN, "("));
    assert LexFrom(s, 0) == Ok([Token(LEFT_PAREN, "(")] + t1);
    assert [Token(LEFT_PAREN, "(")] + t1 == [Token(LEFT_PAREN, "("), Number("3"), Op("+"), Number("4"),
                                              Token(RIGHT_PAREN, ")"), Op("*"), Number("2")];
  }

  /** The RPN a b p c q builds (a p b) q c. */
  lemma TreeLeftNested(a: string, b: string, c: string, p: string, q: string, inputLength: nat)
    requires IsDecimal(a) && IsDecimal(b) && IsDecimal(c)
    ensures BuildTree([Number(a), Number(b), Op(p), Number(c), Op(q)], inputLength)
         == Ok(BinaryOp(q, BinaryOp(p, Literal(a), Literal(b)), Literal(c)))
  {
    var m := BinaryOp(p, Literal(a), Literal(b));
    var e := BinaryOp(q, m, Literal(c));
    assert Postfix(Literal(a)) == [Number(a)];
    assert Postfix(Literal(b)) == [Number(b)];
    assert Postfix(Literal(c)) == [Number(c)];
    assert Buildable(Literal(a)) && Buildable(Literal(b));
    assert Buildable(m);
    assert Buildable(e);
    assert Postfix(m) == [Number(a), Number(b), Op(p)];
    assert Postfix(e) == [Number(a), Number(b), Op(p)] + [Number(c)] + [Op(q)];
    assert Postfix(e) == [Number(a), Number(b), Op(p), Number(c), Op(q)];
    BuildPostfix(e, inputLength);
  }

  /** "(3+4)*2" parses to (3 + 4) * 2: the parentheses override precedence. */
  lemma ParseParentheses()
    ensures ParseSpec("(3+4)*2") == Ok(BinaryOp("*", BinaryOp("+", Literal("3"), Literal("4")), Literal("2")))
  {
    LexParentheses();
    ParenthesesExample();
    ParseOk("(3+4)*2", [Token(LEFT_PAREN, "("), Number("3"), Op("+"), Number("4"),
                        Token(RIGHT_PAREN, ")"), Op("*"), Number("2")],
            [Number("3"), Number("4"), Op("+"), Number("2"), Op("*")]);
    DigitDecimal("3");
    DigitDecimal("4");
    DigitDecimal("2");
    TreeLeftNested("3", "4", "2", "+", "*", 7);
  }

  /** "-3^2" scans to four tokens; the minus is still a binary operator at this stage. */
  lemma LexPrefixMinus()
    ensures Lex("-3^2") == Ok([Op("-"), Number("3"), Op("^"), Number("2")])
  {
    var s := "-3^2";
    assert NumberRunEnd(s, 3) == 4 && s[3..4] == "2";
    LexFromNumber(s, 3);
    var t3 := [Number("2")];
    assert [Number("2")] + [] == t3;
    assert LexFrom(s, 3) == Ok(t3);
    LexFromSymbol(s, 2);
    assert SymbolToken('^') == Some(Op("^"));
    var t2 := [Op("^")] + t3;
    assert LexFrom(s, 2) == Ok(t2);
    assert NumberRunEnd(s, 1) == 2 && s[1..2] == "3";
    LexFromNumber(s, 1);
    var t1 := [Number("3")] + t2;
    assert LexFrom(s, 1) == Ok(t1);
    LexFromSymbol(s, 0);
    assert SymbolToken('-') == Some(Op("-"));
    assert LexFrom(s, 0) == Ok([Op("-")] + t1);
    assert [Op("-")] + t1 == [Op("-"), Number("3"), Op("^"), Number("2")];
  }

  /** The RPN a u<op> b p builds (op a) p b. */
  lemma TreeUnaryLeft(a: string, b: string, op: string, p: string, inputLength: nat)
    requires IsDecimal(a) && IsDecimal(b)
    ensures BuildTree([Number(a), Token(UNARY_OPERATOR, "u" + op), Number(b), Op(p)], inputLength)
         == Ok(BinaryOp(p, UnaryOp(op, Literal(a)), Literal(b)))
  {
    var m := UnaryOp(op, Literal(a));
    var e := BinaryOp(p, m, Literal(b));
    assert Postfix(Literal(a)) == [Number(a)];
    assert Postfix(Literal(b)) == [Number(b)];
    assert Buildable(Literal(a)) && Buildable(Literal(b));
    assert Buildable(m);
    assert Buildable(e);
    assert Postfix(m) == [Number(a), Token(UNARY_OPERATOR, "u" + op)];
    assert Postfix(e) == [Number(a), Token(UNARY_OPERATOR, "u" + op)] + [Number(b)] + [Op(p)];
    assert Postfix(e) == [Number(a), Token(UNARY_OPERATOR, "u" + op), Number(b), Op(p)];
    BuildPostfix(e, inputLength);
  }

  /** "-3^2" parses to (-3)^2: the prefix minus binds tighter than the power. */
  lemma ParsePrefixMinus()
    ensures ParseSpec("-3^2") == Ok(BinaryOp("^", UnaryOp("-", Literal("3")), Literal("2")))
  {
    LexPrefixMinus();
    PrefixMinusExample();
    assert "u" + "-" == "u-";
    ParseOk("-3^2", [Op("-"), Number("3"), Op("^"), Number("2")],
            [Number("3"), Token(UNARY_OPERATOR, "u-"), Number("2"), Op("^")]);
    DigitDecimal("3");
    DigitDecimal("2");
    TreeUnaryLeft("3", "2", "-", "^", 4);
  }

  /** The empty input is an empty expression, reported at position 0. */
  lemma ParseEmpty()
    ensures ParseSpec("") == Err(ParseException(EmptyExpression, 0))
    ensures ParseSpec("").error.Message() == "Empty expression"
  {
    assert Lex("") == Ok([]);
    assert Preprocess([]) == [];
    assert !HasConditionalOperators([]);
    assert Run([]) == Shunt([], []);
    assert Reversed<Token>([]) == [];
    assert StandardRpn([]) == [];
    assert ToRpnSpec([]) == Ok([]);
  }

  /** Two operands and no operator leave two trees on the stack. */
  lemma TreeTwoOperands(a: string, b: string, inputLength: nat)
    requires IsDecimal(a) && IsDecimal(b)
    ensures BuildTree([Number(a), Number(b)], inputLength) == Err(ParseException(WrongResultCount(2), inputLength))
  {
    NumberStep([], a, 0);
    NumberStep([Literal(a)], b, 1);
    BuildFromCons([], Number(a), [Number(b)], 0);
    BuildFromCons([Literal(a)], Number(b), [], 1);
    assert [Number(b)] + [] == [Number(b)];
    assert [Number(a)] + [Number(b)] == [Number(a), Number(b)];
    assert BuildFrom([], [Number(a), Number(b)], 0) == Ok([] + [Literal(a)] + [Literal(b)]);
  }

  /** "2 3" scans to two numbers. */
  lemma LexTwoNumbers()
    ensures Lex("2 3") == Ok([Number("2"), Number("3")])
  {
    var s := "2 3";
    assert NumberRunEnd(s, 2) == 3 && s[2..3] == "3";
    LexFromNumber(s, 2);
    assert [Number("3")] + [] == [Number("3")];
    assert LexFrom(s, 2) == Ok([Number("3")]);
    assert LexFrom(s, 1) == Ok([Number("3")]);
    assert NumberRunEnd(s, 0) == 1 && s[0..1] == "2";
    LexFromNumber(s, 0);
    assert [Number("2")] + [Number("3")] == [Number("2"), Number("3")];
  }

  /** "2 3": the error is reported at the input length. */
  lemma ParseTwoNumbers()
    ensures ParseSpec("2 3") == Err(ParseException(WrongResultCount(2), 3))
  {
    LexTwoNumbers();
    TwoOperands(Number("2"), Number("3"));
    ParseOk("2 3", [Number("2"), Number("3")], [Number("2"), Number("3")]);
    DigitDecimal("2");
    DigitDecimal("3");
    TreeTwoOperands("2", "3", 3);
  }

  /** The message of a leftover stack gives the number of trees left. */
  lemma TwoNumbersMessage()
    ensures ParseException(WrongResultCount(2), 3).Message()
         == "Invalid RPN expression: expected 1 result, got 2 elements remaining"
  {
    var m := "Invalid RPN expression: expected 1 result, got " + Text.NatToString(2) + " elements remaining";
    assert Text.NatToString(2) == "2";
    assert ParseException(WrongResultCount(2), 3).Message() == m;
  }

  /** A binary operator with one operand before it fails at its own RPN position. */
  lemma TreeDanglingOperator(a: string, op: string, inputLength: nat)
    requires IsDecimal(a)
    ensures BuildTree([Number(a), Op(op)], inputLength) == Err(ParseException(InsufficientOperands(op), 1))
  {
    NumberStep([], a, 0);
    BuildFromCons([], Number(a), [Op(op)], 0);
    assert [Number(a)] + [Op(op)] == [Number(a), Op(op)];
    BuildOne([Literal(a)], Op(op), 1);
  }

  /** "2+" scans to a number and an operator. */
  lemma LexDanglingOperator()
    ensures Lex("2+") == Ok([Number("2"), Op("+")])
  {
    var s := "2+";
    LexFromSymbol(s, 1);
    assert SymbolToken('+') == Some(Op("+"));
    assert LexFrom(s, 2) == Ok([]);
    assert [Op("+")] + [] == [Op("+")];
    assert LexFrom(s, 1) == Ok([Op("+")]);
    assert NumberRunEnd(s, 0) == 1 && s[0..1] == "2";
    LexFromNumber(s, 0);
    assert [Number("2")] + [Op("+")] == [Number("2"), Op("+")];
  }

  /** "2+" fails at the operator, RPN position 1. */
  lemma ParseDanglingOperator()
    ensures ParseSpec("2+") == Err(ParseException(InsufficientOperands("+"), 1))
  {
    LexDanglingOperator();
    TrailingOperator(Number("2"), Op("+"));
    ParseOk("2+", [Number("2"), Op("+")], [Number("2"), Op("+")]);
    DigitDecimal("2");
    TreeDanglingOperator("2", "+", 2);
  }

  /** The message names the operator and the position. */
  lemma DanglingOperatorMessage()
    ensures ParseException(InsufficientOperands("+"), 1).Message()
         == "Insufficient operands for operator '+' at position 1"
  {
    assert Text.NatToString(1) == "1";
  }

  /** A number with two dots passes the scanner but not parseNumber. */
  lemma ParseTwoDots()
    ensures ParseSpec("1.2.3") == Err(NumberFormat("1.2.3"))
  {
    var s := "1.2.3";
    assert NumberRunEnd(s, 0) == 5;
    LexFromNumber(s, 0);
    assert s[0..5] == s;
    assert LexFrom(s, 5) == Ok([]);
    assert [Number(s)] + [] == [Number(s)];
    assert Lex(s) == Ok([Number(s)]);
    SingleOperand(Number(s));
    ParseOk(s, [Number(s)], [Number(s)]);
    assert !IsDecimal(s) by {
      assert s[1] == '.' && s[3] == '.';
    }
    ParseNumberCases(s);
    assert ParseNumber(s) == Err(NumberFormat(s));
    BuildOne([], Number(s), 0);
  }

  /** The named constants are recognised in any case. */
  lemma ParseNumberUpperPi()
    ensures ParseNumber("PI") == Ok(Pi)
  {
    assert Text.ToLower("PI") == "pi";
    ParseNumberCases("PI");
  }

  /**
   * The conditional marker is built like a binary operator, so the condition
   * stays on the stack and no conditional tree comes out.
   */
  lemma TreeConditional(x: string, a: string, b: string, inputLength: nat)
    requires IsDecimal(a) && IsDecimal(b)
    ensures BuildTree([Var(x), Number(a), Number(b), ConditionalMarker], inputLength)
         == Err(ParseException(WrongResultCount(2), inputLength))
  {
    var s1 := [Variable(x)];
    var s2 := s1 + [Literal(a)];
    var s3 := s2 + [Literal(b)];
    var s4 := s1 + [BinaryOp("?:", Literal(a), Literal(b))];
    assert BuildStep([], Var(x), 0) == Ok([] + s1);
    NumberStep(s1, a, 1);
    NumberStep(s2, b, 2);
    OperatorStep(s1, Literal(a), Literal(b), "?:", 3);
    BuildOne(s3, ConditionalMarker, 3);
    BuildFromCons(s2, Number(b), [ConditionalMarker], 2);
    BuildFromCons(s1, Number(a), [Number(b), ConditionalMarker], 1);
    BuildFromCons([], Var(x), [Number(a), Number(b), ConditionalMarker], 0);
    assert [Var(x)] + [Number(a), Number(b), ConditionalMarker] == [Var(x), Number(a), Number(b), ConditionalMarker];
    assert [Number(a)] + [Number(b), ConditionalMarker] == [Number(a), Number(b), ConditionalMarker];
    assert [Number(b)] + [ConditionalMarker] == [Number(b), ConditionalMarker];
    assert BuildFrom([], [Var(x), Number(a), Number(b), ConditionalMarker], 0) == Ok(s4);
  }

  /** The scanner has no case for '?', so a conditional never reaches the converter. */
  lemma ParseConditionalInput()
    ensures ParseSpec("x?1:2") == Err(LexFailure(UnexpectedCharacter('?')))
  {
    var s := "x?1:2";
    assert Allowed(s[0]) && !Allowed(s[1]);
    LexFailsAtFirstBadChar(s, 1);
  }
}
