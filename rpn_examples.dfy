/** Worked conversions: precedence, left associativity and prefix minus. */
module RpnExamples {
  import opened Results
  import opened Tokens
  import opened Stacks
  import opened ConvertToRpn

  function Number(s: string): Token { Token(NUMBER, s) }
  function Op(s: string): Token { Token(OPERATOR, s) }
  function Var(s: string): Token { Token(VARIABLE, s) }

  /** 3 + 4 * 2 becomes 3 4 2 * + : * binds tighter than +. */
  lemma PrecedenceExample()
    ensures ToRpnSpec([Number("3"), Op("+"), Number("4"), Op("*"), Number("2")])
         == Ok([Number("3"), Number("4"), Number("2"), Op("*"), Op("+")])
  {
    assert Precedence(Op("+")) < Precedence(Op("*"));
    TwoOperatorsOrder(Number("3"), Op("+"), Number("4"), Op("*"), Number("2"));
  }

  /** 2 - 3 - 4 becomes 2 3 - 4 - : operators of equal precedence group to the left. */
  lemma LeftAssociativeExample()
    ensures ToRpnSpec([Number("2"), Op("-"), Number("3"), Op("-"), Number("4")])
         == Ok([Number("2"), Number("3"), Op("-"), Number("4"), Op("-")])
  {
    TwoOperatorsOrder(Number("2"), Op("-"), Number("3"), Op("-"), Number("4"));
  }

  /** 2 ^ 3 ^ 2 becomes 2 3 ^ 2 ^ : the code makes ^ left-associative too. */
  lemma PowerExample()
    ensures ToRpnSpec([Number("2"), Op("^"), Number("3"), Op("^"), Number("2")])
         == Ok([Number("2"), Number("3"), Op("^"), Number("2"), Op("^")])
  {
    TwoOperatorsOrder(Number("2"), Op("^"), Number("3"), Op("^"), Number("2"));
  }

  /** The machine on u- 3 ^ 2: the sign, at precedence 4, is popped by the ^. */
  lemma PrefixMinusRun()
    ensures !HasConditionalOperators([Token(UNARY_OPERATOR, "u-"), Number("3"), Op("^"), Number("2")])
    ensures Run([Token(UNARY_OPERATOR, "u-"), Number("3"), Op("^"), Number("2")])
         == Shunt([Number("3"), Token(UNARY_OPERATOR, "u-"), Number("2")], [Op("^")])
  {
    var a, b, c, d := Token(UNARY_OPERATOR, "u-"), Number("3"), Op("^"), Number("2");
    PrefixMinusRunTail();
    assert [a, b, c, d][1..] == [b, c, d] && [b, c, d][1..] == [c, d];
    assert Step(Shunt([], [a]), b) == Shunt([b], [a]);
    assert RunFrom(Shunt([], [a]), [b, c, d]) == Shunt([b, a, d], [c]);
    assert Step(Shunt([], []), a) == Shunt([], [a]);
  }

  /** The same machine after u- 3. */
  lemma PrefixMinusRunTail()
    ensures !HasConditionalOperators([Op("^"), Number("2")])
    ensures RunFrom(Shunt([Number("3")], [Token(UNARY_OPERATOR, "u-")]), [Op("^"), Number("2")])
         == Shunt([Number("3"), Token(UNARY_OPERATOR, "u-"), Number("2")], [Op("^")])
  {
    var a, b, c, d := Token(UNARY_OPERATOR, "u-"), Number("3"), Op("^"), Number("2");
    assert [c, d][1..] == [d] && [d][1..] == [];
    var s4 := Shunt([b, a, d], [c]);
    assert Step(Shunt([b, a], [c]), d) == s4;
    assert RunFrom(Shunt([b, a], [c]), [d]) == s4;
    assert PopWhileYields(Shunt([b], [a]), c) == Shunt([b, a], []);
    assert Step(Shunt([b], [a]), c) == Shunt([b, a], [c]);
  }

  /** -3 ^ 2 becomes 3 u- 2 ^ : the leading - is unary and binds tighter than ^. */
  lemma PrefixMinusExample()
    ensures ToRpnSpec([Op("-"), Number("3"), Op("^"), Number("2")])
         == Ok([Number("3"), Token(UNARY_OPERATOR, "u-"), Number("2"), Op("^")])
  {
    var ts := [Op("-"), Number("3"), Op("^"), Number("2")];
    var p := [Token(UNARY_OPERATOR, "u-"), Number("3"), Op("^"), Number("2")];
    PreprocessSpec(ts);
    assert "u" + "-" == "u-";
    assert Preprocess(ts) == p;
    PrefixMinusRun();
    assert Reversed([Op("^")]) == [Op("^")];
    StandardExample(ts, p, [Number("3"), Token(UNARY_OPERATOR, "u-"), Number("2")], [Op("^")], [Number("3"), Token(UNARY_OPERATOR, "u-"), Number("2"), Op("^")]);
  }

  /** The machine on ( 3 + 4: the + waits on top of the (. */
  lemma OpeningRun()
    ensures !HasConditionalOperators([Token(LEFT_PAREN, "("), Number("3"), Op("+"), Number("4")])
    ensures Run([Token(LEFT_PAREN, "("), Number("3"), Op("+"), Number("4")])
         == Shunt([Number("3"), Number("4")], [Token(LEFT_PAREN, "("), Op("+")])
  {
    var a, b, c, d := Token(LEFT_PAREN, "("), Number("3"), Op("+"), Number("4");
    OpeningRunTail();
    RunFromCons(Shunt([], [a]), b, [c, d]);
    assert Step(Shunt([], [a]), b) == Shunt([b], [a]);
    RunFromCons(Shunt([], []), a, [b, c, d]);
    assert Step(Shunt([], []), a) == Shunt([], [a]);
  }

  /** The same machine after ( 3. */
  lemma OpeningRunTail()
    ensures !HasConditionalOperators([Op("+"), Number("4")])
    ensures RunFrom(Shunt([Number("3")], [Token(LEFT_PAREN, "(")]), [Op("+"), Number("4")])
         == Shunt([Number("3"), Number("4")], [Token(LEFT_PAREN, "("), Op("+")])
  {
    var a, b, c, d := Token(LEFT_PAREN, "("), Number("3"), Op("+"), Number("4");
    RunFromCons(Shunt([b], [a, c]), d, []);
    assert Step(Shunt([b], [a, c]), d) == Shunt([b, d], [a, c]);
    RunFromCons(Shunt([b], [a]), c, [d]);
    assert Step(Shunt([b], [a]), c) == Shunt([b], [a, c]);
  }

  /** The machine continuing with ) * 2: the ) empties the parenthesis. */
  lemma ClosingRun()
    ensures !HasConditionalOperators([Token(RIGHT_PAREN, ")"), Op("*"), Number("2")])
    ensures RunFrom(Shunt([Number("3"), Number("4")], [Token(LEFT_PAREN, "("), Op("+")]), [Token(RIGHT_PAREN, ")"), Op("*"), Number("2")])
         == Shunt([Number("3"), Number("4"), Op("+"), Number("2")], [Op("*")])
  {
    var a, b, c, d, e, f, g := Token(LEFT_PAREN, "("), Number("3"), Op("+"), Number("4"), Token(RIGHT_PAREN, ")"), Op("*"), Number("2");
    ClosingRunTail();
    RunFromCons(Shunt([b, d], [a, c]), e, [f, g]);
    assert PopToLeftParen(Shunt([b, d], [a, c])) == Shunt([b, d, c], [a]);
    assert Step(Shunt([b, d], [a, c]), e) == Shunt([b, d, c], []);
  }

  /** The same machine after the ). */
  lemma ClosingRunTail()
    ensures !HasConditionalOperators([Op("*"), Number("2")])
    ensures RunFrom(Shunt([Number("3"), Number("4"), Op("+")], []), [Op("*"), Number("2")])
         == Shunt([Number("3"), Number("4"), Op("+"), Number("2")], [Op("*")])
  {
    var b, c, d, f, g := Number("3"), Op("+"), Number("4"), Op("*"), Number("2");
    RunFromCons(Shunt([b, d, c], [f]), g, []);
    assert Step(Shunt([b, d, c], [f]), g) == Shunt([b, d, c, g], [f]);
    RunFromCons(Shunt([b, d, c], []), f, [g]);
    assert Step(Shunt([b, d, c], []), f) == Shunt([b, d, c], [f]);
  }

  /** The machine on ( 3 + 4 ) * 2. */
  lemma ParenthesesRun()
    ensures !HasConditionalOperators([Token(LEFT_PAREN, "("), Number("3"), Op("+"), Number("4"), Token(RIGHT_PAREN, ")"), Op("*"), Number("2")])
    ensures Run([Token(LEFT_PAREN, "("), Number("3"), Op("+"), Number("4"), Token(RIGHT_PAREN, ")"), Op("*"), Number("2")])
         == Shunt([Number("3"), Number("4"), Op("+"), Number("2")], [Op("*")])
  {
    var xs := [Token(LEFT_PAREN, "("), Number("3"), Op("+"), Number("4")];
    var ys := [Token(RIGHT_PAREN, ")"), Op("*"), Number("2")];
    OpeningRun();
    ClosingRun();
    RunFromConcat(Shunt([], []), xs, ys);
    assert xs + ys == [Token(LEFT_PAREN, "("), Number("3"), Op("+"), Number("4"), Token(RIGHT_PAREN, ")"), Op("*"), Number("2")];
  }

  /** Neither operator of ( 3 + 4 ) * 2 follows an operator, a ( or a comma. */
  lemma ParenthesesPreprocessed()
    ensures var ts := [Token(LEFT_PAREN, "("), Number("3"), Op("+"), Number("4"), Token(RIGHT_PAREN, ")"), Op("*"), Number("2")];
            Preprocess(ts) == ts
  {
    var ts := [Token(LEFT_PAREN, "("), Number("3"), Op("+"), Number("4"), Token(RIGHT_PAREN, ")"), Op("*"), Number("2")];
    forall i | 0 <= i < |ts|
      ensures !IsUnaryOperator(ts[i], Prev(ts, i))
    {
      if i == 2 {
        assert Prev(ts, i) == Some(Number("3"));
      } else if i == 5 {
        assert Prev(ts, i) == Some(Token(RIGHT_PAREN, ")"));
      }
    }
    PreprocessUnchanged(ts);
  }

  /** ( 3 + 4 ) * 2 becomes 3 4 + 2 * : parentheses leave no trace in the output. */
  lemma ParenthesesExample()
    ensures ToRpnSpec([Token(LEFT_PAREN, "("), Number("3"), Op("+"), Number("4"), Token(RIGHT_PAREN, ")"), Op("*"), Number("2")])
         == Ok([Number("3"), Number("4"), Op("+"), Number("2"), Op("*")])
  {
    var ts := [Token(LEFT_PAREN, "("), Number("3"), Op("+"), Number("4"), Token(RIGHT_PAREN, ")"), Op("*"), Number("2")];
    ParenthesesPreprocessed();
    ParenthesesRun();
    assert Reversed([Op("*")]) == [Op("*")];
    StandardExample(ts, ts, [Number("3"), Number("4"), Op("+"), Number("2")], [Op("*")], [Number("3"), Number("4"), Op("+"), Number("2"), Op("*")]);
  }

  /**
   * Glue for the examples on the standard path: the preprocessed tokens, the
   * machine's final state and the flushed output.
   */
  lemma StandardExample(ts: seq<Token>, p: seq<Token>, out: seq<Token>, stack: seq<Token>, rpn: seq<Token>)
    requires Preprocess(ts) == p && !HasConditionalOperators(p)
    requires Run(p) == Shunt(out, stack) && out + Reversed(stack) == rpn
    ensures ToRpnSpec(ts) == Ok(rpn)
  {
    assert StandardRpn(p) == Flush(Shunt(out, stack)) == rpn;
  }

  /** Glue for the examples the conditional scan refuses. */
  lemma ScanRefused(ts: seq<Token>, e: ConvertError)
    requires Preprocess(ts) == ts && HasConditionalOperators(ts)
    requires ScanConditional(ts, 0, -1) == Err(e)
    ensures ToRpnSpec(ts) == Err(e)
  {
  }

  /** A lone number or variable is its own RPN. */
  lemma SingleOperand(t: Token)
    requires t.kind == NUMBER || t.kind == VARIABLE
    ensures ToRpnSpec([t]) == Ok([t])
  {
    PreprocessUnchanged([t]);
    assert !HasConditionalOperators([t]) by { assert [t][0] == t; }
    assert [t][1..] == [];
    assert Step(Shunt([], []), t) == Shunt([t], []);
    assert RunFrom(Shunt([t], []), []) == Shunt([t], []);
    assert Run([t]) == Shunt([t], []);
    assert StandardRpn([t]) == [t];
  }

  /** x ? 1 : 2 becomes x 1 2 ?: . */
  lemma ConditionalExample()
    ensures ToRpnSpec([Var("x"), Token(QUESTION_MARK, "?"), Number("1"), Token(COLON, ":"), Number("2")])
         == Ok([Var("x"), Number("1"), Number("2"), ConditionalMarker])
  {
    ConditionalExampleScan();
    ConditionalExampleParts();
  }

  /** The ? of x ? 1 : 2 at 1 and its : at 3 send toRPN down the conditional path. */
  lemma ConditionalExampleScan()
    ensures ToRpnSpec([Var("x"), Token(QUESTION_MARK, "?"), Number("1"), Token(COLON, ":"), Number("2")])
         == SplitSpec([Var("x"), Token(QUESTION_MARK, "?"), Number("1"), Token(COLON, ":"), Number("2")], 1, 3)
  {
    var ts := [Var("x"), Token(QUESTION_MARK, "?"), Number("1"), Token(COLON, ":"), Number("2")];
    PreprocessUnchanged(ts);
    assert HasConditionalOperators(ts) by { assert IsConditionalToken(ts[1]); }
    assert ScanConditional(ts, 0, -1) == Ok((1, 3));
    ConditionalScanOk(ts, 1, 3);
  }

  /** The three parts of x ? 1 : 2 are operands, each its own RPN. */
  lemma ConditionalExampleParts()
    ensures SplitSpec([Var("x"), Token(QUESTION_MARK, "?"), Number("1"), Token(COLON, ":"), Number("2")], 1, 3)
         == Ok([Var("x"), Number("1"), Number("2"), ConditionalMarker])
  {
    var ts := [Var("x"), Token(QUESTION_MARK, "?"), Number("1"), Token(COLON, ":"), Number("2")];
    FiveParts(Var("x"), Token(QUESTION_MARK, "?"), Number("1"), Token(COLON, ":"), Number("2"));
    SingleOperand(Var("x"));
    SingleOperand(Number("1"));
    SingleOperand(Number("2"));
    assert SplitSpec(ts, 1, 3) == Combine(Ok([Var("x")]), Ok([Number("1")]), Ok([Number("2")]));
    assert [Var("x")] + [Number("1")] + [Number("2")] + [ConditionalMarker] == [Var("x"), Number("1"), Number("2"), ConditionalMarker];
  }

  /** The parts of a five-element list around its second and fourth element. */
  lemma FiveParts<T>(a: T, b: T, c: T, d: T, e: T)
    ensures [a, b, c, d, e][..1] == [a] && [a, b, c, d, e][2..3] == [c] && [a, b, c, d, e][4..] == [e]
  {
  }

  /** A second ? before the : is refused. */
  lemma NestedConditionalExample()
    ensures ToRpnSpec([Var("x"), Token(QUESTION_MARK, "?"), Var("y"), Token(QUESTION_MARK, "?"), Number("1"),
                       Token(COLON, ":"), Number("2")]) == Err(NestedConditional)
  {
    var ts := [Var("x"), Token(QUESTION_MARK, "?"), Var("y"), Token(QUESTION_MARK, "?"), Number("1"), Token(COLON, ":"), Number("2")];
    PreprocessUnchanged(ts);
    assert HasConditionalOperators(ts) by { assert IsConditionalToken(ts[1]); }
    NestedConditionalScan();
    ScanRefused(ts, NestedConditional);
  }

  /** The scan of x ? y ? 1 : 2 stops at the second ?. */
  lemma NestedConditionalScan()
    ensures ScanConditional([Var("x"), Token(QUESTION_MARK, "?"), Var("y"), Token(QUESTION_MARK, "?"), Number("1"),
                             Token(COLON, ":"), Number("2")], 0, -1) == Err(NestedConditional)
  {
    var ts := [Var("x"), Token(QUESTION_MARK, "?"), Var("y"), Token(QUESTION_MARK, "?"), Number("1"), Token(COLON, ":"), Number("2")];
    assert ts[3].kind == QUESTION_MARK && ts[2].kind == VARIABLE && ts[1].kind == QUESTION_MARK && ts[0].kind == VARIABLE;
    assert ScanConditional(ts, 3, 1) == Err(NestedConditional);
    assert ScanConditional(ts, 2, 1) == Err(NestedConditional);
    assert ScanConditional(ts, 1, -1) == Err(NestedConditional);
  }

  /** A : with no ? before it is refused. */
  lemma StrayColonExample()
    ensures ToRpnSpec([Var("x"), Token(COLON, ":"), Number("2")]) == Err(ColonWithoutQuestionMark)
  {
    var ts := [Var("x"), Token(COLON, ":"), Number("2")];
    PreprocessUnchanged(ts);
    assert HasConditionalOperators(ts) by { assert IsConditionalToken(ts[1]); }
    assert ScanConditional(ts, 0, -1) == Err(ColonWithoutQuestionMark);
    ScanRefused(ts, ColonWithoutQuestionMark);
  }

  /** Two operands side by side are copied to the output as they are. */
  lemma TwoOperands(a: Token, b: Token)
    requires a.kind in {NUMBER, VARIABLE} && b.kind in {NUMBER, VARIABLE}
    ensures ToRpnSpec([a, b]) == Ok([a, b])
  {
    var ts := [a, b];
    PreprocessUnchanged(ts);
    assert !HasConditionalOperators(ts) by { assert ts[0] == a && ts[1] == b; }
    assert ts[1..] == [b] && [b][1..] == [];
    assert Step(Shunt([a], []), b) == Shunt([a, b], []);
    assert RunFrom(Shunt([a, b], []), []) == Shunt([a, b], []);
    assert RunFrom(Shunt([a], []), [b]) == Shunt([a, b], []);
    assert Step(Shunt([], []), a) == Shunt([a], []);
    assert Run(ts) == Shunt([a, b], []);
    assert StandardRpn(ts) == [a, b];
  }

  /** An operator after one operand is binary and flushed behind it. */
  lemma TrailingOperator(a: Token, op: Token)
    requires a.kind in {NUMBER, VARIABLE} && op.kind == OPERATOR
    ensures ToRpnSpec([a, op]) == Ok([a, op])
  {
    var ts := [a, op];
    PreprocessUnchanged(ts);
    assert !HasConditionalOperators(ts) by { assert ts[0] == a && ts[1] == op; }
    assert ts[1..] == [op] && [op][1..] == [];
    assert Step(Shunt([a], []), op) == Shunt([a], [op]);
    assert RunFrom(Shunt([a], [op]), []) == Shunt([a], [op]);
    assert RunFrom(Shunt([a], []), [op]) == Shunt([a], [op]);
    assert Step(Shunt([], []), a) == Shunt([a], []);
    assert Run(ts) == Shunt([a], [op]);
    assert Reversed([op]) == [op];
    assert StandardRpn(ts) == [a, op];
  }
}
