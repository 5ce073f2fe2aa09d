/**
 * ConvertToRPN: infix tokens to Reverse Polish Notation. A first pass marks
 * prefix + and - as unary; a token list with ? or : is split at the first ?
 * and the first : after it and each part converted on its own; every other
 * list goes through a shunting-yard stack machine driven by a precedence table.
 */
module ConvertToRpn {
  import opened Results
  import opened Tokens
  import opened Stacks
  import opened Text

  /** The IllegalArgumentExceptions of handleConditionalExpression. */
  datatype ConvertError =
    | NestedConditional
    | ColonWithoutQuestionMark
    | MissingQuestionMark
    | MissingColon
  {
    function Message(): string {
      match this
      case NestedConditional => "Nested conditional expressions are not supported"
      case ColonWithoutQuestionMark => "Colon without matching question mark"
      case MissingQuestionMark => "Conditional expression expected but no question mark found"
      case MissingColon => "Conditional expression is missing colon"
    }
  }

  /** The marker token that closes the RPN of a conditional expression. */
  const ConditionalMarker := Token(OPERATOR, "?:")

  predicate IsConditionalToken(t: Token) {
    t.kind == QUESTION_MARK || t.kind == COLON
  }

  // ---------------------------------------------------------------------------
  // Unary operators

  /**
   * isUnaryOperator: an OPERATOR whose text "+-".contains (so "", "+", "-"
   * and "+-", see UnaryTexts) that is first, or follows a LEFT_PAREN, an
   * OPERATOR or a COMMA.
   */
  predicate IsUnaryOperator(token: Token, prevToken: Option<Token>) {
    && token.kind == OPERATOR
    && token.text in {"", "+", "-", "+-"}
    && (prevToken.None? || prevToken.value.kind in {LEFT_PAREN, OPERATOR, COMMA})
  }

  /** The texts "+-".contains accepts are exactly the four IsUnaryOperator lists. */
  lemma UnaryTexts(text: string)
    ensures Contains("+-", text) <==> text in {"", "+", "-", "+-"}
  {
    var h := "+-";
    if text == "" {
      assert h[0..0] == text;
    } else if text == "+" {
      assert h[0..1] == text;
    } else if text == "-" {
      assert h[1..2] == text;
    } else if text == "+-" {
      assert h[0..2] == text;
    } else {
      forall i, j | 0 <= i <= j <= |h|
        ensures h[i..j] != text
      {
        PlusMinusBlock(i, j);
      }
    }
  }

  /** The contiguous blocks of "+-". */
  lemma PlusMinusBlock(i: nat, j: nat)
    requires i <= j <= 2
    ensures "+-"[i..j] in {"", "+", "-", "+-"}
  {
    var h := "+-";
    if i == j {
      assert h[i..j] == "";
    } else if i == 0 && j == 2 {
      assert h[i..j] == h;
    } else if i == 0 {
      assert h[i..j] == [h[0]];
    } else {
      assert h[i..j] == [h[1]];
    }
  }

  /** The token before position i, or None (Java's null) for the first. */
  function Prev(ts: seq<Token>, i: nat): Option<Token>
    requires i <= |ts|
  {
    if i == 0 then None else Some(ts[i - 1])
  }

  /** The reclassification of one token, given the one before it in the input. */
  function Reclassify(token: Token, prevToken: Option<Token>): Token {
    if IsUnaryOperator(token, prevToken) then Token(UNARY_OPERATOR, "u" + token.text) else token
  }

  /** What preprocessUnaryOperators returns: each token reclassified against its original predecessor. */
  function Preprocess(ts: seq<Token>): (r: seq<Token>)
    ensures |r| == |ts|
  {
    if ts == [] then []
    else Preprocess(ts[..|ts| - 1]) + [Reclassify(ts[|ts| - 1], Prev(ts, |ts| - 1))]
  }

  /** The pass keeps the length and decides each position from the token and its original predecessor alone. */
  lemma {:induction false} PreprocessSpec(ts: seq<Token>)
    ensures forall i :: 0 <= i < |ts| ==> Preprocess(ts)[i] == Reclassify(ts[i], Prev(ts, i))
  {
    if ts != [] {
      var init := ts[..|ts| - 1];
      PreprocessSpec(init);
      var p := Preprocess(ts);
      assert p == Preprocess(init) + [Reclassify(ts[|ts| - 1], Prev(ts, |ts| - 1))];
      forall i | 0 <= i < |ts|
        ensures p[i] == Reclassify(ts[i], Prev(ts, i))
      {
        if i < |init| {
          assert p[i] == Preprocess(init)[i];
          assert init[i] == ts[i] && Prev(init, i) == Prev(ts, i);
        }
      }
    }
  }

  /** preprocessUnaryOperators (ConvertToRPN.java:164-181). */
  method PreprocessUnaryOperators(tokens: seq<Token>) returns (processed: seq<Token>)
    ensures processed == Preprocess(tokens)
    ensures |processed| == |tokens|
    ensures forall i :: 0 <= i < |tokens| ==> processed[i] == Reclassify(tokens[i], Prev(tokens, i))
  {
    processed := [];
    for i := 0 to |tokens|
      invariant processed == Preprocess(tokens[..i])
    {
      var token := tokens[i];
      var prevToken := if i > 0 then Some(tokens[i - 1]) else None;
      assert tokens[..i + 1][..i] == tokens[..i] && Prev(tokens[..i + 1], i) == prevToken;
      if IsUnaryOperator(token, prevToken) {
        processed := processed + [Token(UNARY_OPERATOR, "u" + token.text)];
      } else {
        processed := processed + [token];
      }
    }
    assert tokens[..|tokens|] == tokens;
    PreprocessSpec(tokens);
  }

  // ---------------------------------------------------------------------------
  // Precedence

  /** precedence: the table of operator priorities. */
  function Precedence(token: Token): (p: int)
    ensures -1 <= p <= 4
    ensures p == 4 <==> token.kind !in {COMPARISON, QUESTION_MARK, COLON} && token.text in {"u+", "u-"}
    ensures p == -1 <==> token.kind in {QUESTION_MARK, COLON} || (token.kind != COMPARISON && token.text == "?:")
  {
    if token.kind == COMPARISON then 0
    else if token.kind == QUESTION_MARK || token.kind == COLON then -1
    else if token.text == "+" || token.text == "-" then 1
    else if token.text == "*" || token.text == "/" then 2
    else if token.text == "^" then 3
    else if token.text == "u+" || token.text == "u-" then 4
    else if token.text == "?:" then -1
    else 0
  }

  /**
   * The levels of the table: comparisons and unknown texts 0, + and - 1,
   * * and / 2, ^ 3, so each arithmetic level binds tighter than the one before
   * and the tagged unary operators tightest of all.
   */
  lemma PrecedenceTable(token: Token)
    ensures token.kind == COMPARISON ==> Precedence(token) == 0
    ensures token.kind !in {COMPARISON, QUESTION_MARK, COLON} ==>
      && (token.text in {"+", "-"} ==> Precedence(token) == 1)
      && (token.text in {"*", "/"} ==> Precedence(token) == 2)
      && (token.text == "^" ==> Precedence(token) == 3)
      && (token.text !in {"+", "-", "*", "/", "^", "u+", "u-", "?:"} ==> Precedence(token) == 0)
  {
  }

  /**
   * shouldPopOperator: never past a LEFT_PAREN or FUNCTION; an incoming
   * UNARY_OPERATOR pops only strictly tighter operators, anything else pops
   * operators that bind at least as tightly (left associativity).
   */
  function ShouldPopOperator(stackTop: Token, current: Token): (pop: bool)
    ensures pop ==> stackTop.kind != LEFT_PAREN && stackTop.kind != FUNCTION
    ensures current.kind == UNARY_OPERATOR && current.text in {"u+", "u-"} ==> !pop
    ensures Precedence(stackTop) < Precedence(current) ==> !pop
    ensures (stackTop.kind !in {LEFT_PAREN, FUNCTION} && current.kind != UNARY_OPERATOR
             && Precedence(stackTop) == Precedence(current)) ==> pop
    ensures stackTop.kind !in {LEFT_PAREN, FUNCTION} && Precedence(stackTop) > Precedence(current) ==> pop
    ensures current.kind == UNARY_OPERATOR && Precedence(stackTop) == Precedence(current) ==> !pop
  {
    if stackTop.kind == LEFT_PAREN then false
    else if stackTop.kind == FUNCTION then false
    else if current.kind == UNARY_OPERATOR then Precedence(stackTop) > Precedence(current)
    else Precedence(stackTop) >= Precedence(current)
  }

  /** hasConditionalOperators: some token is a QUESTION_MARK or a COLON. */
  predicate HasConditionalOperators(ts: seq<Token>)
  {
    exists i :: 0 <= i < |ts| && IsConditionalToken(ts[i])
  }

  /** The for-each loop of hasConditionalOperators, which returns at the first ? or :. */
  method ScanConditionalOperators(tokens: seq<Token>) returns (found: bool)
    ensures found <==> HasConditionalOperators(tokens)
  {
    for i := 0 to |tokens|
      invariant forall k :: 0 <= k < i ==> !IsConditionalToken(tokens[k])
    {
      if tokens[i].kind == QUESTION_MARK || tokens[i].kind == COLON {
        return true;
      }
    }
    return false;
  }

  // ---------------------------------------------------------------------------
  // The shunting-yard machine, as a function of the tokens read so far

  /** The output list and the operator stack (top last) of toRPN's standard path. */
  datatype Shunt = Shunt(output: seq<Token>, stack: seq<Token>)

  /** Move operators from the stack to the output until a LEFT_PAREN is on top. */
  function PopToLeftParen(s: Shunt): Shunt
    decreases |s.stack|
  {
    if s.stack == [] || Top(s.stack).kind == LEFT_PAREN then s
    else PopToLeftParen(Shunt(s.output + [Top(s.stack)], Pop(s.stack)))
  }

  /** Move operators from the stack to the output while they yield to current. */
  function PopWhileYields(s: Shunt, current: Token): Shunt
    decreases |s.stack|
  {
    if s.stack == [] || !ShouldPopOperator(Top(s.stack), current) then s
    else PopWhileYields(Shunt(s.output + [Top(s.stack)], Pop(s.stack)), current)
  }

  /** After popping to the LEFT_PAREN: drop it, then emit a FUNCTION now on top. */
  function CloseParen(s: Shunt): Shunt
  {
    var t := if s.stack != [] && Top(s.stack).kind == LEFT_PAREN then Shunt(s.output, Pop(s.stack)) else s;
    if t.stack != [] && Top(t.stack).kind == FUNCTION then Shunt(t.output + [Top(t.stack)], Pop(t.stack)) else t
  }

  /** One iteration of the for loop of toRPN. */
  function Step(s: Shunt, token: Token): Shunt
    requires !IsConditionalToken(token)
  {
    match token.kind
    case NUMBER => Shunt(s.output + [token], s.stack)
    case VARIABLE => Shunt(s.output + [token], s.stack)
    case FUNCTION => Shunt(s.output, s.stack + [token])
    case COMMA => PopToLeftParen(s)
    case OPERATOR => var p := PopWhileYields(s, token); Shunt(p.output, p.stack + [token])
    case UNARY_OPERATOR => var p := PopWhileYields(s, token); Shunt(p.output, p.stack + [token])
    case COMPARISON => var p := PopWhileYields(s, token); Shunt(p.output, p.stack + [token])
    case LEFT_PAREN => Shunt(s.output, s.stack + [token])
    case RIGHT_PAREN => CloseParen(PopToLeftParen(s))
  }

  /** The state after the for loop, started in state s, has read all of ts. */
  function RunFrom(s: Shunt, ts: seq<Token>): Shunt
    requires !HasConditionalOperators(ts)
    decreases |ts|
  {
    if ts == [] then s
    else
      assert !IsConditionalToken(ts[0]);
      assert !HasConditionalOperators(ts[1..]) by {
        assert forall i :: 0 <= i < |ts| - 1 ==> ts[1..][i] == ts[i + 1];
      }
      RunFrom(Step(s, ts[0]), ts[1..])
  }

  /** The state after the whole for loop. */
  function Run(ts: seq<Token>): Shunt
    requires !HasConditionalOperators(ts)
  {
    RunFrom(Shunt([], []), ts)
  }

  /** Flush the remaining operators, top first. */
  function Flush(s: Shunt): seq<Token> {
    s.output + Reversed(s.stack)
  }

  /** The RPN of the standard path. */
  function StandardRpn(ts: seq<Token>): seq<Token>
    requires !HasConditionalOperators(ts)
  {
    Flush(Run(ts))
  }

  // ---------------------------------------------------------------------------
  // The conditional path

  /**
   * The scan of handleConditionalExpression from position i, with q the
   * position of the ? seen so far or -1: the positions of the first ? and of
   * the first : after it, or the exception the scan raises.
   */
  function ScanConditional(ts: seq<Token>, i: nat, q: int): (r: Result<(nat, nat), ConvertError>)
    requires i <= |ts| && -1 <= q < i
    ensures r.Ok? ==> r.value.0 < r.value.1 < |ts|
    decreases |ts| - i
  {
    if i == |ts| then (if q == -1 then Err(MissingQuestionMark) else Err(MissingColon))
    else if ts[i].kind == QUESTION_MARK then
      (if q != -1 then Err(NestedConditional) else ScanConditional(ts, i + 1, i))
    else if ts[i].kind == COLON then
      (if q == -1 then Err(ColonWithoutQuestionMark) else Ok((q as nat, i)))
    else ScanConditional(ts, i + 1, q)
  }

  /** The result of toRPN on a token list (the one given to it, before preprocessing). */
  function ToRpnSpec(tokens: seq<Token>): Result<seq<Token>, ConvertError>
    decreases |tokens|, 2
  {
    var processed := Preprocess(tokens);
    if HasConditionalOperators(processed) then ConditionalSpec(processed)
    else Ok(StandardRpn(processed))
  }

  /** The result of handleConditionalExpression. */
  function ConditionalSpec(tokens: seq<Token>): Result<seq<Token>, ConvertError>
    decreases |tokens|, 1
  {
    var scan := ScanConditional(tokens, 0, -1);
    if scan.Err? then Err(scan.error) else SplitSpec(tokens, scan.value.0, scan.value.1)
  }

  /** The conversion of the condition, the true branch and the false branch around the ? at q and the : at c. */
  function SplitSpec(tokens: seq<Token>, q: nat, c: nat): Result<seq<Token>, ConvertError>
    requires q < c < |tokens|
    decreases |tokens|, 0
  {
    Combine(ToRpnSpec(tokens[..q]), ToRpnSpec(tokens[q + 1..c]), ToRpnSpec(tokens[c + 1..]))
  }

  /** The three parts' RPN followed by the marker, or the first part's exception. */
  function Combine(conditionRpn: Result<seq<Token>, ConvertError>, trueExprRpn: Result<seq<Token>, ConvertError>,
                   falseExprRpn: Result<seq<Token>, ConvertError>): (r: Result<seq<Token>, ConvertError>)
    ensures r.Ok? <==> conditionRpn.Ok? && trueExprRpn.Ok? && falseExprRpn.Ok?
    ensures r.Ok? ==> r.value == conditionRpn.value + trueExprRpn.value + falseExprRpn.value + [ConditionalMarker]
    ensures conditionRpn.Err? ==> r == conditionRpn
    ensures conditionRpn.Ok? && trueExprRpn.Err? ==> r == trueExprRpn
  {
    var conditionRpn :- conditionRpn;
    var trueExprRpn :- trueExprRpn;
    var falseExprRpn :- falseExprRpn;
    Ok(conditionRpn + trueExprRpn + falseExprRpn + [ConditionalMarker])
  }

  // ---------------------------------------------------------------------------
  // The methods

  /** The while loop that pops operators until a LEFT_PAREN is on top (COMMA and RIGHT_PAREN cases). */
  method PopUntilLeftParen(output0: seq<Token>, stack0: seq<Token>) returns (output: seq<Token>, operatorStack: seq<Token>)
    ensures Shunt(output, operatorStack) == PopToLeftParen(Shunt(output0, stack0))
  {
    output, operatorStack := output0, stack0;
    while operatorStack != [] && Top(operatorStack).kind != LEFT_PAREN
      invariant PopToLeftParen(Shunt(output, operatorStack)) == PopToLeftParen(Shunt(output0, stack0))
      decreases |operatorStack|
    {
      output := output + [Top(operatorStack)];
      operatorStack := Pop(operatorStack);
    }
  }

  /** The while loop that pops operators that yield to the incoming one. */
  method PopYielding(output0: seq<Token>, stack0: seq<Token>, token: Token) returns (output: seq<Token>, operatorStack: seq<Token>)
    ensures Shunt(output, operatorStack) == PopWhileYields(Shunt(output0, stack0), token)
  {
    output, operatorStack := output0, stack0;
    while operatorStack != [] && ShouldPopOperator(Top(operatorStack), token)
      invariant PopWhileYields(Shunt(output, operatorStack), token) == PopWhileYields(Shunt(output0, stack0), token)
      decreases |operatorStack|
    {
      output := output + [Top(operatorStack)];
      operatorStack := Pop(operatorStack);
    }
  }

  /** toRPN (ConvertToRPN.java:28-92). */
  method ToRpn(tokens: seq<Token>) returns (r: Result<seq<Token>, ConvertError>)
    ensures r == ToRpnSpec(tokens)
    decreases |tokens|, 2
  {
    var processedTokens := PreprocessUnaryOperators(tokens);
    var conditional := ScanConditionalOperators(processedTokens);
    if conditional {
      r := HandleConditionalExpression(processedTokens);
      return;
    }
    var output: seq<Token> := [];
    var operatorStack: seq<Token> := [];
    ghost var rest := processedTokens;
    for i := 0 to |processedTokens|
      invariant rest == processedTokens[i..] && !HasConditionalOperators(rest)
      invariant RunFrom(Shunt(output, operatorStack), rest) == Run(processedTokens)
    {
      assert rest[0] == processedTokens[i] && rest[1..] == processedTokens[i + 1..];
      assert !HasConditionalOperators(rest[1..]) && !IsConditionalToken(rest[0]);
      output, operatorStack := ShuntToken(output, operatorStack, processedTokens[i]);
      rest := rest[1..];
    }
    output := FlushOperators(output, operatorStack);
    r := Ok(output);
  }

  /** The final while loop of toRPN: the remaining operators go to the output, top first. */
  method FlushOperators(output0: seq<Token>, operatorStack0: seq<Token>) returns (output: seq<Token>)
    ensures output == Flush(Shunt(output0, operatorStack0))
  {
    output := output0;
    var operatorStack := operatorStack0;
    while operatorStack != []
      invariant output + Reversed(operatorStack) == output0 + Reversed(operatorStack0)
      decreases |operatorStack|
    {
      assert Reversed(operatorStack) == [Top(operatorStack)] + Reversed(Pop(operatorStack));
      output := output + [Top(operatorStack)];
      operatorStack := Pop(operatorStack);
    }
  }

  /** The body of the for loop of toRPN, for one token of the standard path. */
  method ShuntToken(output0: seq<Token>, stack0: seq<Token>, token: Token) returns (output: seq<Token>, operatorStack: seq<Token>)
    requires !IsConditionalToken(token)
    ensures Shunt(output, operatorStack) == Step(Shunt(output0, stack0), token)
  {
    output, operatorStack := output0, stack0;
    match token.kind {
      case NUMBER | VARIABLE =>
        output := output + [token];
      case FUNCTION =>
        operatorStack := operatorStack + [token];
      case COMMA =>
        output, operatorStack := PopUntilLeftParen(output, operatorStack);
      case OPERATOR | UNARY_OPERATOR | COMPARISON =>
        output, operatorStack := PopYielding(output, operatorStack, token);
        operatorStack := operatorStack + [token];
      case LEFT_PAREN =>
        operatorStack := operatorStack + [token];
      case RIGHT_PAREN =>
        output, operatorStack := PopUntilLeftParen(output, operatorStack);
        if operatorStack != [] && Top(operatorStack).kind == LEFT_PAREN {
          operatorStack := Pop(operatorStack);
        }
        if operatorStack != [] && Top(operatorStack).kind == FUNCTION {
          output := output + [Top(operatorStack)];
          operatorStack := Pop(operatorStack);
        }
    }
  }

  /** handleConditionalExpression (ConvertToRPN.java:110-154). */
  method HandleConditionalExpression(tokens: seq<Token>) returns (r: Result<seq<Token>, ConvertError>)
    ensures r == ConditionalSpec(tokens)
    decreases |tokens|, 1
  {
    var questionMarkPos := -1;
    var colonPos := -1;
    var i := 0;
    while i < |tokens|
      invariant 0 <= i <= |tokens| && -1 <= questionMarkPos < i
      invariant colonPos == -1
      invariant ScanConditional(tokens, 0, -1) == ScanConditional(tokens, i, questionMarkPos)
      decreases |tokens| - i
    {
      if tokens[i].kind == QUESTION_MARK {
        if questionMarkPos != -1 {
          return Err(NestedConditional);
        }
        questionMarkPos := i;
      } else if tokens[i].kind == COLON {
        if questionMarkPos == -1 {
          return Err(ColonWithoutQuestionMark);
        }
        colonPos := i;
        break;
      }
      i := i + 1;
    }
    if questionMarkPos == -1 {
      return Err(MissingQuestionMark);
    }
    if colonPos == -1 {
      return Err(MissingColon);
    }
    assert ScanConditional(tokens, 0, -1) == Ok((questionMarkPos as nat, colonPos as nat));
    var conditionTokens := tokens[..questionMarkPos];
    var trueExprTokens := tokens[questionMarkPos + 1..colonPos];
    var falseExprTokens := tokens[colonPos + 1..];
    var conditionRpn :- ToRpn(conditionTokens);
    var trueExprRpn :- ToRpn(trueExprTokens);
    var falseExprRpn :- ToRpn(falseExprTokens);
    var result := conditionRpn + trueExprRpn + falseExprRpn;
    result := result + [Token(OPERATOR, "?:")];
    return Ok(result);
  }

  // ---------------------------------------------------------------------------
  // Properties of the unary pass

  /** Reclassification only ever turns an OPERATOR into a UNARY_OPERATOR. */
  lemma ReclassifyKinds(token: Token, prevToken: Option<Token>)
    ensures Reclassify(token, prevToken) == token
            || (token.kind == OPERATOR && Reclassify(token, prevToken) == Token(UNARY_OPERATOR, "u" + token.text))
  {
  }

  /** Two lists that agree on their operands, position by position, have the same operands. */
  lemma {:induction false} OperandsPointwise(a: seq<Token>, b: seq<Token>)
    requires |a| == |b|
    requires forall i :: 0 <= i < |a| ==> (IsOperand(a[i]) || IsOperand(b[i]) ==> a[i] == b[i])
    ensures Operands(a) == Operands(b)
  {
    if a != [] {
      OperandsPointwise(a[1..], b[1..]);
    }
  }

  lemma PreprocessOperands(ts: seq<Token>)
    ensures Operands(Preprocess(ts)) == Operands(ts)
  {
    PreprocessSpec(ts);
    OperandsPointwise(Preprocess(ts), ts);
  }

  /** The pass reclassifies tokens only, so the ? and : tokens are where they were. */
  lemma {:induction false} PreprocessConditional(ts: seq<Token>)
    ensures HasConditionalOperators(Preprocess(ts)) <==> HasConditionalOperators(ts)
  {
    PreprocessSpec(ts);
    var p := Preprocess(ts);
    if HasConditionalOperators(ts) {
      var i :| 0 <= i < |ts| && IsConditionalToken(ts[i]);
      assert IsConditionalToken(p[i]);
    }
    if HasConditionalOperators(p) {
      var i :| 0 <= i < |p| && IsConditionalToken(p[i]);
      assert IsConditionalToken(ts[i]);
    }
  }

  /** A sign that stayed binary follows a token that stays outside the trigger kinds. */
  lemma {:induction false} ReclassifyStable(ts: seq<Token>, i: nat)
    requires i < |ts|
    ensures Reclassify(Preprocess(ts)[i], Prev(Preprocess(ts), i)) == Preprocess(ts)[i]
  {
    PreprocessSpec(ts);
    var p := Preprocess(ts);
    assert p[i] == Reclassify(ts[i], Prev(ts, i));
    if p[i].kind == OPERATOR {
      assert p[i] == ts[i] && !IsUnaryOperator(ts[i], Prev(ts, i));
      if i > 0 {
        assert p[i - 1] == Reclassify(ts[i - 1], Prev(ts, i - 1));
        assert p[i - 1].kind == ts[i - 1].kind || p[i - 1].kind == UNARY_OPERATOR;
      }
    }
  }

  /** A second pass changes nothing. */
  lemma {:induction false} PreprocessIdempotent(ts: seq<Token>)
    ensures Preprocess(Preprocess(ts)) == Preprocess(ts)
  {
    var p := Preprocess(ts);
    PreprocessSpec(ts);
    PreprocessSpec(p);
    forall i | 0 <= i < |p|
      ensures Preprocess(p)[i] == p[i]
    {
      ReclassifyStable(ts, i);
    }
  }

  /** Every UNARY_OPERATOR carries the "u" tag that parse strips. */
  predicate UnaryTagged(ts: seq<Token>) {
    forall t :: t in ts && t.kind == UNARY_OPERATOR ==> |t.text| >= 1 && t.text[0] == 'u'
  }

  lemma {:induction false} PreprocessTagged(ts: seq<Token>)
    requires UnaryTagged(ts)
    ensures UnaryTagged(Preprocess(ts))
  {
    var p := Preprocess(ts);
    PreprocessSpec(ts);
    forall t | t in p && t.kind == UNARY_OPERATOR
      ensures |t.text| >= 1 && t.text[0] == 'u'
    {
      var i :| 0 <= i < |p| && p[i] == t;
      ReclassifyKinds(ts[i], Prev(ts, i));
    }
  }

  /** The tokens the lexer emits: only binary + and - are reclassified, and they become "u+" and "u-". */
  lemma {:induction false} PreprocessLexed(ts: seq<Token>, i: nat)
    requires forall t :: t in ts ==> t.kind != UNARY_OPERATOR && (t.kind == OPERATOR ==> |t.text| == 1)
    requires i < |ts|
    ensures Preprocess(ts)[i].kind == UNARY_OPERATOR <==>
              ts[i].kind == OPERATOR && ts[i].text in {"+", "-"}
              && (i == 0 || ts[i - 1].kind in {LEFT_PAREN, OPERATOR, COMMA})
    ensures Preprocess(ts)[i].kind == UNARY_OPERATOR ==> Preprocess(ts)[i].text in {"u+", "u-"}
    ensures Preprocess(ts)[i].kind != UNARY_OPERATOR ==> Preprocess(ts)[i] == ts[i]
  {
    assert ts[i] in ts;
    PreprocessSpec(ts);
    var t := Preprocess(ts)[i];
    assert t == Reclassify(ts[i], Prev(ts, i));
    if ts[i].kind == OPERATOR && ts[i].text in {"", "+", "-", "+-"} {
      assert ts[i].text == "+" || ts[i].text == "-";
      assert "u" + "+" == "u+" && "u" + "-" == "u-";
    }
  }

  // ---------------------------------------------------------------------------
  // Properties of the stack machine

  /** A token the standard path never leaves in its output. */
  predicate IsSeparator(t: Token) {
    t.kind == RIGHT_PAREN || t.kind == COMMA
  }

  /** What holds after the loop has read ts: all tokens come from ts, operands went straight to the output. */
  predicate Invariant(s: Shunt, ts: seq<Token>) {
    && (forall t :: t in s.output ==> t in ts && !IsSeparator(t))
    && (forall t :: t in s.stack ==> t in ts && !IsSeparator(t) && !IsOperand(t))
    && Operands(s.output) == Operands(ts)
  }

  /** All tokens of the state, wherever they are. */
  function Contents(s: Shunt): multiset<Token> {
    multiset(s.output) + multiset(s.stack)
  }

  /** Moving the top of the stack to the output. */
  function PopOnce(s: Shunt): (r: Shunt)
    requires s.stack != []
    ensures Contents(r) == Contents(s)
  {
    assert s.stack == Pop(s.stack) + [Top(s.stack)];
    Shunt(s.output + [Top(s.stack)], Pop(s.stack))
  }

  lemma {:induction false} PopOnceInvariant(s: Shunt, ts: seq<Token>)
    requires s.stack != [] && Invariant(s, ts)
    ensures Invariant(PopOnce(s), ts)
  {
    assert Top(s.stack) in s.stack;
    OperandsAppend(s.output, [Top(s.stack)]);
    NoOperands([Top(s.stack)]);
  }

  lemma {:induction false} PopToLeftParenKeeps(s: Shunt, ts: seq<Token>)
    ensures Contents(PopToLeftParen(s)) == Contents(s)
    ensures Invariant(s, ts) ==> Invariant(PopToLeftParen(s), ts)
    decreases |s.stack|
  {
    if s.stack != [] && Top(s.stack).kind != LEFT_PAREN {
      assert PopToLeftParen(s) == PopToLeftParen(PopOnce(s));
      if Invariant(s, ts) {
        PopOnceInvariant(s, ts);
      }
      PopToLeftParenKeeps(PopOnce(s), ts);
    }
  }

  lemma {:induction false} PopWhileYieldsKeeps(s: Shunt, current: Token, ts: seq<Token>)
    ensures Contents(PopWhileYields(s, current)) == Contents(s)
    ensures Invariant(s, ts) ==> Invariant(PopWhileYields(s, current), ts)
    decreases |s.stack|
  {
    if s.stack != [] && ShouldPopOperator(Top(s.stack), current) {
      assert PopWhileYields(s, current) == PopWhileYields(PopOnce(s), current);
      if Invariant(s, ts) {
        PopOnceInvariant(s, ts);
      }
      PopWhileYieldsKeeps(PopOnce(s), current, ts);
    }
  }

  /** The RIGHT_PAREN case of Step keeps the invariant. */
  lemma {:induction false} CloseParenKeeps(s: Shunt, ts: seq<Token>)
    requires Invariant(s, ts)
    ensures Invariant(CloseParen(PopToLeftParen(s)), ts)
  {
    var p := PopToLeftParen(s);
    PopToLeftParenKeeps(s, ts);
    var q := if p.stack != [] && Top(p.stack).kind == LEFT_PAREN then Shunt(p.output, Pop(p.stack)) else p;
    assert Invariant(q, ts) by {
      if q != p {
        assert forall t :: t in q.stack ==> t in p.stack;
      }
    }
    if q.stack != [] && Top(q.stack).kind == FUNCTION {
      PopOnceInvariant(q, ts);
    }
  }

  /** Extending what has been read by a token that the state does not hold. */
  lemma {:induction false} InvariantExtend(s: Shunt, ts: seq<Token>, token: Token)
    requires Invariant(s, ts) && !IsOperand(token)
    ensures Invariant(s, ts + [token])
  {
    OperandsAppend(ts, [token]);
    NoOperands([token]);
  }

  /** Reading one more token keeps the invariant. */
  lemma {:induction false} StepKeeps(s: Shunt, ts: seq<Token>, token: Token)
    requires !IsConditionalToken(token) && Invariant(s, ts)
    ensures Invariant(Step(s, token), ts + [token])
  {
    if IsOperand(token) {
      assert Step(s, token) == Shunt(s.output + [token], s.stack);
      OperandsAppend(ts, [token]);
      OperandsAppend(s.output, [token]);
    } else {
      InvariantExtend(s, ts, token);
      OperatorStepKeeps(s, ts + [token], token);
    }
  }

  /** The cases of Step for a token that is not an operand, once the token counts as read. */
  lemma {:induction false} OperatorStepKeeps(s: Shunt, ts: seq<Token>, token: Token)
    requires !IsConditionalToken(token) && !IsOperand(token) && token in ts && Invariant(s, ts)
    ensures Invariant(Step(s, token), ts)
  {
    if token.kind == COMMA {
      PopToLeftParenKeeps(s, ts);
    } else if token.kind == RIGHT_PAREN {
      CloseParenKeeps(s, ts);
    } else if token.kind in {OPERATOR, UNARY_OPERATOR, COMPARISON} {
      var p := PopWhileYields(s, token);
      assert Step(s, token) == Shunt(p.output, p.stack + [token]);
      PopWhileYieldsKeeps(s, token, ts);
    } else {
      assert Step(s, token) == Shunt(s.output, s.stack + [token]);
    }
  }

  /** Reading a token other than ) and , adds it to the state's contents. */
  lemma {:induction false} StepContents(s: Shunt, token: Token)
    requires !IsConditionalToken(token) && !IsSeparator(token)
    ensures Contents(Step(s, token)) == Contents(s) + multiset{token}
  {
    if token.kind in {OPERATOR, UNARY_OPERATOR, COMPARISON} {
      PopWhileYieldsKeeps(s, token, []);
    }
  }

  lemma {:induction false} RunFromKeeps(s: Shunt, read: seq<Token>, ts: seq<Token>)
    requires !HasConditionalOperators(ts) && Invariant(s, read)
    ensures Invariant(RunFrom(s, ts), read + ts)
    ensures (forall i :: 0 <= i < |ts| ==> !IsSeparator(ts[i])) ==> Contents(RunFrom(s, ts)) == Contents(s) + multiset(ts)
    decreases |ts|
  {
    if ts == [] {
      assert read + ts == read;
    } else {
      var first, rest := ts[0], ts[1..];
      assert ts == [first] + rest && read + ts == (read + [first]) + rest;
      assert forall i :: 0 <= i < |rest| ==> rest[i] == ts[i + 1];
      StepKeeps(s, read, first);
      RunFromKeeps(Step(s, first), read + [first], rest);
      if forall i :: 0 <= i < |ts| ==> !IsSeparator(ts[i]) {
        StepContents(s, first);
        assert multiset(ts) == multiset{first} + multiset(rest);
      }
    }
  }

  lemma RunKeeps(ts: seq<Token>)
    requires !HasConditionalOperators(ts)
    ensures Invariant(Run(ts), ts)
    ensures (forall i :: 0 <= i < |ts| ==> !IsSeparator(ts[i])) ==> Contents(Run(ts)) == multiset(ts)
  {
    assert Operands([]) == [];
    RunFromKeeps(Shunt([], []), [], ts);
    assert [] + ts == ts;
  }

  /**
   * The standard path drops only ) and , : its output holds no separator,
   * keeps the NUMBER and VARIABLE tokens in input order, and, for input without
   * ) and , (a leftover ( is flushed), is a permutation of the input.
   */
  lemma {:induction false} StandardRpnOutput(ts: seq<Token>)
    requires !HasConditionalOperators(ts)
    ensures forall t :: t in StandardRpn(ts) ==> t in ts && !IsSeparator(t)
    ensures Operands(StandardRpn(ts)) == Operands(ts)
    ensures (forall i :: 0 <= i < |ts| ==> !IsSeparator(ts[i])) ==> multiset(StandardRpn(ts)) == multiset(ts)
  {
    var s := Run(ts);
    RunKeeps(ts);
    ReversedElements(s.stack);
    ReversedMultiset(s.stack);
    OperandsAppend(s.output, Reversed(s.stack));
    NoOperands(Reversed(s.stack));
  }

  /**
   * ) with the nearest ( at position k-1 of the stack (k = 0: there is none):
   * the operators above it go to the output top first.
   */
  lemma {:induction false} PopToLeftParenAt(s: Shunt, k: nat)
    requires k <= |s.stack|
    requires k == 0 || s.stack[k - 1].kind == LEFT_PAREN
    requires forall j :: k <= j < |s.stack| ==> s.stack[j].kind != LEFT_PAREN
    ensures PopToLeftParen(s) == Shunt(s.output + Reversed(s.stack[k..]), s.stack[..k])
    decreases |s.stack| - k
  {
    if k == |s.stack| {
      assert s.stack[k..] == [] && s.stack[..k] == s.stack;
    } else {
      var top, rest := Top(s.stack), Pop(s.stack);
      assert top == s.stack[|s.stack| - 1] && top.kind != LEFT_PAREN;
      assert PopToLeftParen(s) == PopToLeftParen(Shunt(s.output + [top], rest));
      PopToLeftParenAt(Shunt(s.output + [top], rest), k);
      ReversedPopTop(s.stack, k);
      assert rest[..k] == s.stack[..k];
      assert s.output + [top] + Reversed(rest[k..]) == s.output + ([top] + Reversed(rest[k..]));
    }
  }

  /**
   * A ) pops to the matching (, discards it and then emits a FUNCTION lying
   * directly beneath; with no ( on the stack it empties the stack and raises nothing.
   */
  lemma {:induction false} RightParenStep(s: Shunt, k: nat, token: Token)
    requires token.kind == RIGHT_PAREN
    requires k <= |s.stack|
    requires k == 0 || s.stack[k - 1].kind == LEFT_PAREN
    requires forall j :: k <= j < |s.stack| ==> s.stack[j].kind != LEFT_PAREN
    ensures k == 0 ==> Step(s, token) == Shunt(s.output + Reversed(s.stack), [])
    ensures k > 0 && k >= 2 && s.stack[k - 2].kind == FUNCTION ==>
              Step(s, token) == Shunt(s.output + Reversed(s.stack[k..]) + [s.stack[k - 2]], s.stack[..k - 2])
    ensures k > 0 && (k < 2 || s.stack[k - 2].kind != FUNCTION) ==>
              Step(s, token) == Shunt(s.output + Reversed(s.stack[k..]), s.stack[..k - 1])
  {
    PopToLeftParenAt(s, k);
    if k == 0 {
      assert s.stack[0..] == s.stack;
    } else {
      var below := s.stack[..k - 1];
      assert Pop(s.stack[..k]) == below;
      if k >= 2 {
        assert Top(below) == s.stack[k - 2] && Pop(below) == s.stack[..k - 2];
      }
    }
  }

  // ---------------------------------------------------------------------------
  // Properties of the conditional path and of toRPN as a whole

  /** The position of the first ? or : at or after i, or |ts| when there is none. */
  function NextConditional(ts: seq<Token>, i: nat): (r: nat)
    requires i <= |ts|
    ensures i <= r <= |ts|
    ensures forall k :: i <= k < r ==> !IsConditionalToken(ts[k])
    ensures r < |ts| ==> IsConditionalToken(ts[r])
    decreases |ts| - i
  {
    if i == |ts| || IsConditionalToken(ts[i]) then i else NextConditional(ts, i + 1)
  }

  /** The scan looks only at ? and : tokens. */
  lemma {:induction false} ScanSkips(ts: seq<Token>, i: nat, q: int)
    requires i <= |ts| && -1 <= q < i
    ensures ScanConditional(ts, i, q) == ScanConditional(ts, NextConditional(ts, i), q)
    decreases |ts| - i
  {
    if i < |ts| && !IsConditionalToken(ts[i]) {
      ScanSkips(ts, i + 1, q);
    }
  }

  /**
   * The outcome of the scan of handleConditionalExpression, decided by the
   * first two ? or : tokens a and b: no such token, a : first, a ? with no
   * later ? or :, a second ?, or the split at the ? and the first : after it.
   */
  lemma {:induction false} ConditionalScan(ts: seq<Token>)
    ensures var a := NextConditional(ts, 0);
      && (a == |ts| ==> ScanConditional(ts, 0, -1) == Err(MissingQuestionMark))
      && (a < |ts| && ts[a].kind == COLON ==> ScanConditional(ts, 0, -1) == Err(ColonWithoutQuestionMark))
      && (a < |ts| && ts[a].kind == QUESTION_MARK ==>
            var b := NextConditional(ts, a + 1);
            && (b == |ts| ==> ScanConditional(ts, 0, -1) == Err(MissingColon))
            && (b < |ts| && ts[b].kind == QUESTION_MARK ==> ScanConditional(ts, 0, -1) == Err(NestedConditional))
            && (b < |ts| && ts[b].kind == COLON ==> ScanConditional(ts, 0, -1) == Ok((a, b))))
  {
    var a := NextConditional(ts, 0);
    ScanSkips(ts, 0, -1);
    if a < |ts| && ts[a].kind == QUESTION_MARK {
      ScanSkips(ts, a + 1, a);
    }
  }

  /** A successful scan returns a ? and the first : after it, with no ? or : elsewhere before that :. */
  lemma {:induction false} ConditionalScanOk(ts: seq<Token>, q: nat, c: nat)
    requires ScanConditional(ts, 0, -1) == Ok((q, c))
    ensures q < c < |ts| && ts[q].kind == QUESTION_MARK && ts[c].kind == COLON
    ensures forall k :: 0 <= k < c && k != q ==> !IsConditionalToken(ts[k])
    ensures ConditionalSpec(ts) == SplitSpec(ts, q, c)
  {
    ConditionalScan(ts);
  }

  /** What no toRPN output holds. */
  predicate CleanRpn(out: seq<Token>) {
    forall t :: t in out ==> !IsSeparator(t) && !IsConditionalToken(t)
  }

  /**
   * toRPN fails only on the conditional path; its output holds no ), , , ? or :,
   * keeps the NUMBER and VARIABLE tokens in input order, and keeps the "u" tag
   * of every UNARY_OPERATOR.
   */
  lemma ToRpnOutput(ts: seq<Token>)
    ensures ToRpnSpec(ts).Err? ==> HasConditionalOperators(ts)
    ensures ToRpnSpec(ts).Ok? ==> CleanRpn(ToRpnSpec(ts).value) && Operands(ToRpnSpec(ts).value) == Operands(ts)
    ensures ToRpnSpec(ts).Ok? && UnaryTagged(ts) ==> UnaryTagged(ToRpnSpec(ts).value)
  {
    PreprocessConditional(ts);
    ToRpnClean(ts);
    ToRpnOperands(ts);
    ToRpnTagged(ts);
  }

  lemma {:induction false} ToRpnClean(ts: seq<Token>)
    ensures ToRpnSpec(ts).Ok? ==> CleanRpn(ToRpnSpec(ts).value)
    decreases |ts|, 3
  {
    var p := Preprocess(ts);
    if HasConditionalOperators(p) {
      ConditionalClean(p);
    } else {
      StandardRpnOutput(p);
      forall t | t in StandardRpn(p)
        ensures !IsConditionalToken(t)
      {
        var i :| 0 <= i < |p| && p[i] == t;
      }
    }
  }

  lemma {:induction false} ConditionalClean(ts: seq<Token>)
    ensures ConditionalSpec(ts).Ok? ==> CleanRpn(ConditionalSpec(ts).value)
    decreases |ts|, 2
  {
    var scan := ScanConditional(ts, 0, -1);
    if scan.Ok? {
      var q, c := scan.value.0, scan.value.1;
      ToRpnClean(ts[..q]);
      ToRpnClean(ts[q + 1..c]);
      ToRpnClean(ts[c + 1..]);
      CombineClean(SplitSpec(ts, q, c), ToRpnSpec(ts[..q]), ToRpnSpec(ts[q + 1..c]), ToRpnSpec(ts[c + 1..]));
    }
  }

  /** The case of ConditionalClean, over the three parts' conversions. */
  lemma CombineClean(whole: Result<seq<Token>, ConvertError>, ra: Result<seq<Token>, ConvertError>,
                     rb: Result<seq<Token>, ConvertError>, re: Result<seq<Token>, ConvertError>)
    requires whole == Combine(ra, rb, re)
    requires ra.Ok? ==> CleanRpn(ra.value)
    requires rb.Ok? ==> CleanRpn(rb.value)
    requires re.Ok? ==> CleanRpn(re.value)
    ensures whole.Ok? ==> CleanRpn(whole.value)
  {
    if whole.Ok? {
      CleanConditional(ra.value, rb.value, re.value);
    }
  }

  lemma {:induction false} ToRpnOperands(ts: seq<Token>)
    ensures ToRpnSpec(ts).Ok? ==> Operands(ToRpnSpec(ts).value) == Operands(ts)
    decreases |ts|, 3
  {
    var p := Preprocess(ts);
    PreprocessOperands(ts);
    if HasConditionalOperators(p) {
      ConditionalOperands(p);
    } else {
      StandardRpnOutput(p);
    }
  }

  lemma {:induction false} ConditionalOperands(ts: seq<Token>)
    ensures ConditionalSpec(ts).Ok? ==> Operands(ConditionalSpec(ts).value) == Operands(ts)
    decreases |ts|, 2
  {
    var scan := ScanConditional(ts, 0, -1);
    if scan.Ok? {
      var q, c := scan.value.0, scan.value.1;
      ConditionalScanOk(ts, q, c);
      ToRpnOperands(ts[..q]);
      ToRpnOperands(ts[q + 1..c]);
      ToRpnOperands(ts[c + 1..]);
      SplitOperands(ts, q, c);
    }
  }

  /** The split around a ? and a : keeps the operands when each part's conversion does. */
  lemma SplitOperands(ts: seq<Token>, q: nat, c: nat)
    requires q < c < |ts| && !IsOperand(ts[q]) && !IsOperand(ts[c])
    requires ToRpnSpec(ts[..q]).Ok? ==> Operands(ToRpnSpec(ts[..q]).value) == Operands(ts[..q])
    requires ToRpnSpec(ts[q + 1..c]).Ok? ==> Operands(ToRpnSpec(ts[q + 1..c]).value) == Operands(ts[q + 1..c])
    requires ToRpnSpec(ts[c + 1..]).Ok? ==> Operands(ToRpnSpec(ts[c + 1..]).value) == Operands(ts[c + 1..])
    ensures SplitSpec(ts, q, c).Ok? ==> Operands(SplitSpec(ts, q, c).value) == Operands(ts)
  {
    OperandsOfSplit(ts, q, c);
    CombineOperands(SplitSpec(ts, q, c), ToRpnSpec(ts[..q]), ToRpnSpec(ts[q + 1..c]), ToRpnSpec(ts[c + 1..]),
                    ts[..q], ts[q + 1..c], ts[c + 1..], ts);
  }

  /** The case of ConditionalOperands, over the three parts and their conversions. */
  lemma CombineOperands(whole: Result<seq<Token>, ConvertError>, ra: Result<seq<Token>, ConvertError>,
                        rb: Result<seq<Token>, ConvertError>, re: Result<seq<Token>, ConvertError>,
                        a: seq<Token>, b: seq<Token>, e: seq<Token>, all: seq<Token>)
    requires whole == Combine(ra, rb, re)
    requires ra.Ok? ==> Operands(ra.value) == Operands(a)
    requires rb.Ok? ==> Operands(rb.value) == Operands(b)
    requires re.Ok? ==> Operands(re.value) == Operands(e)
    requires Operands(all) == Operands(a) + Operands(b) + Operands(e)
    ensures whole.Ok? ==> Operands(whole.value) == Operands(all)
  {
    if whole.Ok? {
      OperandsOfConditional(ra.value, rb.value, re.value, whole.value);
    }
  }

  lemma {:induction false} ToRpnTagged(ts: seq<Token>)
    ensures ToRpnSpec(ts).Ok? && UnaryTagged(ts) ==> UnaryTagged(ToRpnSpec(ts).value)
    decreases |ts|, 3
  {
    if UnaryTagged(ts) {
      var p := Preprocess(ts);
      PreprocessTagged(ts);
      if HasConditionalOperators(p) {
        ConditionalTagged(p);
      } else {
        StandardRpnOutput(p);
      }
    }
  }

  lemma {:induction false} ConditionalTagged(ts: seq<Token>)
    ensures ConditionalSpec(ts).Ok? && UnaryTagged(ts) ==> UnaryTagged(ConditionalSpec(ts).value)
    decreases |ts|, 2
  {
    var scan := ScanConditional(ts, 0, -1);
    if scan.Ok? && UnaryTagged(ts) {
      var q, c := scan.value.0, scan.value.1;
      SlicesTagged(ts, q, c);
      ToRpnTagged(ts[..q]);
      ToRpnTagged(ts[q + 1..c]);
      ToRpnTagged(ts[c + 1..]);
      CombineTagged(SplitSpec(ts, q, c), ToRpnSpec(ts[..q]), ToRpnSpec(ts[q + 1..c]), ToRpnSpec(ts[c + 1..]));
    }
  }

  /** The case of ConditionalTagged, over the three parts' conversions. */
  lemma CombineTagged(whole: Result<seq<Token>, ConvertError>, ra: Result<seq<Token>, ConvertError>,
                      rb: Result<seq<Token>, ConvertError>, re: Result<seq<Token>, ConvertError>)
    requires whole == Combine(ra, rb, re)
    requires ra.Ok? ==> UnaryTagged(ra.value)
    requires rb.Ok? ==> UnaryTagged(rb.value)
    requires re.Ok? ==> UnaryTagged(re.value)
    ensures whole.Ok? ==> UnaryTagged(whole.value)
  {
    if whole.Ok? {
      TaggedConditional(ra.value, rb.value, re.value);
    }
  }

  /** Cutting out two tokens that are not operands keeps the operands of the three parts. */
  lemma {:induction false} OperandsOfSplit(ts: seq<Token>, q: nat, c: nat)
    requires q < c < |ts| && !IsOperand(ts[q]) && !IsOperand(ts[c])
    ensures Operands(ts) == Operands(ts[..q]) + Operands(ts[q + 1..c]) + Operands(ts[c + 1..])
  {
    var a, b, e := ts[..q], ts[q + 1..c], ts[c + 1..];
    assert ts == a + ([ts[q]] + (b + ([ts[c]] + e)));
    OperandsOfParts(ts, a, ts[q], b, ts[c], e);
  }

  /** The operands of a list made of three parts and two tokens that are not operands. */
  lemma OperandsOfParts(ts: seq<Token>, a: seq<Token>, x: Token, b: seq<Token>, y: Token, e: seq<Token>)
    requires ts == a + ([x] + (b + ([y] + e))) && !IsOperand(x) && !IsOperand(y)
    ensures Operands(ts) == Operands(a) + Operands(b) + Operands(e)
  {
    calc {
      Operands(ts);
      { OperandsAppend(a, [x] + (b + ([y] + e))); }
      Operands(a) + Operands([x] + (b + ([y] + e)));
      { OperandsSkip(x, b + ([y] + e)); }
      Operands(a) + Operands(b + ([y] + e));
      { OperandsAppend(b, [y] + e); }
      Operands(a) + (Operands(b) + Operands([y] + e));
      { OperandsSkip(y, e); }
      Operands(a) + (Operands(b) + Operands(e));
      { Assoc(Operands(a), Operands(b), Operands(e)); }
      Operands(a) + Operands(b) + Operands(e);
    }
  }

  /** The result list of the conditional path has the operands of its three parts. */
  lemma {:induction false} OperandsOfConditional(ra: seq<Token>, rb: seq<Token>, re: seq<Token>, out: seq<Token>)
    requires out == ra + rb + re + [ConditionalMarker]
    ensures Operands(out) == Operands(ra) + Operands(rb) + Operands(re)
  {
    OperandsAppend(ra, rb);
    OperandsAppend(ra + rb, re);
    OperandsAppend(ra + rb + re, [ConditionalMarker]);
    NoOperands([ConditionalMarker]);
  }

  /** Nothing in the three parts' RPN, nor the marker, is a separator or a ? or :. */
  lemma CleanConditional(ra: seq<Token>, rb: seq<Token>, re: seq<Token>)
    requires CleanRpn(ra) && CleanRpn(rb) && CleanRpn(re)
    ensures CleanRpn(ra + rb + re + [ConditionalMarker])
  {
    forall t | t in ra + rb + re + [ConditionalMarker]
      ensures !IsSeparator(t) && !IsConditionalToken(t)
    {
      InConcat(t, ra, rb, re);
    }
  }

  lemma TaggedConditional(ra: seq<Token>, rb: seq<Token>, re: seq<Token>)
    requires UnaryTagged(ra) && UnaryTagged(rb) && UnaryTagged(re)
    ensures UnaryTagged(ra + rb + re + [ConditionalMarker])
  {
    forall t | t in ra + rb + re + [ConditionalMarker] && t.kind == UNARY_OPERATOR
      ensures |t.text| >= 1 && t.text[0] == 'u'
    {
      InConcat(t, ra, rb, re);
    }
  }

  lemma InConcat(t: Token, ra: seq<Token>, rb: seq<Token>, re: seq<Token>)
    requires t in ra + rb + re + [ConditionalMarker]
    ensures t in ra || t in rb || t in re || t == ConditionalMarker
  {
  }

  /** Every token of a slice is a token of the list. */
  lemma SlicesTagged(ts: seq<Token>, q: nat, c: nat)
    requires q < c < |ts|
    ensures UnaryTagged(ts) ==> UnaryTagged(ts[..q]) && UnaryTagged(ts[q + 1..c]) && UnaryTagged(ts[c + 1..])
  {
    assert forall t :: t in ts[..q] || t in ts[q + 1..c] || t in ts[c + 1..] ==> t in ts;
  }

  // ---------------------------------------------------------------------------
  // Unfolding lemmas for worked examples

  /** A list in which no sign is in prefix position passes the unary pass unchanged. */
  lemma PreprocessUnchanged(ts: seq<Token>)
    requires forall i :: 0 <= i < |ts| ==> !IsUnaryOperator(ts[i], Prev(ts, i))
    ensures Preprocess(ts) == ts
  {
    PreprocessSpec(ts);
  }

  /** Reading one more token in front: one Step, then the rest. */
  lemma RunFromCons(s: Shunt, t: Token, ts: seq<Token>)
    requires !IsConditionalToken(t) && !HasConditionalOperators(ts)
    ensures !HasConditionalOperators([t] + ts)
    ensures RunFrom(s, [t] + ts) == RunFrom(Step(s, t), ts)
  {
    assert ([t] + ts)[0] == t && ([t] + ts)[1..] == ts;
  }

  /** Reading xs and then ys is reading xs + ys. */
  lemma {:induction false} RunFromConcat(s: Shunt, xs: seq<Token>, ys: seq<Token>)
    requires !HasConditionalOperators(xs) && !HasConditionalOperators(ys)
    ensures !HasConditionalOperators(xs + ys)
    ensures RunFrom(s, xs + ys) == RunFrom(RunFrom(s, xs), ys)
    decreases |xs|
  {
    if xs == [] {
      assert xs + ys == ys;
    } else {
      assert !HasConditionalOperators(xs[1..]) by {
        assert forall i :: 0 <= i < |xs| - 1 ==> xs[1..][i] == xs[i + 1];
      }
      assert !IsConditionalToken(xs[0]);
      RunFromConcat(Step(s, xs[0]), xs[1..], ys);
      assert xs + ys == [xs[0]] + (xs[1..] + ys);
      RunFromCons(s, xs[0], xs[1..] + ys);
    }
  }

  // ---------------------------------------------------------------------------
  // The pop rule on two binary operators

  /** The state after a o1 b o2 c once a o1 is read: o2 pops o1 exactly when o1 binds at least as tightly. */
  lemma TwoOperatorsRunTail(a: Token, o1: Token, b: Token, o2: Token, c: Token)
    requires IsOperand(a) && IsOperand(b) && IsOperand(c)
    requires o1.kind == OPERATOR && o2.kind == OPERATOR
    ensures !HasConditionalOperators([b, o2, c])
    ensures RunFrom(Shunt([a], [o1]), [b, o2, c])
         == if Precedence(o1) >= Precedence(o2) then Shunt([a, b, o1, c], [o2]) else Shunt([a, b, c], [o1, o2])
  {
    assert [b, o2, c][1..] == [o2, c] && [o2, c][1..] == [c] && [c][1..] == [];
    var s3 := Shunt([a, b], [o1]);
    assert Step(Shunt([a], [o1]), b) == s3;
    assert Top([o1]) == o1 && Pop([o1]) == [];
    var s4 := if Precedence(o1) >= Precedence(o2) then Shunt([a, b, o1], [o2]) else Shunt([a, b], [o1, o2]);
    if Precedence(o1) >= Precedence(o2) {
      assert ShouldPopOperator(o1, o2);
      assert PopWhileYields(s3, o2) == PopWhileYields(Shunt([a, b, o1], []), o2) == Shunt([a, b, o1], []);
    } else {
      assert !ShouldPopOperator(o1, o2);
      assert PopWhileYields(s3, o2) == s3;
    }
    assert Step(s3, o2) == s4;
    var s5 := Shunt(s4.output + [c], s4.stack);
    assert Step(s4, c) == s5;
    assert RunFrom(s4, [c]) == s5;
    assert RunFrom(s3, [o2, c]) == s5;
  }

  /** The machine on a o1 b o2 c. */
  lemma TwoOperatorsRun(a: Token, o1: Token, b: Token, o2: Token, c: Token)
    requires IsOperand(a) && IsOperand(b) && IsOperand(c)
    requires o1.kind == OPERATOR && o2.kind == OPERATOR
    ensures !HasConditionalOperators([a, o1, b, o2, c])
    ensures Run([a, o1, b, o2, c])
         == if Precedence(o1) >= Precedence(o2) then Shunt([a, b, o1, c], [o2]) else Shunt([a, b, c], [o1, o2])
  {
    TwoOperatorsRunTail(a, o1, b, o2, c);
    assert [a, o1, b, o2, c][1..] == [o1, b, o2, c] && [o1, b, o2, c][1..] == [b, o2, c];
    assert Step(Shunt([a], []), o1) == Shunt([a], [o1]);
    assert RunFrom(Shunt([a], []), [o1, b, o2, c]) == RunFrom(Shunt([a], [o1]), [b, o2, c]);
    assert Step(Shunt([], []), a) == Shunt([a], []);
  }

  /**
   * Two binary operators between three operands: the first goes to the output
   * before the second exactly when it binds at least as tightly, so a tighter
   * second operator comes out first and equal ones group to the left.
   */
  lemma TwoOperatorsOrder(a: Token, o1: Token, b: Token, o2: Token, c: Token)
    requires IsOperand(a) && IsOperand(b) && IsOperand(c)
    requires o1.kind == OPERATOR && o2.kind == OPERATOR
    ensures ToRpnSpec([a, o1, b, o2, c])
         == Ok(if Precedence(o1) >= Precedence(o2) then [a, b, o1, c, o2] else [a, b, c, o2, o1])
  {
    var ts := [a, o1, b, o2, c];
    assert Prev(ts, 1) == Some(a) && Prev(ts, 3) == Some(b);
    PreprocessUnchanged(ts);
    TwoOperatorsRun(a, o1, b, o2, c);
    assert ToRpnSpec(ts) == Ok(Flush(Run(ts)));
    if Precedence(o1) >= Precedence(o2) {
      assert Reversed([o2]) == [o2];
      assert Flush(Shunt([a, b, o1, c], [o2])) == [a, b, o1, c, o2];
    } else {
      assert Reversed([o1, o2]) == [o2, o1];
      assert Flush(Shunt([a, b, c], [o1, o2])) == [a, b, c, o2, o1];
    }
  }
}
