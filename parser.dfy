/**
 * Parser.parse: tokenize the input, convert the tokens to RPN, then build the
 * tree on a value stack, checking every operator's arity and that exactly one
 * tree is left; and parseNumber, which reads a NUMBER token's text.
 */
module Parser {
  import opened Results
  import opened Text
  import opened Tokens
  import opened Stacks
  import opened Ast
  import opened Tokenizer
  import opened ConvertToRpn

  /** What a ParseException of parse complains about. */
  datatype Reason =
    | EmptyExpression
    | InsufficientOperands(operator: string)
    | InsufficientUnaryOperands(operator: string)
    | InsufficientArguments(functionName: string)
    | UnexpectedTokenType(kind: TokenType)
    | WrongResultCount(count: nat)

  /** The exceptions that leave parse. */
  datatype ParseError =
    | LexFailure(lexError: LexError)              // IllegalArgumentException of tokenize
    | ConvertFailure(convertError: ConvertError)  // IllegalArgumentException of toRPN
    | ParseException(reason: Reason, errorOffset: nat)
    | NumberFormat(text: string)                  // NumberFormatException of Double.parseDouble
    | StringIndexOutOfBounds                      // substring(1) of an empty unary operator text
  {
    /** The message of a ParseException. */
    function Message(): string
      requires ParseException?
    {
      var at := " at position " + NatToString(errorOffset);
      match reason
      case EmptyExpression => "Empty expression"
      case InsufficientOperands(op) => "Insufficient operands for operator '" + op + "'" + at
      case InsufficientUnaryOperands(op) => "Insufficient operands for unary operator '" + op + "'" + at
      case InsufficientArguments(name) => "Insufficient arguments for function '" + name + "'" + at
      case UnexpectedTokenType(kind) => "Unexpected rpnToken type: " + kind.Name() + at
      case WrongResultCount(n) => "Invalid RPN expression: expected 1 result, got " + NatToString(n) + " elements remaining"
    }
  }

  // ---------------------------------------------------------------------------
  // parseNumber

  /**
   * The strings of digits and dots that Double.parseDouble accepts: at least
   * one digit and at most one dot.
   */
  predicate IsDecimal(s: string) {
    && (forall k :: 0 <= k < |s| ==> IsDigit(s[k]) || s[k] == '.')
    && (exists k :: 0 <= k < |s| && IsDigit(s[k]))
    && (forall j, k :: 0 <= j < k < |s| && s[j] == '.' ==> s[k] != '.')
  }

  /** parseNumber: "pi" and "e" in any case, else a decimal literal. */
  function ParseNumber(value: string): (r: Result<Num, ParseError>)
    ensures r.Err? ==> r.error == NumberFormat(value)
  {
    var lower := ToLower(value);
    if lower == "pi" then Ok(Pi)
    else if lower == "e" then Ok(E)
    else if IsDecimal(value) then Ok(Lit(value))
    else Err(NumberFormat(value))
  }

  /**
   * The named constants are recognised in any case; a decimal literal keeps
   * its text; every other text is refused.
   */
  lemma ParseNumberCases(value: string)
    ensures ParseNumber(value) == Ok(Pi) <==> ToLower(value) == "pi"
    ensures ParseNumber(value) == Ok(E) <==> ToLower(value) == "e"
    ensures ParseNumber(value) == Ok(Lit(value)) <==> IsDecimal(value)
    ensures ParseNumber(value).Err? <==> ToLower(value) != "pi" && ToLower(value) != "e" && !IsDecimal(value)
  {
    if IsDecimal(value) {
      DecimalLower(value);
    }
  }

  // ---------------------------------------------------------------------------
  // The value stack of parse

  /** How many trees a token takes off the stack. */
  function Arity(t: Token): nat {
    match t.kind
    case OPERATOR => 2
    case UNARY_OPERATOR => 1
    case FUNCTION => 1
    case _ => 0
  }

  /** The token kinds the switch of parse handles. */
  predicate Builds(k: TokenType) {
    k == NUMBER || k == VARIABLE || k == OPERATOR || k == UNARY_OPERATOR || k == FUNCTION
  }

  /**
   * One iteration of the for loop of parse, on the stack (top last) and the
   * token at position i of the RPN list.
   */
  function BuildStep(stack: seq<Expr>, t: Token, i: nat): (r: Result<seq<Expr>, ParseError>)
    ensures r.Ok? ==> Builds(t.kind) && Arity(t) <= |stack|
    ensures r.Ok? ==> |r.value| == |stack| - Arity(t) + 1 && r.value[..|stack| - Arity(t)] == stack[..|stack| - Arity(t)]
    ensures Builds(t.kind) && |stack| < Arity(t) ==> r.Err? && r.error.ParseException? && r.error.errorOffset == i
    ensures !Builds(t.kind) ==> r == Err(ParseException(UnexpectedTokenType(t.kind), i))
  {
    match t.kind
    case NUMBER =>
      var n :- ParseNumber(t.text);
      Ok(stack + [Constant(n)])
    case VARIABLE => Ok(stack + [Variable(t.text)])
    case OPERATOR =>
      if |stack| < 2 then Err(ParseException(InsufficientOperands(t.text), i))
      else
        var right, rest := Top(stack), Pop(stack);
        var left := Top(rest);
        Ok(Pop(rest) + [BinaryOp(t.text, left, right)])
    case UNARY_OPERATOR =>
      if |stack| == 0 then Err(ParseException(InsufficientUnaryOperands(t.text), i))
      else if |t.text| == 0 then Err(StringIndexOutOfBounds)
      else Ok(Pop(stack) + [UnaryOp(t.text[1..], Top(stack))])
    case FUNCTION =>
      if |stack| == 0 then Err(ParseException(InsufficientArguments(t.text), i))
      else Ok(Pop(stack) + [FunctionCall(t.text, [Top(stack)])])
    case _ => Err(ParseException(UnexpectedTokenType(t.kind), i))
  }

  /** The loop of parse from stack, on the tokens ts, the first at position offset. */
  function BuildFrom(stack: seq<Expr>, ts: seq<Token>, offset: nat): Result<seq<Expr>, ParseError>
    decreases |ts|
  {
    if ts == [] then Ok(stack)
    else
      var next :- BuildStep(stack, ts[0], offset);
      BuildFrom(next, ts[1..], offset + 1)
  }

  /** What parse makes of an RPN list, given the length of its input string. */
  function BuildTree(rpn: seq<Token>, inputLength: nat): Result<Expr, ParseError>
  {
    if rpn == [] then Err(ParseException(EmptyExpression, 0))
    else
      var stack :- BuildFrom([], rpn, 0);
      if |stack| != 1 then Err(ParseException(WrongResultCount(|stack|), inputLength))
      else Ok(stack[0])
  }

  /** parse: tokenize, toRPN, then the tree. */
  function ParseSpec(input: string): Result<Expr, ParseError>
  {
    match Lex(input)
    case Err(e) => Err(LexFailure(e))
    case Ok(tokens) =>
      match ToRpnSpec(tokens)
      case Err(e) => Err(ConvertFailure(e))
      case Ok(rpn) => BuildTree(rpn, |input|)
  }

  /** parse, once tokenize and toRPN have succeeded. */
  lemma ParseOk(input: string, tokens: seq<Token>, rpn: seq<Token>)
    requires Lex(input) == Ok(tokens) && ToRpnSpec(tokens) == Ok(rpn)
    ensures ParseSpec(input) == BuildTree(rpn, |input|)
  {
  }

  // ---------------------------------------------------------------------------
  // The methods

  /** The body of the switch of parse: push, or pop and push, or throw. */
  method ApplyToken(stack0: seq<Expr>, rpnToken: Token, i: nat) returns (r: Result<seq<Expr>, ParseError>)
    ensures r == BuildStep(stack0, rpnToken, i)
  {
    var stack := stack0;
    match rpnToken.kind {
      case NUMBER =>
        var n := ParseNumber(rpnToken.text);
        if n.Err? {
          return Err(n.error);
        }
        stack := stack + [Constant(n.value)];
      case VARIABLE =>
        stack := stack + [Variable(rpnToken.text)];
      case OPERATOR =>
        if |stack| < 2 {
          return Err(ParseException(InsufficientOperands(rpnToken.text), i));
        }
        var right := Top(stack);
        stack := Pop(stack);
        var left := Top(stack);
        stack := Pop(stack);
        stack := stack + [BinaryOp(rpnToken.text, left, right)];
      case UNARY_OPERATOR =>
        if |stack| == 0 {
          return Err(ParseException(InsufficientUnaryOperands(rpnToken.text), i));
        }
        var operand := Top(stack);
        stack := Pop(stack);
        if |rpnToken.text| == 0 {
          return Err(StringIndexOutOfBounds);
        }
        var op := rpnToken.text[1..];
        stack := stack + [UnaryOp(op, operand)];
      case FUNCTION =>
        if |stack| == 0 {
          return Err(ParseException(InsufficientArguments(rpnToken.text), i));
        }
        var arg := Top(stack);
        stack := Pop(stack);
        stack := stack + [FunctionCall(rpnToken.text, [arg])];
      case _ =>
        return Err(ParseException(UnexpectedTokenType(rpnToken.kind), i));
    }
    r := Ok(stack);
  }

  /** Parser.parse. */
  method Parse(input: string) returns (r: Result<Expr, ParseError>)
    ensures r == ParseSpec(input)
  {
    var tokens := Tokenize(input);
    if tokens.Err? {
      return Err(LexFailure(tokens.error));
    }
    var converted := ToRpn(tokens.value);
    if converted.Err? {
      return Err(ConvertFailure(converted.error));
    }
    var rpnTokens := converted.value;
    if |rpnTokens| == 0 {
      return Err(ParseException(EmptyExpression, 0));
    }
    var stack: seq<Expr> := [];
    for i := 0 to |rpnTokens|
      invariant BuildFrom(stack, rpnTokens[i..], i) == BuildFrom([], rpnTokens, 0)
    {
      assert rpnTokens[i..][0] == rpnTokens[i] && rpnTokens[i..][1..] == rpnTokens[i + 1..];
      var next := ApplyToken(stack, rpnTokens[i], i);
      if next.Err? {
        return Err(next.error);
      }
      stack := next.value;
    }
    assert rpnTokens[|rpnTokens|..] == [];
    if |stack| != 1 {
      return Err(ParseException(WrongResultCount(|stack|), |input|));
    }
    r := Ok(Top(stack));
  }

  // ---------------------------------------------------------------------------
  // The loop in pieces

  /** Reading ys after a run that ended in r. */
  function Continue(r: Result<seq<Expr>, ParseError>, ys: seq<Token>, offset: nat): Result<seq<Expr>, ParseError> {
    if r.Err? then r else BuildFrom(r.value, ys, offset)
  }

  /** Reading xs + ys is reading xs, then ys from where xs left off. */
  lemma {:induction false} BuildFromConcat(stack: seq<Expr>, xs: seq<Token>, ys: seq<Token>, offset: nat)
    ensures BuildFrom(stack, xs + ys, offset) == Continue(BuildFrom(stack, xs, offset), ys, offset + |xs|)
    decreases |xs|
  {
    if xs == [] {
      assert xs + ys == ys;
    } else {
      var zs := xs + ys;
      assert zs[0] == xs[0] && zs[1..] == xs[1..] + ys;
      var step := BuildStep(stack, xs[0], offset);
      if step.Err? {
        assert BuildFrom(stack, xs, offset) == Err(step.error);
        assert BuildFrom(stack, zs, offset) == Err(step.error);
      } else {
        BuildFromConcat(step.value, xs[1..], ys, offset + 1);
        assert BuildFrom(stack, xs, offset) == BuildFrom(step.value, xs[1..], offset + 1);
        assert BuildFrom(stack, zs, offset) == BuildFrom(step.value, xs[1..] + ys, offset + 1);
      }
    }
  }

  // ---------------------------------------------------------------------------
  // Trees and their RPN

  /** The text of the NUMBER token that stands for a constant. */
  function NumberText(n: Num): string {
    match n
    case Pi => "pi"
    case E => "e"
    case Lit(text) => text
  }

  /** The RPN of a tree, in the form toRPN emits it: operands first, then the node's own token. */
  function Postfix(e: Expr): seq<Token>
    decreases e
  {
    match e
    case Constant(n) => [Token(NUMBER, NumberText(n))]
    case Variable(x) => [Token(VARIABLE, x)]
    case UnaryOp(op, a) => Postfix(a) + [Token(UNARY_OPERATOR, "u" + op)]
    case BinaryOp(op, l, r) => Postfix(l) + Postfix(r) + [Token(OPERATOR, op)]
    case FunctionCall(f, args) => PostfixAll(args) + [Token(FUNCTION, f)]
  }

  /** The RPN of a list of trees, one after the other. */
  function PostfixAll(es: seq<Expr>): seq<Token>
    decreases es
  {
    if es == [] then [] else Postfix(es[0]) + PostfixAll(es[1..])
  }

  /** The trees parse can build: decimal literals and one-argument calls. */
  predicate Buildable(e: Expr)
    decreases e
  {
    match e
    case Constant(n) => n.Lit? ==> IsDecimal(n.text)
    case Variable(_) => true
    case UnaryOp(_, a) => Buildable(a)
    case BinaryOp(_, l, r) => Buildable(l) && Buildable(r)
    case FunctionCall(_, args) => |args| == 1 && Buildable(args[0])
  }

  /** A decimal literal is no named constant, in any case. */
  lemma DecimalLower(s: string)
    requires IsDecimal(s)
    ensures ToLower(s) == s && s != "pi" && s != "e"
  {
    assert s != [] && s[0] != 'p' && s[0] != 'e';
  }

  lemma ConstantText(n: Num)
    requires n.Lit? ==> IsDecimal(n.text)
    ensures ParseNumber(NumberText(n)) == Ok(n)
  {
    match n
    case Pi => assert ToLower("pi") == "pi";
    case E => assert ToLower("e") == "e";
    case Lit(text) => DecimalLower(text);
  }

  /** Reading one token is one step. */
  lemma BuildOne(stack: seq<Expr>, t: Token, offset: nat)
    ensures BuildFrom(stack, [t], offset) == BuildStep(stack, t, offset)
  {
    assert [t][0] == t && [t][1..] == [];
  }

  /** Reading xs and then ys, when xs pushes its way to mid. */
  lemma BuildThen(stack: seq<Expr>, xs: seq<Token>, ys: seq<Token>, offset: nat, mid: seq<Expr>, o: nat, result: seq<Expr>)
    requires Pushes(stack, xs, offset, mid) && o == offset + |xs| && Pushes(mid, ys, o, result)
    ensures Pushes(stack, xs + ys, offset, result)
  {
    BuildFromConcat(stack, xs, ys, offset);
  }

  /** Reading xs and then the token t, when xs pushes its way to mid. */
  lemma BuildThenStep(stack: seq<Expr>, xs: seq<Token>, t: Token, offset: nat, mid: seq<Expr>, o: nat, result: seq<Expr>)
    requires Pushes(stack, xs, offset, mid) && o == offset + |xs| && BuildStep(mid, t, o) == Ok(result)
    ensures Pushes(stack, xs + [t], offset, result)
  {
    BuildOne(mid, t, o);
    BuildThen(stack, xs, [t], offset, mid, o, result);
  }

  /** Reading xs, then ys, then the token t. */
  lemma BuildPairThenStep(stack: seq<Expr>, xs: seq<Token>, ys: seq<Token>, t: Token, offset: nat,
                          mid: seq<Expr>, o: nat, mid': seq<Expr>, o': nat, result: seq<Expr>)
    requires Pushes(stack, xs, offset, mid) && o == offset + |xs|
    requires Pushes(mid, ys, o, mid') && o' == o + |ys|
    requires BuildStep(mid', t, o') == Ok(result)
    ensures Pushes(stack, xs + ys + [t], offset, result)
  {
    BuildThen(stack, xs, ys, offset, mid, o, mid');
    BuildThenStep(stack, xs + ys, t, offset, mid', o', result);
  }

  /** A unary operator replaces the top tree by its negation or identity node. */
  lemma UnaryStep(stack: seq<Expr>, a: Expr, op: string, i: nat)
    ensures BuildStep(stack + [a], Token(UNARY_OPERATOR, "u" + op), i) == Ok(stack + [UnaryOp(op, a)])
  {
    assert ("u" + op)[1..] == op;
    assert Pop(stack + [a]) == stack && Top(stack + [a]) == a;
  }

  /** An operator combines the two top trees, the lower one on the left. */
  lemma OperatorStep(stack: seq<Expr>, l: Expr, r: Expr, op: string, i: nat)
    ensures BuildStep(stack + [l] + [r], Token(OPERATOR, op), i) == Ok(stack + [BinaryOp(op, l, r)])
  {
    var st := stack + [l] + [r];
    assert Top(st) == r && Pop(st) == stack + [l] && Top(Pop(st)) == l && Pop(Pop(st)) == stack;
  }

  /** A function token applies the function to the top tree. */
  lemma CallStep(stack: seq<Expr>, a: Expr, f: string, i: nat)
    ensures BuildStep(stack + [a], Token(FUNCTION, f), i) == Ok(stack + [FunctionCall(f, [a])])
  {
    assert Pop(stack + [a]) == stack && Top(stack + [a]) == a;
  }

  /** Reading ts from stack, the first at position offset, ends with the stack result. */
  predicate Pushes(stack: seq<Expr>, ts: seq<Token>, offset: nat, result: seq<Expr>) {
    BuildFrom(stack, ts, offset) == Ok(result)
  }

  lemma UnaryBuilds(op: string, a: Expr, stack: seq<Expr>, offset: nat)
    requires Pushes(stack, Postfix(a), offset, stack + [a])
    ensures Pushes(stack, Postfix(UnaryOp(op, a)), offset, stack + [UnaryOp(op, a)])
  {
    var o := offset + |Postfix(a)|;
    UnaryStep(stack, a, op, o);
    BuildThenStep(stack, Postfix(a), Token(UNARY_OPERATOR, "u" + op), offset, stack + [a], o,
                  stack + [UnaryOp(op, a)]);
  }

  lemma BinaryBuilds(op: string, l: Expr, r: Expr, stack: seq<Expr>, offset: nat)
    requires Pushes(stack, Postfix(l), offset, stack + [l])
    requires Pushes(stack + [l], Postfix(r), offset + |Postfix(l)|, stack + [l] + [r])
    ensures Pushes(stack, Postfix(BinaryOp(op, l, r)), offset, stack + [BinaryOp(op, l, r)])
  {
    BinaryPushes(stack, Postfix(l), Postfix(r), op, l, r, offset);
  }

  /** Two lists that push l and then r, followed by op, push the tree l op r. */
  lemma BinaryPushes(stack: seq<Expr>, xs: seq<Token>, ys: seq<Token>, op: string, l: Expr, r: Expr, offset: nat)
    requires Pushes(stack, xs, offset, stack + [l])
    requires Pushes(stack + [l], ys, offset + |xs|, stack + [l] + [r])
    ensures Pushes(stack, xs + ys + [Token(OPERATOR, op)], offset, stack + [BinaryOp(op, l, r)])
  {
    var o := offset + |xs|;
    OperatorStep(stack, l, r, op, o + |ys|);
    BuildPairThenStep(stack, xs, ys, Token(OPERATOR, op), offset, stack + [l], o,
                      stack + [l] + [r], o + |ys|, stack + [BinaryOp(op, l, r)]);
  }

  lemma CallBuilds(f: string, a: Expr, stack: seq<Expr>, offset: nat)
    requires Pushes(stack, Postfix(a), offset, stack + [a])
    ensures Pushes(stack, Postfix(FunctionCall(f, [a])), offset, stack + [FunctionCall(f, [a])])
  {
    var o := offset + |Postfix(a)|;
    assert [a][0] == a && [a][1..] == [];
    assert PostfixAll([a]) == Postfix(a);
    CallStep(stack, a, f, o);
    BuildThenStep(stack, Postfix(a), Token(FUNCTION, f), offset, stack + [a], o, stack + [FunctionCall(f, [a])]);
  }

  /** Reading a tree's RPN pushes exactly that tree. */
  lemma {:induction false} PostfixBuilds(e: Expr, stack: seq<Expr>, offset: nat)
    requires Buildable(e)
    ensures Pushes(stack, Postfix(e), offset, stack + [e])
    decreases e
  {
    match e
    case Constant(n) =>
      ConstantText(n);
      BuildOne(stack, Token(NUMBER, NumberText(n)), offset);
    case Variable(x) =>
      BuildOne(stack, Token(VARIABLE, x), offset);
    case UnaryOp(op, a) =>
      PostfixBuilds(a, stack, offset);
      UnaryBuilds(op, a, stack, offset);
    case BinaryOp(op, l, r) =>
      PostfixBuilds(l, stack, offset);
      PostfixBuilds(r, stack + [l], offset + |Postfix(l)|);
      BinaryBuilds(op, l, r, stack, offset);
    case FunctionCall(f, args) =>
      assert args == [args[0]];
      PostfixBuilds(args[0], stack, offset);
      CallBuilds(f, args[0], stack, offset);
  }

  /** parse reads back every tree it can build from that tree's RPN. */
  lemma BuildPostfix(e: Expr, inputLength: nat)
    requires Buildable(e)
    ensures BuildTree(Postfix(e), inputLength) == Ok(e)
  {
    PostfixBuilds(e, [], 0);
  }

  /** A token in the form Postfix writes it. */
  predicate Canonical(t: Token) {
    match t.kind
    case NUMBER => t.text == "pi" || t.text == "e" || IsDecimal(t.text)
    case UNARY_OPERATOR => |t.text| >= 1 && t.text[0] == 'u'
    case _ => true
  }

  lemma {:induction false} PostfixAllSnoc(es: seq<Expr>, e: Expr)
    ensures PostfixAll(es + [e]) == PostfixAll(es) + Postfix(e)
    decreases |es|
  {
    if es == [] {
      assert [e][1..] == [];
      assert PostfixAll([e]) == Postfix(e) + PostfixAll([]);
    } else {
      assert (es + [e])[0] == es[0] && (es + [e])[1..] == es[1..] + [e];
      PostfixAllSnoc(es[1..], e);
    }
  }

  lemma NumberPostfix(text: string)
    requires text == "pi" || text == "e" || IsDecimal(text)
    ensures ParseNumber(text).Ok? && NumberText(ParseNumber(text).value) == text
  {
    ParseNumberCases(text);
    assert ToLower("pi") == "pi" && ToLower("e") == "e";
  }

  lemma OperatorPostfix(p: seq<Expr>, l: Expr, r: Expr, op: string)
    ensures PostfixAll(p + [BinaryOp(op, l, r)]) == PostfixAll(p + [l] + [r]) + [Token(OPERATOR, op)]
  {
    PostfixAllSnoc(p, BinaryOp(op, l, r));
    PostfixAllSnoc(p, l);
    PostfixAllSnoc(p + [l], r);
  }

  lemma UnaryPostfix(p: seq<Expr>, a: Expr, text: string)
    requires |text| >= 1 && text[0] == 'u'
    ensures PostfixAll(p + [UnaryOp(text[1..], a)]) == PostfixAll(p + [a]) + [Token(UNARY_OPERATOR, text)]
  {
    assert "u" + text[1..] == text;
    PostfixAllSnoc(p, UnaryOp(text[1..], a));
    PostfixAllSnoc(p, a);
  }

  lemma CallPostfix(p: seq<Expr>, a: Expr, f: string)
    ensures PostfixAll(p + [FunctionCall(f, [a])]) == PostfixAll(p + [a]) + [Token(FUNCTION, f)]
  {
    assert [a][1..] == [] && PostfixAll([a]) == Postfix(a);
    PostfixAllSnoc(p, FunctionCall(f, [a]));
    PostfixAllSnoc(p, a);
  }

  /** One step on a canonical token extends the stack's RPN by that token. */
  lemma {:induction false} BuildStepPostfix(stack: seq<Expr>, t: Token, i: nat)
    requires Canonical(t) && BuildStep(stack, t, i).Ok?
    ensures PostfixAll(BuildStep(stack, t, i).value) == PostfixAll(stack) + [t]
  {
    var next := BuildStep(stack, t, i).value;
    match t.kind
    case NUMBER =>
      NumberPostfix(t.text);
      assert next == stack + [Constant(ParseNumber(t.text).value)];
      PostfixAllSnoc(stack, Constant(ParseNumber(t.text).value));
    case VARIABLE =>
      PostfixAllSnoc(stack, Variable(t.text));
    case OPERATOR =>
      var p, l, r := Pop(Pop(stack)), Top(Pop(stack)), Top(stack);
      assert stack == p + [l] + [r];
      assert next == p + [BinaryOp(t.text, l, r)];
      OperatorPostfix(p, l, r, t.text);
    case UNARY_OPERATOR =>
      var p, a := Pop(stack), Top(stack);
      assert stack == p + [a];
      assert next == p + [UnaryOp(t.text[1..], a)];
      UnaryPostfix(p, a, t.text);
    case FUNCTION =>
      var p, a := Pop(stack), Top(stack);
      assert stack == p + [a];
      assert next == p + [FunctionCall(t.text, [a])];
      CallPostfix(p, a, t.text);
  }

  lemma {:induction false} BuildFromPostfix(stack: seq<Expr>, ts: seq<Token>, offset: nat)
    requires forall t :: t in ts ==> Canonical(t)
    requires BuildFrom(stack, ts, offset).Ok?
    ensures PostfixAll(BuildFrom(stack, ts, offset).value) == PostfixAll(stack) + ts
    decreases |ts|
  {
    if ts == [] {
      assert PostfixAll(stack) + ts == PostfixAll(stack);
    } else {
      var t, rest := ts[0], ts[1..];
      assert t in ts && Canonical(t);
      var next := BuildStep(stack, t, offset).value;
      assert BuildFrom(stack, ts, offset) == BuildFrom(next, rest, offset + 1);
      BuildStepPostfix(stack, t, offset);
      assert forall u :: u in rest ==> u in ts;
      BuildFromPostfix(next, rest, offset + 1);
      AppendThen(PostfixAll(stack), PostfixAll(next), PostfixAll(BuildFrom(next, rest, offset + 1).value), t, rest, ts);
    }
  }


  /** On canonical RPN, the tree parse builds has exactly that RPN: parse loses nothing. */
  lemma PostfixOfBuild(rpn: seq<Token>, inputLength: nat)
    requires forall t :: t in rpn ==> Canonical(t)
    requires BuildTree(rpn, inputLength).Ok?
    ensures Postfix(BuildTree(rpn, inputLength).value) == rpn
  {
    var stack := BuildFrom([], rpn, 0).value;
    BuildFromPostfix([], rpn, 0);
    assert |stack| == 1 && BuildTree(rpn, inputLength).value == stack[0];
    assert stack[1..] == [];
    assert PostfixAll(stack) == Postfix(stack[0]) + PostfixAll([]);
    assert PostfixAll([]) == [] && [] + rpn == rpn;
  }

  /** A step pushes a tree parse can read back, and leaves the rest of the stack alone. */
  lemma {:induction false} BuildStepBuildable(stack: seq<Expr>, t: Token, i: nat)
    requires forall e :: e in stack ==> Buildable(e)
    requires BuildStep(stack, t, i).Ok?
    ensures forall e :: e in BuildStep(stack, t, i).value ==> Buildable(e)
  {
    var next := BuildStep(stack, t, i).value;
    var k := |stack| - Arity(t);
    assert next == next[..k] + [next[k]];
    assert forall e :: e in stack[..k] ==> e in stack;
    match t.kind
    case NUMBER =>
      assert next[k] == Constant(ParseNumber(t.text).value);
    case VARIABLE =>
    case OPERATOR =>
      assert stack[k] in stack && stack[k + 1] in stack;
      assert next[k] == BinaryOp(t.text, stack[k], stack[k + 1]);
    case UNARY_OPERATOR =>
      assert stack[k] in stack;
      assert next[k] == UnaryOp(t.text[1..], stack[k]);
    case FUNCTION =>
      assert stack[k] in stack;
      assert next[k] == FunctionCall(t.text, [stack[k]]);
  }

  lemma {:induction false} BuildFromBuildable(stack: seq<Expr>, ts: seq<Token>, offset: nat)
    requires forall e :: e in stack ==> Buildable(e)
    requires BuildFrom(stack, ts, offset).Ok?
    ensures forall e :: e in BuildFrom(stack, ts, offset).value ==> Buildable(e)
    decreases |ts|
  {
    if ts != [] {
      BuildStepBuildable(stack, ts[0], offset);
      BuildFromBuildable(BuildStep(stack, ts[0], offset).value, ts[1..], offset + 1);
    }
  }

  /** parse builds only trees it can read back: decimal literals and one-argument calls. */
  lemma BuildTreeBuildable(rpn: seq<Token>, inputLength: nat)
    requires BuildTree(rpn, inputLength).Ok?
    ensures Buildable(BuildTree(rpn, inputLength).value)
  {
    BuildFromBuildable([], rpn, 0);
    assert BuildFrom([], rpn, 0).value[0] in BuildFrom([], rpn, 0).value;
  }

  // ---------------------------------------------------------------------------
  // Which RPN lists parse

  /** A token on which parse throws nothing but a stack underflow. */
  predicate Readable(t: Token) {
    && Builds(t.kind)
    && (t.kind == NUMBER ==> ParseNumber(t.text).Ok?)
    && (t.kind == UNARY_OPERATOR ==> t.text != [])
  }

  /** Starting with h trees on the stack, no token of ts finds fewer than it takes. */
  predicate NoUnderflow(h: int, ts: seq<Token>)
    decreases |ts|
  {
    ts == [] || (Arity(ts[0]) <= h && NoUnderflow(h - Arity(ts[0]) + 1, ts[1..]))
  }

  /** The net change of the stack height over ts. */
  function Height(ts: seq<Token>): int
    decreases |ts|
  {
    if ts == [] then 0 else 1 - Arity(ts[0]) + Height(ts[1..])
  }

  /** On a readable token a step fails exactly on underflow, with a ParseException at its position. */
  lemma BuildStepReadable(stack: seq<Expr>, t: Token, i: nat)
    requires Readable(t)
    ensures BuildStep(stack, t, i).Ok? <==> Arity(t) <= |stack|
    ensures BuildStep(stack, t, i).Err? ==> BuildStep(stack, t, i).error.ParseException? && BuildStep(stack, t, i).error.errorOffset == i
  {
  }

  /**
   * On readable tokens the loop of parse succeeds iff the stack never runs
   * short, ends with the height the arities predict, and otherwise throws a
   * ParseException at the position of the first token that finds too few trees.
   */
  lemma {:induction false} BuildFromOkIff(stack: seq<Expr>, ts: seq<Token>, offset: nat)
    requires forall t :: t in ts ==> Readable(t)
    ensures BuildFrom(stack, ts, offset).Ok? <==> NoUnderflow(|stack|, ts)
    ensures BuildFrom(stack, ts, offset).Ok? ==> |BuildFrom(stack, ts, offset).value| == |stack| + Height(ts)
    ensures BuildFrom(stack, ts, offset).Err? ==>
              && BuildFrom(stack, ts, offset).error.ParseException?
              && offset <= BuildFrom(stack, ts, offset).error.errorOffset < offset + |ts|
    decreases |ts|
  {
    if ts != [] {
      var t := ts[0];
      BuildStepReadable(stack, t, offset);
      var step := BuildStep(stack, t, offset);
      if step.Ok? {
        assert forall u :: u in ts[1..] ==> u in ts;
        BuildFromOkIff(step.value, ts[1..], offset + 1);
      }
    }
  }

  /** On readable tokens parse builds a tree iff the list is non-empty, never underflows and leaves one tree. */
  lemma BuildTreeOkIff(rpn: seq<Token>, inputLength: nat)
    requires forall t :: t in rpn ==> Readable(t)
    ensures BuildTree(rpn, inputLength).Ok? <==> rpn != [] && NoUnderflow(0, rpn) && Height(rpn) == 1
    ensures BuildTree(rpn, inputLength).Err? ==> BuildTree(rpn, inputLength).error.ParseException?
  {
    BuildFromOkIff([], rpn, 0);
  }

  // ---------------------------------------------------------------------------
  // The whole pipeline

  /** A tagged RPN list never makes substring(1) fail. */
  lemma {:induction false} BuildFromTagged(stack: seq<Expr>, ts: seq<Token>, offset: nat)
    requires UnaryTagged(ts)
    ensures BuildFrom(stack, ts, offset) != Err(StringIndexOutOfBounds)
    decreases |ts|
  {
    if ts != [] {
      assert ts[0] in ts;
      var step := BuildStep(stack, ts[0], offset);
      if step.Ok? {
        assert forall u :: u in ts[1..] ==> u in ts;
        BuildFromTagged(step.value, ts[1..], offset + 1);
      }
    }
  }

  /** The tree building throws only its own three exceptions. */
  lemma {:induction false} BuildFromErrors(stack: seq<Expr>, ts: seq<Token>, offset: nat)
    ensures BuildFrom(stack, ts, offset).Err? ==>
              || BuildFrom(stack, ts, offset).error.ParseException?
              || BuildFrom(stack, ts, offset).error.NumberFormat?
              || BuildFrom(stack, ts, offset).error.StringIndexOutOfBounds?
    decreases |ts|
  {
    if ts != [] {
      var step := BuildStep(stack, ts[0], offset);
      if step.Ok? {
        BuildFromErrors(step.value, ts[1..], offset + 1);
      }
    }
  }

  /** A NumberFormatException comes from a NUMBER token of the list that parseNumber refuses. */
  lemma {:induction false} BuildFromNumberFormat(stack: seq<Expr>, ts: seq<Token>, offset: nat)
    requires BuildFrom(stack, ts, offset).Err? && BuildFrom(stack, ts, offset).error.NumberFormat?
    ensures exists t :: t in ts && t.kind == NUMBER && t.text == BuildFrom(stack, ts, offset).error.text
                        && ParseNumber(t.text).Err?
    decreases |ts|
  {
    var step := BuildStep(stack, ts[0], offset);
    if step.Ok? {
      BuildFromNumberFormat(step.value, ts[1..], offset + 1);
      var t :| t in ts[1..] && t.kind == NUMBER && t.text == BuildFrom(stack, ts, offset).error.text && ParseNumber(t.text).Err?;
      assert t in ts;
    } else {
      assert ts[0] in ts;
    }
  }

  /** The tokenizer emits no ?, no : and no unary operator. */
  lemma LexedTokens(input: string)
    requires Lex(input).Ok?
    ensures !HasConditionalOperators(Lex(input).value) && UnaryTagged(Lex(input).value)
    ensures forall t :: t in Lex(input).value ==> WellFormed(t)
  {
    LexOutput(input);
    var ts := Lex(input).value;
    assert forall i :: 0 <= i < |ts| ==> ts[i] in ts;
  }

  /** What the tree building throws on the RPN of a tokenizer output. */
  lemma BuildTreeOfLexed(rpn: seq<Token>, tokens: seq<Token>, inputLength: nat)
    requires UnaryTagged(rpn) && Operands(rpn) == Operands(tokens)
    requires forall t :: t in tokens ==> WellFormed(t)
    ensures BuildTree(rpn, inputLength).Err? ==> BuildTree(rpn, inputLength).error != StringIndexOutOfBounds
    ensures BuildTree(rpn, inputLength).Err? ==> !BuildTree(rpn, inputLength).error.ConvertFailure?
    ensures BuildTree(rpn, inputLength).Err? ==> !BuildTree(rpn, inputLength).error.LexFailure?
    ensures BuildTree(rpn, inputLength).Err? && BuildTree(rpn, inputLength).error.NumberFormat? ==>
              exists t :: && t in tokens && t.kind == NUMBER && t.text == BuildTree(rpn, inputLength).error.text
                          && !IsDecimal(t.text) && forall k :: 0 <= k < |t.text| ==> IsNumberChar(t.text[k])
  {
    if rpn != [] {
      BuildFromTagged([], rpn, 0);
      BuildFromErrors([], rpn, 0);
      var b := BuildFrom([], rpn, 0);
      if b.Err? && b.error.NumberFormat? {
        BuildFromNumberFormat([], rpn, 0);
        var t :| t in rpn && t.kind == NUMBER && t.text == b.error.text && ParseNumber(t.text).Err?;
        OperandsElements(rpn);
        OperandsElements(tokens);
        assert t in Operands(rpn) && t in tokens;
        assert WellFormed(t);
        assert ToLower("pi") == "pi" && ToLower("e") == "e";
      }
    }
  }

  /**
   * Through parse, toRPN never throws and substring(1) never fails: parse
   * fails in the tokenizer exactly when tokenize does, and otherwise with a
   * ParseException or with a NumberFormatException for a NUMBER token of the
   * input that is a run of digits and dots with no digit or with two dots.
   */
  lemma ParseFailures(input: string)
    ensures ParseSpec(input).Err? && ParseSpec(input).error.LexFailure? <==> Lex(input).Err?
    ensures ParseSpec(input).Err? ==> !ParseSpec(input).error.ConvertFailure? && ParseSpec(input).error != StringIndexOutOfBounds
    ensures ParseSpec(input).Err? && ParseSpec(input).error.NumberFormat? ==>
              && Lex(input).Ok?
              && exists t :: && t in Lex(input).value && t.kind == NUMBER && t.text == ParseSpec(input).error.text
                             && !IsDecimal(t.text) && forall k :: 0 <= k < |t.text| ==> IsNumberChar(t.text[k])
  {
    if Lex(input).Ok? {
      var tokens := Lex(input).value;
      LexedTokens(input);
      ToRpnOutput(tokens);
      var rpn := ToRpnSpec(tokens).value;
      assert ParseSpec(input) == BuildTree(rpn, |input|);
      BuildTreeOfLexed(rpn, tokens, |input|);
    }
  }
}
