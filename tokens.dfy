/** Token and TokenType of the parser package. */
module Tokens {

  /**
   * The token kinds. TokenType declares the first eight; the converter also
   * refers to COMPARISON, QUESTION_MARK and COLON, so all eleven are here.
   */
  datatype TokenType =
    | NUMBER
    | VARIABLE
    | OPERATOR
    | UNARY_OPERATOR
    | FUNCTION
    | LEFT_PAREN
    | RIGHT_PAREN
    | COMMA
    | COMPARISON
    | QUESTION_MARK
    | COLON
  {
    /** The enum constant's name, as Java's toString gives it. */
    function Name(): string {
      match this
      case NUMBER => "NUMBER"
      case VARIABLE => "VARIABLE"
      case OPERATOR => "OPERATOR"
      case UNARY_OPERATOR => "UNARY_OPERATOR"
      case FUNCTION => "FUNCTION"
      case LEFT_PAREN => "LEFT_PAREN"
      case RIGHT_PAREN => "RIGHT_PAREN"
      case COMMA => "COMMA"
      case COMPARISON => "COMPARISON"
      case QUESTION_MARK => "QUESTION_MARK"
      case COLON => "COLON"
    }
  }

  /** An immutable token: its kind and the text it carries. */
  datatype Token = Token(kind: TokenType, text: string)

  predicate IsOperand(t: Token) {
    t.kind == NUMBER || t.kind == VARIABLE
  }

  /** The NUMBER and VARIABLE tokens of a list, in order. */
  function Operands(ts: seq<Token>): seq<Token>
  {
    if ts == [] then []
    else (if IsOperand(ts[0]) then [ts[0]] else []) + Operands(ts[1..])
  }

  /** Operands keeps exactly the operands of the list. */
  lemma {:induction false} OperandsElements(ts: seq<Token>)
    ensures |Operands(ts)| <= |ts|
    ensures forall t :: t in Operands(ts) <==> t in ts && IsOperand(t)
  {
    if ts != [] {
      OperandsElements(ts[1..]);
      assert ts == [ts[0]] + ts[1..];
    }
  }

  lemma {:induction false} NoOperands(ts: seq<Token>)
    requires forall t :: t in ts ==> !IsOperand(t)
    ensures Operands(ts) == []
  {
    if ts != [] {
      NoOperands(ts[1..]);
    }
  }

  /** Appending one element and then a list appends the list headed by it. */
  lemma AppendThen<T>(a: seq<T>, n: seq<T>, f: seq<T>, t: T, rest: seq<T>, ts: seq<T>)
    requires ts != [] && ts[0] == t && ts[1..] == rest
    requires n == a + [t] && f == n + rest
    ensures f == a + ts
  {
    assert [t] + rest == ts;
  }

  /** Concatenation regroups. */
  lemma Assoc<T>(x: seq<T>, y: seq<T>, z: seq<T>)
    ensures x + (y + z) == x + y + z
  {
  }

  lemma OperandsSkip(t: Token, rest: seq<Token>)
    requires !IsOperand(t)
    ensures Operands([t] + rest) == Operands(rest)
  {
    assert ([t] + rest)[0] == t && ([t] + rest)[1..] == rest;
  }

  lemma {:induction false} OperandsAppend(a: seq<Token>, b: seq<Token>)
    ensures Operands(a + b) == Operands(a) + Operands(b)
  {
    if a == [] {
      assert a + b == b;
    } else {
      var head, tail := if IsOperand(a[0]) then [a[0]] else [], a[1..];
      assert (a + b)[0] == a[0] && (a + b)[1..] == tail + b;
      calc {
        Operands(a + b);
        head + Operands(tail + b);
        { OperandsAppend(tail, b); }
        head + (Operands(tail) + Operands(b));
        { assert head + (Operands(tail) + Operands(b)) == (head + Operands(tail)) + Operands(b); }
        Operands(a) + Operands(b);
      }
    }
  }
}
