/**
 * Tokenizer.tokenize: one left-to-right scan of the input that skips whitespace,
 * reads runs of digits and dots as numbers, runs of letters and digits that
 * start with a letter as identifiers, and single-character operators and
 * punctuation; any other character raises an IllegalArgumentException.
 */
module Tokenizer {
  import opened Results
  import opened Text
  import opened Tokens

  /** IllegalArgumentException("Unexpected character: " + c). */
  datatype LexError = UnexpectedCharacter(c: char) {
    function Message(): string {
      "Unexpected character: " + [c]
    }
  }

  /** A character that continues (and starts) a number run. */
  predicate IsNumberChar(c: char) {
    IsDigit(c) || c == '.'
  }

  /** The characters the scanner accepts. */
  predicate Allowed(c: char) {
    IsWhitespace(c) || IsNumberChar(c) || IsLetter(c) || c in "+-*/^,()"
  }

  /** The end of the maximal run of digits and dots that starts at i. */
  function NumberRunEnd(s: string, i: nat): (j: nat)
    requires i <= |s|
    ensures i <= j <= |s|
    ensures forall k :: i <= k < j ==> IsNumberChar(s[k])
    ensures j == |s| || !IsNumberChar(s[j])
    decreases |s| - i
  {
    if i < |s| && IsNumberChar(s[i]) then NumberRunEnd(s, i + 1) else i
  }

  /** The end of the maximal run of letters and digits that starts at i. */
  function WordRunEnd(s: string, i: nat): (j: nat)
    requires i <= |s|
    ensures i <= j <= |s|
    ensures forall k :: i <= k < j ==> IsLetterOrDigit(s[k])
    ensures j == |s| || !IsLetterOrDigit(s[j])
    decreases |s| - i
  {
    if i < |s| && IsLetterOrDigit(s[i]) then WordRunEnd(s, i + 1) else i
  }

  /** The token of an identifier: the two named constants, a variable or a function name. */
  function ClassifyWord(w: string): (t: Token)
    ensures t.text == w
  {
    if w == "pi" || w == "e" then Token(NUMBER, w)
    else if |w| == 1 then Token(VARIABLE, w)
    else Token(FUNCTION, w)
  }

  /** The token of a one-character operator or punctuation mark, if the switch has a case for it. */
  function SymbolToken(c: char): (r: Option<Token>)
    ensures r.Some? <==> c in "+-*/^,()"
    ensures r.Some? ==> r.value.text == [c]
  {
    match c
    case '+' | '-' | '*' | '/' | '^' => Some(Token(OPERATOR, [c]))
    case ',' => Some(Token(COMMA, ","))
    case '(' => Some(Token(LEFT_PAREN, "("))
    case ')' => Some(Token(RIGHT_PAREN, ")"))
    case _ => None
  }

  /** The tokens ts in front of the outcome r (a failure stays a failure). */
  function Prefixed(ts: seq<Token>, r: Result<seq<Token>, LexError>): Result<seq<Token>, LexError>
  {
    match r
    case Ok(rest) => Ok(ts + rest)
    case Err(e) => Err(e)
  }

  /** What the scanning loop produces from position i on. */
  function LexFrom(s: string, i: nat): Result<seq<Token>, LexError>
    requires i <= |s|
    decreases |s| - i
  {
    if i == |s| then Ok([])
    else if IsWhitespace(s[i]) then LexFrom(s, i + 1)
    else if IsNumberChar(s[i]) then
      var j := NumberRunEnd(s, i);
      Prefixed([Token(NUMBER, s[i..j])], LexFrom(s, j))
    else if IsLetter(s[i]) then
      var j := WordRunEnd(s, i);
      Prefixed([ClassifyWord(s[i..j])], LexFrom(s, j))
    else
      match SymbolToken(s[i])
      case Some(t) => Prefixed([t], LexFrom(s, i + 1))
      case None => Err(UnexpectedCharacter(s[i]))
  }

  /** The outcome of tokenizing the whole input. */
  function Lex(s: string): Result<seq<Token>, LexError>
  {
    LexFrom(s, 0)
  }

  lemma PrefixedAssoc(a: seq<Token>, b: seq<Token>, r: Result<seq<Token>, LexError>)
    ensures Prefixed(a, Prefixed(b, r)) == Prefixed(a + b, r)
  {
    if r.Ok? {
      assert a + (b + r.value) == (a + b) + r.value;
    }
  }

  lemma PrefixedNothing(r: Result<seq<Token>, LexError>)
    ensures Prefixed([], r) == r
  {
    if r.Ok? {
      assert [] + r.value == r.value;
    }
  }

  lemma LexFromNumber(s: string, i: nat)
    requires i < |s| && !IsWhitespace(s[i]) && IsNumberChar(s[i])
    ensures LexFrom(s, i) == Prefixed([Token(NUMBER, s[i..NumberRunEnd(s, i)])], LexFrom(s, NumberRunEnd(s, i)))
  {
  }

  lemma LexFromWord(s: string, i: nat)
    requires i < |s| && !IsWhitespace(s[i]) && !IsNumberChar(s[i]) && IsLetter(s[i])
    ensures LexFrom(s, i) == Prefixed([ClassifyWord(s[i..WordRunEnd(s, i)])], LexFrom(s, WordRunEnd(s, i)))
  {
  }

  lemma LexFromSymbol(s: string, i: nat)
    requires i < |s| && !IsWhitespace(s[i]) && !IsNumberChar(s[i]) && !IsLetter(s[i])
    ensures LexFrom(s, i) == match SymbolToken(s[i])
                             case Some(t) => Prefixed([t], LexFrom(s, i + 1))
                             case None => Err(UnexpectedCharacter(s[i]))
  {
  }

  /** The inner loop that collects a number run into a StringBuilder. */
  method ReadNumber(input: string, start: nat) returns (number: string, i: nat)
    requires start <= |input|
    ensures i == NumberRunEnd(input, start)
    ensures number == input[start..i]
  {
    number, i := "", start;
    while i < |input| && (IsDigit(input[i]) || input[i] == '.')
      invariant start <= i <= |input|
      invariant number == input[start..i]
      invariant NumberRunEnd(input, start) == NumberRunEnd(input, i)
      decreases |input| - i
    {
      number := number + [input[i]];
      i := i + 1;
    }
  }

  /** The inner loop that collects an identifier run into a StringBuilder. */
  method ReadWord(input: string, start: nat) returns (value: string, i: nat)
    requires start <= |input|
    ensures i == WordRunEnd(input, start)
    ensures value == input[start..i]
  {
    value, i := "", start;
    while i < |input| && IsLetterOrDigit(input[i])
      invariant start <= i <= |input|
      invariant value == input[start..i]
      invariant WordRunEnd(input, start) == WordRunEnd(input, i)
      decreases |input| - i
    {
      value := value + [input[i]];
      i := i + 1;
    }
  }

  /** Tokenizer.tokenize (Tokenizer.java:13-62). */
  method Tokenize(input: string) returns (r: Result<seq<Token>, LexError>)
    ensures r == Lex(input)
  {
    var tokens: seq<Token> := [];
    var i := 0;
    PrefixedNothing(Lex(input));
    while i < |input|
      invariant 0 <= i <= |input|
      invariant Lex(input) == Prefixed(tokens, LexFrom(input, i))
      decreases |input| - i
    {
      var c := input[i];
      if IsWhitespace(c) {
        i := i + 1;
        continue;
      }
      ghost var start := i;
      if IsDigit(c) || c == '.' {
        var number;
        number, i := ReadNumber(input, i);
        LexFromNumber(input, start);
        PrefixedAssoc(tokens, [Token(NUMBER, number)], LexFrom(input, i));
        tokens := tokens + [Token(NUMBER, number)];
      } else if IsLetter(c) {
        var value;
        value, i := ReadWord(input, i);
        var token := ClassifyWord(value);
        LexFromWord(input, start);
        PrefixedAssoc(tokens, [token], LexFrom(input, i));
        tokens := tokens + [token];
      } else {
        LexFromSymbol(input, i);
        var symbol := SymbolToken(c);
        if symbol.None? {
          return Err(UnexpectedCharacter(c));
        }
        var token := symbol.value;
        i := i + 1;
        PrefixedAssoc(tokens, [token], LexFrom(input, i));
        tokens := tokens + [token];
      }
    }
    assert tokens + [] == tokens;
    return Ok(tokens);
  }

  // ---------------------------------------------------------------------------
  // What the scan promises

  /** The characters of s from position i on, whitespace left out. */
  function NonWhitespaceFrom(s: string, i: nat): string
    requires i <= |s|
    decreases |s| - i
  {
    if i == |s| then [] else (if IsWhitespace(s[i]) then [] else [s[i]]) + NonWhitespaceFrom(s, i + 1)
  }

  function RemoveWhitespace(s: string): string
  {
    NonWhitespaceFrom(s, 0)
  }

  /** The texts of the tokens, concatenated. */
  function Concat(ts: seq<Token>): string
  {
    if ts == [] then [] else ts[0].text + Concat(ts[1..])
  }

  /** The shape of every token the scanner can emit. */
  predicate WellFormed(t: Token)
  {
    match t.kind
    case NUMBER =>
      || (|t.text| >= 1 && forall k :: 0 <= k < |t.text| ==> IsNumberChar(t.text[k]))
      || t.text == "pi" || t.text == "e"
    case VARIABLE => |t.text| == 1 && IsLetter(t.text[0]) && t.text != "e"
    case FUNCTION =>
      && |t.text| >= 2 && IsLetter(t.text[0]) && t.text != "pi"
      && forall k :: 0 <= k < |t.text| ==> IsLetterOrDigit(t.text[k])
    case OPERATOR => t.text in ["+", "-", "*", "/", "^"]
    case COMMA => t.text == ","
    case LEFT_PAREN => t.text == "("
    case RIGHT_PAREN => t.text == ")"
    case UNARY_OPERATOR => false
    case COMPARISON => false
    case QUESTION_MARK => false
    case COLON => false
  }

  lemma PrefixedOk(t: Token, r: Result<seq<Token>, LexError>)
    requires r.Ok?
    ensures Prefixed([t], r) == Ok([t] + r.value)
    ensures ([t] + r.value)[0] == t && ([t] + r.value)[1..] == r.value
  {
  }

  lemma {:induction false} NonWhitespaceRun(s: string, i: nat, j: nat)
    requires i <= j <= |s|
    requires forall k :: i <= k < j ==> !IsWhitespace(s[k])
    ensures NonWhitespaceFrom(s, i) == s[i..j] + NonWhitespaceFrom(s, j)
    decreases j - i
  {
    if i == j {
      assert s[i..j] == [];
    } else {
      var here, run, rest := [s[i]], s[i + 1..j], NonWhitespaceFrom(s, j);
      assert !IsWhitespace(s[i]);
      calc {
        NonWhitespaceFrom(s, i);
        here + NonWhitespaceFrom(s, i + 1);
        { NonWhitespaceRun(s, i + 1, j); }
        here + (run + rest);
        { assert here + (run + rest) == (here + run) + rest; }
        (here + run) + rest;
        { assert here + run == s[i..j]; }
        s[i..j] + rest;
      }
    }
  }

  /** A failure anywhere makes the scan from i fail, and a clean suffix makes it succeed. */
  lemma {:induction false} LexFromOkIff(s: string, i: nat)
    requires i <= |s|
    ensures LexFrom(s, i).Ok? <==> forall k :: i <= k < |s| ==> Allowed(s[k])
    decreases |s| - i
  {
    if i < |s| {
      if IsWhitespace(s[i]) {
        LexFromOkIff(s, i + 1);
      } else if IsNumberChar(s[i]) {
        LexFromOkIff(s, NumberRunEnd(s, i));
      } else if IsLetter(s[i]) {
        LexFromOkIff(s, WordRunEnd(s, i));
      } else if s[i] in "+-*/^,()" {
        LexFromOkIff(s, i + 1);
      }
    }
  }

  /** The scan reports the first character it does not accept. */
  lemma {:induction false} LexFromFirstBad(s: string, i: nat, k: nat)
    requires i <= k < |s|
    requires forall m :: i <= m < k ==> Allowed(s[m])
    requires !Allowed(s[k])
    ensures LexFrom(s, i) == Err(UnexpectedCharacter(s[k]))
    decreases k - i
  {
    if i < k {
      if IsWhitespace(s[i]) {
        LexFromFirstBad(s, i + 1, k);
      } else if IsNumberChar(s[i]) {
        LexFromFirstBad(s, NumberRunEnd(s, i), k);
      } else if IsLetter(s[i]) {
        LexFromFirstBad(s, WordRunEnd(s, i), k);
      } else {
        LexFromFirstBad(s, i + 1, k);
      }
    }
  }

  /** On success the tokens spell the input with its whitespace removed. */
  lemma {:induction false} LexFromConcat(s: string, i: nat)
    requires i <= |s|
    requires LexFrom(s, i).Ok?
    ensures Concat(LexFrom(s, i).value) == NonWhitespaceFrom(s, i)
    decreases |s| - i
  {
    if i < |s| {
      if IsWhitespace(s[i]) {
        LexFromConcat(s, i + 1);
      } else if IsNumberChar(s[i]) {
        var j := NumberRunEnd(s, i);
        LexFromConcat(s, j);
        PrefixedOk(Token(NUMBER, s[i..j]), LexFrom(s, j));
        NonWhitespaceRun(s, i, j);
      } else if IsLetter(s[i]) {
        var j := WordRunEnd(s, i);
        LexFromConcat(s, j);
        PrefixedOk(ClassifyWord(s[i..j]), LexFrom(s, j));
        NonWhitespaceRun(s, i, j);
      } else {
        LexFromConcat(s, i + 1);
        PrefixedOk(SymbolToken(s[i]).value, LexFrom(s, i + 1));
        NonWhitespaceRun(s, i, i + 1);
      }
    }
  }

  /** Every emitted token has one of the shapes of WellFormed. */
  lemma {:induction false} LexFromWellFormed(s: string, i: nat)
    requires i <= |s|
    requires LexFrom(s, i).Ok?
    ensures forall t :: t in LexFrom(s, i).value ==> WellFormed(t)
    decreases |s| - i
  {
    if i < |s| {
      if IsWhitespace(s[i]) {
        LexFromWellFormed(s, i + 1);
      } else if IsNumberChar(s[i]) {
        var j := NumberRunEnd(s, i);
        LexFromWellFormed(s, j);
        PrefixedOk(Token(NUMBER, s[i..j]), LexFrom(s, j));
      } else if IsLetter(s[i]) {
        var j := WordRunEnd(s, i);
        LexFromWellFormed(s, j);
        PrefixedOk(ClassifyWord(s[i..j]), LexFrom(s, j));
      } else {
        LexFromWellFormed(s, i + 1);
        PrefixedOk(SymbolToken(s[i]).value, LexFrom(s, i + 1));
      }
    }
  }

  lemma {:induction false} ConcatLength(ts: seq<Token>)
    requires forall t :: t in ts ==> |t.text| >= 1
    ensures |Concat(ts)| >= |ts|
    ensures ts != [] ==> Concat(ts) != []
  {
    if ts != [] {
      ConcatLength(ts[1..]);
    }
  }

  lemma {:induction false} NoNonWhitespace(s: string, i: nat)
    requires i <= |s|
    ensures NonWhitespaceFrom(s, i) == [] <==> forall k :: i <= k < |s| ==> IsWhitespace(s[k])
    decreases |s| - i
  {
    if i < |s| {
      NoNonWhitespace(s, i + 1);
    }
  }

  /** tokenize succeeds exactly when every character is accepted. */
  lemma LexSucceedsIff(s: string)
    ensures Lex(s).Ok? <==> forall k :: 0 <= k < |s| ==> Allowed(s[k])
  {
    LexFromOkIff(s, 0);
  }

  /** The exception names the first character that is not accepted. */
  lemma LexFailsAtFirstBadChar(s: string, k: nat)
    requires k < |s| && !Allowed(s[k])
    requires forall m :: 0 <= m < k ==> Allowed(s[m])
    ensures Lex(s) == Err(UnexpectedCharacter(s[k]))
    ensures Lex(s).error.Message() == "Unexpected character: " + [s[k]]
  {
    LexFromFirstBad(s, 0, k);
  }

  /**
   * On success no character is dropped or reordered apart from whitespace,
   * every token is well formed, and there are at most as many tokens as
   * non-whitespace characters.
   */
  lemma LexOutput(s: string)
    requires Lex(s).Ok?
    ensures Concat(Lex(s).value) == RemoveWhitespace(s)
    ensures forall t :: t in Lex(s).value ==> WellFormed(t)
    ensures |Lex(s).value| <= |RemoveWhitespace(s)|
  {
    LexFromConcat(s, 0);
    LexFromWellFormed(s, 0);
    ConcatLength(Lex(s).value);
  }

  /** The output is empty exactly for an empty or whitespace-only input. */
  lemma LexEmptyIff(s: string)
    ensures Lex(s) == Ok([]) <==> forall k :: 0 <= k < |s| ==> IsWhitespace(s[k])
  {
    NoNonWhitespace(s, 0);
    LexFromOkIff(s, 0);
    if Lex(s).Ok? {
      LexOutput(s);
    }
  }
}
