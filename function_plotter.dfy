/**
 * The two string helpers of the plotter: the serialiser of a tree into the
 * DOT language (erstelleASTalsDot with its recursive erstelleASTKnoten) and
 * extractVariableName.
 */
module FunctionPlotter {
  import opened Results
  import opened Text
  import opened Tokens
  import opened Ast
  import opened Tokenizer

  // ---------------------------------------------------------------------------
  // The DOT serialiser

  /** java.lang.StringBuilder, as far as the serialiser uses it. */
  class StringBuilder {
    var contents: string

    constructor (initial: string)
      ensures contents == initial
    {
      contents := initial;
    }

    method Append(s: string)
      modifies this
      ensures contents == old(contents) + s
    {
      contents := contents + s;
    }
  }

  /** One line of the DOT body: a labelled node (leaves and calls with a fill colour) or a labelled edge. */
  datatype DotLine =
    | Node(id: nat, text: string, fill: Option<string>)
    | Edge(from: nat, to: nat, text: string)

  /** The DOT name of the node with the given id. */
  function NodeName(id: nat): string {
    "node" + NatToString(id)
  }

  /** Distinct ids give distinct DOT names, so the numbering keeps the nodes apart. */
  lemma NodeNamesDistinct(i: nat, j: nat)
    ensures NodeName(i) == NodeName(j) <==> i == j
  {
    if NodeName(i) == NodeName(j) {
      assert NatToString(i) == NodeName(i)[4..] == NodeName(j)[4..] == NatToString(j);
      NatToStringInjective(i, j);
    }
  }

  function LineText(line: DotLine): string {
    match line
    case Node(id, text, None) =>
      "  " + NodeName(id) + " [label=\"" + text + "\"];\n"
    case Node(id, text, Some(color)) =>
      "  " + NodeName(id) + " [label=\"" + text + "\", fillcolor=" + color + "];\n"
    case Edge(from, to, text) =>
      "  " + NodeName(from) + " -> " + NodeName(to) + " [label=\"" + text + "\"];\n"
  }

  function Render(lines: seq<DotLine>): string {
    if lines == [] then "" else LineText(lines[0]) + Render(lines[1..])
  }

  /**
   * The lines erstelleASTKnoten writes for e when the counter stands at first:
   * the node itself, the subtrees left to right with consecutive ids, then the
   * edges to the subtree roots. The label of a constant is show applied to its
   * value (Java's rendering of a double is not modelled).
   */
  function Lines(e: Expr, first: nat, show: Num -> string): seq<DotLine>
    decreases e
  {
    match e
    case BinaryOp(op, l, r) =>
      [Node(first, "Operator: " + op, None)]
      + Lines(l, first + 1, show) + Lines(r, first + 1 + Size(l), show)
      + [Edge(first, first + 1, "links"), Edge(first, first + 1 + Size(l), "rechts")]
    case UnaryOp(op, a) =>
      [Node(first, "Unär: " + op, None)] + Lines(a, first + 1, show) + [Edge(first, first + 1, "operand")]
    case Constant(n) => [Node(first, "Konstante: " + show(n), Some("lightgreen"))]
    case Variable(x) => [Node(first, "Variable: " + x, Some("lightyellow"))]
    case FunctionCall(f, args) =>
      [Node(first, "Funktion: " + f, Some("lightpink"))] + ArgLines(first, args, 0, first + 1, show)
  }

  /**
   * The lines of the argument loop of a call node parent: argument k onwards,
   * each subtree followed by its edge "arg<k>", the first one numbered from next.
   */
  function ArgLines(parent: nat, args: seq<Expr>, k: nat, next: nat, show: Num -> string): seq<DotLine>
    decreases args
  {
    if args == [] then []
    else
      Lines(args[0], next, show) + [Edge(parent, next, "arg" + NatToString(k))]
      + ArgLines(parent, args[1..], k + 1, next + Size(args[0]), show)
  }

  /** The text erstelleASTKnoten appends for e when the counter stands at first. */
  function NodeText(e: Expr, first: nat, show: Num -> string): string {
    Render(Lines(e, first, show))
  }

  /** The text the argument loop of a call node parent appends from argument k on. */
  function ArgText(parent: nat, args: seq<Expr>, k: nat, next: nat, show: Num -> string): string {
    Render(ArgLines(parent, args, k, next, show))
  }

  const DotHeader := "digraph AST {\n"
  const DefaultNode := "  node [shape=box, style=filled, fillcolor=lightblue];\n"

  /** The string erstelleASTalsDot returns. */
  function Dot(e: Expr, show: Num -> string): string {
    DotHeader + DefaultNode + Render(Lines(e, 0, show)) + "}"
  }

  lemma {:induction false} RenderConcat(a: seq<DotLine>, b: seq<DotLine>)
    ensures Render(a + b) == Render(a) + Render(b)
    decreases |a|
  {
    if a == [] {
      assert a + b == b;
    } else {
      assert (a + b)[0] == a[0] && (a + b)[1..] == a[1..] + b;
      RenderConcat(a[1..], b);
    }
  }

  lemma RenderOne(line: DotLine)
    ensures Render([line]) == LineText(line)
  {
    assert [line][1..] == [];
  }

  /** The text of a binary node: its line, both subtrees, the two edges. */
  lemma RenderBinary(op: string, l: Expr, r: Expr, first: nat, mid: nat, show: Num -> string)
    requires mid == first + 1 + Size(l)
    ensures NodeText(BinaryOp(op, l, r), first, show)
         == LineText(Node(first, "Operator: " + op, None)) + NodeText(l, first + 1, show) + NodeText(r, mid, show)
            + LineText(Edge(first, first + 1, "links")) + LineText(Edge(first, mid, "rechts"))
  {
    BinaryShape(op, l, r, first, mid, show);
    RenderNodeBlocksEdges(Node(first, "Operator: " + op, None), Lines(l, first + 1, show), Lines(r, mid, show),
                          Edge(first, first + 1, "links"), Edge(first, mid, "rechts"));
  }

  /** A line, two blocks and two lines render piece by piece. */
  lemma RenderNodeBlocksEdges(node: DotLine, ls: seq<DotLine>, rs: seq<DotLine>, a: DotLine, b: DotLine)
    ensures Render([node] + ls + rs + [a, b])
         == LineText(node) + Render(ls) + Render(rs) + LineText(a) + LineText(b)
  {
    var head := LineText(node) + Render(ls) + Render(rs);
    calc {
      Render([node] + ls + rs + [a, b]);
      { RenderConcat([node] + ls + rs, [a, b]); }
      Render([node] + ls + rs) + Render([a, b]);
      { RenderConcat([node] + ls, rs); }
      Render([node] + ls) + Render(rs) + Render([a, b]);
      { RenderConcat([node], ls); }
      Render([node]) + Render(ls) + Render(rs) + Render([a, b]);
      { RenderOne(node); }
      head + Render([a, b]);
      { RenderPair(a, b); }
      head + (LineText(a) + LineText(b));
      { Regroup3(head, LineText(a), LineText(b)); }
      head + LineText(a) + LineText(b);
    }
  }

  lemma RenderPair(a: DotLine, b: DotLine)
    ensures Render([a, b]) == LineText(a) + LineText(b)
  {
    assert [a, b][1..] == [b];
    RenderOne(b);
  }

  /** The text of a unary node: its line, the operand's subtree, the edge. */
  lemma RenderUnary(op: string, a: Expr, first: nat, show: Num -> string)
    ensures NodeText(UnaryOp(op, a), first, show)
         == LineText(Node(first, "Unär: " + op, None)) + NodeText(a, first + 1, show)
            + LineText(Edge(first, first + 1, "operand"))
  {
    UnaryShape(op, a, first, show);
    RenderLineBlockLine(Node(first, "Unär: " + op, None), Lines(a, first + 1, show), Edge(first, first + 1, "operand"));
  }

  /** A line, a block and a line render piece by piece. */
  lemma RenderLineBlockLine(node: DotLine, ls: seq<DotLine>, edge: DotLine)
    ensures Render([node] + ls + [edge]) == LineText(node) + Render(ls) + LineText(edge)
  {
    calc {
      Render([node] + ls + [edge]);
      { RenderConcat([node] + ls, [edge]); }
      Render([node] + ls) + Render([edge]);
      { RenderConcat([node], ls); }
      Render([node]) + Render(ls) + Render([edge]);
      { RenderOne(node); }
      LineText(node) + Render(ls) + Render([edge]);
      { RenderOne(edge); }
      LineText(node) + Render(ls) + LineText(edge);
    }
  }

  /** The text of a call node: its line, then the argument block. */
  lemma RenderCall(f: string, args: seq<Expr>, first: nat, show: Num -> string)
    ensures NodeText(FunctionCall(f, args), first, show)
         == LineText(Node(first, "Funktion: " + f, Some("lightpink"))) + ArgText(first, args, 0, first + 1, show)
  {
    CallShape(f, args, first, show);
    RenderLineBlock(Node(first, "Funktion: " + f, Some("lightpink")), ArgLines(first, args, 0, first + 1, show));
  }

  /** A line and a block render piece by piece. */
  lemma RenderLineBlock(node: DotLine, ls: seq<DotLine>)
    ensures Render([node] + ls) == LineText(node) + Render(ls)
  {
    RenderConcat([node], ls);
    RenderOne(node);
  }

  /** The text of the argument block from argument i: that subtree, its edge, the rest. */
  lemma RenderArgument(parent: nat, args: seq<Expr>, i: nat, next: nat, show: Num -> string, caption: string, after: nat)
    requires i < |args| && caption == "arg" + NatToString(i) && after == next + Size(args[i])
    ensures ArgText(parent, args[i..], i, next, show)
         == NodeText(args[i], next, show) + LineText(Edge(parent, next, caption)) + ArgText(parent, args[i + 1..], i + 1, after, show)
  {
    ArgumentShapeAt(parent, args, i, next, show, caption, after);
    RenderUnfold(ArgText(parent, args[i..], i, next, show), ArgLines(parent, args[i..], i, next, show),
                 Lines(args[i], next, show), Edge(parent, next, caption), ArgLines(parent, args[i + 1..], i + 1, after, show),
                 NodeText(args[i], next, show), ArgText(parent, args[i + 1..], i + 1, after, show));
  }

  /** The argument block from argument i, by its parts. */
  lemma ArgumentShapeAt(parent: nat, args: seq<Expr>, i: nat, next: nat, show: Num -> string, caption: string, after: nat)
    requires i < |args| && caption == "arg" + NatToString(i) && after == next + Size(args[i])
    ensures ArgLines(parent, args[i..], i, next, show)
         == Lines(args[i], next, show) + [Edge(parent, next, caption)] + ArgLines(parent, args[i + 1..], i + 1, after, show)
  {
    var tail := args[i..];
    assert tail[0] == args[i] && tail[1..] == args[i + 1..];
    ArgumentShape(parent, tail, i, next, show, caption, after);
  }

  /** A text rendered from a block, a line and a block, by the texts of the parts. */
  lemma RenderUnfold(whole: string, lines: seq<DotLine>, sub: seq<DotLine>, edge: DotLine, rest: seq<DotLine>, a: string, c: string)
    requires whole == Render(lines) && lines == sub + [edge] + rest
    requires a == Render(sub) && c == Render(rest)
    ensures whole == a + LineText(edge) + c
  {
    RenderBlockLineBlock(sub, edge, rest);
  }

  /** A block, a line and a block render piece by piece. */
  lemma RenderBlockLineBlock(sub: seq<DotLine>, edge: DotLine, rest: seq<DotLine>)
    ensures Render(sub + [edge] + rest) == Render(sub) + LineText(edge) + Render(rest)
  {
    calc {
      Render(sub + [edge] + rest);
      { RenderConcat(sub + [edge], rest); }
      Render(sub + [edge]) + Render(rest);
      { RenderConcat(sub, [edge]); }
      Render(sub) + Render([edge]) + Render(rest);
      { RenderOne(edge); }
      Render(sub) + LineText(edge) + Render(rest);
    }
  }

  /*
   * The steps of the serialiser below, stated over plain strings: the text
   * after each append, and how the appended pieces regroup into the text of
   * a node. Keeping the regrouping here keeps the method's own proof to
   * matching facts.
   */

  lemma Regroup3(a: string, b: string, c: string)
    ensures a + (b + c) == a + b + c
  {
  }

  lemma AppendChain5(c0: string, c1: string, c2: string, c3: string, c4: string, c5: string,
                     a: string, b: string, c: string, d: string, e: string, w: string)
    requires c1 == c0 + a && c2 == c1 + b && c3 == c2 + c && c4 == c3 + d && c5 == c4 + e
    requires w == a + b + c + d + e
    ensures c5 == c0 + w
  {
    calc {
      c0 + w;
      c0 + (a + b + c + d + e);
      { Regroup3(c0, a + b + c + d, e); Regroup3(c0, a + b + c, d); Regroup3(c0, a + b, c); Regroup3(c0, a, b); }
      c0 + a + b + c + d + e;
    }
  }

  lemma AppendChain3(c0: string, c1: string, c2: string, c3: string, a: string, b: string, c: string, w: string)
    requires c1 == c0 + a && c2 == c1 + b && c3 == c2 + c
    requires w == a + b + c
    ensures c3 == c0 + w
  {
    calc {
      c0 + w;
      c0 + (a + b + c);
      { Regroup3(c0, a + b, c); Regroup3(c0, a, b); }
      c0 + a + b + c;
    }
  }

  /** The appends of a binary node, after c0, give c0 followed by the node's text. */
  lemma BinaryAppends(c0: string, c1: string, c2: string, c3: string, c4: string, c5: string,
                      op: string, l: Expr, r: Expr, first: nat, leftId: nat, rightId: nat, show: Num -> string)
    requires leftId == first + 1 && rightId == first + 1 + Size(l)
    requires c1 == c0 + LineText(Node(first, "Operator: " + op, None))
    requires c2 == c1 + NodeText(l, leftId, show)
    requires c3 == c2 + NodeText(r, rightId, show)
    requires c4 == c3 + LineText(Edge(first, leftId, "links"))
    requires c5 == c4 + LineText(Edge(first, rightId, "rechts"))
    ensures c5 == c0 + NodeText(BinaryOp(op, l, r), first, show)
  {
    RenderBinary(op, l, r, first, rightId, show);
    AppendChain5(c0, c1, c2, c3, c4, c5,
                 LineText(Node(first, "Operator: " + op, None)), NodeText(l, leftId, show),
                 NodeText(r, rightId, show), LineText(Edge(first, leftId, "links")),
                 LineText(Edge(first, rightId, "rechts")), NodeText(BinaryOp(op, l, r), first, show));
  }

  /** The appends of a unary node, after c0, give c0 followed by the node's text. */
  lemma UnaryAppends(c0: string, c1: string, c2: string, c3: string,
                     op: string, a: Expr, first: nat, operandId: nat, show: Num -> string)
    requires operandId == first + 1
    requires c1 == c0 + LineText(Node(first, "Unär: " + op, None))
    requires c2 == c1 + NodeText(a, operandId, show)
    requires c3 == c2 + LineText(Edge(first, operandId, "operand"))
    ensures c3 == c0 + NodeText(UnaryOp(op, a), first, show)
  {
    RenderUnary(op, a, first, show);
    AppendChain3(c0, c1, c2, c3,
                 LineText(Node(first, "Unär: " + op, None)), NodeText(a, operandId, show),
                 LineText(Edge(first, operandId, "operand")), NodeText(UnaryOp(op, a), first, show));
  }

  /** A leaf is one line. */
  lemma LeafAppend(c0: string, c1: string, line: DotLine, e: Expr, first: nat, show: Num -> string)
    requires e.Constant? || e.Variable?
    requires line == (if e.Constant? then Node(first, "Konstante: " + show(e.value), Some("lightgreen"))
                      else Node(first, "Variable: " + e.name, Some("lightyellow")))
    requires c1 == c0 + LineText(line)
    ensures c1 == c0 + NodeText(e, first, show)
  {
    RenderOne(line);
  }

  /** After the line of a call node, the argument block completes its text. */
  lemma CallAppend(c0: string, c1: string, f: string, args: seq<Expr>, first: nat, show: Num -> string)
    requires c1 == c0 + LineText(Node(first, "Funktion: " + f, Some("lightpink")))
    ensures c1 + ArgText(first, args[0..], 0, first + 1, show)
         == c0 + NodeText(FunctionCall(f, args), first, show)
  {
    RenderCall(f, args, first, show);
    assert args[0..] == args;
    Regroup3(c0, LineText(Node(first, "Funktion: " + f, Some("lightpink"))), ArgText(first, args, 0, first + 1, show));
  }

  /** One round of the argument loop keeps "text so far, then the rest of the block" equal to target. */
  lemma ArgumentAppends(target: string, c0: string, c1: string, c2: string,
                        parent: nat, args: seq<Expr>, i: nat, next: nat, argId: nat, after: nat, show: Num -> string)
    requires i < |args|
    requires c0 + ArgText(parent, args[i..], i, next, show) == target
    requires argId == next && after == next + Size(args[i])
    requires c1 == c0 + NodeText(args[i], argId, show)
    requires c2 == c1 + LineText(Edge(parent, argId, "arg" + NatToString(i)))
    ensures c2 + ArgText(parent, args[i + 1..], i + 1, after, show) == target
  {
    RenderArgument(parent, args, i, next, show, "arg" + NatToString(i), after);
    AppendStep(c0, c1, c2, target,
               NodeText(args[i], argId, show), LineText(Edge(parent, argId, "arg" + NatToString(i))),
               ArgText(parent, args[i + 1..], i + 1, after, show),
               ArgText(parent, args[i..], i, next, show));
  }

  /** Appending the first two of three pieces of the rest leaves the third as the rest. */
  lemma AppendStep(c0: string, c1: string, c2: string, target: string, a: string, b: string, rest: string, whole: string)
    requires c0 + whole == target && whole == a + b + rest
    requires c1 == c0 + a && c2 == c1 + b
    ensures c2 + rest == target
  {
    calc {
      c2 + rest;
      c0 + a + b + rest;
      { Regroup3(c0 + a, b, rest); }
      (c0 + a) + (b + rest);
      { Regroup3(c0, a, b + rest); }
      c0 + (a + (b + rest));
      { Regroup3(a, b, rest); }
      c0 + whole;
    }
  }

  /** The block after the last argument is empty. */
  lemma ArgumentsDone(c: string, target: string, parent: nat, args: seq<Expr>, k: nat, next: nat, show: Num -> string)
    requires c + ArgText(parent, args[|args|..], k, next, show) == target
    ensures c == target
  {
    assert args[|args|..] == [];
  }

  lemma SizeAllStep(args: seq<Expr>, i: nat)
    requires i < |args|
    ensures SizeAll(args[i..]) == Size(args[i]) + SizeAll(args[i + 1..])
  {
    assert args[i..][0] == args[i] && args[i..][1..] == args[i + 1..];
  }

  /**
   * erstelleASTKnoten: returns the id the counter held, advances the counter
   * by the number of nodes of e, and appends exactly the lines of e.
   */
  method WriteNode(e: Expr, idCounter: array<int>, sb: StringBuilder, show: Num -> string) returns (currentId: int)
    requires idCounter.Length == 1 && idCounter[0] >= 0
    modifies idCounter, sb
    ensures currentId == old(idCounter[0])
    ensures idCounter[0] == old(idCounter[0]) + Size(e)
    ensures sb.contents == old(sb.contents) + NodeText(e, currentId, show)
    decreases e
  {
    ghost var c0 := sb.contents;
    currentId := idCounter[0];
    idCounter[0] := idCounter[0] + 1;
    match e
    case BinaryOp(op, l, r) =>
      var node := LineText(Node(currentId, "Operator: " + op, None));
      sb.Append(node);
      ghost var c1 := sb.contents;
      var leftId := WriteNode(l, idCounter, sb, show);
      ghost var c2 := sb.contents;
      var rightId := WriteNode(r, idCounter, sb, show);
      ghost var c3 := sb.contents;
      var toLeft := LineText(Edge(currentId, leftId, "links"));
      var toRight := LineText(Edge(currentId, rightId, "rechts"));
      sb.Append(toLeft);
      ghost var c4 := sb.contents;
      sb.Append(toRight);
      BinaryAppends(c0, c1, c2, c3, c4, sb.contents, op, l, r, currentId, leftId, rightId, show);
    case UnaryOp(op, a) =>
      var node := LineText(Node(currentId, "Unär: " + op, None));
      sb.Append(node);
      ghost var c1 := sb.contents;
      var operandId := WriteNode(a, idCounter, sb, show);
      ghost var c2 := sb.contents;
      var edge := LineText(Edge(currentId, operandId, "operand"));
      sb.Append(edge);
      UnaryAppends(c0, c1, c2, sb.contents, op, a, currentId, operandId, show);
    case Constant(n) =>
      sb.Append(LineText(Node(currentId, "Konstante: " + show(n), Some("lightgreen"))));
      LeafAppend(c0, sb.contents, Node(currentId, "Konstante: " + show(n), Some("lightgreen")), e, currentId, show);
    case Variable(x) =>
      sb.Append(LineText(Node(currentId, "Variable: " + x, Some("lightyellow"))));
      LeafAppend(c0, sb.contents, Node(currentId, "Variable: " + x, Some("lightyellow")), e, currentId, show);
    case FunctionCall(f, args) =>
      var node := LineText(Node(currentId, "Funktion: " + f, Some("lightpink")));
      sb.Append(node);
      ghost var target := c0 + NodeText(e, currentId, show);
      CallAppend(c0, sb.contents, f, args, currentId, show);
      assert args[0..] == args;
      for i := 0 to |args|
        invariant idCounter[0] > currentId
        invariant idCounter[0] + SizeAll(args[i..]) == currentId + Size(e)
        invariant sb.contents + ArgText(currentId, args[i..], i, idCounter[0], show) == target
      {
        SizeAllStep(args, i);
        assert args[i] in args;
        ghost var before, next := sb.contents, idCounter[0];
        var argId := WriteNode(args[i], idCounter, sb, show);
        ghost var c1 := sb.contents;
        var edge := LineText(Edge(currentId, argId, "arg" + NatToString(i)));
        sb.Append(edge);
        ArgumentAppends(target, before, c1, sb.contents, currentId, args, i, next, argId, idCounter[0], show);
      }
      ArgumentsDone(sb.contents, target, currentId, args, |args|, idCounter[0], show);
      assert args[|args|..] == [];
  }

  /** erstelleASTalsDot: header, default node style, the lines of the tree from id 0, closing brace. */
  method ToDot(e: Expr, show: Num -> string) returns (dot: string)
    ensures dot == Dot(e, show)
  {
    var sb := new StringBuilder(DotHeader);
    sb.Append(DefaultNode);
    var idCounter := new int[1];
    idCounter[0] := 0;
    var rootId := WriteNode(e, idCounter, sb, show);
    sb.Append("}");
    dot := sb.contents;
  }

  // ---------------------------------------------------------------------------
  // The shape of the graph

  /** The ids of the node lines, in output order. */
  function NodeIds(lines: seq<DotLine>): seq<int> {
    if lines == [] then [] else (if lines[0].Node? then [lines[0].id] else []) + NodeIds(lines[1..])
  }

  /** The targets of the edge lines, in output order. */
  function Targets(lines: seq<DotLine>): seq<int> {
    if lines == [] then [] else (if lines[0].Edge? then [lines[0].to] else []) + Targets(lines[1..])
  }

  /** Every edge leads from an id in [lo, hi) to a larger id below hi. */
  predicate EdgesWithin(lines: seq<DotLine>, lo: nat, hi: nat) {
    forall k :: 0 <= k < |lines| && lines[k].Edge? ==> lo <= lines[k].from < lines[k].to < hi
  }

  /** The ids first, first + 1, ..., first + n - 1. */
  function Ids(first: nat, n: nat): seq<int>
    decreases n
  {
    if n == 0 then [] else [first] + Ids(first + 1, n - 1)
  }

  /**
   * The split points of the two lemmas below are parameters, so that a caller
   * names them by the same terms as the rest of its proof.
   */
  lemma IdsCons(first: nat, n: nat, next: nat, rest: nat)
    requires n >= 1 && next == first + 1 && rest == n - 1
    ensures Ids(first, n) == [first] + Ids(next, rest)
  {
  }

  lemma {:induction false} IdsSplit(first: nat, a: nat, b: nat, mid: nat, total: nat)
    requires mid == first + a && total == a + b
    ensures Ids(first, total) == Ids(first, a) + Ids(mid, b)
    decreases a
  {
    if a == 0 {
      assert Ids(first, a) == [];
    } else {
      IdsCons(first, total, first + 1, total - 1);
      IdsCons(first, a, first + 1, a - 1);
      IdsSplit(first + 1, a - 1, b, mid, total - 1);
      Assoc([first], Ids(first + 1, a - 1), Ids(mid, b));
    }
  }

  lemma {:induction false} NodeIdsConcat(a: seq<DotLine>, b: seq<DotLine>)
    ensures NodeIds(a + b) == NodeIds(a) + NodeIds(b)
    decreases |a|
  {
    if a == [] {
      assert a + b == b;
    } else {
      assert (a + b)[0] == a[0] && (a + b)[1..] == a[1..] + b;
      NodeIdsConcat(a[1..], b);
    }
  }

  lemma {:induction false} TargetsConcat(a: seq<DotLine>, b: seq<DotLine>)
    ensures Targets(a + b) == Targets(a) + Targets(b)
    decreases |a|
  {
    if a == [] {
      assert a + b == b;
    } else {
      assert (a + b)[0] == a[0] && (a + b)[1..] == a[1..] + b;
      TargetsConcat(a[1..], b);
    }
  }

  lemma EdgesWithinConcat(a: seq<DotLine>, b: seq<DotLine>, lo: nat, hi: nat)
    requires EdgesWithin(a, lo, hi) && EdgesWithin(b, lo, hi)
    ensures EdgesWithin(a + b, lo, hi)
  {
    forall k | 0 <= k < |a + b| && (a + b)[k].Edge?
      ensures lo <= (a + b)[k].from < (a + b)[k].to < hi
    {
      if k < |a| {
        assert (a + b)[k] == a[k];
      } else {
        assert (a + b)[k] == b[k - |a|];
      }
    }
  }

  lemma EdgesWithinWiden(lines: seq<DotLine>, lo: nat, hi: nat, lo': nat, hi': nat)
    requires EdgesWithin(lines, lo, hi) && lo' <= lo && hi <= hi'
    ensures EdgesWithin(lines, lo', hi')
  {
  }

  /*
   * The cases of the numbering and target lemmas below, over the lines of a
   * node given by their parts: the node line, the subtrees' lines, the edges.
   */

  lemma NodeIdsOne(line: DotLine)
    ensures NodeIds([line]) == if line.Node? then [line.id] else []
  {
    assert [line][1..] == [];
  }

  lemma TargetsOne(line: DotLine)
    ensures Targets([line]) == if line.Edge? then [line.to] else []
  {
    assert [line][1..] == [];
  }

  // The lines of each kind of node, by their parts.

  lemma BinaryShape(op: string, l: Expr, r: Expr, first: nat, mid: nat, show: Num -> string)
    requires mid == first + 1 + Size(l)
    ensures Lines(BinaryOp(op, l, r), first, show)
         == [Node(first, "Operator: " + op, None)] + Lines(l, first + 1, show) + Lines(r, mid, show)
            + [Edge(first, first + 1, "links"), Edge(first, mid, "rechts")]
  {
  }

  lemma UnaryShape(op: string, a: Expr, first: nat, show: Num -> string)
    ensures Lines(UnaryOp(op, a), first, show)
         == [Node(first, "Unär: " + op, None)] + Lines(a, first + 1, show) + [Edge(first, first + 1, "operand")]
  {
  }

  lemma CallShape(f: string, args: seq<Expr>, first: nat, show: Num -> string)
    ensures Lines(FunctionCall(f, args), first, show)
         == [Node(first, "Funktion: " + f, Some("lightpink"))] + ArgLines(first, args, 0, first + 1, show)
  {
  }

  lemma ArgumentShape(parent: nat, args: seq<Expr>, k: nat, next: nat, show: Num -> string, caption: string, after: nat)
    requires args != [] && caption == "arg" + NatToString(k) && after == next + Size(args[0])
    ensures ArgLines(parent, args, k, next, show)
         == Lines(args[0], next, show) + [Edge(parent, next, caption)] + ArgLines(parent, args[1..], k + 1, after, show)
  {
  }

  lemma NodeIdsNode(n: DotLine, rest: seq<DotLine>)
    requires n.Node?
    ensures NodeIds([n] + rest) == [n.id] + NodeIds(rest)
  {
    NodeIdsConcat([n], rest);
    NodeIdsOne(n);
  }

  lemma NodeIdsEdge(init: seq<DotLine>, edge: DotLine)
    requires edge.Edge?
    ensures NodeIds(init + [edge]) == NodeIds(init)
  {
    calc {
      NodeIds(init + [edge]);
      { NodeIdsConcat(init, [edge]); }
      NodeIds(init) + NodeIds([edge]);
      { NodeIdsOne(edge); }
      NodeIds(init) + [];
      NodeIds(init);
    }
  }

  lemma TargetsNode(n: DotLine, rest: seq<DotLine>)
    requires n.Node?
    ensures Targets([n] + rest) == Targets(rest)
  {
    calc {
      Targets([n] + rest);
      { TargetsConcat([n], rest); }
      Targets([n]) + Targets(rest);
      { TargetsOne(n); }
      [] + Targets(rest);
      Targets(rest);
    }
  }

  lemma TargetsEdge(init: seq<DotLine>, edge: DotLine)
    requires edge.Edge?
    ensures Targets(init + [edge]) == Targets(init) + [edge.to]
  {
    TargetsConcat(init, [edge]);
    TargetsOne(edge);
  }

  /*
   * The numbering and the targets of a node from those of its parts: the
   * node line n, the subtrees' lines, the edge lines. Subtree sizes and the
   * ids they start at are parameters.
   */

  lemma BinaryIdsParts(whole: seq<DotLine>, n: DotLine, ls: seq<DotLine>, rs: seq<DotLine>, e1: DotLine, e2: DotLine,
                       first: nat, a: nat, b: nat, mid: nat, total: nat)
    requires whole == [n] + ls + rs + [e1, e2] && n.Node? && n.id == first && e1.Edge? && e2.Edge?
    requires mid == first + 1 + a && total == 1 + a + b
    requires NodeIds(ls) == Ids(first + 1, a) && NodeIds(rs) == Ids(mid, b)
    ensures NodeIds(whole) == Ids(first, total)
  {
    calc {
      NodeIds(whole);
      { assert whole == [n] + ls + rs + [e1] + [e2]; }
      NodeIds([n] + ls + rs + [e1] + [e2]);
      { NodeIdsEdge([n] + ls + rs + [e1], e2); }
      NodeIds([n] + ls + rs + [e1]);
      { NodeIdsEdge([n] + ls + rs, e1); }
      NodeIds([n] + ls + rs);
      { Assoc([n], ls, rs); }
      NodeIds([n] + (ls + rs));
      { NodeIdsNode(n, ls + rs); }
      [first] + NodeIds(ls + rs);
      { NodeIdsConcat(ls, rs); }
      [first] + (NodeIds(ls) + NodeIds(rs));
      [first] + (Ids(first + 1, a) + NodeIds(rs));
      [first] + (Ids(first + 1, a) + Ids(mid, b));
      { IdsSplit(first + 1, a, b, mid, a + b); }
      [first] + Ids(first + 1, a + b);
      { IdsCons(first, total, first + 1, a + b); }
      Ids(first, total);
    }
  }

  lemma UnaryIdsParts(whole: seq<DotLine>, n: DotLine, la: seq<DotLine>, e1: DotLine, first: nat, a: nat, total: nat)
    requires whole == [n] + la + [e1] && n.Node? && n.id == first && e1.Edge? && total == 1 + a
    requires NodeIds(la) == Ids(first + 1, a)
    ensures NodeIds(whole) == Ids(first, total)
  {
    calc {
      NodeIds(whole);
      { NodeIdsEdge([n] + la, e1); }
      NodeIds([n] + la);
      { NodeIdsNode(n, la); }
      [first] + NodeIds(la);
      [first] + Ids(first + 1, a);
      { IdsCons(first, total, first + 1, a); }
      Ids(first, total);
    }
  }

  lemma CallIdsParts(whole: seq<DotLine>, n: DotLine, block: seq<DotLine>, first: nat, a: nat, total: nat)
    requires whole == [n] + block && n.Node? && n.id == first && total == 1 + a
    requires NodeIds(block) == Ids(first + 1, a)
    ensures NodeIds(whole) == Ids(first, total)
  {
    calc {
      NodeIds(whole);
      { NodeIdsNode(n, block); }
      [first] + NodeIds(block);
      [first] + Ids(first + 1, a);
      { IdsCons(first, total, first + 1, a); }
      Ids(first, total);
    }
  }

  lemma ArgumentIdsParts(whole: seq<DotLine>, sub: seq<DotLine>, edge: DotLine, rest: seq<DotLine>,
                         next: nat, a: nat, b: nat, mid: nat, total: nat)
    requires whole == sub + [edge] + rest && edge.Edge? && mid == next + a && total == a + b
    requires NodeIds(sub) == Ids(next, a) && NodeIds(rest) == Ids(mid, b)
    ensures NodeIds(whole) == Ids(next, total)
  {
    calc {
      NodeIds(whole);
      { NodeIdsConcat(sub + [edge], rest); }
      NodeIds(sub + [edge]) + NodeIds(rest);
      { NodeIdsEdge(sub, edge); }
      NodeIds(sub) + NodeIds(rest);
      Ids(next, a) + NodeIds(rest);
      Ids(next, a) + Ids(mid, b);
      { IdsSplit(next, a, b, mid, total); }
      Ids(next, total);
    }
  }

  lemma BinaryTargetsParts(whole: seq<DotLine>, n: DotLine, ls: seq<DotLine>, rs: seq<DotLine>, e1: DotLine, e2: DotLine,
                           children: seq<int>, tl: seq<int>, tr: seq<int>)
    requires whole == [n] + ls + rs + [e1, e2] && n.Node? && e1.Edge? && e2.Edge?
    requires Targets(ls) == tl && Targets(rs) == tr && children == tl + tr + [e1.to, e2.to]
    ensures Targets(whole) == children
  {
    calc {
      Targets(whole);
      { assert whole == [n] + ls + rs + [e1] + [e2]; }
      Targets([n] + ls + rs + [e1] + [e2]);
      { TargetsEdge([n] + ls + rs + [e1], e2); }
      Targets([n] + ls + rs + [e1]) + [e2.to];
      { TargetsEdge([n] + ls + rs, e1); }
      Targets([n] + ls + rs) + [e1.to] + [e2.to];
      { Assoc([n], ls, rs); }
      Targets([n] + (ls + rs)) + [e1.to] + [e2.to];
      { TargetsNode(n, ls + rs); }
      Targets(ls + rs) + [e1.to] + [e2.to];
      { TargetsConcat(ls, rs); }
      tl + tr + [e1.to] + [e2.to];
      { assert [e1.to] + [e2.to] == [e1.to, e2.to]; Assoc(tl + tr, [e1.to], [e2.to]); }
      children;
    }
  }

  lemma UnaryTargetsParts(whole: seq<DotLine>, n: DotLine, la: seq<DotLine>, e1: DotLine, children: seq<int>, ta: seq<int>)
    requires whole == [n] + la + [e1] && n.Node? && e1.Edge?
    requires Targets(la) == ta && children == ta + [e1.to]
    ensures Targets(whole) == children
  {
    calc {
      Targets(whole);
      { TargetsEdge([n] + la, e1); }
      Targets([n] + la) + [e1.to];
      { TargetsNode(n, la); }
      Targets(la) + [e1.to];
    }
  }

  lemma CallTargetsParts(whole: seq<DotLine>, n: DotLine, block: seq<DotLine>, children: seq<int>)
    requires whole == [n] + block && n.Node? && Targets(block) == children
    ensures Targets(whole) == children
  {
    TargetsNode(n, block);
  }

  lemma ArgumentTargetsParts(whole: seq<DotLine>, sub: seq<DotLine>, edge: DotLine, rest: seq<DotLine>,
                             children: seq<int>, ts: seq<int>, tr: seq<int>)
    requires whole == sub + [edge] + rest && edge.Edge?
    requires Targets(sub) == ts && Targets(rest) == tr && children == ts + [edge.to] + tr
    ensures Targets(whole) == children
  {
    calc {
      Targets(whole);
      { TargetsConcat(sub + [edge], rest); }
      Targets(sub + [edge]) + Targets(rest);
      { TargetsEdge(sub, edge); }
      Targets(sub) + [edge.to] + Targets(rest);
    }
  }

  /** Node ids are handed out in output order, consecutively from first: a pre-order numbering. */
  lemma {:induction false} LinesIds(e: Expr, first: nat, show: Num -> string)
    ensures NodeIds(Lines(e, first, show)) == Ids(first, Size(e))
    decreases e
  {
    match e
    case BinaryOp(op, l, r) =>
      var mid := first + 1 + Size(l);
      LinesIds(l, first + 1, show);
      LinesIds(r, mid, show);
      BinaryIds(op, l, r, first, mid, show);
    case UnaryOp(op, a) =>
      LinesIds(a, first + 1, show);
      UnaryIds(op, a, first, show);
    case Constant(_) =>
      NodeIdsOne(Lines(e, first, show)[0]);
      IdsCons(first, 1, first + 1, 0);
    case Variable(_) =>
      NodeIdsOne(Lines(e, first, show)[0]);
      IdsCons(first, 1, first + 1, 0);
    case FunctionCall(f, args) =>
      ArgLinesIds(first, args, 0, first + 1, show);
      CallIds(f, args, first, show);
  }

  lemma BinaryIds(op: string, l: Expr, r: Expr, first: nat, mid: nat, show: Num -> string)
    requires mid == first + 1 + Size(l)
    requires NodeIds(Lines(l, first + 1, show)) == Ids(first + 1, Size(l))
    requires NodeIds(Lines(r, mid, show)) == Ids(mid, Size(r))
    ensures NodeIds(Lines(BinaryOp(op, l, r), first, show)) == Ids(first, Size(BinaryOp(op, l, r)))
  {
    BinaryShape(op, l, r, first, mid, show);
    BinaryIdsParts(Lines(BinaryOp(op, l, r), first, show), Node(first, "Operator: " + op, None),
                   Lines(l, first + 1, show), Lines(r, mid, show),
                   Edge(first, first + 1, "links"), Edge(first, mid, "rechts"),
                   first, Size(l), Size(r), mid, Size(BinaryOp(op, l, r)));
  }

  lemma UnaryIds(op: string, a: Expr, first: nat, show: Num -> string)
    requires NodeIds(Lines(a, first + 1, show)) == Ids(first + 1, Size(a))
    ensures NodeIds(Lines(UnaryOp(op, a), first, show)) == Ids(first, Size(UnaryOp(op, a)))
  {
    UnaryShape(op, a, first, show);
    UnaryIdsParts(Lines(UnaryOp(op, a), first, show), Node(first, "Unär: " + op, None), Lines(a, first + 1, show),
                  Edge(first, first + 1, "operand"), first, Size(a), Size(UnaryOp(op, a)));
  }

  lemma CallIds(f: string, args: seq<Expr>, first: nat, show: Num -> string)
    requires NodeIds(ArgLines(first, args, 0, first + 1, show)) == Ids(first + 1, SizeAll(args))
    ensures NodeIds(Lines(FunctionCall(f, args), first, show)) == Ids(first, Size(FunctionCall(f, args)))
  {
    CallShape(f, args, first, show);
    CallIdsParts(Lines(FunctionCall(f, args), first, show), Node(first, "Funktion: " + f, Some("lightpink")),
                 ArgLines(first, args, 0, first + 1, show), first, SizeAll(args), Size(FunctionCall(f, args)));
  }

  lemma {:induction false} ArgLinesIds(parent: nat, args: seq<Expr>, k: nat, next: nat, show: Num -> string)
    ensures NodeIds(ArgLines(parent, args, k, next, show)) == Ids(next, SizeAll(args))
    decreases args
  {
    if args != [] {
      var head, tail, mid := args[0], args[1..], next + Size(args[0]);
      LinesIds(head, next, show);
      ArgLinesIds(parent, tail, k + 1, mid, show);
      ArgumentShape(parent, args, k, next, show, "arg" + NatToString(k), mid);
      ArgumentIdsParts(ArgLines(parent, args, k, next, show), Lines(head, next, show),
                       Edge(parent, next, "arg" + NatToString(k)), ArgLines(parent, tail, k + 1, mid, show),
                       next, Size(head), SizeAll(tail), mid, SizeAll(args));
    }
  }

  /**
   * The ids the edges of e lead to, in output order: those of each subtree,
   * then its own edges' targets (the roots of its subtrees).
   */
  function ChildIds(e: Expr, first: nat): seq<int>
    decreases e
  {
    match e
    case BinaryOp(_, l, r) =>
      ChildIds(l, first + 1) + ChildIds(r, first + 1 + Size(l)) + [first + 1, first + 1 + Size(l)]
    case UnaryOp(_, a) => ChildIds(a, first + 1) + [first + 1]
    case Constant(_) => []
    case Variable(_) => []
    case FunctionCall(_, args) => ArgChildIds(args, first + 1)
  }

  function ArgChildIds(args: seq<Expr>, next: nat): seq<int>
    decreases args
  {
    if args == [] then []
    else ChildIds(args[0], next) + [next] + ArgChildIds(args[1..], next + Size(args[0]))
  }

  /** The targets of the lines of e are its child ids. */
  lemma {:induction false} LinesTargets(e: Expr, first: nat, show: Num -> string)
    ensures Targets(Lines(e, first, show)) == ChildIds(e, first)
    decreases e
  {
    match e
    case BinaryOp(op, l, r) =>
      LinesTargets(l, first + 1, show);
      LinesTargets(r, first + 1 + Size(l), show);
      BinaryShape(op, l, r, first, first + 1 + Size(l), show);
      BinaryTargetsParts(Lines(e, first, show), Node(first, "Operator: " + op, None),
                         Lines(l, first + 1, show), Lines(r, first + 1 + Size(l), show),
                         Edge(first, first + 1, "links"), Edge(first, first + 1 + Size(l), "rechts"),
                         ChildIds(e, first), ChildIds(l, first + 1), ChildIds(r, first + 1 + Size(l)));
    case UnaryOp(op, a) =>
      LinesTargets(a, first + 1, show);
      UnaryShape(op, a, first, show);
      UnaryTargetsParts(Lines(e, first, show), Node(first, "Unär: " + op, None), Lines(a, first + 1, show),
                        Edge(first, first + 1, "operand"), ChildIds(e, first), ChildIds(a, first + 1));
    case Constant(_) =>
      TargetsOne(Lines(e, first, show)[0]);
    case Variable(_) =>
      TargetsOne(Lines(e, first, show)[0]);
    case FunctionCall(f, args) =>
      ArgLinesTargets(first, args, 0, first + 1, show);
      CallShape(f, args, first, show);
      CallTargetsParts(Lines(e, first, show), Node(first, "Funktion: " + f, Some("lightpink")),
                       ArgLines(first, args, 0, first + 1, show), ChildIds(e, first));
  }

  lemma {:induction false} ArgLinesTargets(parent: nat, args: seq<Expr>, k: nat, next: nat, show: Num -> string)
    ensures Targets(ArgLines(parent, args, k, next, show)) == ArgChildIds(args, next)
    decreases args
  {
    if args != [] {
      var head, tail, mid := args[0], args[1..], next + Size(args[0]);
      LinesTargets(head, next, show);
      ArgLinesTargets(parent, tail, k + 1, mid, show);
      ArgumentShape(parent, args, k, next, show, "arg" + NatToString(k), mid);
      ArgChildShape(args, next);
      ArgumentTargetsParts(ArgLines(parent, args, k, next, show), Lines(head, next, show),
                           Edge(parent, next, "arg" + NatToString(k)), ArgLines(parent, tail, k + 1, mid, show),
                           ArgChildIds(args, next), ChildIds(head, next), ArgChildIds(tail, mid));
    }
  }

  lemma BinaryChildShape(op: string, l: Expr, r: Expr, first: nat)
    ensures ChildIds(BinaryOp(op, l, r), first)
         == ChildIds(l, first + 1) + ChildIds(r, first + 1 + Size(l)) + [first + 1, first + 1 + Size(l)]
    ensures Size(BinaryOp(op, l, r)) == 1 + Size(l) + Size(r)
  {
  }

  lemma UnaryChildShape(op: string, a: Expr, first: nat)
    ensures ChildIds(UnaryOp(op, a), first) == ChildIds(a, first + 1) + [first + 1]
    ensures Size(UnaryOp(op, a)) == 1 + Size(a)
  {
  }

  lemma CallChildShape(f: string, args: seq<Expr>, first: nat)
    ensures ChildIds(FunctionCall(f, args), first) == ArgChildIds(args, first + 1)
    ensures Size(FunctionCall(f, args)) == 1 + SizeAll(args)
  {
  }

  lemma ArgChildShape(args: seq<Expr>, next: nat)
    requires args != []
    ensures ArgChildIds(args, next) == ChildIds(args[0], next) + [next] + ArgChildIds(args[1..], next + Size(args[0]))
    ensures SizeAll(args) == Size(args[0]) + SizeAll(args[1..])
  {
  }

  // Every node of e but its root is a child of exactly one node.

  /** How often x occurs in s. */
  function Count(s: seq<int>, x: int): nat {
    if s == [] then 0 else (if s[0] == x then 1 else 0) + Count(s[1..], x)
  }

  lemma {:induction false} CountConcat(a: seq<int>, b: seq<int>, x: int)
    ensures Count(a + b, x) == Count(a, x) + Count(b, x)
    decreases |a|
  {
    if a == [] {
      assert a + b == b;
    } else {
      assert (a + b)[0] == a[0] && (a + b)[1..] == a[1..] + b;
      CountConcat(a[1..], b, x);
    }
  }

  lemma CountOne(y: int, x: int)
    ensures Count([y], x) == if y == x then 1 else 0
  {
    assert [y][1..] == [];
  }

  lemma BinaryCountParts(children: seq<int>, cl: seq<int>, cr: seq<int>,
                         first: nat, a: nat, b: nat, mid: nat, total: nat, x: int)
    requires children == cl + cr + [first + 1, mid]
    requires a >= 1 && b >= 1 && mid == first + 1 + a && total == 1 + a + b
    requires Count(cl, x) == (if first + 1 < x < first + 1 + a then 1 else 0)
    requires Count(cr, x) == (if mid < x < mid + b then 1 else 0)
    ensures Count(children, x) == (if first < x < first + total then 1 else 0)
  {
    calc {
      Count(children, x);
      Count(cl + cr + [first + 1, mid], x);
      { CountConcat(cl + cr, [first + 1, mid], x); }
      Count(cl + cr, x) + Count([first + 1, mid], x);
      { CountConcat(cl, cr, x); }
      Count(cl, x) + Count(cr, x) + Count([first + 1, mid], x);
      { CountPair(first + 1, mid, x); }
      Count(cl, x) + Count(cr, x) + (if first + 1 == x then 1 else 0) + (if mid == x then 1 else 0);
    }
  }

  lemma CountPair(y: int, z: int, x: int)
    ensures Count([y, z], x) == (if y == x then 1 else 0) + (if z == x then 1 else 0)
  {
    assert [y, z][1..] == [z];
    CountOne(z, x);
  }

  lemma UnaryCountParts(children: seq<int>, ca: seq<int>, first: nat, a: nat, total: nat, x: int)
    requires children == ca + [first + 1] && a >= 1 && total == 1 + a
    requires Count(ca, x) == (if first + 1 < x < first + 1 + a then 1 else 0)
    ensures Count(children, x) == (if first < x < first + total then 1 else 0)
  {
    calc {
      Count(children, x);
      Count(ca + [first + 1], x);
      { CountConcat(ca, [first + 1], x); }
      Count(ca, x) + Count([first + 1], x);
      { CountOne(first + 1, x); }
      Count(ca, x) + (if first + 1 == x then 1 else 0);
    }
  }

  lemma ArgumentCountParts(children: seq<int>, cs: seq<int>, cr: seq<int>,
                           next: nat, a: nat, b: nat, mid: nat, total: nat, x: int)
    requires children == cs + [next] + cr
    requires a >= 1 && mid == next + a && total == a + b
    requires Count(cs, x) == (if next < x < next + a then 1 else 0)
    requires Count(cr, x) == (if mid <= x < mid + b then 1 else 0)
    ensures Count(children, x) == (if next <= x < next + total then 1 else 0)
  {
    calc {
      Count(children, x);
      Count(cs + [next] + cr, x);
      { CountConcat(cs + [next], cr, x); }
      Count(cs + [next], x) + Count(cr, x);
      { CountConcat(cs, [next], x); }
      Count(cs, x) + Count([next], x) + Count(cr, x);
      { CountOne(next, x); }
      Count(cs, x) + (if next == x then 1 else 0) + Count(cr, x);
    }
  }

  /** Below the root of e, each id of e is the target of exactly one edge, and no other id is. */
  lemma {:induction false} ChildCount(e: Expr, first: nat, x: int)
    ensures Count(ChildIds(e, first), x) == (if first < x < first + Size(e) then 1 else 0)
    decreases e
  {
    match e
    case BinaryOp(op, l, r) =>
      ChildCount(l, first + 1, x);
      ChildCount(r, first + 1 + Size(l), x);
      BinaryChildShape(op, l, r, first);
      BinaryCountParts(ChildIds(BinaryOp(op, l, r), first), ChildIds(l, first + 1), ChildIds(r, first + 1 + Size(l)),
                       first, Size(l), Size(r), first + 1 + Size(l), Size(BinaryOp(op, l, r)), x);
    case UnaryOp(op, a) =>
      ChildCount(a, first + 1, x);
      UnaryChildShape(op, a, first);
      UnaryCountParts(ChildIds(UnaryOp(op, a), first), ChildIds(a, first + 1), first, Size(a), Size(UnaryOp(op, a)), x);
    case Constant(_) =>
    case Variable(_) =>
    case FunctionCall(f, args) =>
      ArgChildCount(args, first + 1, x);
      CallChildShape(f, args, first);
  }

  lemma {:induction false} ArgChildCount(args: seq<Expr>, next: nat, x: int)
    ensures Count(ArgChildIds(args, next), x) == (if next <= x < next + SizeAll(args) then 1 else 0)
    decreases args
  {
    if args != [] {
      var head, tail, mid := args[0], args[1..], next + Size(args[0]);
      ChildCount(head, next, x);
      ArgChildCount(tail, mid, x);
      ArgChildShape(args, next);
      ArgumentCountParts(ArgChildIds(args, next), ChildIds(head, next), ArgChildIds(tail, mid),
                         next, Size(head), SizeAll(tail), mid, SizeAll(args), x);
    }
  }

  /** A tree of n nodes has n - 1 child ids. */
  lemma {:induction false} ChildIdsLength(e: Expr, first: nat)
    ensures |ChildIds(e, first)| == Size(e) - 1
    decreases e
  {
    match e
    case BinaryOp(op, l, r) =>
      ChildIdsLength(l, first + 1);
      ChildIdsLength(r, first + 1 + Size(l));
      BinaryChildShape(op, l, r, first);
    case UnaryOp(op, a) =>
      ChildIdsLength(a, first + 1);
      UnaryChildShape(op, a, first);
    case Constant(_) =>
    case Variable(_) =>
    case FunctionCall(f, args) =>
      ArgChildIdsLength(args, first + 1);
      CallChildShape(f, args, first);
  }

  lemma {:induction false} ArgChildIdsLength(args: seq<Expr>, next: nat)
    ensures |ArgChildIds(args, next)| == SizeAll(args)
    decreases args
  {
    if args != [] {
      var head, tail, mid := args[0], args[1..], next + Size(args[0]);
      ChildIdsLength(head, next);
      ArgChildIdsLength(tail, mid);
      ArgChildShape(args, next);
    }
  }

  /** Every edge of e leads from a node of e to a node of e with a larger id. */
  lemma {:induction false} LinesEdges(e: Expr, first: nat, show: Num -> string)
    ensures EdgesWithin(Lines(e, first, show), first, first + Size(e))
    decreases e
  {
    match e
    case BinaryOp(op, l, r) =>
      var mid := first + 1 + Size(l);
      LinesEdges(l, first + 1, show);
      LinesEdges(r, mid, show);
      BinaryEdges(op, l, r, first, mid, show);
    case UnaryOp(op, a) =>
      LinesEdges(a, first + 1, show);
      UnaryEdges(op, a, first, show);
    case Constant(_) =>
    case Variable(_) =>
    case FunctionCall(f, args) =>
      ArgLinesEdges(first, args, 0, first + 1, show);
      CallEdges(f, args, first, show);
  }

  lemma BinaryEdges(op: string, l: Expr, r: Expr, first: nat, mid: nat, show: Num -> string)
    requires mid == first + 1 + Size(l)
    requires EdgesWithin(Lines(l, first + 1, show), first + 1, mid)
    requires EdgesWithin(Lines(r, mid, show), mid, mid + Size(r))
    ensures EdgesWithin(Lines(BinaryOp(op, l, r), first, show), first, first + Size(BinaryOp(op, l, r)))
  {
    BinaryShape(op, l, r, first, mid, show);
    BinaryEdgesParts(Lines(BinaryOp(op, l, r), first, show), Node(first, "Operator: " + op, None),
                     Lines(l, first + 1, show), Lines(r, mid, show),
                     Edge(first, first + 1, "links"), Edge(first, mid, "rechts"),
                     first, mid, first + Size(BinaryOp(op, l, r)));
  }

  lemma UnaryEdges(op: string, a: Expr, first: nat, show: Num -> string)
    requires EdgesWithin(Lines(a, first + 1, show), first + 1, first + 1 + Size(a))
    ensures EdgesWithin(Lines(UnaryOp(op, a), first, show), first, first + Size(UnaryOp(op, a)))
  {
    UnaryShape(op, a, first, show);
    UnaryEdgesParts(Lines(UnaryOp(op, a), first, show), Node(first, "Unär: " + op, None),
                    Lines(a, first + 1, show), Edge(first, first + 1, "operand"),
                    first, first + Size(UnaryOp(op, a)));
  }

  lemma CallEdges(f: string, args: seq<Expr>, first: nat, show: Num -> string)
    requires EdgesWithin(ArgLines(first, args, 0, first + 1, show), first, first + 1 + SizeAll(args))
    ensures EdgesWithin(Lines(FunctionCall(f, args), first, show), first, first + Size(FunctionCall(f, args)))
  {
    CallShape(f, args, first, show);
    CallEdgesParts(Lines(FunctionCall(f, args), first, show), Node(first, "Funktion: " + f, Some("lightpink")),
                   ArgLines(first, args, 0, first + 1, show), first, first + Size(FunctionCall(f, args)));
  }

  // The cases of LinesEdges, over the parts of a node's lines.

  lemma BinaryEdgesParts(whole: seq<DotLine>, n: DotLine, ls: seq<DotLine>, rs: seq<DotLine>, e1: DotLine, e2: DotLine,
                         first: nat, mid: nat, hi: nat)
    requires whole == [n] + ls + rs + [e1, e2] && n.Node?
    requires e1 == Edge(first, first + 1, e1.text) && e2 == Edge(first, mid, e2.text)
    requires first + 1 < mid < hi
    requires EdgesWithin(ls, first + 1, mid) && EdgesWithin(rs, mid, hi)
    ensures EdgesWithin(whole, first, hi)
  {
    EdgesWithinWiden(ls, first + 1, mid, first, hi);
    EdgesWithinWiden(rs, mid, hi, first, hi);
    EdgesWithinConcat([n], ls, first, hi);
    EdgesWithinConcat([n] + ls, rs, first, hi);
    EdgesWithinConcat([n] + ls + rs, [e1, e2], first, hi);
  }

  lemma UnaryEdgesParts(whole: seq<DotLine>, n: DotLine, la: seq<DotLine>, e1: DotLine, first: nat, hi: nat)
    requires whole == [n] + la + [e1] && n.Node?
    requires e1 == Edge(first, first + 1, e1.text) && first + 1 < hi
    requires EdgesWithin(la, first + 1, hi)
    ensures EdgesWithin(whole, first, hi)
  {
    EdgesWithinWiden(la, first + 1, hi, first, hi);
    EdgesWithinConcat([n], la, first, hi);
    EdgesWithinConcat([n] + la, [e1], first, hi);
  }

  lemma CallEdgesParts(whole: seq<DotLine>, n: DotLine, block: seq<DotLine>, first: nat, hi: nat)
    requires whole == [n] + block && n.Node?
    requires EdgesWithin(block, first, hi)
    ensures EdgesWithin(whole, first, hi)
  {
    EdgesWithinConcat([n], block, first, hi);
  }

  lemma ArgumentEdgesParts(whole: seq<DotLine>, sub: seq<DotLine>, edge: DotLine, rest: seq<DotLine>,
                           parent: nat, next: nat, mid: nat, hi: nat)
    requires whole == sub + [edge] + rest
    requires edge == Edge(parent, next, edge.text) && parent < next < mid <= hi
    requires EdgesWithin(sub, next, mid) && EdgesWithin(rest, parent, hi)
    ensures EdgesWithin(whole, parent, hi)
  {
    EdgesWithinWiden(sub, next, mid, parent, hi);
    EdgesWithinConcat(sub, [edge], parent, hi);
    EdgesWithinConcat(sub + [edge], rest, parent, hi);
  }

  lemma {:induction false} ArgLinesEdges(parent: nat, args: seq<Expr>, k: nat, next: nat, show: Num -> string)
    requires parent < next
    ensures EdgesWithin(ArgLines(parent, args, k, next, show), parent, next + SizeAll(args))
    decreases args
  {
    if args != [] {
      var head, tail, mid := args[0], args[1..], next + Size(args[0]);
      LinesEdges(head, next, show);
      ArgLinesEdges(parent, tail, k + 1, mid, show);
      ArgumentShape(parent, args, k, next, show, "arg" + NatToString(k), mid);
      ArgChildShape(args, next);
      ArgumentEdgesParts(ArgLines(parent, args, k, next, show), Lines(head, next, show),
                         Edge(parent, next, "arg" + NatToString(k)), ArgLines(parent, tail, k + 1, mid, show),
                         parent, next, mid, next + SizeAll(args));
    }
  }

  /**
   * The nodes of a whole tree: ids 0 .. Size(e) - 1 in output order, and
   * every edge going from a parent to a child with a larger id.
   */
  lemma DotGraphNodes(e: Expr, show: Num -> string)
    ensures NodeIds(Lines(e, 0, show)) == Ids(0, Size(e))
    ensures EdgesWithin(Lines(e, 0, show), 0, Size(e))
  {
    LinesIds(e, 0, show);
    LinesEdges(e, 0, show);
  }

  /**
   * The edges of a whole tree: Size(e) - 1 of them, every node but the root 0
   * the target of exactly one, and nothing else a target.
   */
  lemma DotGraphEdges(e: Expr, show: Num -> string)
    ensures forall x :: Count(Targets(Lines(e, 0, show)), x) == (if 0 < x < Size(e) then 1 else 0)
    ensures |Targets(Lines(e, 0, show))| == Size(e) - 1
  {
    LinesTargets(e, 0, show);
    ChildIdsLength(e, 0);
    forall x
      ensures Count(Targets(Lines(e, 0, show)), x) == (if 0 < x < Size(e) then 1 else 0)
    {
      ChildCount(e, 0, x);
    }
  }

  // ---------------------------------------------------------------------------
  // extractVariableName

  /**
   * Where one round of the outer while loop of extractVariableName leaves i:
   * past a whitespace character, past a run that starts with a letter, and
   * where it was on any other character.
   */
  function LoopNext(s: string, i: nat): (j: nat)
    requires i < |s|
    ensures i <= j <= |s|
  {
    if IsWhitespace(s[i]) then i + 1
    else if IsLetter(s[i]) then WordRunEnd(s, i)
    else i
  }

  /** Whether the outer loop, once at i, reaches the end of s. */
  predicate Scannable(s: string, i: nat)
    requires i <= |s|
    decreases |s| - i
  {
    i == |s| || (LoopNext(s, i) > i && Scannable(s, LoopNext(s, i)))
  }

  /**
   * The name extractVariableName returns, with a character that is neither
   * whitespace nor a letter skipped; current is the name found so far.
   */
  function NameFrom(s: string, i: nat, current: string): string
    requires i <= |s|
    decreases |s| - i
  {
    if i == |s| then current
    else if IsWhitespace(s[i]) then NameFrom(s, i + 1, current)
    else if IsLetter(s[i]) then
      var j := WordRunEnd(s, i);
      NameFrom(s, j, if j - i == 1 then s[i..j] else current)
    else NameFrom(s, i + 1, current)
  }

  function VariableName(s: string): string {
    NameFrom(s, 0, "x")
  }

  lemma {:induction false} WordRunEndAt(s: string, i: nat, j: nat)
    requires i <= j <= |s|
    requires forall k :: i <= k < j ==> IsLetterOrDigit(s[k])
    requires j == |s| || !IsLetterOrDigit(s[j])
    ensures WordRunEnd(s, i) == j
    decreases j - i
  {
    if i < j {
      WordRunEndAt(s, i + 1, j);
    }
  }

  /** From a position the loop gets past, only whitespace, letters and digits remain. */
  lemma {:induction false} ScannableAllowed(s: string, i: nat)
    requires i <= |s| && Scannable(s, i)
    ensures forall k :: i <= k < |s| ==> Allowed(s[k])
    decreases |s| - i
  {
    if i < |s| {
      var j := LoopNext(s, i);
      ScannableAllowed(s, j);
      assert forall k :: i <= k < j ==> Allowed(s[k]);
    }
  }

  /** An input on which the loop terminates is one the tokenizer accepts. */
  lemma ScannableLexes(s: string)
    requires Scannable(s, 0)
    ensures Lex(s).Ok?
  {
    ScannableAllowed(s, 0);
    LexSucceedsIff(s);
  }

  /** extractVariableName, on an input where its loop terminates. */
  method ExtractVariableName(expression: string) returns (variableName: string)
    requires Scannable(expression, 0)
    ensures variableName == VariableName(expression)
  {
    variableName := "x";
    var i := 0;
    while i < |expression|
      invariant i <= |expression| && Scannable(expression, i)
      invariant NameFrom(expression, i, variableName) == VariableName(expression)
      decreases |expression| - i
    {
      var c := expression[i];
      if IsWhitespace(c) {
        i := i + 1;
        continue;
      }
      if IsLetter(c) {
        var start := i;
        var value := "";
        while i < |expression| && IsLetterOrDigit(expression[i])
          invariant start <= i <= |expression|
          invariant value == expression[start..i]
          invariant forall k :: start <= k < i ==> IsLetterOrDigit(expression[k])
          decreases |expression| - i
        {
          value := value + [expression[i]];
          i := i + 1;
        }
        WordRunEndAt(expression, start, i);
        if |value| == 1 {
          variableName := value;
        }
      } else {
        assert false;
      }
    }
  }

  /** The text of a token is a single letter. */
  predicate OneLetter(t: Token) {
    |t.text| == 1 && IsLetter(t.text[0])
  }

  /** The text of the last one-letter token of ts, or current if there is none. */
  function LastOneLetter(ts: seq<Token>, current: string): string
    decreases |ts|
  {
    if ts == [] then current
    else LastOneLetter(ts[1..], if OneLetter(ts[0]) then ts[0].text else current)
  }

  lemma {:induction false} LastOneLetterIs(ts: seq<Token>, current: string)
    ensures (forall k :: 0 <= k < |ts| ==> !OneLetter(ts[k])) ==> LastOneLetter(ts, current) == current
    ensures forall p :: 0 <= p < |ts| && OneLetter(ts[p]) && (forall k :: p < k < |ts| ==> !OneLetter(ts[k]))
                        ==> LastOneLetter(ts, current) == ts[p].text
    decreases |ts|
  {
    if ts != [] {
      var tail, c := ts[1..], if OneLetter(ts[0]) then ts[0].text else current;
      LastOneLetterIs(tail, c);
      assert LastOneLetter(ts, current) == LastOneLetter(tail, c);
      forall p | 0 <= p < |ts| && OneLetter(ts[p]) && (forall k :: p < k < |ts| ==> !OneLetter(ts[k]))
        ensures LastOneLetter(ts, current) == ts[p].text
      {
        forall k | p <= k < |tail|
          ensures !OneLetter(tail[k])
        {
          assert tail[k] == ts[k + 1];
        }
        if p > 0 {
          assert tail[p - 1] == ts[p];
        }
      }
      if forall k :: 0 <= k < |ts| ==> !OneLetter(ts[k]) {
        forall k | 0 <= k < |tail|
          ensures !OneLetter(tail[k])
        {
          assert tail[k] == ts[k + 1];
        }
      }
    }
  }

  /** Skipping a run of digits and dots one character at a time leaves the name alone. */
  lemma {:induction false} NameSkipsNumber(s: string, i: nat, current: string)
    requires i <= |s|
    ensures NameFrom(s, i, current) == NameFrom(s, NumberRunEnd(s, i), current)
    decreases |s| - i
  {
    if i < |s| && IsNumberChar(s[i]) {
      NameSkipsNumber(s, i + 1, current);
    }
  }

  lemma {:induction false} NameFromTokens(s: string, i: nat, current: string)
    requires i <= |s| && LexFrom(s, i).Ok?
    ensures NameFrom(s, i, current) == LastOneLetter(LexFrom(s, i).value, current)
    decreases |s| - i
  {
    if i == |s| {
    } else if IsWhitespace(s[i]) {
      NameFromTokens(s, i + 1, current);
    } else if IsNumberChar(s[i]) {
      var j := NumberRunEnd(s, i);
      var t := Token(NUMBER, s[i..j]);
      LexFromNumber(s, i);
      NameSkipsNumber(s, i, current);
      assert !OneLetter(t) by { assert IsNumberChar(s[i..j][0]); }
      NameFromTokens(s, j, current);
      assert LexFrom(s, i).value == [t] + LexFrom(s, j).value;
      assert ([t] + LexFrom(s, j).value)[1..] == LexFrom(s, j).value;
    } else if IsLetter(s[i]) {
      var j := WordRunEnd(s, i);
      var t := ClassifyWord(s[i..j]);
      LexFromWord(s, i);
      var c := if j - i == 1 then s[i..j] else current;
      assert OneLetter(t) <==> j - i == 1 by { assert s[i..j][0] == s[i]; }
      NameFromTokens(s, j, c);
      assert LexFrom(s, i).value == [t] + LexFrom(s, j).value;
      assert ([t] + LexFrom(s, j).value)[1..] == LexFrom(s, j).value;
    } else {
      LexFromSymbol(s, i);
      var t := SymbolToken(s[i]).value;
      assert !OneLetter(t) by { assert t.text == [s[i]]; }
      NameFromTokens(s, i + 1, current);
      assert LexFrom(s, i).value == [t] + LexFrom(s, i + 1).value;
      assert ([t] + LexFrom(s, i + 1).value)[1..] == LexFrom(s, i + 1).value;
    }
  }

  /**
   * On every input the scanner accepts, the name is the text of the last
   * one-letter identifier it produces (a variable, or the constant e), and "x"
   * when there is none; longer runs such as sin or x2 never count.
   */
  lemma VariableNameIsLastOneLetter(s: string)
    requires Lex(s).Ok?
    ensures (forall k :: 0 <= k < |Lex(s).value| ==> !OneLetter(Lex(s).value[k])) ==> VariableName(s) == "x"
    ensures forall p :: 0 <= p < |Lex(s).value| && OneLetter(Lex(s).value[p])
                        && (forall k :: p < k < |Lex(s).value| ==> !OneLetter(Lex(s).value[k]))
                        ==> VariableName(s) == Lex(s).value[p].text
  {
    NameFromTokens(s, 0, "x");
    LastOneLetterIs(Lex(s).value, "x");
  }

  /** The name is "x" or a single letter. */
  lemma {:induction false} NameShape(s: string, i: nat, current: string)
    requires i <= |s|
    requires current == "x" || (|current| == 1 && IsLetter(current[0]))
    ensures NameFrom(s, i, current) == "x" || (|NameFrom(s, i, current)| == 1 && IsLetter(NameFrom(s, i, current)[0]))
    decreases |s| - i
  {
    if i < |s| {
      if IsWhitespace(s[i]) {
        NameShape(s, i + 1, current);
      } else if IsLetter(s[i]) {
        var j := WordRunEnd(s, i);
        if j - i == 1 {
          assert s[i..j][0] == s[i];
        }
        NameShape(s, j, if j - i == 1 then s[i..j] else current);
      } else {
        NameShape(s, i + 1, current);
      }
    }
  }

  /** The operator of "y+1" stops the loop of extractVariableName for good; skipping it gives "y". */
  lemma PlusNeverPassed()
    ensures LoopNext("y+1", 1) == 1
    ensures !Scannable("y+1", 0)
    ensures VariableName("y+1") == "y"
  {
    var s := "y+1";
    assert !IsWhitespace(s[1]) && !IsLetter(s[1]);
    assert WordRunEnd(s, 0) == 1 by {
      assert !IsLetterOrDigit(s[1]);
      WordRunEndAt(s, 0, 1);
    }
    assert LoopNext(s, 0) == 1;
    assert !Scannable(s, 1);
  }
}
