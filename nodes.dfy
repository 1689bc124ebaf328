/**
 * nodes.ts: the AST node classes as one datatype. Every node has a `pos`
 * field, which stays unset until `newNode` or `setPos` gives it a span; the
 * span keeps the Position objects it is given, not copies.
 */
module Nodes {
  import opened Wrappers
  import opened Positions

  /** `{ left, right }`: the two Position references of a node's span. */
  datatype Span = Span(left: Position, right: Position)

  datatype Node =
    | Program(pos: Option<Span>, body: seq<Node>)
    | NumericLiteral(pos: Option<Span>, number: real)
    | Identifier(pos: Option<Span>, value: string)
    | StringLiteral(pos: Option<Span>, value: string)
    | Literal(pos: Option<Span>, value: string)
    | IfStatement(pos: Option<Span>, condition: Node, block: Node, alternate: Option<Node>)
    | ForStatement(pos: Option<Span>, init: Node, test: Node, update: Node, block: Node)
    | WhileStatement(pos: Option<Span>, test: Node, block: Node)
    | BlockStatement(pos: Option<Span>, body: seq<Node>)
    | VarDeclaration(pos: Option<Span>, ident: string, init: Node)
    | CallExpr(pos: Option<Span>, callee: Node, args: seq<Node>)
    | VarAssignment(pos: Option<Span>, ident: string, init: Node)
    | UnaryExpr(pos: Option<Span>, prefix: string, operand: Node)
    | LogicalExpr(pos: Option<Span>, left: Node, operator: string, right: Node)
    | BinaryExpr(pos: Option<Span>, left: Node, operator: string, right: Node)

  /** The `type` tag each node class sets; tags of different classes differ. */
  function TypeName(n: Node): (tag: string)
    ensures tag == "Program" <==> n.Program?
    ensures tag == "NumericLiteral" <==> n.NumericLiteral?
    ensures tag == "Identifier" <==> n.Identifier?
    ensures tag == "StringLiteral" <==> n.StringLiteral?
    ensures tag == "Literal" <==> n.Literal?
    ensures tag == "IfStatement" <==> n.IfStatement?
    ensures tag == "ForStatement" <==> n.ForStatement?
    ensures tag == "WhileStatement" <==> n.WhileStatement?
    ensures tag == "BlockStatement" <==> n.BlockStatement?
    ensures tag == "VarDeclaration" <==> n.VarDeclaration?
    ensures tag == "CallExpr" <==> n.CallExpr?
    ensures tag == "VarAssignment" <==> n.VarAssignment?
    ensures tag == "UnaryExpr" <==> n.UnaryExpr?
    ensures tag == "LogicalExpr" <==> n.LogicalExpr?
    ensures tag == "BinaryExpr" <==> n.BinaryExpr?
  {
    match n
    case Program(_, _) => "Program"
    case NumericLiteral(_, _) => "NumericLiteral"
    case Identifier(_, _) => "Identifier"
    case StringLiteral(_, _) => "StringLiteral"
    case Literal(_, _) => "Literal"
    case IfStatement(_, _, _, _) => "IfStatement"
    case ForStatement(_, _, _, _, _) => "ForStatement"
    case WhileStatement(_, _, _) => "WhileStatement"
    case BlockStatement(_, _) => "BlockStatement"
    case VarDeclaration(_, _, _) => "VarDeclaration"
    case CallExpr(_, _, _) => "CallExpr"
    case VarAssignment(_, _, _) => "VarAssignment"
    case UnaryExpr(_, _, _) => "UnaryExpr"
    case LogicalExpr(_, _, _, _) => "LogicalExpr"
    case BinaryExpr(_, _, _, _) => "BinaryExpr"
  }

  /** `new ProgramNode()`: an empty program with no span yet. */
  function NewProgram(): (n: Node)
    ensures n.Program? && n.body == [] && n.pos == None
  {
    Program(None, [])
  }

  /** `new BlockStatementNode(body = [])`. */
  function NewBlockStatement(body: seq<Node> := []): (n: Node)
    ensures n.BlockStatement? && n.body == body && n.pos == None
  {
    BlockStatement(None, body)
  }

  /**
   * `newNode(node, left, right?)`: gives the node the span from `left` to
   * `right`, or from `left` to `left` when no right position is passed;
   * every other field stays as it was.
   */
  function NewNode(n: Node, left: Position, right: Option<Position>): (r: Node)
    ensures r.pos.Some? && r.pos.value.left == left
    ensures right.Some? ==> r.pos.value.right == right.value
    ensures right.None? ==> r.pos.value.right == left
    ensures r.(pos := n.pos) == n
    ensures TypeName(r) == TypeName(n)
  {
    var r := n.(pos := Some(Span(left, right.GetOr(left))));
    assert r.(pos := n.pos) == n;
    r
  }

  /** `node.setPos(left, right)`: gives the node the span from `left` to `right`, nothing else changes. */
  function SetPos(n: Node, left: Position, right: Position): (r: Node)
    ensures r.pos == Some(Span(left, right))
    ensures r.(pos := n.pos) == n
    ensures TypeName(r) == TypeName(n)
  {
    n.(pos := Some(Span(left, right)))
  }

  /** newNode is setPos with the right position defaulting to the left one. */
  lemma NewNodeIsSetPos(n: Node, left: Position, right: Option<Position>)
    ensures NewNode(n, left, right) == SetPos(n, left, right.GetOr(left))
    ensures NewNode(n, left, None) == SetPos(n, left, left)
  {
  }

  /** Setting the span twice keeps only the second. */
  lemma SetPosTwice(n: Node, l1: Position, r1: Position, l2: Position, r2: Position)
    ensures SetPos(SetPos(n, l1, r1), l2, r2) == SetPos(n, l2, r2)
  {
  }
}
