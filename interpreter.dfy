/**
 * interpreter.ts: the variable scope, the error-carrying result object and
 * the tree-walking evaluator for numeric literals, unary and binary
 * expressions.
 */
module Interpreting {
  import opened Wrappers
  import opened Positions
  import opened Errors
  import opened Nodes

  // ---------------------------------------------------------------------------
  // Values

  /** A JavaScript number as the evaluator produces it; `undefined` comes from an unknown operator. */
  datatype Numeric = Finite(x: real) | NaN | Undefined

  /** `{type: "number", value}`. */
  datatype RuntimeValue = NumberValue(value: Numeric)

  /** What a scope can hold: JavaScript primitives and AST nodes. */
  datatype Value =
    | Undef
    | Null
    | Boolean(b: bool)
    | Number(n: Numeric)
    | Text(s: string)
    | AstNode(node: Node)
  {
    /** JavaScript truthiness. */
    predicate Truthy() {
      match this
      case Undef => false
      case Null => false
      case Boolean(b) => b
      case Number(n) => n.Finite? && n.x != 0.0
      case Text(s) => s != ""
      case AstNode(_) => true
    }
  }

  // ---------------------------------------------------------------------------
  // Environment

  /** `lookupVar`: the binding, or undefined when there is none or it is falsy. */
  function Lookup(vars: map<string, Value>, name: string): (r: Value)
    ensures r.Truthy() <==> name in vars && vars[name].Truthy()
    ensures r.Truthy() ==> r == vars[name]
    ensures !r.Truthy() ==> r == Undef
  {
    if name in vars && vars[name].Truthy() then vars[name] else Undef
  }

  /** `declareVar`: binds only a name that has no truthy binding, and answers with the new lookup. */
  function Declare(vars: map<string, Value>, name: string, value: Value): (r: (map<string, Value>, Value))
    ensures Lookup(vars, name).Truthy() ==> r == (vars, Undef)
    ensures !Lookup(vars, name).Truthy() ==>
              r.0 == vars[name := value] && r.1 == (if value.Truthy() then value else Undef)
  {
    if Lookup(vars, name).Truthy() then (vars, Undef)
    else (vars[name := value], Lookup(vars[name := value], name))
  }

  /** `setVar`: rebinds only a name that has a truthy binding, and answers with the new lookup. */
  function Assign(vars: map<string, Value>, name: string, value: Value): (r: (map<string, Value>, Value))
    ensures !Lookup(vars, name).Truthy() ==> r == (vars, Undef)
    ensures Lookup(vars, name).Truthy() ==>
              r.0 == vars[name := value] && r.1 == (if value.Truthy() then value else Undef)
  {
    if !Lookup(vars, name).Truthy() then (vars, Undef)
    else (vars[name := value], Lookup(vars[name := value], name))
  }

  /**
   * After a declaration, looking the name up gives the declaration's answer
   * when it was accepted and the old binding when it was refused; every
   * other name looks up as before.
   */
  lemma DeclareThenLookup(vars: map<string, Value>, name: string, value: Value)
    ensures var (vars', r) := Declare(vars, name, value);
      && Lookup(vars', name) == (if Lookup(vars, name).Truthy() then Lookup(vars, name) else r)
      && (forall other :: other != name ==> Lookup(vars', other) == Lookup(vars, other))
  {
  }

  /**
   * After an assignment, looking the name up gives the assignment's answer:
   * the new value when it is truthy, undefined when it is falsy or the name
   * had no truthy binding; every other name looks up as before.
   */
  lemma AssignThenLookup(vars: map<string, Value>, name: string, value: Value)
    ensures var (vars', r) := Assign(vars, name, value);
      && Lookup(vars', name) == r
      && (forall other :: other != name ==> Lookup(vars', other) == Lookup(vars, other))
  {
  }

  /** A second declaration of a name declared with a truthy value is refused and changes nothing. */
  lemma RedeclarationRefused(vars: map<string, Value>, name: string, v1: Value, v2: Value)
    requires v1.Truthy()
    ensures var (vars1, _) := Declare(vars, name, v1);
      Declare(vars1, name, v2) == (vars1, Undef)
  {
  }

  /** Declaring a falsy value leaves the name undeclared as far as lookup, declare and set can tell. */
  lemma FalsyDeclarationInvisible(vars: map<string, Value>, name: string, value: Value)
    requires !Lookup(vars, name).Truthy() && !value.Truthy()
    ensures var (vars', r) := Declare(vars, name, value);
      r == Undef && Lookup(vars', name) == Undef && Assign(vars', name, value).1 == Undef
  {
  }

  class Environment {
    var variables: map<string, Value>
    const parent: Environment?

    constructor(parent: Environment?)
      ensures variables == map[] && this.parent == parent
    {
      variables := map[];
      this.parent := parent;
    }

    /** Reads this scope's own bindings only: `parent` is never consulted. */
    function LookupVar(name: string): (r: Value)
      reads this
      ensures r == Lookup(variables, name)
    {
      Lookup(variables, name)
    }

    method DeclareVar(name: string, value: Value) returns (r: Value)
      modifies this
      ensures (variables, r) == Declare(old(variables), name, value)
    {
      if LookupVar(name).Truthy() {
        return Undef;
      }
      variables := variables[name := value];
      r := LookupVar(name);
    }

    method SetVar(name: string, value: Value) returns (r: Value)
      modifies this
      ensures (variables, r) == Assign(old(variables), name, value)
    {
      if !LookupVar(name).Truthy() {
        return Undef;
      }
      variables := variables[name := value];
      r := LookupVar(name);
    }
  }

  // ---------------------------------------------------------------------------
  // RuntimeResult

  class RuntimeResult {
    var value: Option<RuntimeValue>
    var error: Option<Error>

    /** Both fields start as null. */
    constructor()
      ensures value == None && error == None
    {
      value := None;
      error := None;
    }

    /** Copies the other result's error, if it has one, and hands back its value; an existing error is never cleared. */
    method Register(res: RuntimeResult) returns (v: Option<RuntimeValue>)
      modifies this
      ensures v == old(res.value)
      ensures error == if old(res.error).Some? then old(res.error) else old(error)
      ensures value == old(value)
    {
      v := res.value;
      if res.error.Some? {
        error := res.error;
      }
    }

    method Success(v: RuntimeValue) returns (self: RuntimeResult)
      modifies this
      ensures self == this && value == Some(v) && error == old(error)
    {
      value := Some(v);
      return this;
    }

    method Failure(e: Error) returns (self: RuntimeResult)
      modifies this
      ensures self == this && error == Some(e) && value == old(value)
    {
      error := Some(e);
      return this;
    }
  }

  // ---------------------------------------------------------------------------
  // Arithmetic on JavaScript numbers (real numbers; rounding is not modelled)

  function Add(a: Numeric, b: Numeric): Numeric {
    if a.Finite? && b.Finite? then Finite(a.x + b.x) else NaN
  }

  function Sub(a: Numeric, b: Numeric): Numeric {
    if a.Finite? && b.Finite? then Finite(a.x - b.x) else NaN
  }

  function Mul(a: Numeric, b: Numeric): Numeric {
    if a.Finite? && b.Finite? then Finite(a.x * b.x) else NaN
  }

  /** Division; a zero divisor never reaches it (the evaluator fails first). */
  function Div(a: Numeric, b: Numeric): Numeric {
    if a.Finite? && b.Finite? && b.x != 0.0 then Finite(a.x / b.x) else NaN
  }

  /** The integer part of `q`, rounded toward zero. */
  function Trunc(q: real): int {
    if q >= 0.0 then q.Floor else -((-q).Floor)
  }

  /** JavaScript `%`: the remainder of the quotient truncated toward zero; NaN for a zero divisor. */
  function Mod(a: Numeric, b: Numeric): Numeric {
    if a.Finite? && b.Finite? && b.x != 0.0 then Finite(a.x - b.x * Trunc(a.x / b.x) as real) else NaN
  }

  /** `value * -1`. */
  function Negate(a: Numeric): Numeric {
    if a.Finite? then Finite(-a.x) else NaN
  }

  /**
   * `r == y * f`, for a fraction `f` with the sign of `q`, has the sign of
   * `x == y * q` and is smaller than `y` in size.
   */
  lemma ScaledFraction(x: real, y: real, q: real, f: real, r: real)
    requires y != 0.0 && x == y * q && r == y * f
    requires -1.0 < f < 1.0
    requires q >= 0.0 ==> f >= 0.0
    requires q <= 0.0 ==> f <= 0.0
    ensures x >= 0.0 ==> r >= 0.0
    ensures x <= 0.0 ==> r <= 0.0
    ensures y > 0.0 ==> -y < r < y
    ensures y < 0.0 ==> y < r < -y
  {
    if y > 0.0 {
      assert y * (1.0 - f) > 0.0 && y * (1.0 + f) > 0.0;
      assert q > 0.0 ==> x > 0.0;
      assert q < 0.0 ==> x < 0.0;
    } else {
      assert (-y) * (1.0 - f) > 0.0 && (-y) * (1.0 + f) > 0.0;
      assert q > 0.0 ==> x < 0.0;
      assert q < 0.0 ==> x > 0.0;
    }
  }

  /** What truncation leaves of `q` is less than 1 in size and has the sign of `q`. */
  lemma TruncFraction(q: real)
    ensures var f := q - Trunc(q) as real;
      -1.0 < f < 1.0 && (q >= 0.0 ==> f >= 0.0) && (q <= 0.0 ==> f <= 0.0)
  {
  }

  /** The remainder is `y` times the fractional part of the quotient. */
  lemma ModIsFraction(x: real, y: real)
    requires y != 0.0
    ensures x == y * (x / y)
    ensures Mod(Finite(x), Finite(y)).x == y * (x / y - Trunc(x / y) as real)
  {
  }

  /** JavaScript `%` on finite numbers: the remainder takes the sign of the dividend and is smaller than the divisor in size. */
  lemma ModSignAndBound(x: real, y: real)
    requires y != 0.0
    ensures var r := Mod(Finite(x), Finite(y)).x;
      && (x >= 0.0 ==> r >= 0.0) && (x <= 0.0 ==> r <= 0.0)
      && (y > 0.0 ==> -y < r < y) && (y < 0.0 ==> y < r < -y)
  {
    TruncFraction(x / y);
    ModIsFraction(x, y);
    ScaledFraction(x, y, x / y, x / y - Trunc(x / y) as real, Mod(Finite(x), Finite(y)).x);
  }

  // ---------------------------------------------------------------------------
  // The evaluator

  /** How a visit ends: a value, a failure carrying an Error, or a JavaScript TypeError. */
  datatype Outcome = Done(result: RuntimeValue) | Failed(error: Error) | Threw

  /**
   * The nodes the modelled part of `visit` can evaluate: nothing below them
   * reaches visit_Identifier, visit_VarDeclaration or visit_VarAssignment.
   */
  predicate Evaluable(n: Node) {
    match n
    case Identifier(_, _) => false
    case VarDeclaration(_, _, _) => false
    case VarAssignment(_, _, _) => false
    case UnaryExpr(_, _, operand) => Evaluable(operand)
    case BinaryExpr(_, left, _, right) => Evaluable(left) && Evaluable(right)
    case _ => true
  }

  const NoVisitMessage := "This AST node has not been setup for interpretation yet: "
  const DivideByZeroMessage := "Cannot divide by 0"

  /** `no_visit`: a failure at the node's left position; without a span, reading `pos.left` throws. */
  function NoVisitOutcome(n: Node): (r: Outcome)
    ensures !r.Done?
    ensures r.Failed? ==> NoVisitMessage <= r.error.details
  {
    if n.pos.None? then Threw
    else Failed(Error(n.pos.value.left, NoVisitMessage + TypeName(n)))
  }

  /** The operator chain of visit_BinaryExpr, once both sides are numbers. */
  function Combine(n: Node, l: Numeric, r: Numeric): (o: Outcome)
    requires n.BinaryExpr?
    ensures o.Failed? ==> o.error.details == DivideByZeroMessage
  {
    var op := n.operator;
    if op == "+" then Done(NumberValue(Add(l, r)))
    else if op == "-" then Done(NumberValue(Sub(l, r)))
    else if op == "*" then Done(NumberValue(Mul(l, r)))
    else if op == "/" then
      if r == Finite(0.0) then
        (if n.right.pos.None? then Threw else Failed(Error(n.right.pos.value.left, DivideByZeroMessage)))
      else Done(NumberValue(Div(l, r)))
    else if op == "%" then Done(NumberValue(Mod(l, r)))
    else Done(NumberValue(Undefined))
  }

  /** What `visit` produces for a node. */
  function Eval(n: Node): (r: Outcome)
    requires Evaluable(n)
    ensures r.Failed? ==> r.error.details == DivideByZeroMessage || NoVisitMessage <= r.error.details
    ensures !(n.NumericLiteral? || n.UnaryExpr? || n.BinaryExpr?) ==> !r.Done?
  {
    match n
    case NumericLiteral(_, x) => Done(NumberValue(Finite(x)))
    case UnaryExpr(_, prefix, operand) =>
      (match Eval(operand)
       case Done(v) => Done(if prefix == "-" then NumberValue(Negate(v.value)) else v)
       case other => other)
    case BinaryExpr(_, left, _, right) =>
      (match Eval(left)
       case Done(l) =>
         (match Eval(right)
          case Done(r) => Combine(n, l.value, r.value)
          case other => other)
       case other => other)
    case _ => NoVisitOutcome(n)
  }

  /** The RuntimeResult `res` reports the outcome `o`: exactly one of value and error is set. */
  predicate Reports(res: RuntimeResult?, o: Outcome)
    reads res
  {
    match o
    case Threw => res == null
    case Done(v) => res != null && res.value == Some(v) && res.error == None
    case Failed(e) => res != null && res.error == Some(e) && res.value == None
  }

  class Interpreter {
    constructor()
    {
    }

    /**
     * Dispatches on the node's type tag; a TypeError thrown on the way is
     * reported as `null`.
     */
    method Visit(node: Node, env: Environment) returns (res: RuntimeResult?)
      requires Evaluable(node)
      ensures res != null ==> fresh(res)
      ensures Reports(res, Eval(node))
      decreases node, 1
    {
      if TypeName(node) == "NumericLiteral" {
        res := VisitNumericLiteral(node);
      } else if TypeName(node) == "UnaryExpr" {
        res := VisitUnaryExpr(node, env);
      } else if TypeName(node) == "BinaryExpr" {
        res := VisitBinaryExpr(node, env);
      } else {
        res := NoVisit(node);
      }
    }

    method NoVisit(node: Node) returns (res: RuntimeResult?)
      ensures res != null ==> fresh(res)
      ensures Reports(res, NoVisitOutcome(node))
    {
      if node.pos.None? {
        return null;
      }
      var r := new RuntimeResult();
      res := r.Failure(Error(node.pos.value.left, NoVisitMessage + TypeName(node)));
    }

    method VisitNumericLiteral(node: Node) returns (res: RuntimeResult)
      requires node.NumericLiteral?
      ensures fresh(res)
      ensures Reports(res, Done(NumberValue(Finite(node.number))))
    {
      var r := new RuntimeResult();
      res := r.Success(NumberValue(Finite(node.number)));
    }

    method VisitUnaryExpr(node: Node, env: Environment) returns (res: RuntimeResult?)
      requires node.UnaryExpr? && Evaluable(node)
      ensures res != null ==> fresh(res)
      ensures Reports(res, Eval(node))
      decreases node, 0
    {
      res := new RuntimeResult();
      var inner := Visit(node.operand, env);
      if inner == null {
        return null;
      }
      var value := res.Register(inner);
      if res.error.Some? {
        return res;
      }
      var v := value.value;
      if node.prefix == "-" {
        v := NumberValue(Negate(v.value));
      }
      res := res.Success(v);
    }

    method VisitBinaryExpr(node: Node, env: Environment) returns (res: RuntimeResult?)
      requires node.BinaryExpr? && Evaluable(node)
      ensures res != null ==> fresh(res)
      ensures Reports(res, Eval(node))
      decreases node, 0
    {
      res := new RuntimeResult();
      var leftRes := Visit(node.left, env);
      if leftRes == null {
        return null;
      }
      var left := res.Register(leftRes);
      if res.error.Some? {
        return res;
      }
      var rightRes := Visit(node.right, env);
      if rightRes == null {
        return null;
      }
      var right := res.Register(rightRes);
      if res.error.Some? {
        return res;
      }
      var operator := node.operator;
      var l := left.value.value;
      var r := right.value.value;
      var result: Numeric := Undefined;
      if operator == "+" {
        result := Add(l, r);
      } else if operator == "-" {
        result := Sub(l, r);
      } else if operator == "*" {
        result := Mul(l, r);
      } else if operator == "/" {
        if r == Finite(0.0) {
          if node.right.pos.None? {
            return null;
          }
          res := res.Failure(Error(node.right.pos.value.left, DivideByZeroMessage));
          return res;
        }
        result := Div(l, r);
      } else if operator == "%" {
        result := Mod(l, r);
      }
      res := res.Success(NumberValue(result));
    }
  }

  // ---------------------------------------------------------------------------
  // Properties of the evaluator

  /** BinaryExpr evaluates left first: a failure or a throw on the left is the answer, whatever the right side is. */
  lemma LeftFailureShortCircuits(p: Option<Span>, left: Node, op: string, right: Node)
    requires Evaluable(left) && Evaluable(right)
    requires !Eval(left).Done?
    ensures Eval(BinaryExpr(p, left, op, right)) == Eval(left)
  {
  }

  /** With a successful left side, a failure or throw on the right is the answer. */
  lemma RightFailurePropagates(p: Option<Span>, left: Node, op: string, right: Node)
    requires Evaluable(left) && Evaluable(right)
    requires Eval(left).Done? && !Eval(right).Done?
    ensures Eval(BinaryExpr(p, left, op, right)) == Eval(right)
  {
  }

  /** Dividing by a right side that evaluates to 0 fails at the right operand's left position. */
  lemma DivisionByZeroFails(p: Option<Span>, left: Node, right: Node, s: Span)
    requires Evaluable(left) && Evaluable(right)
    requires Eval(left).Done? && Eval(right) == Done(NumberValue(Finite(0.0)))
    requires right.pos == Some(s)
    ensures Eval(BinaryExpr(p, left, "/", right)) == Failed(Error(s.left, "Cannot divide by 0"))
  {
  }

  /** `%` by 0 is not checked: it yields NaN. */
  lemma ModuloByZeroIsNaN(p: Option<Span>, left: Node, right: Node)
    requires Evaluable(left) && Evaluable(right)
    requires Eval(left).Done? && Eval(right) == Done(NumberValue(Finite(0.0)))
    ensures Eval(BinaryExpr(p, left, "%", right)) == Done(NumberValue(NaN))
  {
  }

  /** Unary "-" negates the operand's number; any other prefix passes the operand's result through. */
  lemma UnaryPrefix(p: Option<Span>, prefix: string, operand: Node)
    requires Evaluable(operand)
    ensures Eval(operand).Done? && prefix == "-" ==>
      Eval(UnaryExpr(p, prefix, operand)) == Done(NumberValue(Negate(Eval(operand).result.value)))
    ensures prefix != "-" ==> Eval(UnaryExpr(p, prefix, operand)) == Eval(operand)
    ensures !Eval(operand).Done? ==> Eval(UnaryExpr(p, prefix, operand)) == Eval(operand)
  {
  }

  /** Negating twice gives back the literal's number. */
  lemma DoubleNegation(p: Option<Span>, q: Option<Span>, x: real)
    ensures Eval(UnaryExpr(p, "-", UnaryExpr(q, "-", NumericLiteral(None, x)))) == Done(NumberValue(Finite(x)))
  {
    var inner := UnaryExpr(q, "-", NumericLiteral(None, x));
    assert Eval(inner) == Done(NumberValue(Finite(-x)));
    assert -(-x) == x;
  }

  /** A node type visit does not dispatch fails at the node's left position with a message naming its type. */
  lemma UndispatchedNodeFails(n: Node, s: Span)
    requires !n.NumericLiteral? && !n.UnaryExpr? && !n.BinaryExpr?
    requires Evaluable(n) && n.pos == Some(s)
    ensures Eval(n) == Failed(Error(s.left, NoVisitMessage + TypeName(n)))
  {
  }

  // ---------------------------------------------------------------------------
  // Agreement with ordinary arithmetic

  /** Pure arithmetic trees: literals, and +, -, *, /, % and unary prefixes over them. */
  predicate Arithmetic(n: Node) {
    match n
    case NumericLiteral(_, _) => true
    case UnaryExpr(_, _, operand) => Arithmetic(operand)
    case BinaryExpr(_, left, op, right) => op in {"+", "-", "*", "/", "%"} && Arithmetic(left) && Arithmetic(right)
    case _ => false
  }

  /** One operator of an arithmetic tree by the rules of real arithmetic; None for a zero divisor of / and %. */
  function Apply(op: string, x: real, y: real): Option<real> {
    if op == "+" then Some(x + y)
    else if op == "-" then Some(x - y)
    else if op == "*" then Some(x * y)
    else if y == 0.0 then None
    else if op == "/" then Some(x / y)
    else Some(x - y * Trunc(x / y) as real)
  }

  /** The value of an arithmetic tree by the rules of real arithmetic; None when some divisor is 0. */
  function RealValue(n: Node): Option<real>
    requires Arithmetic(n)
  {
    match n
    case NumericLiteral(_, x) => Some(x)
    case UnaryExpr(_, prefix, operand) =>
      (match RealValue(operand)
       case None => None
       case Some(x) => Some(if prefix == "-" then -x else x))
    case BinaryExpr(_, left, op, right) =>
      (match (RealValue(left), RealValue(right))
       case (Some(x), Some(y)) => Apply(op, x, y)
       case _ => None)
  }

  lemma ArithmeticIsEvaluable(n: Node)
    requires Arithmetic(n)
    ensures Evaluable(n)
  {
  }

  /** On finite operands with a defined result, the evaluator's operator chain computes `Apply`. */
  lemma CombineAgrees(n: Node, x: real, y: real)
    requires n.BinaryExpr? && n.operator in {"+", "-", "*", "/", "%"}
    requires Apply(n.operator, x, y).Some?
    ensures Combine(n, Finite(x), Finite(y)) == Done(NumberValue(Finite(Apply(n.operator, x, y).value)))
  {
    var op := n.operator;
    if op == "+" {
    } else if op == "-" {
    } else if op == "*" {
      assert op != "+" && op != "-";
      assert Combine(n, Finite(x), Finite(y)) == Done(NumberValue(Mul(Finite(x), Finite(y))));
      assert Mul(Finite(x), Finite(y)) == Finite(x * y);
      assert Apply(op, x, y) == Some(x * y);
    } else if op == "/" {
      assert Finite(y) != Finite(0.0);
    } else if op == "%" {
      assert Mod(Finite(x), Finite(y)) == Finite(x - y * Trunc(x / y) as real);
    }
  }

  /**
   * On an arithmetic tree without a zero divisor, the evaluator answers
   * the number ordinary arithmetic gives (rounding aside).
   */
  lemma {:induction false} EvalAgreesWithArithmetic(n: Node)
    requires Arithmetic(n)
    requires RealValue(n).Some?
    ensures Evaluable(n) && Eval(n) == Done(NumberValue(Finite(RealValue(n).value)))
  {
    ArithmeticIsEvaluable(n);
    match n
    case NumericLiteral(_, _) =>
    case UnaryExpr(_, _, operand) =>
      EvalAgreesWithArithmetic(operand);
    case BinaryExpr(_, left, _, right) =>
      EvalAgreesWithArithmetic(left);
      EvalAgreesWithArithmetic(right);
      CombineAgrees(n, RealValue(left).value, RealValue(right).value);
  }
}
