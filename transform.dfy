/** `evaluate` and `transform` (worker.js:12-40): the parse tree becomes a
    geometry tree whose parameters are numbers. */
module Transform {
  import opened Wrappers
  import opened Numbers
  import opened Syntax
  import opened Parser

  /** The `{name, params, children}` objects the code generator reads. */
  datatype Geometry = Geometry(name: string, params: map<string, Num>, children: seq<Geometry>)

  /** A parameter expression `evaluate` can compute: numbers and operators
      only. Anything else makes it throw "Invalid expression". */
  predicate Arithmetic(n: Node)
  {
    match n
    case NumberNode(_, _) => true
    case OperatorNode(_, l, r, _) => Arithmetic(l) && Arithmetic(r)
    case FunctionNode(_, _, _, _) => false
  }

  /** `evaluate`: `None` stands for the thrown "Invalid expression". */
  function Evaluate(n: Node): (r: Option<Num>)
    ensures r.Some? <==> Arithmetic(n)
  {
    match n
    case NumberNode(v, _) => Some(Fin(v))
    case OperatorNode(op, l, r, _) =>
      var a :- Evaluate(l);
      var b :- Evaluate(r);
      Some(match op
        case Plus => Add(a, b)
        case Minus => Sub(a, b)
        case Times => Mul(a, b)
        case Over => Div(a, b))
    case FunctionNode(_, _, _, _) => None
  }

  /** The value of an expression in exact real arithmetic, or `None` if it
      is not arithmetic or divides by zero somewhere. */
  ghost function Exact(n: Node): Option<real>
  {
    match n
    case NumberNode(v, _) => Some(v)
    case OperatorNode(op, l, r, _) =>
      var a :- Exact(l);
      var b :- Exact(r);
      ExactOperation(op, a, b)
    case FunctionNode(_, _, _, _) => None
  }

  ghost function ExactOperation(op: Op, a: real, b: real): Option<real>
  {
    match op
    case Plus => Some(a + b)
    case Minus => Some(a - b)
    case Times => Some(a * b)
    case Over => if b == 0.0 then None else Some(a / b)
  }

  lemma {:induction false} ExactProduct(a: real, b: real)
    ensures ExactOperation(Times, a, b) == Some(a * b)
    ensures Mul(Fin(a), Fin(b)) == Fin(a * b)
  {
  }

  /** Without a division by zero, `evaluate` computes the exact value (up to
      the rounding this model leaves out). */
  lemma {:induction false} EvaluateExact(n: Node)
    requires Exact(n).Some?
    ensures Evaluate(n) == Some(Fin(Exact(n).value))
  {
    match n
    case NumberNode(_, _) =>
    case OperatorNode(op, l, r, _) =>
      EvaluateExact(l);
      EvaluateExact(r);
      var a, b := Exact(l).value, Exact(r).value;
      match op {
        case Plus =>
        case Minus => assert Neg(Fin(b)) == Fin(-b);
        case Times =>
          ExactProduct(a, b);
        case Over => assert b != 0.0;
      }
    case FunctionNode(_, _, _, _) =>
  }

  /** The names and values of a parameter list, every value evaluated; the
      first binding of a name wins, as `Lookup` does. */
  function EvaluateParams(ps: seq<Param>): (r: Option<map<string, Num>>)
    ensures r.Some? <==> forall j :: 0 <= j < |ps| ==> Arithmetic(ps[j].value)
    ensures r.Some? ==> r.value.Keys == ParamNames(ps)
    ensures r.Some? ==> forall name :: name in r.value ==>
      Lookup(ps, name).Some? && Evaluate(Lookup(ps, name).value) == Some(r.value[name])
  {
    if ps == [] then Some(map[])
    else
      var rest :- EvaluateParams(ps[1..]);
      var v :- Evaluate(ps[0].value);
      assert forall j :: 1 <= j < |ps| ==> ps[j] == ps[1..][j - 1];
      ParamNamesCons(ps[0], ps[1..]);
      assert [ps[0]] + ps[1..] == ps;
      Some(rest[ps[0].name := v])
  }

  /** A function node `transform` maps without throwing: every parameter is
      arithmetic, at every level. */
  predicate Transformable(n: Node)
  {
    match n
    case FunctionNode(_, ps, os, _) =>
      && (forall j :: 0 <= j < |ps| ==> Arithmetic(ps[j].value))
      && (forall j :: 0 <= j < |os| ==> Transformable(os[j]))
    case _ => false
  }

  /** `transform`: the same name, every parameter evaluated, every operand
      transformed in order. `None` stands for the exception `evaluate`
      throws. */
  function TransformNode(n: Node): (r: Option<Geometry>)
    requires n.FunctionNode? && WellFormed(n)
    ensures r.Some? <==> Transformable(n)
    ensures r.Some? ==> && r.value.name == n.name
                        && r.value.params.Keys == ParamNames(n.parameters)
                        && |r.value.children| == |n.operands|
    ensures r.Some? ==> forall name :: name in r.value.params ==>
      Lookup(n.parameters, name).Some? && Evaluate(Lookup(n.parameters, name).value) == Some(r.value.params[name])
    ensures r.Some? ==> TransformAll(n.operands) == Some(r.value.children)
  {
    var params :- EvaluateParams(n.parameters);
    var children :- TransformAll(n.operands);
    Some(Geometry(n.name, params, children))
  }

  /** `node.operands.map(transform)`. */
  function TransformAll(os: seq<Node>): (r: Option<seq<Geometry>>)
    requires OperandsWellFormed(os)
    ensures r.Some? <==> forall j :: 0 <= j < |os| ==> Transformable(os[j])
    ensures r.Some? ==> |r.value| == |os|
    ensures r.Some? ==> forall j :: 0 <= j < |os| ==> TransformNode(os[j]) == Some(r.value[j])
  {
    if os == [] then Some([])
    else
      var first :- TransformNode(os[0]);
      assert forall j :: 1 <= j < |os| ==> os[j] == os[1..][j - 1];
      var rest :- TransformAll(os[1..]);
      Some([first] + rest)
  }
}
