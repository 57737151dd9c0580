/** The class `CodeGen` (worker.js:84-221): it walks the geometry tree and
    writes a GLSL distance function `de`, with one helper function per
    translated, rotated or scaled sub-expression, numbered in the order they
    are emitted.

    `GenNode` says what generating a node yields when the helper counter
    starts at `base`: the node's expression and the bodies of the helpers it
    defines. The class's methods are proved to follow it. */
module Generator {
  import opened Numbers
  import opened CodeText
  import opened Transform

  /** What the generator takes from the JavaScript runtime: converting a
      number to a string, `Math.cos` and `Math.sin`. */
  datatype Numerics = Numerics(show: Num -> string, cos: Num -> Num, sin: Num -> Num)

  /** A parameter after `Object.assign(defaults, params)`. */
  function ParamOr(params: map<string, Num>, key: string, default: real): Num
  {
    if key in params then params[key] else Fin(default)
  }

  /** `ParamOr` reads the merge `Object.assign({key: default}, params)`:
      a given parameter overrides the default. */
  lemma {:induction false} ParamOrMerges(params: map<string, Num>, key: string, default: real)
    ensures ParamOr(params, key, default) == (map[key := Fin(default)] + params)[key]
  {
  }

  /** An expression and the helper bodies defined for it, in order. */
  datatype Gen = Gen(expr: Code, helpers: seq<Code>)

  /** The expressions of a list of children and all their helper bodies. */
  datatype Gens = Gens(exprs: seq<Code>, helpers: seq<Code>)

  function F(num: Numerics, v: Num): Code
  {
    Literal(num.show, v)
  }

  /** A call of helper `k` on a transformed point. */
  function CallOf(k: nat, arg: Code): Code
  {
    Cat(Name(k), Cat(Chars("("), Cat(arg, Chars(")"))))
  }

  /** `_genTranslation`: the child becomes helper `k`, called on `p` minus
      the offset. */
  function TranslationOf(num: Numerics, child: Code, params: map<string, Num>, k: nat): Gen
  {
    var x, y, z := ParamOr(params, "x", 0.0), ParamOr(params, "y", 0.0), ParamOr(params, "z", 0.0);
    Gen(CallOf(k, Cat(Chars("p-"), Vec3(F(num, x), F(num, y), F(num, z)))), [child])
  }

  /** The offset at which a primitive attaches its children: the top of it. */
  function OnTop(z: Num): map<string, Num>
  {
    map["x" := Fin(0.0), "y" := Fin(0.0), "z" := z]
  }

  function Half(v: Num): Num
  {
    Div(v, Fin(2.0))
  }

  /** `_genBox`: the box of size x by y by z standing on the origin, united
      with the children translated to its top. */
  function BoxOf(num: Numerics, child: Code, params: map<string, Num>, k: nat): Gen
  {
    var x, y, z := ParamOr(params, "x", 1.0), ParamOr(params, "y", 1.0), ParamOr(params, "z", 1.0);
    var t := TranslationOf(num, child, OnTop(z), k);
    var sides := MaxOf(Cat(Chars("abs(p.x)-"), F(num, Half(x))), Cat(Chars("abs(p.y)-"), F(num, Half(y))));
    var caps := MaxOf(Chars("-p.z"), Cat(Chars("p.z-"), F(num, z)));
    Gen(MinOf(t.expr, MaxOf(sides, caps)), t.helpers)
  }

  /** `_genCylinder`: height h, diameter d. */
  function CylinderOf(num: Numerics, child: Code, params: map<string, Num>, k: nat): Gen
  {
    var h, d := ParamOr(params, "h", 1.0), ParamOr(params, "d", 1.0);
    var t := TranslationOf(num, child, OnTop(h), k);
    var body := MaxOf(Cat(Chars("length(p.xy)-"), F(num, Half(d))), MaxOf(Chars("-p.z"), Cat(Chars("p.z-"), F(num, h))));
    Gen(MinOf(t.expr, body), t.helpers)
  }

  /** `_genSphere`: diameter d, resting on the origin. */
  function SphereOf(num: Numerics, child: Code, params: map<string, Num>, k: nat): Gen
  {
    var d := ParamOr(params, "d", 1.0);
    var t := TranslationOf(num, child, OnTop(d), k);
    var body := Cat(Chars("distance(p,"), Cat(Vec3(Chars("0.0"), Chars("0.0"), F(num, Half(d))), Cat(Chars(")-"), F(num, Half(d)))));
    Gen(MinOf(t.expr, body), t.helpers)
  }

  /** `-degrees * Math.PI / 180`. */
  function Radians(degrees: Num): Num
  {
    Div(Mul(Neg(degrees), Fin(Pi)), Fin(180.0))
  }

  /** The point `p` multiplied by the rotation matrix for the angles x, y
      and z (in degrees), row by row, as `_genRotation` writes it. */
  function RotatedPoint(num: Numerics, params: map<string, Num>): Code
  {
    var a := Radians(ParamOr(params, "x", 0.0));
    var b := Radians(ParamOr(params, "y", 0.0));
    var c := Radians(ParamOr(params, "z", 0.0));
    var ca, sa, cb, sb, cc, sc := num.cos(a), num.sin(a), num.cos(b), num.sin(b), num.cos(c), num.sin(c);
    var vx := Vec3(F(num, Mul(cb, cc)), F(num, Sub(Mul(Mul(cc, sa), sb), Mul(ca, sc))),
                   F(num, Add(Mul(Mul(ca, cc), sb), Mul(sa, sc))));
    var vy := Vec3(F(num, Mul(cb, sc)), F(num, Add(Mul(ca, cc), Mul(Mul(sa, sb), sc))),
                   F(num, Add(Mul(Neg(cc), sa), Mul(Mul(ca, sb), sc))));
    var vz := Vec3(F(num, Neg(sb)), F(num, Mul(cb, sa)), F(num, Mul(ca, cb)));
    Vec3(Dot(Chars("p"), vx), Dot(Chars("p"), vy), Dot(Chars("p"), vz))
  }

  /** With every angle absent or zero, and cosine and sine exact at zero,
      the three rows are the unit vectors: the rotation leaves `p` where it
      is. */
  lemma {:induction false} RotationByZero(num: Numerics, params: map<string, Num>)
    requires ParamOr(params, "x", 0.0) == Fin(0.0) && ParamOr(params, "y", 0.0) == Fin(0.0)
    requires ParamOr(params, "z", 0.0) == Fin(0.0)
    requires num.cos(Fin(0.0)) == Fin(1.0) && num.sin(Fin(0.0)) == Fin(0.0)
    ensures var one, zero := F(num, Fin(1.0)), F(num, Fin(0.0));
      RotatedPoint(num, params) == Vec3(Dot(Chars("p"), Vec3(one, zero, zero)),
                                        Dot(Chars("p"), Vec3(zero, one, zero)),
                                        Dot(Chars("p"), Vec3(zero, zero, one)))
  {
    ZeroAngle();
  }

  /** Zero degrees are zero radians, and products and sums of zeros and ones
      are exact. */
  lemma {:induction false} ZeroAngle()
    ensures var zero, one := Fin(0.0), Fin(1.0);
      && Radians(zero) == zero
      && Mul(one, one) == one && Mul(zero, zero) == zero && Mul(one, zero) == zero && Mul(zero, one) == zero
      && Mul(Neg(one), zero) == zero && Neg(zero) == zero
      && Add(zero, zero) == zero && Add(one, zero) == one && Sub(zero, zero) == zero
  {
    ZeroRadians(Fin(0.0));
  }

  lemma {:induction false} ZeroRadians(zero: Num)
    requires zero == Fin(0.0)
    ensures Radians(zero) == zero
  {
    var product := Mul(Neg(zero), Fin(Pi));
    assert product == zero;
    assert Div(product, Fin(180.0)) == zero;
  }

  /** `_genRotation`: the child becomes helper `k`, called on the rotated
      point. */
  function RotationOf(num: Numerics, child: Code, params: map<string, Num>, k: nat): Gen
  {
    Gen(CallOf(k, RotatedPoint(num, params)), [child])
  }

  /** `_genScale`: helper `k` called on `p` divided by r, times r. */
  function ScaleOf(num: Numerics, child: Code, params: map<string, Num>, k: nat): Gen
  {
    var r := ParamOr(params, "r", 1.0);
    Gen(Cat(CallOf(k, Cat(Chars("p*"), F(num, Div(Fin(1.0), r)))), Cat(Chars("*"), F(num, r))), [child])
  }

  /** The offset `_genArot` moves a rotated child by. */
  const ArotOffset: map<string, Num> := map["x" := Fin(0.0), "y" := Fin(0.0), "z" := Fin(-1.5)]

  /** `_genArot`: a rotation (helper `k`) whose result is translated down
      by 1.5 (helper `k + 1`). The defaults it fills in are the rotation's
      own. */
  function ArotOf(num: Numerics, child: Code, params: map<string, Num>, k: nat): Gen
  {
    var rotation := RotationOf(num, child, params, k);
    var t := TranslationOf(num, rotation.expr, ArotOffset, k + 1);
    Gen(t.expr, rotation.helpers + t.helpers)
  }

  /** Emitting the rotation and then the translation of `_genArot` emits
      what `ArotOf` describes. */
  lemma {:induction false} ArotSteps(num: Numerics, child: Code, params: map<string, Num>, k: nat,
                  before: seq<Code>, middle: seq<Code>, after: seq<Code>, rotation: Code, e: Code)
    requires rotation == RotationOf(num, child, params, k).expr
    requires middle == before + RotationOf(num, child, params, k).helpers
    requires e == TranslationOf(num, rotation, ArotOffset, k + 1).expr
    requires after == middle + TranslationOf(num, rotation, ArotOffset, k + 1).helpers
    ensures e == ArotOf(num, child, params, k).expr
    ensures after == before + ArotOf(num, child, params, k).helpers
  {
    AppendAssoc(before, RotationOf(num, child, params, k).helpers, TranslationOf(num, rotation, ArotOffset, k + 1).helpers, middle, after);
  }

  /** The `switch` at the end of `_genExpr`, for a node whose children were
      united into `child` and whose first helper will be number `k`. */
  function OwnOf(num: Numerics, name: string, child: Code, params: map<string, Num>, k: nat): Gen
  {
    if name == "arot" then ArotOf(num, child, params, k)
    else if name == "box" then BoxOf(num, child, params, k)
    else if name == "cylinder" then CylinderOf(num, child, params, k)
    else if name == "rot" then RotationOf(num, child, params, k)
    else if name == "scale" then ScaleOf(num, child, params, k)
    else if name == "sphere" then SphereOf(num, child, params, k)
    else if name == "trans" then TranslationOf(num, child, params, k)
    else Gen(child, [])
  }

  /** What `_genExpr` does at a node once its children are generated: from
      the node's name, its parameters, its children's expressions and the
      number of its first helper, the node's expression and its helpers. */
  type Step = (string, map<string, Num>, seq<Code>, nat) -> Gen

  /** The order in which `_genExpr` walks a tree, whatever it does at each
      node: the children first, left to right, each numbering its helpers
      after those before it, then `step` on the node itself. */
  function Traverse(step: Step, g: Geometry, base: nat): Gen
    decreases g, 1
  {
    var cs := TraverseAll(step, g.children, base);
    var own := step(g.name, g.params, cs.exprs, base + |cs.helpers|);
    Gen(own.expr, cs.helpers + own.helpers)
  }

  /** `node.children.map(child => this._genExpr(child, ...))`. */
  function TraverseAll(step: Step, cs: seq<Geometry>, base: nat): (r: Gens)
    ensures |r.exprs| == |cs|
    decreases cs, 0
  {
    if cs == [] then Gens([], [])
    else
      var init := TraverseAll(step, cs[..|cs| - 1], base);
      var last := Traverse(step, cs[|cs| - 1], base + |init.helpers|);
      Gens(init.exprs + [last.expr], init.helpers + last.helpers)
  }

  /** What `_genExpr` does with its children's expressions `exprs` when the
      next helper is number `k`: "intersection" and "diff" combine them,
      every other name unites them and applies its own function. */
  function Combine(num: Numerics, name: string, params: map<string, Num>, exprs: seq<Code>, k: nat): Gen
  {
    if name == "intersection" then Gen(IntersectionOf(exprs), [])
    else if name == "diff" then Gen(DifferenceOf(exprs), [])
    else OwnOf(num, name, UnionOf(exprs), params, k)
  }

  function CombineStep(num: Numerics): Step
  {
    (name, params, exprs, k: nat) => Combine(num, name, params, exprs, k)
  }

  /** `_genExpr` on a subtree whose first helper is number `base`. */
  function GenNode(num: Numerics, g: Geometry, base: nat): Gen
  {
    Traverse(CombineStep(num), g, base)
  }

  /** `_genExpr` on each of a list of subtrees in turn. */
  function GenChildren(num: Numerics, cs: seq<Geometry>, base: nat): Gens
  {
    TraverseAll(CombineStep(num), cs, base)
  }

  /** Stepping the node after its children, with the first helper after
      theirs, completes the node. */
  lemma {:induction false} NodeSteps(step: Step, g: Geometry, base: nat, cs: Gens, exprs: seq<Code>, k: nat, own: Gen)
    requires cs == TraverseAll(step, g.children, base)
    requires exprs == cs.exprs && k == base + |cs.helpers|
    requires own == step(g.name, g.params, exprs, k)
    ensures Traverse(step, g, base) == Gen(own.expr, cs.helpers + own.helpers)
  {
  }

  lemma {:induction false} AppendAssoc(a: seq<Code>, b: seq<Code>, c: seq<Code>, ab: seq<Code>, abc: seq<Code>)
    requires ab == a + b && abc == ab + c
    ensures abc == a + (b + c)
  {
  }

  /** Generating the children after the helpers `before`, and then
      stepping the node, generates the node. */
  lemma {:induction false} ExprSteps(step: Step, g: Geometry, base: nat, before: seq<Code>, middle: seq<Code>, after: seq<Code>,
                  cs: Gens, exprs: seq<Code>, k: nat, own: Gen, e: Code)
    requires cs == TraverseAll(step, g.children, base)
    requires exprs == cs.exprs && k == base + |cs.helpers|
    requires own == step(g.name, g.params, exprs, k)
    requires middle == before + cs.helpers
    requires e == own.expr && after == middle + own.helpers
    ensures e == Traverse(step, g, base).expr
    ensures after == before + Traverse(step, g, base).helpers
  {
    NodeSteps(step, g, base, cs, exprs, k, own);
    AppendAssoc(before, cs.helpers, own.helpers, middle, after);
  }

  /** One more turn of `_genExpr`'s loop over the children. */
  lemma {:induction false} AllStep(step: Step, cs: seq<Geometry>, j: nat, base: nat,
                                   prior: seq<Code>, before: seq<Code>, after: seq<Code>,
                                   exprs: seq<Code>, child: Code, extended: seq<Code>)
    requires j < |cs| && |prior| == base
    requires exprs == TraverseAll(step, cs[..j], base).exprs
    requires before == prior + TraverseAll(step, cs[..j], base).helpers
    requires child == Traverse(step, cs[j], |before|).expr
    requires after == before + Traverse(step, cs[j], |before|).helpers
    requires extended == exprs + [child]
    ensures extended == TraverseAll(step, cs[..j + 1], base).exprs
    ensures after == prior + TraverseAll(step, cs[..j + 1], base).helpers
  {
    var init := TraverseAll(step, cs[..j], base);
    var last := Traverse(step, cs[j], |before|);
    ChildrenStep(step, cs, j, base, init, |before|, last);
    AppendAssoc(prior, init.helpers, last.helpers, before, after);
  }

  /** One more child: its expression and helpers follow the others'. */
  lemma {:induction false} ChildrenStep(step: Step, cs: seq<Geometry>, j: nat, base: nat, init: Gens, k: nat, last: Gen)
    requires j < |cs| && init == TraverseAll(step, cs[..j], base) && k == base + |init.helpers|
    requires last == Traverse(step, cs[j], k)
    ensures TraverseAll(step, cs[..j + 1], base) == Gens(init.exprs + [last.expr], init.helpers + last.helpers)
  {
    assert cs[..j + 1][..j] == cs[..j];
  }

  /** `'float ' + name + '(vec3 p){return ' + expr + ';}'`. */
  function FuncDef(name: string, body: string): string
  {
    "float " + name + "(vec3 p){return " + body + ";}"
  }

  /** The definitions of helpers f0, f1, ... with the given bodies. */
  function Definitions(helpers: seq<Code>): string
  {
    if helpers == [] then ""
    else Definitions(helpers[..|helpers| - 1]) + FuncDef(HelperName(|helpers| - 1), Render(helpers[|helpers| - 1]))
  }

  /** The whole program the generator writes for a tree: the helpers, then
      `de`, the distance function, then `he`. */
  function ProgramText(num: Numerics, tree: Geometry): string
  {
    var g := GenNode(num, tree, 0);
    Definitions(g.helpers) + FuncDef("de", Render(g.expr)) + FuncDef("he", "1e9")
  }

  class CodeGen {
    var code: string
    var fid: nat
    /** The bodies of the helpers emitted so far, helper `j` at index `j`. */
    ghost var helpers: seq<Code>
    const num: Numerics

    ghost predicate Valid()
      reads this
    {
      fid == |helpers| && code == Definitions(helpers)
    }

    /** The constructor generates the whole program. */
    constructor (tree: Geometry, num: Numerics)
      ensures code == ProgramText(num, tree)
    {
      code := "";
      fid := 0;
      helpers := [];
      this.num := num;
      new;
      var e := GenExpr(tree);
      assert helpers == GenNode(num, tree, 0).helpers;
      EmitFunc("de", Render(e));
      EmitFunc("he", "1e9");
    }

    method GetCode() returns (r: string)
      ensures r == code
    {
      r := code;
    }

    method EmitFunc(name: string, body: string)
      modifies this`code
      ensures code == old(code) + FuncDef(name, body)
    {
      code := code + FuncDef(name, body);
    }

    /** Defines the next helper, with body `body`, and returns its number. */
    method EmitHelper(body: Code) returns (k: nat)
      requires Valid()
      modifies this
      ensures Valid() && k == old(fid) && helpers == old(helpers) + [body]
    {
      k := fid;
      fid := fid + 1;
      helpers := helpers + [body];
      EmitFunc(HelperName(k), Render(body));
      assert helpers[..|helpers| - 1] == old(helpers);
    }

    /** What every `_gen*` method promises: it returns `spec`'s expression
        and has emitted `spec`'s helpers after the earlier ones. */
    ghost predicate Emitted(e: Code, spec: Gen, before: seq<Code>)
      reads this
    {
      Valid() && e == spec.expr && helpers == before + spec.helpers
    }

    method GenTranslation(child: Code, params: map<string, Num>) returns (e: Code)
      requires Valid()
      modifies this
      ensures Emitted(e, TranslationOf(num, child, params, old(fid)), old(helpers))
    {
      var x, y, z := ParamOr(params, "x", 0.0), ParamOr(params, "y", 0.0), ParamOr(params, "z", 0.0);
      var fun := EmitHelper(child);
      e := CallOf(fun, Cat(Chars("p-"), Vec3(F(num, x), F(num, y), F(num, z))));
    }

    method GenBox(child: Code, params: map<string, Num>) returns (e: Code)
      requires Valid()
      modifies this
      ensures Emitted(e, BoxOf(num, child, params, old(fid)), old(helpers))
    {
      var x, y, z := ParamOr(params, "x", 1.0), ParamOr(params, "y", 1.0), ParamOr(params, "z", 1.0);
      var t := GenTranslation(child, OnTop(z));
      var sides := MaxOf(Cat(Chars("abs(p.x)-"), F(num, Half(x))), Cat(Chars("abs(p.y)-"), F(num, Half(y))));
      var caps := MaxOf(Chars("-p.z"), Cat(Chars("p.z-"), F(num, z)));
      e := MinOf(t, MaxOf(sides, caps));
    }

    method GenCylinder(child: Code, params: map<string, Num>) returns (e: Code)
      requires Valid()
      modifies this
      ensures Emitted(e, CylinderOf(num, child, params, old(fid)), old(helpers))
    {
      var h, d := ParamOr(params, "h", 1.0), ParamOr(params, "d", 1.0);
      var t := GenTranslation(child, OnTop(h));
      e := MinOf(t, MaxOf(Cat(Chars("length(p.xy)-"), F(num, Half(d))), MaxOf(Chars("-p.z"), Cat(Chars("p.z-"), F(num, h)))));
    }

    method GenSphere(child: Code, params: map<string, Num>) returns (e: Code)
      requires Valid()
      modifies this
      ensures Emitted(e, SphereOf(num, child, params, old(fid)), old(helpers))
    {
      var d := ParamOr(params, "d", 1.0);
      var t := GenTranslation(child, OnTop(d));
      e := MinOf(t, Cat(Chars("distance(p,"), Cat(Vec3(Chars("0.0"), Chars("0.0"), F(num, Half(d))), Cat(Chars(")-"), F(num, Half(d))))));
    }

    method GenRotation(child: Code, params: map<string, Num>) returns (e: Code)
      requires Valid()
      modifies this
      ensures Emitted(e, RotationOf(num, child, params, old(fid)), old(helpers))
    {
      var fun := EmitHelper(child);
      var a := Radians(ParamOr(params, "x", 0.0));
      var b := Radians(ParamOr(params, "y", 0.0));
      var c := Radians(ParamOr(params, "z", 0.0));
      var ca, sa, cb, sb, cc, sc := num.cos(a), num.sin(a), num.cos(b), num.sin(b), num.cos(c), num.sin(c);
      var vx := Vec3(F(num, Mul(cb, cc)), F(num, Sub(Mul(Mul(cc, sa), sb), Mul(ca, sc))),
                     F(num, Add(Mul(Mul(ca, cc), sb), Mul(sa, sc))));
      var vy := Vec3(F(num, Mul(cb, sc)), F(num, Add(Mul(ca, cc), Mul(Mul(sa, sb), sc))),
                     F(num, Add(Mul(Neg(cc), sa), Mul(Mul(ca, sb), sc))));
      var vz := Vec3(F(num, Neg(sb)), F(num, Mul(cb, sa)), F(num, Mul(ca, cb)));
      e := CallOf(fun, Vec3(Dot(Chars("p"), vx), Dot(Chars("p"), vy), Dot(Chars("p"), vz)));
    }

    method GenScale(child: Code, params: map<string, Num>) returns (e: Code)
      requires Valid()
      modifies this
      ensures Emitted(e, ScaleOf(num, child, params, old(fid)), old(helpers))
    {
      var r := ParamOr(params, "r", 1.0);
      var fun := EmitHelper(child);
      e := Cat(CallOf(fun, Cat(Chars("p*"), F(num, Div(Fin(1.0), r)))), Cat(Chars("*"), F(num, r)));
    }

    method GenArot(child: Code, params: map<string, Num>) returns (e: Code)
      requires Valid()
      modifies this
      ensures Emitted(e, ArotOf(num, child, params, old(fid)), old(helpers))
    {
      ghost var before, k := helpers, fid;
      var rotation := GenRotation(child, params);
      ghost var middle := helpers;
      e := GenTranslation(rotation, ArotOffset);
      ArotSteps(num, child, params, k, before, middle, helpers, rotation, e);
    }

    /** `_genUnion`. */
    method GenUnion(exprs: seq<Code>) returns (res: Code)
      ensures res == UnionOf(exprs)
    {
      res := Chars("1e9");
      for j := 0 to |exprs|
        invariant res == UnionOf(exprs[..j])
      {
        assert exprs[..j + 1][..j] == exprs[..j];
        res := MinOf(res, exprs[j]);
      }
      assert exprs[..|exprs|] == exprs;
    }

    /** `_genIntersection`. */
    method GenIntersection(exprs: seq<Code>) returns (res: Code)
      ensures res == IntersectionOf(exprs)
    {
      res := Chars("-1e9");
      for j := 0 to |exprs|
        invariant res == IntersectionOf(exprs[..j])
      {
        assert exprs[..j + 1][..j] == exprs[..j];
        res := MaxOf(res, exprs[j]);
      }
      assert exprs[..|exprs|] == exprs;
    }

    /** `_genDifference`. */
    method GenDifference(exprs: seq<Code>) returns (res: Code)
      ensures res == DifferenceOf(exprs)
    {
      if |exprs| < 1 {
        return Chars("1e9");
      }
      res := exprs[0];
      assert exprs[..1] == [exprs[0]];
      for j := 1 to |exprs|
        invariant res == DifferenceOf(exprs[..j])
      {
        assert exprs[..j + 1][..j] == exprs[..j];
        res := MaxOf(res, Negated(exprs[j]));
      }
      assert exprs[..|exprs|] == exprs;
    }

    /** The `switch` at the end of `_genExpr`. */
    method GenOwn(name: string, child: Code, params: map<string, Num>) returns (e: Code)
      requires Valid()
      modifies this
      ensures Emitted(e, OwnOf(num, name, child, params, old(fid)), old(helpers))
    {
      if name == "arot" {
        e := GenArot(child, params);
      } else if name == "box" {
        e := GenBox(child, params);
      } else if name == "cylinder" {
        e := GenCylinder(child, params);
      } else if name == "rot" {
        e := GenRotation(child, params);
      } else if name == "scale" {
        e := GenScale(child, params);
      } else if name == "sphere" {
        e := GenSphere(child, params);
      } else if name == "trans" {
        e := GenTranslation(child, params);
      } else {
        e := child;
        assert helpers == old(helpers) + [];
      }
    }

    /** `children.map(child => this._genExpr(child, ...))`. */
    method GenAll(cs: seq<Geometry>) returns (exprs: seq<Code>)
      requires Valid()
      modifies this
      ensures Valid() && exprs == GenChildren(num, cs, old(fid)).exprs
      ensures helpers == old(helpers) + GenChildren(num, cs, old(fid)).helpers
      decreases cs, 0
    {
      ghost var base := fid;
      exprs := [];
      for j := 0 to |cs|
        invariant Valid() && exprs == GenChildren(num, cs[..j], base).exprs
        invariant helpers == old(helpers) + GenChildren(num, cs[..j], base).helpers
      {
        ghost var before := helpers;
        var child := GenExpr(cs[j]);
        AllStep(CombineStep(num), cs, j, base, old(helpers), before, helpers, exprs, child, exprs + [child]);
        exprs := exprs + [child];
      }
      assert cs[..|cs|] == cs;
    }

    /** The end of `_genExpr`, after the children are generated. */
    method GenCombine(name: string, params: map<string, Num>, exprs: seq<Code>) returns (e: Code)
      requires Valid()
      modifies this
      ensures Emitted(e, Combine(num, name, params, exprs, old(fid)), old(helpers))
    {
      if name == "intersection" {
        e := GenIntersection(exprs);
        assert helpers == old(helpers) + [];
      } else if name == "diff" {
        e := GenDifference(exprs);
        assert helpers == old(helpers) + [];
      } else {
        var child := GenUnion(exprs);
        e := GenOwn(name, child, params);
      }
    }

    /** `_genExpr`. */
    method GenExpr(g: Geometry) returns (e: Code)
      requires Valid()
      modifies this
      ensures Emitted(e, GenNode(num, g, old(fid)), old(helpers))
      decreases g, 1
    {
      ghost var base := fid;
      ghost var step := CombineStep(num);
      ghost var cs := TraverseAll(step, g.children, base);
      var exprs := GenAll(g.children);
      ghost var middle_k := fid;
      ghost var own := Combine(num, g.name, g.params, exprs, middle_k);
      assert own == step(g.name, g.params, exprs, middle_k);
      ghost var middle := helpers;
      e := GenCombine(g.name, g.params, exprs);
      ExprSteps(step, g, base, old(helpers), middle, helpers, cs, exprs, middle_k, own, e);
    }
  }
}
