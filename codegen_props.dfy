/** Properties of the generated program (worker.js:84-221): how many
    helpers it defines, and that each helper is defined before it is
    called. */
module GeneratorFacts {
  import opened Numbers
  import opened CodeText
  import opened Transform
  import opened Generator

  /** The helpers a node defines itself: one per translation, rotation or
      scaling, and the box, cylinder and sphere translate their children;
      `arot` rotates and then translates. */
  function OwnHelperCount(name: string): nat
  {
    if name == "arot" then 2
    else if name == "box" || name == "cylinder" || name == "sphere" then 1
    else if name == "trans" || name == "rot" || name == "scale" then 1
    else 0
  }

  function HelperCount(g: Geometry): nat
    decreases g, 1
  {
    OwnHelperCount(g.name) + HelperCountAll(g.children)
  }

  function HelperCountAll(cs: seq<Geometry>): nat
    decreases cs, 0
  {
    if cs == [] then 0 else HelperCountAll(cs[..|cs| - 1]) + HelperCount(cs[|cs| - 1])
  }

  /** `step` defines `OwnHelperCount` helpers at every node. */
  ghost predicate CountsHelpers(step: Step)
  {
    forall name, params, exprs, k: nat :: |step(name, params, exprs, k).helpers| == OwnHelperCount(name)
  }

  /** A traversal whose step counts its helpers defines `HelperCount`
      helpers for the whole tree. */
  lemma {:induction false} TraverseHelperCount(step: Step, g: Geometry, base: nat)
    requires CountsHelpers(step)
    ensures |Traverse(step, g, base).helpers| == HelperCount(g)
    decreases g, 1
  {
    TraverseAllHelperCount(step, g.children, base);
  }

  lemma {:induction false} TraverseAllHelperCount(step: Step, cs: seq<Geometry>, base: nat)
    requires CountsHelpers(step)
    ensures |TraverseAll(step, cs, base).helpers| == HelperCountAll(cs)
    decreases cs, 0
  {
    if cs != [] {
      var init := TraverseAll(step, cs[..|cs| - 1], base);
      TraverseAllHelperCount(step, cs[..|cs| - 1], base);
      TraverseHelperCount(step, cs[|cs| - 1], base + |init.helpers|);
    }
  }

  /** `_genExpr`'s own step defines one helper per translation, rotation
      and scaling it emits. */
  lemma {:induction false} CombineCounts(num: Numerics)
    ensures CountsHelpers(CombineStep(num))
  {
    forall name, params, exprs, k: nat
      ensures |CombineStep(num)(name, params, exprs, k).helpers| == OwnHelperCount(name)
    {
      if name != "intersection" && name != "diff" {
        OwnCount(num, name, UnionOf(exprs), params, k);
      }
    }
  }

  /** Generating a tree defines exactly `HelperCount` helpers. */
  lemma {:induction false} GenNodeHelperCount(num: Numerics, g: Geometry, base: nat)
    ensures |GenNode(num, g, base).helpers| == HelperCount(g)
  {
    CombineCounts(num);
    TraverseHelperCount(CombineStep(num), g, base);
  }

  /** Helper `base + j` calls only helpers numbered below it. */
  predicate HelpersOrdered(helpers: seq<Code>, base: nat)
  {
    forall j :: 0 <= j < |helpers| ==> RefsBelow(helpers[j], base + j)
  }

  /** A helper call refers to its helper and whatever its argument does. */
  lemma {:induction false} CallRefs(k: nat, arg: Code, n: nat)
    requires k < n && RefsBelow(arg, n)
    ensures RefsBelow(CallOf(k, arg), n)
  {
    assert RefsBelow(Cat(arg, Chars(")")), n);
    assert RefsBelow(Cat(Chars("("), Cat(arg, Chars(")"))), n);
  }

  lemma {:induction false} Vec3Refs(x: Code, y: Code, z: Code, n: nat)
    requires RefsBelow(x, n) && RefsBelow(y, n) && RefsBelow(z, n)
    ensures RefsBelow(Vec3(x, y, z), n)
  {
    assert RefsBelow(Cat(z, Chars(")")), n);
    assert RefsBelow(Cat(Chars(","), Cat(z, Chars(")"))), n);
    assert RefsBelow(Cat(y, Cat(Chars(","), Cat(z, Chars(")")))), n);
    assert RefsBelow(Cat(Chars(","), Cat(y, Cat(Chars(","), Cat(z, Chars(")"))))), n);
    assert RefsBelow(Cat(x, Cat(Chars(","), Cat(y, Cat(Chars(","), Cat(z, Chars(")")))))), n);
  }

  lemma {:induction false} TranslationRefs(num: Numerics, child: Code, params: map<string, Num>, k: nat)
    requires RefsBelow(child, k)
    ensures DefinesBeforeUse(TranslationOf(num, child, params, k), k)
  {
    var x, y, z := ParamOr(params, "x", 0.0), ParamOr(params, "y", 0.0), ParamOr(params, "z", 0.0);
    Vec3Refs(F(num, x), F(num, y), F(num, z), k + 1);
    CallRefs(k, Cat(Chars("p-"), Vec3(F(num, x), F(num, y), F(num, z))), k + 1);
  }

  /** `min(translated children, body)`. */
  lemma {:induction false} PrimitiveRefs(t: Gen, body: Code, k: nat)
    requires RefsBelow(t.expr, k + 1) && RefsBelow(body, k + 1)
    ensures RefsBelow(MinOf(t.expr, body), k + 1)
  {
    RefsBelowCall2("min(", t.expr, body, k + 1);
  }

  lemma {:induction false} BoxRefs(num: Numerics, child: Code, params: map<string, Num>, k: nat)
    requires RefsBelow(child, k)
    ensures DefinesBeforeUse(BoxOf(num, child, params, k), k)
  {
    var x, y, z := ParamOr(params, "x", 1.0), ParamOr(params, "y", 1.0), ParamOr(params, "z", 1.0);
    TranslationRefs(num, child, OnTop(z), k);
    var n := k + 1;
    var sx, sy := Cat(Chars("abs(p.x)-"), F(num, Half(x))), Cat(Chars("abs(p.y)-"), F(num, Half(y)));
    var top := Cat(Chars("p.z-"), F(num, z));
    RefsBelowCall2("max(", sx, sy, n);
    RefsBelowCall2("max(", Chars("-p.z"), top, n);
    RefsBelowCall2("max(", MaxOf(sx, sy), MaxOf(Chars("-p.z"), top), n);
    PrimitiveRefs(TranslationOf(num, child, OnTop(z), k), MaxOf(MaxOf(sx, sy), MaxOf(Chars("-p.z"), top)), k);
  }

  lemma {:induction false} CylinderRefs(num: Numerics, child: Code, params: map<string, Num>, k: nat)
    requires RefsBelow(child, k)
    ensures DefinesBeforeUse(CylinderOf(num, child, params, k), k)
  {
    var h, d := ParamOr(params, "h", 1.0), ParamOr(params, "d", 1.0);
    TranslationRefs(num, child, OnTop(h), k);
    var n := k + 1;
    var side, top := Cat(Chars("length(p.xy)-"), F(num, Half(d))), Cat(Chars("p.z-"), F(num, h));
    RefsBelowCall2("max(", Chars("-p.z"), top, n);
    RefsBelowCall2("max(", side, MaxOf(Chars("-p.z"), top), n);
    PrimitiveRefs(TranslationOf(num, child, OnTop(h), k), MaxOf(side, MaxOf(Chars("-p.z"), top)), k);
  }

  lemma {:induction false} SphereRefs(num: Numerics, child: Code, params: map<string, Num>, k: nat)
    requires RefsBelow(child, k)
    ensures DefinesBeforeUse(SphereOf(num, child, params, k), k)
  {
    var d := ParamOr(params, "d", 1.0);
    TranslationRefs(num, child, OnTop(d), k);
    var n := k + 1;
    var centre := Vec3(Chars("0.0"), Chars("0.0"), F(num, Half(d)));
    Vec3Refs(Chars("0.0"), Chars("0.0"), F(num, Half(d)), n);
    var body := Cat(Chars("distance(p,"), Cat(centre, Cat(Chars(")-"), F(num, Half(d)))));
    assert RefsBelow(Cat(centre, Cat(Chars(")-"), F(num, Half(d)))), n);
    PrimitiveRefs(TranslationOf(num, child, OnTop(d), k), body, k);
  }

  /** `dot(p, vec3(...))` of three literals calls no helper. */
  lemma {:induction false} LiteralVectorRefs(num: Numerics, x: Num, y: Num, z: Num, n: nat)
    ensures RefsBelow(Dot(Chars("p"), Vec3(F(num, x), F(num, y), F(num, z))), n)
  {
    Vec3Refs(F(num, x), F(num, y), F(num, z), n);
    RefsBelowCall2("dot(", Chars("p"), Vec3(F(num, x), F(num, y), F(num, z)), n);
  }

  lemma {:induction false} RotatedPointRefs(num: Numerics, params: map<string, Num>, n: nat)
    ensures RefsBelow(RotatedPoint(num, params), n)
  {
    var a := Radians(ParamOr(params, "x", 0.0));
    var b := Radians(ParamOr(params, "y", 0.0));
    var c := Radians(ParamOr(params, "z", 0.0));
    var ca, sa, cb, sb, cc, sc := num.cos(a), num.sin(a), num.cos(b), num.sin(b), num.cos(c), num.sin(c);
    LiteralVectorRefs(num, Mul(cb, cc), Sub(Mul(Mul(cc, sa), sb), Mul(ca, sc)), Add(Mul(Mul(ca, cc), sb), Mul(sa, sc)), n);
    LiteralVectorRefs(num, Mul(cb, sc), Add(Mul(ca, cc), Mul(Mul(sa, sb), sc)), Add(Mul(Neg(cc), sa), Mul(Mul(ca, sb), sc)), n);
    LiteralVectorRefs(num, Neg(sb), Mul(cb, sa), Mul(ca, cb), n);
    var vx := Vec3(F(num, Mul(cb, cc)), F(num, Sub(Mul(Mul(cc, sa), sb), Mul(ca, sc))),
                   F(num, Add(Mul(Mul(ca, cc), sb), Mul(sa, sc))));
    var vy := Vec3(F(num, Mul(cb, sc)), F(num, Add(Mul(ca, cc), Mul(Mul(sa, sb), sc))),
                   F(num, Add(Mul(Neg(cc), sa), Mul(Mul(ca, sb), sc))));
    var vz := Vec3(F(num, Neg(sb)), F(num, Mul(cb, sa)), F(num, Mul(ca, cb)));
    Vec3Refs(Dot(Chars("p"), vx), Dot(Chars("p"), vy), Dot(Chars("p"), vz), n);
  }

  lemma {:induction false} RotationRefs(num: Numerics, child: Code, params: map<string, Num>, k: nat)
    requires RefsBelow(child, k)
    ensures DefinesBeforeUse(RotationOf(num, child, params, k), k)
  {
    RotatedPointRefs(num, params, k + 1);
    CallRefs(k, RotatedPoint(num, params), k + 1);
  }

  lemma {:induction false} ScaleRefs(num: Numerics, child: Code, params: map<string, Num>, k: nat)
    requires RefsBelow(child, k)
    ensures DefinesBeforeUse(ScaleOf(num, child, params, k), k)
  {
    var r := ParamOr(params, "r", 1.0);
    var n := k + 1;
    CallRefs(k, Cat(Chars("p*"), F(num, Div(Fin(1.0), r))), n);
    assert RefsBelow(ScaleOf(num, child, params, k).expr, n);
  }

  /** A step with one helper, whose expression a translation then makes
      the next helper. */
  lemma {:induction false} TranslationAfterRefs(num: Numerics, first: Gen, offset: map<string, Num>, k: nat)
    requires |first.helpers| == 1 && HelpersOrdered(first.helpers, k) && RefsBelow(first.expr, k + 1)
    ensures var t := TranslationOf(num, first.expr, offset, k + 1);
      RefsBelow(t.expr, k + 2) && HelpersOrdered(first.helpers + t.helpers, k)
  {
    TranslationRefs(num, first.expr, offset, k + 1);
    HelpersOrderedAppend(first.helpers, TranslationOf(num, first.expr, offset, k + 1).helpers, k);
  }

  lemma {:induction false} ArotRefs(num: Numerics, child: Code, params: map<string, Num>, k: nat)
    requires RefsBelow(child, k)
    ensures DefinesBeforeUse(ArotOf(num, child, params, k), k)
  {
    RotationRefs(num, child, params, k);
    TranslationAfterRefs(num, RotationOf(num, child, params, k), ArotOffset, k);
  }

  /** The helpers a node's own function defines. */
  lemma {:induction false} OwnCount(num: Numerics, name: string, child: Code, params: map<string, Num>, k: nat)
    ensures |OwnOf(num, name, child, params, k).helpers| == OwnHelperCount(name)
  {
  }

  /** The node's own code calls only its own helpers and earlier ones. */
  lemma {:induction false} OwnRefs(num: Numerics, name: string, child: Code, params: map<string, Num>, k: nat)
    requires RefsBelow(child, k)
    ensures DefinesBeforeUse(OwnOf(num, name, child, params, k), k)
  {
    if name == "arot" {
      ArotRefs(num, child, params, k);
    } else if name == "box" {
      BoxRefs(num, child, params, k);
    } else if name == "cylinder" {
      CylinderRefs(num, child, params, k);
    } else if name == "rot" {
      RotationRefs(num, child, params, k);
    } else if name == "scale" {
      ScaleRefs(num, child, params, k);
    } else if name == "sphere" {
      SphereRefs(num, child, params, k);
    } else if name == "trans" {
      TranslationRefs(num, child, params, k);
    }
  }

  lemma {:induction false} HelpersOrderedAppend(a: seq<Code>, b: seq<Code>, base: nat)
    requires HelpersOrdered(a, base) && HelpersOrdered(b, base + |a|)
    ensures HelpersOrdered(a + b, base)
  {
    forall j | 0 <= j < |a + b| ensures RefsBelow((a + b)[j], base + j) {
      if j >= |a| {
        assert (a + b)[j] == b[j - |a|];
      }
    }
  }

  /** The node's own step calls only its operands' helpers and its own. */
  lemma {:induction false} CombineRefs(num: Numerics, name: string, params: map<string, Num>, exprs: seq<Code>, k: nat)
    requires AllRefsBelow(exprs, k)
    ensures DefinesBeforeUse(Combine(num, name, params, exprs, k), k)
  {
    CombinatorsRefsBelow(exprs, k);
    if name != "intersection" && name != "diff" {
      OwnRefs(num, name, UnionOf(exprs), params, k);
    }
  }

  /** Every expression in `exprs` calls only helpers numbered below `n`. */
  predicate AllRefsBelow(exprs: seq<Code>, n: nat)
  {
    forall j :: 0 <= j < |exprs| ==> RefsBelow(exprs[j], n)
  }

  /** `step` keeps helpers defined before use: when the operands call only
      helpers below `k`, its helpers, numbered from `k`, call only earlier
      ones, and its expression calls only helpers defined by then. */
  ghost predicate KeepsOrder(step: Step)
  {
    forall name, params, exprs, k: nat :: AllRefsBelow(exprs, k) ==> DefinesBeforeUse(step(name, params, exprs, k), k)
  }

  /** The helpers of `g`, numbered from `base`, each call only earlier ones,
      and its expression calls only helpers it or an earlier step defined. */
  predicate DefinesBeforeUse(g: Gen, base: nat)
  {
    RefsBelow(g.expr, base + |g.helpers|) && HelpersOrdered(g.helpers, base)
  }

  /** A traversal whose step keeps helpers defined before use does so for
      the whole tree. */
  lemma {:induction false} TraverseOrdered(step: Step, g: Geometry, base: nat)
    requires KeepsOrder(step)
    ensures DefinesBeforeUse(Traverse(step, g, base), base)
    decreases g, 1
  {
    TraverseAllOrdered(step, g.children, base);
    var cs := TraverseAll(step, g.children, base);
    var n := base + |cs.helpers|;
    var own := step(g.name, g.params, cs.exprs, n);
    NodeSteps(step, g, base, cs, cs.exprs, n, own);
    OwnStep(cs, own, Traverse(step, g, base), base);
  }

  lemma {:induction false} TraverseAllOrdered(step: Step, cs: seq<Geometry>, base: nat)
    requires KeepsOrder(step)
    ensures var r := TraverseAll(step, cs, base);
      AllRefsBelow(r.exprs, base + |r.helpers|) && HelpersOrdered(r.helpers, base)
    decreases cs, 0
  {
    if cs != [] {
      var j := |cs| - 1;
      TraverseAllOrdered(step, cs[..j], base);
      var init := TraverseAll(step, cs[..j], base);
      var last := Traverse(step, cs[j], base + |init.helpers|);
      TraverseOrdered(step, cs[j], base + |init.helpers|);
      ChildrenStep(step, cs, j, base, init, base + |init.helpers|, last);
      assert cs[..j + 1] == cs;
      LastChildStep(init, last, TraverseAll(step, cs, base), base);
    }
  }

  /** The helpers of the children followed by the node's own. */
  lemma {:induction false} OwnStep(cs: Gens, own: Gen, r: Gen, base: nat)
    requires r == Gen(own.expr, cs.helpers + own.helpers)
    requires HelpersOrdered(cs.helpers, base)
    requires DefinesBeforeUse(own, base + |cs.helpers|)
    ensures DefinesBeforeUse(r, base)
  {
    HelpersOrderedAppend(cs.helpers, own.helpers, base);
  }

  /** The children so far followed by one more. */
  lemma {:induction false} LastChildStep(init: Gens, last: Gen, r: Gens, base: nat)
    requires r == Gens(init.exprs + [last.expr], init.helpers + last.helpers)
    requires AllRefsBelow(init.exprs, base + |init.helpers|)
    requires HelpersOrdered(init.helpers, base)
    requires RefsBelow(last.expr, base + |init.helpers| + |last.helpers|)
    requires HelpersOrdered(last.helpers, base + |init.helpers|)
    ensures AllRefsBelow(r.exprs, base + |r.helpers|) && HelpersOrdered(r.helpers, base)
  {
    HelpersOrderedAppend(init.helpers, last.helpers, base);
    forall j | 0 <= j < |r.exprs| ensures RefsBelow(r.exprs[j], base + |r.helpers|) {
      if j < |init.exprs| {
        RefsBelowMonotone(init.exprs[j], base + |init.helpers|, base + |r.helpers|);
      }
    }
  }

  /** `_genExpr`'s own step keeps helpers defined before use. */
  lemma {:induction false} CombineKeepsOrder(num: Numerics)
    ensures KeepsOrder(CombineStep(num))
  {
    forall name, params, exprs, k: nat | AllRefsBelow(exprs, k)
      ensures DefinesBeforeUse(CombineStep(num)(name, params, exprs, k), k)
    {
      CombineStepRefs(num, name, params, exprs, k);
    }
  }

  lemma {:induction false} CombineStepRefs(num: Numerics, name: string, params: map<string, Num>, exprs: seq<Code>, k: nat)
    requires AllRefsBelow(exprs, k)
    ensures DefinesBeforeUse(CombineStep(num)(name, params, exprs, k), k)
  {
    CombineRefs(num, name, params, exprs, k);
  }

  /** Every helper calls only helpers defined before it, and the node's
      expression calls only helpers defined so far. */
  lemma {:induction false} GenNodeDefinesBeforeUse(num: Numerics, g: Geometry, base: nat)
    ensures DefinesBeforeUse(GenNode(num, g, base), base)
  {
    CombineKeepsOrder(num);
    TraverseOrdered(CombineStep(num), g, base);
  }

  /** The program the class writes: helpers f0 .. f(n-1) numbered from 0 in
      emission order, n being `HelperCount`, each calling only helpers
      before it, then `de`, which calls only those helpers. */
  lemma {:induction false} ProgramDefinesBeforeUse(num: Numerics, tree: Geometry)
    ensures var g := GenNode(num, tree, 0);
      && |g.helpers| == HelperCount(tree)
      && HelpersOrdered(g.helpers, 0)
      && RefsBelow(g.expr, |g.helpers|)
      && ProgramText(num, tree) == Definitions(g.helpers) + FuncDef("de", Render(g.expr)) + FuncDef("he", "1e9")
  {
    GenNodeHelperCount(num, tree, 0);
    GenNodeDefinesBeforeUse(num, tree, 0);
  }
}
