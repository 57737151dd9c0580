/** The GLSL text the code generator builds (worker.js:58-82 and the
    combinators of worker.js:194-219).

    Generated code is kept as a tree of literal text, references to helper
    functions by number, and concatenations. `Render` turns it into the
    exact string the source concatenates; keeping the references apart is
    what lets the model state which helpers an expression calls. */
module CodeText {
  import opened Numbers

  datatype Code = Chars(s: string) | Name(helper: nat) | Cat(left: Code, right: Code)

  function Digit(d: nat): (c: char)
    requires d < 10
    ensures IsDigit(c) && DigitValue(c) == d
  {
    ('0' as int + d) as char
  }

  /** A natural number in decimal, as JavaScript converts it to a string. */
  function NatText(n: nat): (r: string)
    ensures |r| > 0 && AllDigits(r)
  {
    if n < 10 then [Digit(n)] else NatText(n / 10) + [Digit(n % 10)]
  }

  /** Reading the digits back gives the number. */
  lemma {:induction false} NatTextValue(n: nat)
    ensures DigitsValue(NatText(n)) == n
  {
    if n >= 10 {
      NatTextValue(n / 10);
      var r := NatText(n);
      assert r[..|r| - 1] == NatText(n / 10);
    }
  }

  /** `'f' + this._fid++`. */
  function HelperName(k: nat): string
  {
    "f" + NatText(k)
  }

  /** Distinct numbers give distinct helper names. */
  lemma {:induction false} HelperNamesDistinct(m: nat, n: nat)
    requires m != n
    ensures HelperName(m) != HelperName(n)
  {
    if HelperName(m) == HelperName(n) {
      assert NatText(m) == HelperName(m)[1..];
      NatTextValue(m);
      NatTextValue(n);
    }
  }

  function Render(c: Code): string
  {
    match c
    case Chars(s) => s
    case Name(k) => HelperName(k)
    case Cat(a, b) => Render(a) + Render(b)
  }

  /** Every helper the code calls has a number below `n`. */
  predicate RefsBelow(c: Code, n: nat)
  {
    match c
    case Chars(_) => true
    case Name(k) => k < n
    case Cat(a, b) => RefsBelow(a, n) && RefsBelow(b, n)
  }

  lemma {:induction false} RefsBelowMonotone(c: Code, m: nat, n: nat)
    requires RefsBelow(c, m) && m <= n
    ensures RefsBelow(c, n)
  {
    match c
    case Chars(_) =>
    case Name(_) =>
    case Cat(a, b) =>
      RefsBelowMonotone(a, m, n);
      RefsBelowMonotone(b, m, n);
  }

  /** `open + a + ',' + b + ')'`, the shape of the two-argument builders. */
  function Call2(open: string, a: Code, b: Code): Code
  {
    Cat(Chars(open), Cat(a, Cat(Chars(","), Cat(b, Chars(")")))))
  }

  /** `_dot(a, b)`. */
  function Dot(a: Code, b: Code): Code
  {
    Call2("dot(", a, b)
  }

  /** `_max(a, b)`. */
  function MaxOf(a: Code, b: Code): Code
  {
    Call2("max(", a, b)
  }

  /** `_min(a, b)`. */
  function MinOf(a: Code, b: Code): Code
  {
    Call2("min(", a, b)
  }

  /** `_vec3(x, y, z)`. */
  function Vec3(x: Code, y: Code, z: Code): Code
  {
    Cat(Chars("vec3("), Cat(x, Cat(Chars(","), Cat(y, Cat(Chars(","), Cat(z, Chars(")")))))))
  }

  /** `_f(value)`: a float literal of the clamped value, written with the
      number formatting `show`. */
  function Literal(show: Num -> string, value: Num): Code
  {
    Chars("float(" + show(Clamp(value)) + ")")
  }

  /** The literal `_f` writes: the value itself within the limit, the limit
      of its sign beyond it, and NaN as it is. */
  lemma {:induction false} LiteralText(show: Num -> string, value: Num)
    ensures value.Fin? && -Limit <= value.v <= Limit ==> Literal(show, value) == Chars("float(" + show(value) + ")")
    ensures Above(value, Limit) ==> Literal(show, value) == Chars("float(" + show(Fin(Limit)) + ")")
    ensures Below(value, -Limit) ==> Literal(show, value) == Chars("float(" + show(Fin(-Limit)) + ")")
    ensures value.NaN? ==> Literal(show, value) == Chars("float(" + show(NaN) + ")")
  {
  }

  /** `'-(' + e + ')'`, the negated operand of a difference. */
  function Negated(e: Code): Code
  {
    Cat(Chars("-("), Cat(e, Chars(")")))
  }

  /** The builders render to the strings the source concatenates. */
  lemma {:induction false} RenderBuilders(a: Code, b: Code, c: Code)
    ensures Render(Dot(a, b)) == "dot(" + Render(a) + "," + Render(b) + ")"
    ensures Render(MaxOf(a, b)) == "max(" + Render(a) + "," + Render(b) + ")"
    ensures Render(MinOf(a, b)) == "min(" + Render(a) + "," + Render(b) + ")"
    ensures Render(Vec3(a, b, c)) == "vec3(" + Render(a) + "," + Render(b) + "," + Render(c) + ")"
    ensures Render(Negated(a)) == "-(" + Render(a) + ")"
  {
    RenderCall2("dot(", a, b);
    RenderCall2("max(", a, b);
    RenderCall2("min(", a, b);
    RenderVec3(a, b, c);
    RenderNegated(a);
  }

  lemma {:induction false} RenderVec3(a: Code, b: Code, c: Code)
    ensures Render(Vec3(a, b, c)) == "vec3(" + Render(a) + "," + Render(b) + "," + Render(c) + ")"
  {
    var z := Cat(c, Chars(")"));
    assert Render(z) == Render(c) + ")";
    var y := Cat(b, Cat(Chars(","), z));
    assert Render(Cat(Chars(","), z)) == "," + Render(z);
    assert Render(y) == Render(b) + ("," + (Render(c) + ")"));
    var x := Cat(a, Cat(Chars(","), y));
    assert Render(Cat(Chars(","), y)) == "," + Render(y);
    assert Render(x) == Render(a) + ("," + Render(y));
    assert Render(Vec3(a, b, c)) == "vec3(" + Render(x);
  }

  lemma {:induction false} RenderNegated(a: Code)
    ensures Render(Negated(a)) == "-(" + Render(a) + ")"
  {
    assert Render(Cat(a, Chars(")"))) == Render(a) + ")";
    assert Render(Negated(a)) == "-(" + (Render(a) + ")");
  }

  lemma {:induction false} RenderCall2(open: string, a: Code, b: Code)
    ensures Render(Call2(open, a, b)) == open + Render(a) + "," + Render(b) + ")"
  {
    var tail := Cat(Chars(","), Cat(b, Chars(")")));
    assert Render(Cat(b, Chars(")"))) == Render(b) + ")";
    assert Render(tail) == "," + (Render(b) + ")");
    assert Render(Call2(open, a, b)) == open + (Render(a) + Render(tail));
  }

  lemma {:induction false} RefsBelowCall2(open: string, a: Code, b: Code, n: nat)
    ensures RefsBelow(Call2(open, a, b), n) <==> RefsBelow(a, n) && RefsBelow(b, n)
  {
    assert RefsBelow(Cat(b, Chars(")")), n) <==> RefsBelow(b, n);
    assert RefsBelow(Cat(Chars(","), Cat(b, Chars(")"))), n) <==> RefsBelow(b, n);
  }

  /** `_genUnion`: `min` folded from the left over the operands, starting
      from "1e9". */
  function UnionOf(es: seq<Code>): Code
  {
    if es == [] then Chars("1e9") else MinOf(UnionOf(es[..|es| - 1]), es[|es| - 1])
  }

  /** `_genIntersection`: `max` folded from the left, starting from "-1e9". */
  function IntersectionOf(es: seq<Code>): Code
  {
    if es == [] then Chars("-1e9") else MaxOf(IntersectionOf(es[..|es| - 1]), es[|es| - 1])
  }

  /** `_genDifference`: "1e9" for no operands, else the first operand with
      every later one negated and folded in by `max`. */
  function DifferenceOf(es: seq<Code>): Code
  {
    if es == [] then Chars("1e9")
    else if |es| == 1 then es[0]
    else MaxOf(DifferenceOf(es[..|es| - 1]), Negated(es[|es| - 1]))
  }

  function Repeat(s: string, n: nat): string
  {
    if n == 0 then "" else s + Repeat(s, n - 1)
  }

  /** The text after the start value of a union or intersection: each
      operand followed by the closing parenthesis of its call. */
  function Closers(es: seq<Code>): string
  {
    if es == [] then "" else Closers(es[..|es| - 1]) + "," + Render(es[|es| - 1]) + ")"
  }

  /** The same for the negated operands of a difference; `RenderBuilders`
      shows each one is written "-(" operand ")". */
  function NegatedClosers(es: seq<Code>): string
  {
    if es == [] then "" else NegatedClosers(es[..|es| - 1]) + "," + Render(Negated(es[|es| - 1])) + ")"
  }

  lemma {:induction false} Regroup(open: string, r: string, k: string, c: string, sep: string, e: string, close: string)
    ensures open + (r + k + c) + sep + e + close == open + r + k + (c + sep + e + close)
  {
  }

  /** A union of n operands is n nested `min` calls around "1e9". */
  lemma {:induction false} UnionText(es: seq<Code>)
    ensures Render(UnionOf(es)) == Repeat("min(", |es|) + "1e9" + Closers(es)
    decreases |es|
  {
    if es != [] {
      var init, last := es[..|es| - 1], es[|es| - 1];
      UnionText(init);
      RenderCall2("min(", UnionOf(init), last);
      assert Repeat("min(", |es|) == "min(" + Repeat("min(", |init|);
      assert Closers(es) == Closers(init) + "," + Render(last) + ")";
      Regroup("min(", Repeat("min(", |init|), "1e9", Closers(init), ",", Render(last), ")");
    }
  }

  /** An intersection of n operands is n nested `max` calls around "-1e9". */
  lemma {:induction false} IntersectionText(es: seq<Code>)
    ensures Render(IntersectionOf(es)) == Repeat("max(", |es|) + "-1e9" + Closers(es)
    decreases |es|
  {
    if es != [] {
      var init, last := es[..|es| - 1], es[|es| - 1];
      IntersectionText(init);
      RenderCall2("max(", IntersectionOf(init), last);
      assert Repeat("max(", |es|) == "max(" + Repeat("max(", |init|);
      assert Closers(es) == Closers(init) + "," + Render(last) + ")";
      Regroup("max(", Repeat("max(", |init|), "-1e9", Closers(init), ",", Render(last), ")");
    }
  }

  /** A difference is "1e9" without operands, and otherwise the first
      operand inside one `max` per later operand, each of which is negated. */
  lemma {:induction false} DifferenceText(es: seq<Code>)
    ensures es == [] ==> Render(DifferenceOf(es)) == "1e9"
    ensures es != [] ==> Render(DifferenceOf(es)) == Repeat("max(", |es| - 1) + Render(es[0]) + NegatedClosers(es[1..])
    decreases |es|
  {
    if |es| > 1 {
      DifferenceText(es[..|es| - 1]);
      DifferenceStep(es);
    } else if |es| == 1 {
      assert es[1..] == [];
      assert Repeat("max(", 0) + Render(es[0]) + NegatedClosers([]) == Render(es[0]);
    }
  }

  /** One more operand in a difference. */
  lemma {:induction false} DifferenceStep(es: seq<Code>)
    requires |es| > 1
    requires var init := es[..|es| - 1];
      Render(DifferenceOf(init)) == Repeat("max(", |init| - 1) + Render(init[0]) + NegatedClosers(init[1..])
    ensures Render(DifferenceOf(es)) == Repeat("max(", |es| - 1) + Render(es[0]) + NegatedClosers(es[1..])
  {
    var init, last := es[..|es| - 1], es[|es| - 1];
    RenderCall2("max(", DifferenceOf(init), Negated(last));
    assert init[0] == es[0];
    assert Repeat("max(", |es| - 1) == "max(" + Repeat("max(", |init| - 1);
    var tail := es[1..];
    assert tail[..|tail| - 1] == init[1..] && tail[|tail| - 1] == last;
    assert NegatedClosers(tail) == NegatedClosers(init[1..]) + "," + Render(Negated(last)) + ")";
    Regroup("max(", Repeat("max(", |init| - 1), Render(es[0]), NegatedClosers(init[1..]), ",", Render(Negated(last)), ")");
  }

  /** The combinators call only helpers their operands call. */
  lemma {:induction false} CombinatorsRefsBelow(es: seq<Code>, n: nat)
    requires forall j :: 0 <= j < |es| ==> RefsBelow(es[j], n)
    ensures RefsBelow(UnionOf(es), n) && RefsBelow(IntersectionOf(es), n) && RefsBelow(DifferenceOf(es), n)
    decreases |es|
  {
    if es != [] {
      var init, last := es[..|es| - 1], es[|es| - 1];
      CombinatorsRefsBelow(init, n);
      RefsBelowCall2("min(", UnionOf(init), last, n);
      RefsBelowCall2("max(", IntersectionOf(init), last, n);
      assert RefsBelow(Cat(last, Chars(")")), n);
      assert RefsBelow(Negated(last), n);
      RefsBelowCall2("max(", DifferenceOf(init), Negated(last), n);
    }
  }
}
