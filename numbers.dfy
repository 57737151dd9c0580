/** The numbers of the compiler. JavaScript evaluates parameters in IEEE doubles;
    this model keeps their special values (the infinities and NaN) but computes on
    exact reals, so rounding and the sign of zero are not modelled. */
module Numbers {

  /** A double: a finite value, one of the two infinities, or NaN. */
  datatype Num = Fin(v: real) | PosInf | NegInf | NaN

  /** JavaScript's Math.PI as its decimal expansion. */
  const Pi: real := 3.141592653589793

  function Neg(a: Num): Num
  {
    match a
    case Fin(x) => Fin(-x)
    case PosInf => NegInf
    case NegInf => PosInf
    case NaN => NaN
  }

  function Add(a: Num, b: Num): (r: Num)
    ensures a.Fin? && b.Fin? ==> r == Fin(a.v + b.v)
    ensures a.NaN? || b.NaN? ==> r.NaN?
  {
    match (a, b)
    case (NaN, _) => NaN
    case (_, NaN) => NaN
    case (PosInf, NegInf) => NaN
    case (NegInf, PosInf) => NaN
    case (PosInf, _) => PosInf
    case (NegInf, _) => NegInf
    case (_, PosInf) => PosInf
    case (_, NegInf) => NegInf
    case (Fin(x), Fin(y)) => Fin(x + y)
  }

  /** IEEE subtraction is addition of the negation. */
  function Sub(a: Num, b: Num): Num
  {
    Add(a, Neg(b))
  }

  /** Unary minus: the additive inverse of a finite value; the infinities
      swap and NaN stays NaN. */
  lemma {:induction false} Negation(a: Num)
    ensures Neg(a).NaN? <==> a.NaN?
    ensures a.Fin? ==> Neg(a).Fin? && a.v + Neg(a).v == 0.0
    ensures Neg(a).PosInf? <==> a.NegInf?
    ensures Neg(a).NegInf? <==> a.PosInf?
  {
  }

  /** Subtraction: exact on finite values, NaN from NaN and from the
      difference of two equal infinities, and a finite value minus an
      infinity is the opposite infinity. */
  lemma {:induction false} Subtraction(a: Num, b: Num)
    ensures a.Fin? && b.Fin? ==> Sub(a, b) == Fin(a.v - b.v)
    ensures a.NaN? || b.NaN? ==> Sub(a, b).NaN?
    ensures a == b && !a.Fin? ==> Sub(a, b).NaN?
    ensures a.Fin? && b.PosInf? ==> Sub(a, b) == NegInf
    ensures a.Fin? && b.NegInf? ==> Sub(a, b) == PosInf
  {
  }

  /** -1, 0 or 1 for a value that is not NaN. */
  function Sign(a: Num): int
    requires !a.NaN?
  {
    match a
    case Fin(x) => if x < 0.0 then -1 else if x == 0.0 then 0 else 1
    case PosInf => 1
    case NegInf => -1
  }

  function InfinityOfSign(s: int): Num
  {
    if s < 0 then NegInf else PosInf
  }

  function Mul(a: Num, b: Num): (r: Num)
    ensures a.Fin? && b.Fin? ==> r == Fin(a.v * b.v)
    ensures a.NaN? || b.NaN? ==> r.NaN?
  {
    if a.NaN? || b.NaN? then NaN
    else if a.Fin? && b.Fin? then Fin(a.v * b.v)
    else if Sign(a) == 0 || Sign(b) == 0 then NaN   // infinity times zero
    else InfinityOfSign(Sign(a) * Sign(b))
  }

  function Div(a: Num, b: Num): (r: Num)
    ensures a.Fin? && b.Fin? && b.v != 0.0 ==> r == Fin(a.v / b.v)
    ensures a.NaN? || b.NaN? ==> r.NaN?
  {
    if a.NaN? || b.NaN? then NaN
    else if !a.Fin? && !b.Fin? then NaN               // infinity over infinity
    else if !b.Fin? then Fin(0.0)                      // finite over infinity
    else if !a.Fin? then InfinityOfSign(Sign(a) * (if b.v < 0.0 then -1 else 1))
    else if b.v != 0.0 then Fin(a.v / b.v)
    else if a.v == 0.0 then NaN                        // zero over zero
    else InfinityOfSign(Sign(a))                       // non-zero over zero
  }

  /** `value > bound` as JavaScript compares a double with a number (false for NaN). */
  predicate Above(a: Num, bound: real)
  {
    a.PosInf? || (a.Fin? && a.v > bound)
  }

  /** `value < bound`, false for NaN. */
  predicate Below(a: Num, bound: real)
  {
    a.NegInf? || (a.Fin? && a.v < bound)
  }

  /** The bound of every literal written into generated code. */
  const Limit: real := 1000000.0

  /** The two `if`s of `_f`: values above 1e6 become 1e6, values below -1e6
      become -1e6. Both comparisons are false for NaN, so NaN passes unchanged. */
  function Clamp(a: Num): (r: Num)
    ensures a.NaN? <==> r.NaN?
    ensures !a.NaN? ==> r.Fin? && -Limit <= r.v <= Limit
    ensures a.Fin? && -Limit <= a.v <= Limit ==> r == a
    ensures Above(a, Limit) ==> r == Fin(Limit)
    ensures Below(a, -Limit) ==> r == Fin(-Limit)
  {
    var capped := if Above(a, Limit) then Fin(Limit) else a;
    if Below(capped, -Limit) then Fin(-Limit) else capped
  }

  predicate IsDigit(c: char)
  {
    '0' <= c <= '9'
  }

  function DigitValue(c: char): nat
    requires IsDigit(c)
  {
    (c as int) - ('0' as int)
  }

  predicate AllDigits(s: string)
  {
    forall k :: 0 <= k < |s| ==> IsDigit(s[k])
  }

  /** The value of a run of decimal digits, most significant first. */
  function DigitsValue(s: string): nat
    requires AllDigits(s)
  {
    if s == [] then 0 else DigitsValue(s[..|s| - 1]) * 10 + DigitValue(s[|s| - 1])
  }

  function Pow10(n: nat): (r: nat)
    ensures r >= 1
  {
    if n == 0 then 1 else 10 * Pow10(n - 1)
  }

  /** The index of the first '.' in `s`, or `|s|` when there is none. */
  function DotIndex(s: string): (k: nat)
    ensures k <= |s| && '.' !in s[..k]
    ensures k < |s| ==> s[k] == '.'
  {
    if s == [] then 0
    else if s[0] == '.' then 0
    else
      var k := DotIndex(s[1..]);
      assert s[..k + 1] == [s[0]] + s[1..][..k];
      k + 1
  }

  /** `DotIndex` finds the first '.'. */
  lemma {:induction false} DotIndexAt(s: string, k: nat)
    requires k <= |s| && (forall j :: 0 <= j < k ==> s[j] != '.')
    requires k < |s| ==> s[k] == '.'
    ensures DotIndex(s) == k
  {
    if s != [] && s[0] != '.' {
      assert k > 0;
      DotIndexAt(s[1..], k - 1);
    }
  }

  /** The text of a NUMBER token: one or more digits, optionally followed by
      a '.' and one or more digits. */
  predicate IsNumberText(s: string)
  {
    var k := DotIndex(s);
    0 < k && AllDigits(s[..k]) && (k == |s| || (k < |s| - 1 && AllDigits(s[k + 1..])))
  }

  /** The exact value of a NUMBER token's text: integral part plus fraction. */
  function DecimalValue(s: string): (r: real)
    requires IsNumberText(s)
    ensures r >= 0.0
    ensures AllDigits(s) ==> r == DigitsValue(s) as real
  {
    var k := DotIndex(s);
    if k == |s| then assert s[..k] == s; DigitsValue(s) as real
    else DigitsValue(s[..k]) as real + (DigitsValue(s[k + 1..]) as real) / (Pow10(|s| - k - 1) as real)
  }

  /** `parseFloat` of an optional sign followed by NUMBER text, which is all
      the parser ever hands it. */
  function ParseFloat(s: string): (r: real)
    requires |s| > 0
    requires s[0] in "+-" ==> IsNumberText(s[1..])
    requires s[0] !in "+-" ==> IsNumberText(s)
    ensures s[0] == '-' ==> r <= 0.0
    ensures s[0] != '-' ==> r >= 0.0
  {
    if s[0] == '-' then -DecimalValue(s[1..])
    else if s[0] == '+' then DecimalValue(s[1..])
    else DecimalValue(s)
  }
}
