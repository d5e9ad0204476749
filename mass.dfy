/**
 * The mass value type: an amount held in micrograms (the canonical unit)
 * together with the unit it is displayed in, the fixed ratio and name tables
 * of the ten units, conversion between units, arithmetic, comparison and
 * text rendering.
 *
 * Doubles are modelled as exact reals, so every ratio of the table (all of
 * them exact rationals) is represented without rounding.
 */
module Mass {

  /** The ten display units, in the order of the source's enumeration. */
  datatype Unit = Ug | Mg | G | Kg | Ton | ImpTon | UsTon | St | Lb | Oz

  /** The enumeration value of a unit, which indexes both tables. */
  function Index(u: Unit): (i: nat)
    ensures i < 10
  {
    match u
    case Ug => 0
    case Mg => 1
    case G => 2
    case Kg => 3
    case Ton => 4
    case ImpTon => 5
    case UsTon => 6
    case St => 7
    case Lb => 8
    case Oz => 9
  }

  /** The unit whose enumeration value is i. */
  function UnitAt(i: nat): (u: Unit)
    requires i < 10
    ensures Index(u) == i
  {
    [Ug, Mg, G, Kg, Ton, ImpTon, UsTon, St, Lb, Oz][i]
  }

  /** Enumeration values and units are in one-to-one correspondence. */
  lemma IndexBijective(u: Unit, i: nat)
    requires i < 10
    ensures UnitAt(Index(u)) == u
    ensures Index(UnitAt(i)) == i
    ensures Index(u) == i <==> u == UnitAt(i)
  {
    match u
    case Ug =>
    case Mg =>
    case G =>
    case Kg =>
    case Ton =>
    case ImpTon =>
    case UsTon =>
    case St =>
    case Lb =>
    case Oz =>
  }

  /** Micrograms per one unit, indexed by enumeration value. */
  const MassRatios: seq<real> := [
    1.0,
    1000.0,
    1000000.0,
    1000000000.0,
    1000000000000.0,
    1016046908800.0,
    907184740000.0,
    6350293180.0,
    453592370.0,
    28349523.125
  ]

  /** Display names, indexed by enumeration value. */
  const MassNames: seq<string> := [
    "\U{03BC}g",
    "mg",
    "g",
    "kg",
    "ton",
    "ton (IMP)",
    "ton (US)",
    "st",
    "lb",
    "oz"
  ]

  /** Capacity of the caller's text buffer, terminating NUL included. */
  const ToStringBuffSize: nat := 64

  /** The double-precision machine epsilon, 2^-52. */
  const DblEpsilon: real := 1.0 / 4503599627370496.0

  /** Every ratio is at least one microgram, and only the microgram's is exactly one. */
  lemma RatiosTable(i: nat)
    requires i < 10
    ensures |MassRatios| == 10 && |MassNames| == 10
    ensures MassRatios[i] >= 1.0
    ensures MassRatios[i] == 1.0 <==> i == 0
  {
  }

  function Ratio(u: Unit): (r: real)
    ensures r >= 1.0
    ensures r == 1.0 <==> u == Ug
  {
    RatiosTable(Index(u));
    MassRatios[Index(u)]
  }

  function Name(u: Unit): (s: string)
    ensures 0 < |s| < 10
  {
    RatiosTable(Index(u));
    MassNames[Index(u)]
  }

  function Abs(x: real): (r: real)
    ensures r >= 0.0 && (r == x || r == -x)
  {
    if x < 0.0 then -x else x
  }

  /**
   * Conversion as the two-hop routing through micrograms: the physical mass
   * is preserved, i.e. the amount in micrograms does not change.
   */
  function Convert(amount: real, from: Unit, to: Unit): (r: real)
    ensures r * Ratio(to) == amount * Ratio(from)
    decreases if from == Ug then 0 else 1
  {
    if from == to then amount
    else if to == Ug then amount * Ratio(from)
    else if from == Ug then
      DivThenMul(amount, Ratio(to));
      amount / Ratio(to)
    else
      var ug := amount * Ratio(from);
      assert Ratio(Ug) == 1.0;
      Convert(ug, Ug, to)
  }

  lemma DivThenMul(x: real, k: real)
    requires k > 0.0
    ensures x / k * k == x
  {
  }

  /**
   * Conversion exactly as the source writes it: when neither side is the
   * microgram its last branch converts from toUnit to micrograms, so the
   * result is amount * ratio(toUnit). Whenever one side is the microgram,
   * or both units agree, it coincides with Convert.
   */
  function ConvertAsWritten(amount: real, from: Unit, to: Unit): (r: real)
    ensures from == to || from == Ug || to == Ug ==> r == Convert(amount, from, to)
    ensures from != to && from != Ug && to != Ug ==> r == amount * Ratio(to)
    decreases if to == Ug then 0 else 1
  {
    if from == to then amount
    else if to == Ug then amount * Ratio(from)
    else if from == Ug then amount / Ratio(to)
    else ConvertAsWritten(amount, to, Ug)
  }

  lemma CancelPositive(x: real, y: real, k: real)
    requires k > 0.0 && x * k == y * k
    ensures x == y
  {
    assert x == (x * k) / k;
  }

  /** Converting to a unit and back gives the amount back exactly, for every pair. */
  lemma {:induction false} ConvertRoundTrip(amount: real, from: Unit, to: Unit)
    ensures Convert(Convert(amount, from, to), to, from) == amount
  {
    var x := Convert(amount, from, to);
    var y := Convert(x, to, from);
    assert y * Ratio(from) == amount * Ratio(from);
    CancelPositive(y, amount, Ratio(from));
  }

  /** Converting within one unit is the identity, with no drift. */
  lemma ConvertSameUnit(amount: real, u: Unit)
    ensures Convert(amount, u, u) == amount
    ensures ConvertAsWritten(amount, u, u) == amount
  {
  }

  /**
   * The as-written conversion from milligrams to grams multiplies by the
   * gram's ratio instead of dividing by a thousand, so its round trip is off
   * by a factor of 10^9; the two-hop conversion round-trips exactly.
   */
  lemma ConvertAsWrittenRoundTripFails()
    ensures ConvertAsWritten(1.0, Mg, G) == 1000000.0
    ensures ConvertAsWritten(ConvertAsWritten(1.0, Mg, G), G, Mg) == 1000000000.0
    ensures Convert(1.0, Mg, G) == 1.0 / 1000.0
    ensures Convert(Convert(1.0, Mg, G), G, Mg) == 1.0
  {
    assert Ratio(Mg) == 1000.0 && Ratio(G) == 1000000.0;
    var x := Convert(1.0, Mg, G);
    assert x * 1000000.0 == 1000.0;
    ConvertRoundTrip(1.0, Mg, G);
  }

  /** A mass: its amount in micrograms and its display unit. */
  datatype Quantity = Quantity(ug: real, unit: Unit)

  /** A mass of val in unit, displayed in unit. */
  function Init(unit: Unit, val: real): (m: Quantity)
    ensures m.unit == unit
    ensures m.ug == val * Ratio(unit)
  {
    Quantity(ConvertAsWritten(val, unit, Ug), unit)
  }

  /** The amount of m expressed in its display unit. */
  function GetValue(m: Quantity): (v: real)
    ensures v * Ratio(m.unit) == m.ug
  {
    ConvertAsWritten(m.ug, Ug, m.unit)
  }

  /** Reading back a freshly initialised mass gives exactly the value it was made from. */
  lemma {:induction false} InitGetValue(unit: Unit, val: real)
    ensures GetValue(Init(unit, val)) == val
  {
    var m := Init(unit, val);
    CancelPositive(GetValue(m), val, Ratio(unit));
  }

  /** Re-initialising a mass from its displayed value gives the same mass. */
  lemma GetValueInit(m: Quantity)
    ensures Init(m.unit, GetValue(m)) == m
  {
  }

  function Add(lhs: Quantity, rhs: Quantity): (res: Quantity)
    ensures res.unit == lhs.unit && res.ug == lhs.ug + rhs.ug
  {
    Quantity(lhs.ug + rhs.ug, lhs.unit)
  }

  function Sub(lhs: Quantity, rhs: Quantity): (res: Quantity)
    ensures res.unit == lhs.unit && res.ug == lhs.ug - rhs.ug
  {
    Quantity(lhs.ug - rhs.ug, lhs.unit)
  }

  function Mul(lhs: Quantity, rhs: Quantity): (res: Quantity)
    ensures res.unit == lhs.unit && res.ug == lhs.ug * rhs.ug
  {
    Quantity(lhs.ug * rhs.ug, lhs.unit)
  }

  /**
   * Division, refused when the divisor is within epsilon of zero; then the
   * previous content of the result is returned unchanged.
   */
  function Div(lhs: Quantity, rhs: Quantity, res: Quantity): (r: (bool, Quantity))
    ensures r.0 <==> Abs(rhs.ug) >= DblEpsilon
    ensures !r.0 ==> r.1 == res
    ensures r.0 ==> r.1.unit == lhs.unit && r.1.ug * rhs.ug == lhs.ug
  {
    if Abs(rhs.ug) < DblEpsilon then (false, res)
    else (true, Quantity(lhs.ug / rhs.ug, lhs.unit))
  }

  /** Subtraction undoes addition, and addition undoes subtraction, on the canonical amount. */
  lemma AddSubInverse(a: Quantity, b: Quantity)
    ensures Sub(Add(a, b), b) == a
    ensures Add(Sub(a, b), b) == a
  {
  }

  /** Addition commutes on the canonical amount; only the display unit may differ. */
  lemma AddCommutes(a: Quantity, b: Quantity)
    ensures Add(a, b).ug == Add(b, a).ug
    ensures Eq(Add(a, b), Add(b, a))
  {
  }

  /** Division undoes multiplication whenever the multiplier is not near zero. */
  lemma MulDivInverse(a: Quantity, b: Quantity, res: Quantity)
    requires Abs(b.ug) >= DblEpsilon
    ensures Div(Mul(a, b), b, res) == (true, a)
  {
    assert b.ug != 0.0;
    assert (a.ug * b.ug) / b.ug == a.ug;
    assert Mul(a, b) == Quantity(a.ug * b.ug, a.unit);
    assert Div(Mul(a, b), b, res).1 == Quantity(a.ug, a.unit);
  }

  /** In place: self becomes self + rhs. */
  function AddEq(self: Quantity, rhs: Quantity): (self': Quantity)
    ensures self' == Add(self, rhs)
  {
    Add(self, rhs)
  }

  /** In place: self becomes self - rhs. */
  function SubEq(self: Quantity, rhs: Quantity): (self': Quantity)
    ensures self' == Sub(self, rhs)
  {
    Sub(self, rhs)
  }

  /** In place: self becomes self * rhs. */
  function MulEq(self: Quantity, rhs: Quantity): (self': Quantity)
    ensures self' == Mul(self, rhs)
  {
    Mul(self, rhs)
  }

  /** In place: self becomes self / rhs, and is left alone when rhs is near zero. */
  function DivEq(self: Quantity, rhs: Quantity): (r: (bool, Quantity))
    ensures r.0 <==> Abs(rhs.ug) >= DblEpsilon
    ensures !r.0 ==> r.1 == self
    ensures r.0 ==> r.1.unit == self.unit && r.1.ug * rhs.ug == self.ug
  {
    Div(self, rhs, self)
  }

  /** Approximate equality: the canonical amounts differ by less than epsilon. */
  function Eq(lhs: Quantity, rhs: Quantity): (b: bool)
    ensures b <==> -DblEpsilon < lhs.ug - rhs.ug < DblEpsilon
  {
    Abs(lhs.ug - rhs.ug) < DblEpsilon
  }

  function Neq(lhs: Quantity, rhs: Quantity): (b: bool)
    ensures b <==> lhs.ug - rhs.ug <= -DblEpsilon || DblEpsilon <= lhs.ug - rhs.ug
  {
    !Eq(lhs, rhs)
  }

  function Lt(lhs: Quantity, rhs: Quantity): (b: bool)
    ensures b <==> lhs.ug < rhs.ug
  {
    lhs.ug < rhs.ug
  }

  function Gt(lhs: Quantity, rhs: Quantity): (b: bool)
    ensures b <==> lhs.ug > rhs.ug
  {
    Lt(rhs, lhs)
  }

  function Lteq(lhs: Quantity, rhs: Quantity): (b: bool)
    ensures b <==> lhs.ug <= rhs.ug
  {
    !Gt(lhs, rhs)
  }

  function Gteq(lhs: Quantity, rhs: Quantity): (b: bool)
    ensures b <==> lhs.ug >= rhs.ug
  {
    !Lt(lhs, rhs)
  }

  /** Approximate equality is reflexive and symmetric, and Neq is its negation. */
  lemma EqIsTolerance(a: Quantity, b: Quantity)
    ensures Eq(a, a)
    ensures Eq(a, b) <==> Eq(b, a)
    ensures Neq(a, b) <==> !Eq(a, b)
  {
  }

  /**
   * Approximate equality is not transitive, and a mass can be both "equal"
   * to and "less than" another: the tolerance is only for near-equal values.
   */
  lemma EqToleranceLimits()
    ensures var a, b, c := Quantity(0.0, Ug), Quantity(DblEpsilon / 2.0, Ug), Quantity(DblEpsilon, Ug);
      Eq(a, b) && Eq(b, c) && !Eq(a, c) && Lt(a, b) && Eq(a, b)
  {
  }

  /** Lt is a strict order on canonical amounts, and the other comparisons are derived from it. */
  lemma OrderingLaws(a: Quantity, b: Quantity, c: Quantity)
    ensures !Lt(a, a)
    ensures Lt(a, b) && Lt(b, c) ==> Lt(a, c)
    ensures Gt(a, b) == Lt(b, a)
    ensures Lteq(a, b) == !Gt(a, b) && Gteq(a, b) == !Lt(a, b)
    ensures Lteq(a, b) || Lteq(b, a)
  {
  }

  // ---- text rendering ----

  function Pow10(k: nat): (p: real)
    ensures p >= 1.0
  {
    if k == 0 then 1.0 else 10.0 * Pow10(k - 1)
  }

  lemma {:induction false} Pow10Add(a: nat, b: nat)
    ensures Pow10(a + b) == Pow10(a) * Pow10(b)
  {
    if a > 0 {
      Pow10Add(a - 1, b);
    }
  }

  lemma Pow10Sixteen()
    ensures Pow10(16) == 10000000000000000.0
  {
    assert Pow10(2) == 100.0;
    Pow10Add(2, 2);
    Pow10Add(4, 4);
    Pow10Add(8, 8);
  }

  /** The absolute value of the fractional part of n, as fabs(modf(n)) yields it. */
  function FracPart(n: real): (f: real)
    ensures 0.0 <= f < 1.0
    ensures f == 0.0 <==> Abs(n) == Abs(n).Floor as real
  {
    Abs(n) - Abs(n).Floor as real
  }

  /** Scaling f by 10^e brings it to at least one: its first significant digit lies within e decimals. */
  predicate ReachesOne(f: real, e: nat)
  {
    f * Pow10(e) >= 1.0
  }

  /** Any fraction of at least epsilon reaches one within 16 decimals. */
  lemma EpsilonReachesOne(f: real)
    requires DblEpsilon <= f
    ensures ReachesOne(f, 16)
  {
    Pow10Sixteen();
    assert DblEpsilon * 10000000000000000.0 >= 1.0;
  }

  /**
   * Search for ceil(1 - log10 f): the least d >= k with f * 10^(d-1) >= 1.
   * Since f is at least epsilon, d never exceeds 17.
   */
  function DecimalsFrom(f: real, k: nat): (d: nat)
    requires DblEpsilon <= f < 1.0
    requires 2 <= k <= 17
    requires !ReachesOne(f, k - 2)
    ensures k <= d <= 17
    ensures ReachesOne(f, d - 1) && !ReachesOne(f, d - 2)
    decreases 17 - k
  {
    if ReachesOne(f, k - 1) then k
    else
      EpsilonReachesOne(f);
      DecimalsFrom(f, k + 1)
  }

  /**
   * How many decimals the source prints for n: none when the fractional
   * part is below epsilon, otherwise ceil(1 - log10(frac)), the least d with
   * frac * 10^(d-1) >= 1. That puts the first significant fractional digit
   * at position d - 1, followed by one more digit.
   */
  function Decimals(n: real): (d: nat)
    ensures d == 0 <==> FracPart(n) < DblEpsilon
    ensures d != 0 ==> 2 <= d <= 17 && ReachesOne(FracPart(n), d - 1) && !ReachesOne(FracPart(n), d - 2)
  {
    var f := FracPart(n);
    if f < DblEpsilon then 0 else DecimalsFrom(f, 2)
  }

  /** The rendered text and the length snprintf reports (that of the untruncated text). */
  datatype Rendered = Rendered(text: string, count: nat)

  /**
   * Renders m as "<amount> <unit name>". The fixed-point formatting of a
   * double with a given number of decimals is the parameter fixed; the text
   * is truncated to fit the buffer with its terminating NUL.
   */
  function ToString(m: Quantity, fixed: (real, nat) -> string): (out: Rendered)
    ensures out.count == |fixed(GetValue(m), Decimals(GetValue(m)))| + 1 + |Name(m.unit)|
    ensures |out.text| < ToStringBuffSize
    ensures out.text <= fixed(GetValue(m), Decimals(GetValue(m))) + " " + Name(m.unit)
    ensures out.count < ToStringBuffSize ==>
              out.text == fixed(GetValue(m), Decimals(GetValue(m))) + " " + Name(m.unit)
  {
    var n := GetValue(m);
    var full := fixed(n, Decimals(n)) + " " + Name(m.unit);
    Rendered(if |full| < ToStringBuffSize then full else full[..ToStringBuffSize - 1], |full|)
  }

  /** Whole values get no decimals, 1.5 gets two, 0.003 gets four, 32.4762 gets two. */
  lemma DecimalsExamples()
    ensures Decimals(2.0) == 0
    ensures Decimals(1.5) == 2
    ensures Decimals(0.003) == 4
    ensures Decimals(32.4762) == 2
  {
    assert FracPart(32.4762) == 0.4762;
    assert FracPart(1.5) == 0.5;
    assert Pow10(1) == 10.0;
    assert Pow10(2) == 100.0;
    assert Pow10(3) == 1000.0;
  }

  /** When it fits, the text ends with one space and the unit's table name. */
  lemma ToStringSuffix(m: Quantity, fixed: (real, nat) -> string)
    requires ToString(m, fixed).count < ToStringBuffSize
    ensures var t := ToString(m, fixed).text;
      |t| > |Name(m.unit)| &&
      t[|t| - |Name(m.unit)| - 1..] == " " + MassNames[Index(m.unit)]
  {
  }
}
