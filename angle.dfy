/**
 * The self-normalising angle of angle.py: a direction in radians that every
 * constructor and every arithmetic operator brings back into [0, 2π), with the
 * quadrant and hemisphere classification built on it.
 */
module Angles {

  /** `math.pi` as the program sees it, a fixed positive real. */
  const Pi: real := 3.141592653589793
  const TwoPi: real := 2.0 * Pi
  const HalfPi: real := Pi / 2.0

  /** The values an Angle can take. */
  type Angle = r: real | 0.0 <= r < TwoPi witness 0.0

  /** Python's float `%`: the remainder takes the sign of the divisor. */
  function PyMod(a: real, b: real): (r: real)
    requires b != 0.0
    ensures b > 0.0 ==> 0.0 <= r < b
    ensures b < 0.0 ==> b < r <= 0.0
    ensures 0.0 <= a < b ==> r == a
    ensures ((a - r) / b).Floor as real == (a - r) / b
  {
    var f := (a / b).Floor as real;
    RemainderBounds(a, b, f);
    var r := a - b * f;
    WholeQuotient(a, b, r, (a / b).Floor);
    if 0.0 <= a < b then
      QuotientBounds(a, b, 0.0, 1.0);
      assert f == 0.0;
      r
    else
      r
  }

  /** Taking a whole number of divisors away leaves less than one divisor. */
  lemma RemainderBounds(a: real, b: real, f: real)
    requires b != 0.0 && f <= a / b < f + 1.0
    ensures b > 0.0 ==> 0.0 <= a - b * f < b
    ensures b < 0.0 ==> b < a - b * f <= 0.0
  {
    var q := a / b;
    var t := q - f;
    DivMul(a, b);
    assert b * q == a;
    Distribute(b, q, f);
    assert b * t == b * q - b * f;
    assert a - b * f == b * t;
    UnitScale(b, t);
  }

  /** What the remainder leaves behind is a whole number of divisors. */
  lemma WholeQuotient(a: real, b: real, r: real, f: int)
    requires b != 0.0 && r == a - b * (f as real)
    ensures ((a - r) / b).Floor as real == (a - r) / b
  {
    assert a - r == b * (f as real);
    assert (b * (f as real)) / b == f as real;
  }

  lemma DivMul(a: real, b: real)
    requires b != 0.0
    ensures b * (a / b) == a
  {}

  /** A fraction of a divisor lies between zero and the divisor. */
  lemma UnitScale(b: real, t: real)
    requires 0.0 <= t < 1.0
    ensures b > 0.0 ==> 0.0 <= b * t < b
    ensures b < 0.0 ==> b < b * t <= 0.0
  {
    if b > 0.0 {
      MulMonotone(b, 0.0, t);
      MulMonotone(b, t, 1.0);
    } else if b < 0.0 {
      MulAntitone(b, 0.0, t);
      MulAntitone(b, t, 1.0);
    }
  }

  lemma Distribute(b: real, x: real, y: real)
    ensures b * (x - y) == b * x - b * y
  {}

  /** Bounds on a quotient from bounds on its numerator. */
  lemma QuotientBounds(n: real, d: real, lo: real, hi: real)
    requires d > 0.0 && lo * d <= n < hi * d
    ensures lo <= n / d < hi
  {
    var q := n / d;
    assert q * d == n;
    if q < lo {
      MulMonotone(d, q, lo);
    }
    if q >= hi {
      MulMonotone(d, hi, q);
    }
  }

  lemma MulMonotone(b: real, x: real, y: real)
    requires b > 0.0
    ensures x <= y ==> b * x <= b * y
    ensures x < y ==> b * x < b * y
  {}

  lemma MulAntitone(b: real, x: real, y: real)
    requires b < 0.0
    ensures x <= y ==> b * x >= b * y
    ensures x < y ==> b * x > b * y
  {}

  /** The normalisation `Angle.__new__` applies to a number. */
  function Normalize(radians: real): (r: Angle)
    ensures 0.0 <= radians < TwoPi ==> r == radians
  {
    PyMod(radians, TwoPi)
  }

  /** The argument `Angle(...)` was called with. */
  datatype Radians = Unspecified | Raw(value: real) | Existing(angle: Angle)

  /** `Angle(radians)`: no argument is 0, an Angle is returned as it is, a number is normalised. */
  function New(radians: Radians): (r: Angle)
    ensures radians.Unspecified? ==> r == 0.0
    ensures radians.Existing? ==> r == radians.angle
    ensures radians.Raw? && 0.0 <= radians.value < TwoPi ==> r == radians.value
  {
    match radians
    case Unspecified => Normalize(0.0)
    case Existing(a) => a
    case Raw(v) => Normalize(v)
  }

  /** Wrapping an existing Angle and re-normalising its value agree. */
  lemma NewFromAngleAgrees(a: Angle)
    ensures New(Existing(a)) == New(Raw(a))
  {}

  /** Normalisation forgets whole turns. */
  lemma NormalizeShift(r: real, k: int)
    ensures Normalize(r + TwoPi * (k as real)) == Normalize(r)
  {
    var f := (r / TwoPi).Floor;
    assert (r + TwoPi * (k as real)) / TwoPi == r / TwoPi + k as real;
    assert ((r + TwoPi * (k as real)) / TwoPi).Floor == f + k;
  }

  /** A normalised number differs from the number by whole turns. */
  lemma WholeTurns(v: real)
    ensures Normalize(Normalize(v) - v) == 0.0
  {
    var f := (v / TwoPi).Floor;
    assert Normalize(v) == v - TwoPi * (f as real);
    NormalizeShift(0.0, -f);
    assert Normalize(v) - v == 0.0 + TwoPi * ((-f) as real);
  }

  /** `Angle(r + 2π) == Angle(r)`. */
  lemma NormalizePeriodic(r: real)
    ensures Normalize(r + TwoPi) == Normalize(r)
  {
    NormalizeShift(r, 1);
  }

  /** Normalising twice is normalising once. */
  lemma NormalizeIdempotent(r: real)
    ensures Normalize(Normalize(r)) == Normalize(r)
  {}

  /** Normalising an operand first does not change the normalised sum. */
  lemma NormalizeSum(x: real, y: real)
    ensures Normalize(Normalize(x) + y) == Normalize(x + y)
  {
    var f := (x / TwoPi).Floor;
    assert Normalize(x) == x - TwoPi * (f as real);
    NormalizeShift(x + y, -f);
    assert Normalize(x) + y == (x + y) + TwoPi * ((-f) as real);
  }

  /** Normalising a negated number gives the negated angle: `Angle(-y) == -Angle(y)`. */
  lemma NormalizeNegated(y: real)
    ensures Normalize(-y) == Neg(Normalize(y))
  {
    var n := Normalize(y);
    var f := (y / TwoPi).Floor;
    assert n == y - TwoPi * (f as real);
    NormalizeShift(-y, f);
    assert -y + TwoPi * (f as real) == -(n as real);
  }

  // Quadrants and hemispheres.

  type Quadrant = q: int | 0 <= q < 4

  const FIRST: Quadrant := 0
  const SECOND: Quadrant := 1
  const THIRD: Quadrant := 2
  const FOURTH: Quadrant := 3

  /** A hemisphere is the pair of quadrants it spans. */
  type Hemisphere = (Quadrant, Quadrant)

  const EAST: Hemisphere := (FIRST, FOURTH)
  const NORTH: Hemisphere := (FIRST, SECOND)
  const WEST: Hemisphere := (SECOND, THIRD)
  const SOUTH: Hemisphere := (THIRD, FOURTH)

  /** The order in which `hemispheres` tries them. */
  const Compass: seq<Hemisphere> := [EAST, NORTH, WEST, SOUTH]

  predicate InHemisphere(q: int, h: Hemisphere) {
    q == h.0 || q == h.1
  }

  /** The smallest integer not below `x`, as `math.ceil` computes it. */
  function Ceil(x: real): (c: int)
    ensures x <= c as real < x + 1.0
  {
    -((-x).Floor)
  }

  /** `Angle.quadrant`: `ceil(a / (π/2)) % 4`. */
  function QuadrantOf(a: Angle): (q: Quadrant)
    ensures a == 0.0 ==> q == FIRST
    ensures 0.0 < a <= HalfPi ==> q == SECOND
    ensures HalfPi < a <= Pi ==> q == THIRD
    ensures Pi < a <= 3.0 * HalfPi ==> q == FOURTH
    ensures 3.0 * HalfPi < a ==> q == FIRST
  {
    Ceil(a / HalfPi) % 4
  }

  /** Those hemispheres of `hs` that contain quadrant `q`, in the order of `hs`. */
  function Containing(hs: seq<Hemisphere>, q: int): (r: seq<Hemisphere>)
    ensures |r| <= |hs|
  {
    if hs == [] then []
    else (if InHemisphere(q, hs[0]) then [hs[0]] else []) + Containing(hs[1..], q)
  }

  /** The filter keeps exactly the hemispheres that hold the quadrant. */
  lemma {:induction false} ContainingMembers(hs: seq<Hemisphere>, q: int)
    ensures forall h :: h in Containing(hs, q) <==> h in hs && InHemisphere(q, h)
  {
    if hs != [] {
      ContainingMembers(hs[1..], q);
      assert forall h :: h in hs <==> h == hs[0] || h in hs[1..];
    }
  }

  /** The hemispheres that contain quadrant `q`. */
  function HemispheresOf(q: Quadrant): (r: seq<Hemisphere>)
    ensures |r| == 2
    ensures forall h :: h in r <==> h in Compass && InHemisphere(q, h)
  {
    ContainingCompass(q);
    ContainingMembers(Compass, q);
    Containing(Compass, q)
  }

  /** Running the filter over EAST, NORTH, WEST, SOUTH, one hemisphere at a time. */
  lemma ContainingCompass(q: Quadrant)
    ensures q == FIRST ==> Containing(Compass, q) == [EAST, NORTH]
    ensures q == SECOND ==> Containing(Compass, q) == [NORTH, WEST]
    ensures q == THIRD ==> Containing(Compass, q) == [WEST, SOUTH]
    ensures q == FOURTH ==> Containing(Compass, q) == [EAST, SOUTH]
  {
    assert [SOUTH][1..] == [];
    assert [WEST, SOUTH][1..] == [SOUTH];
    assert [NORTH, WEST, SOUTH][1..] == [WEST, SOUTH];
    assert Compass[1..] == [NORTH, WEST, SOUTH];
    var c1 := ContainingStep([SOUTH], q);
    var c2 := ContainingStep([WEST, SOUTH], q);
    var c3 := ContainingStep([NORTH, WEST, SOUTH], q);
    var c4 := ContainingStep(Compass, q);
  }

  /** One step of the filter. */
  lemma ContainingStep(hs: seq<Hemisphere>, q: Quadrant) returns (r: seq<Hemisphere>)
    requires hs != []
    ensures r == Containing(hs, q)
    ensures r == (if InHemisphere(q, hs[0]) then [hs[0]] else []) + Containing(hs[1..], q)
  {
    r := Containing(hs, q);
  }

  /** `Angle.hemispheres`: the hemispheres holding the angle's quadrant. */
  function Hemispheres(a: Angle): (r: seq<Hemisphere>)
    ensures |r| == 2
    ensures forall h :: h in r <==> h in Compass && InHemisphere(QuadrantOf(a), h)
  {
    HemispheresOf(QuadrantOf(a))
  }

  /** The two hemispheres come out in the order EAST, NORTH, WEST, SOUTH. */
  lemma HemispheresInCompassOrder(a: Angle)
    ensures QuadrantOf(a) == FIRST ==> Hemispheres(a) == [EAST, NORTH]
    ensures QuadrantOf(a) == SECOND ==> Hemispheres(a) == [NORTH, WEST]
    ensures QuadrantOf(a) == THIRD ==> Hemispheres(a) == [WEST, SOUTH]
    ensures QuadrantOf(a) == FOURTH ==> Hemispheres(a) == [EAST, SOUTH]
  {
    ContainingCompass(QuadrantOf(a));
  }

  /** `~a`: the same direction measured clockwise, as a plain number. */
  function Invert(a: Angle): (r: real)
    ensures -TwoPi <= r < 0.0
    ensures Normalize(r) == a
  {
    NormalizeShift(a - TwoPi, 1);
    a - TwoPi
  }

  /** `abs(a)`: the shorter way round to direction 0. */
  function Abs(a: Angle): (r: real)
    ensures 0.0 <= r <= Pi
    ensures r <= a && r <= TwoPi - a
    ensures r == a || r == TwoPi - a
  {
    var other := -Invert(a);
    if a <= other then a else other
  }

  // Re-normalising arithmetic: each operator computes on plain numbers and wraps the result.

  /** `+a`. */
  function Pos(a: Angle): (r: Angle)
    ensures r == a
  {
    Normalize(a)  // unary plus on a float is the float itself
  }

  /** `-a`: the reflection of the direction. */
  function Neg(a: Angle): (r: Angle)
    ensures a == 0.0 ==> r == 0.0
    ensures a != 0.0 ==> r == TwoPi - a
  {
    NormalizeShift(-(a as real), 1);
    Normalize(-(a as real))
  }

  /** `a + x`. */
  function Add(a: Angle, x: real): (r: Angle)
    ensures Normalize(r - x) == a
  {
    NormalizeSum(a + x, -x);
    Normalize(a + x)
  }

  /** `x + a`. */
  function RAdd(a: Angle, x: real): (r: Angle)
    ensures r == Add(a, x)
  {
    Normalize(x + a)
  }

  /** `a - x`. */
  function Sub(a: Angle, x: real): (r: Angle)
    ensures Normalize(r + x) == a
  {
    NormalizeSum(a - x, x);
    Normalize(a - x)
  }

  /** `x - a`. */
  function RSub(a: Angle, x: real): (r: Angle)
    ensures r == Neg(Sub(a, x))
  {
    NormalizeNegated(a - x);
    Normalize(x - a)
  }

  /** `a * x`. */
  function Mul(a: Angle, x: real): (r: Angle)
    ensures x == 1.0 ==> r == a
    ensures x == 0.0 ==> r == 0.0
    ensures x == 2.0 ==> r == Add(a, a)
    ensures Normalize(r - a * x) == 0.0
  {
    ProductCases(a, x);
    WholeTurns(a * x);
    Normalize(a * x)
  }

  lemma ProductCases(a: Angle, x: real)
    ensures x == 1.0 ==> Normalize(a * x) == a
    ensures x == 0.0 ==> Normalize(a * x) == 0.0
    ensures x == 2.0 ==> Normalize(a * x) == Add(a, a)
  {
    if x == 2.0 {
      assert a * x == a + a;
    }
  }

  /** `x * a`. */
  function RMul(a: Angle, x: real): (r: Angle)
    ensures r == Mul(a, x)
    ensures Normalize(r - x * a) == 0.0
  {
    WholeTurns(x * a);
    Normalize(x * a)
  }

  /** `a / x`: true division (Python 2's `__div__` and `__truediv__` agree on floats). */
  function Div(a: Angle, x: real): (r: Angle)
    requires x != 0.0
    ensures x == 1.0 ==> r == a
    ensures x == -1.0 ==> r == Neg(a)
    ensures Normalize(r - a / x) == 0.0
  {
    WholeTurns(a / x);
    Normalize(a / x)
  }

  /** `x / a`. */
  function RDiv(a: Angle, x: real): (r: Angle)
    requires a != 0.0
    ensures x == 0.0 ==> r == 0.0
    ensures x == a ==> r == 1.0
    ensures Normalize(r - x / a) == 0.0
  {
    ReflectedQuotientCases(a, x);
    WholeTurns(x / a);
    Normalize(x / a)
  }

  lemma ReflectedQuotientCases(a: Angle, x: real)
    requires a != 0.0
    ensures x == 0.0 ==> Normalize(x / a) == 0.0
    ensures x == a ==> Normalize(x / a) == 1.0
  {
    if x == a {
      assert x / a == 1.0;
    }
  }

  /** `a // x`: the floor of the quotient, as a direction. */
  function FloorDiv(a: Angle, x: real): (r: Angle)
    requires x != 0.0
    ensures a < x ==> r == 0.0
    ensures 0.0 < x <= a < 2.0 * x ==> r == 1.0
    ensures Normalize(r - (a / x).Floor as real) == 0.0
  {
    WholeTurns((a / x).Floor as real);
    if a < x then
      QuotientBounds(a, x, 0.0, 1.0);
      Normalize((a / x).Floor as real)
    else if 0.0 < x <= a < 2.0 * x then
      QuotientBounds(a, x, 1.0, 2.0);
      Normalize((a / x).Floor as real)
    else
      Normalize((a / x).Floor as real)
  }

  /** `x // a`. */
  function RFloorDiv(a: Angle, x: real): (r: Angle)
    requires a != 0.0
    ensures 0.0 <= x < a ==> r == 0.0
    ensures a <= x < 2.0 * a ==> r == 1.0
    ensures Normalize(r - (x / a).Floor as real) == 0.0
  {
    WholeTurns((x / a).Floor as real);
    if 0.0 <= x < a then
      QuotientBounds(x, a, 0.0, 1.0);
      Normalize((x / a).Floor as real)
    else if a <= x < 2.0 * a then
      QuotientBounds(x, a, 1.0, 2.0);
      Normalize((x / a).Floor as real)
    else
      Normalize((x / a).Floor as real)
  }

  /** `a % x`. */
  function Mod(a: Angle, x: real): (r: Angle)
    requires x != 0.0
    ensures a < x ==> r == a
    ensures 0.0 < x ==> r < x
    ensures Normalize(r - PyMod(a, x)) == 0.0
  {
    WholeTurns(PyMod(a, x));
    Normalize(PyMod(a, x))
  }

  /** `x % a`. */
  function RMod(a: Angle, x: real): (r: Angle)
    requires a != 0.0
    ensures r < a
    ensures 0.0 <= x < a ==> r == x
    ensures Normalize(r - PyMod(x, a)) == 0.0
  {
    WholeTurns(PyMod(x, a));
    Normalize(PyMod(x, a))
  }

  /** Adding then subtracting the same amount comes back to the start. */
  lemma AddSubRoundTrip(a: Angle, x: real)
    ensures Sub(Add(a, x), x) == a
  {
    NormalizeSum(a + x, -x);
  }

  /** Successive additions accumulate: `(a + x) + y == a + (x + y)`. */
  lemma AddAccumulates(a: Angle, x: real, y: real)
    ensures Add(Add(a, x), y) == Add(a, x + y)
  {
    var b := Add(a, x);
    assert b == Normalize(a + x);
    NormalizeSum(a + x, y);
    assert Add(b, y) == Normalize((a + x) + y);
    assert (a + x) + y == a + (x + y);
  }

  /** `-a` is the additive inverse of `a`. */
  lemma NegCancels(a: Angle)
    ensures Add(Neg(a), a) == 0.0
  {
    if a != 0.0 {
      NormalizeShift(0.0, 1);
    }
  }

  /** `abs` does not depend on the side the angle is measured from. */
  lemma AbsOfNeg(a: Angle)
    ensures Abs(Neg(a)) == Abs(a)
  {}

  // The quadrant convention a floor would give (see the findings in README.md).

  /** `floor(a / (π/2))`: quadrant FIRST holds [0, π/2), and so on. */
  function QuadrantIntended(a: Angle): (q: Quadrant)
    ensures 0.0 <= a < HalfPi ==> q == FIRST
    ensures HalfPi <= a < Pi ==> q == SECOND
    ensures Pi <= a < 3.0 * HalfPi ==> q == THIRD
    ensures 3.0 * HalfPi <= a ==> q == FOURTH
  {
    assert 0.0 <= a / HalfPi < 4.0;
    assert 3.0 * HalfPi <= a ==> (a / HalfPi).Floor == 3;
    (a / HalfPi).Floor % 4
  }

  /** With the floor convention each hemisphere is the half-plane it is named after. */
  lemma HemispheresIntendedAreHalfPlanes(a: Angle)
    ensures EAST in HemispheresOf(QuadrantIntended(a)) <==> a < HalfPi || 3.0 * HalfPi <= a
    ensures NORTH in HemispheresOf(QuadrantIntended(a)) <==> a < Pi
    ensures WEST in HemispheresOf(QuadrantIntended(a)) <==> HalfPi <= a < 3.0 * HalfPi
    ensures SOUTH in HemispheresOf(QuadrantIntended(a)) <==> Pi <= a
  {}

  /** As written, π/4 (north-east) is classed NORTH and WEST, and not EAST. */
  lemma QuadrantCeilRotates()
    ensures QuadrantOf(Pi / 4.0) == SECOND
    ensures Hemispheres(Pi / 4.0) == [NORTH, WEST]
    ensures HemispheresOf(QuadrantIntended(Pi / 4.0)) == [EAST, NORTH]
  {
    HemispheresInCompassOrder(Pi / 4.0);
    ContainingCompass(QuadrantIntended(Pi / 4.0));
  }
}
