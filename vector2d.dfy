/**
 * The 2D vector of vector2d.py: a pair of coordinates held in a mutable
 * two-element list. Value-returning operators build a new vector, and the
 * augmented assignments update the receiver's list in place.
 */
module Vectors {

  /** The coordinates a vector holds at one moment. */
  datatype Vec = Vec(x: real, y: real)

  const Zero: Vec := Vec(0.0, 0.0)

  /** `a + b`: taking either operand away again leaves the other. */
  function Plus(a: Vec, b: Vec): (r: Vec)
    ensures Vec(r.x - b.x, r.y - b.y) == a
    ensures Vec(r.x - a.x, r.y - a.y) == b
  {
    Vec(a.x + b.x, a.y + b.y)
  }

  /** `a - b`: undoes adding `b`. */
  function Minus(a: Vec, b: Vec): (r: Vec)
    ensures Plus(r, b) == a
  {
    Vec(a.x - b.x, a.y - b.y)
  }

  /** `a * s`: a non-zero factor can be divided out again, a zero one gives the zero vector. */
  function Scale(a: Vec, s: real): (r: Vec)
    ensures s != 0.0 ==> Vec(r.x / s, r.y / s) == a
    ensures s == 0.0 ==> r == Zero
  {
    Vec(a.x * s, a.y * s)
  }

  /** `s * a`: the reflected product multiplies on the left. */
  function ScaleLeft(s: real, a: Vec): (r: Vec)
    ensures r == Scale(a, s)
  {
    Vec(s * a.x, s * a.y)
  }

  /** `a / s`: undoes scaling by `s`. */
  function Quotient(a: Vec, s: real): (r: Vec)
    requires s != 0.0
    ensures Scale(r, s) == a
  {
    Vec(a.x / s, a.y / s)
  }

  /** `s / a`: the scalar divided by each component. */
  function Reciprocal(s: real, a: Vec): (r: Vec)
    requires a.x != 0.0 && a.y != 0.0
    ensures r.x * a.x == s && r.y * a.y == s
  {
    Vec(s / a.x, s / a.y)
  }

  /** `-a`: cancels `a` under addition. */
  function Negated(a: Vec): (r: Vec)
    ensures Plus(a, r) == Zero
  {
    Vec(-a.x, -a.y)
  }

  /** `+a`: a vector with the same components. */
  function Positive(a: Vec): (r: Vec)
    ensures r == a
  {
    Vec(a.x, a.y)  // unary plus leaves a number as it is
  }

  /** `a.__nonzero__()`: Python's `x or y`, the first non-zero component, else `y`. */
  function NonZeroOf(a: Vec): (r: real)
    ensures r == 0.0 <==> a == Zero
  {
    if a.x != 0.0 then a.x else a.y
  }

  /** `bool(a)`: a vector is true unless both components are zero. */
  predicate IsTruthy(a: Vec)
    ensures IsTruthy(a) <==> a != Zero
  {
    NonZeroOf(a) != 0.0
  }

  /** `(a + b) - b == a`: subtracting undoes adding. */
  lemma MinusPlusRoundTrip(a: Vec, b: Vec)
    ensures Minus(Plus(a, b), b) == a
  {}

  /** `-(-a) == a`. */
  lemma NegatedTwice(a: Vec)
    ensures Negated(Negated(a)) == a
  {}

  /** `(a * s) / s == a` for a non-zero `s`. */
  lemma ScaleQuotientRoundTrip(a: Vec, s: real)
    requires s != 0.0
    ensures Quotient(Scale(a, s), s) == a
  {
    var r := Quotient(Scale(a, s), s);
    assert r.x == (a.x * s) / s;
    assert r.y == (a.y * s) / s;
  }

  /** Adding is commutative and subtracting is adding the negation. */
  lemma PlusCommutes(a: Vec, b: Vec)
    ensures Plus(a, b) == Plus(b, a)
    ensures Minus(a, b) == Plus(a, Negated(b))
  {}

  /** `__str__`: `<x, y>`, with the formatting of one number left as a parameter. */
  function Show(a: Vec, showReal: real -> string): (r: string)
    ensures |r| == |showReal(a.x)| + |showReal(a.y)| + 4
    ensures r[0] == '<' && r[|r| - 1] == '>'
    ensures r[1..1 + |showReal(a.x)|] == showReal(a.x)
    ensures r[1 + |showReal(a.x)|..3 + |showReal(a.x)|] == ", "
    ensures r[3 + |showReal(a.x)|..|r| - 1] == showReal(a.y)
  {
    "<" + showReal(a.x) + ", " + showReal(a.y) + ">"
  }

  /**
   * A `Vector2D` object. Its `components` field is the two-element list the
   * source keeps in `_components`; `Value()` reads it as the `x` and `y`
   * properties do.
   */
  class Vector2D {
    var components: seq<real>

    ghost predicate Valid()
      reads this
    {
      |components| == 2
    }

    function Value(): Vec
      reads this
      requires Valid()
    {
      Vec(components[0], components[1])
    }

    /** `Vector2D(x=0, y=0)`. */
    constructor (x: real := 0.0, y: real := 0.0)
      ensures Valid() && Value() == Vec(x, y)
    {
      components := [x, y];
    }

    /** The `x` setter: replaces the first component only. */
    method SetX(v: real)
      requires Valid()
      modifies this
      ensures Valid() && Value() == Vec(v, old(Value()).y)
    {
      components := components[0 := v];
    }

    /** The `y` setter: replaces the second component only. */
    method SetY(v: real)
      requires Valid()
      modifies this
      ensures Valid() && Value() == Vec(old(Value()).x, v)
    {
      components := components[1 := v];
    }

    /** `+self`: a new vector with the same components. */
    method Pos() returns (r: Vector2D)
      requires Valid()
      ensures fresh(r) && r.Valid() && r.Value() == Positive(Value())
    {
      r := new Vector2D(components[0], components[1]);
    }

    /** `copy()`, written as `+self` in the source. */
    method Copy() returns (r: Vector2D)
      requires Valid()
      ensures fresh(r) && r.Valid() && r.Value() == Value()
    {
      r := Pos();
    }

    /** `self + other`. */
    method Add(other: Vector2D) returns (r: Vector2D)
      requires Valid() && other.Valid()
      ensures fresh(r) && r.Valid() && r.Value() == Plus(Value(), other.Value())
    {
      r := new Vector2D(components[0] + other.components[0], components[1] + other.components[1]);
    }

    /** `self - other`. */
    method Sub(other: Vector2D) returns (r: Vector2D)
      requires Valid() && other.Valid()
      ensures fresh(r) && r.Valid() && r.Value() == Minus(Value(), other.Value())
    {
      r := new Vector2D(components[0] - other.components[0], components[1] - other.components[1]);
    }

    /** `self * scalar`. */
    method Mul(scalar: real) returns (r: Vector2D)
      requires Valid()
      ensures fresh(r) && r.Valid() && r.Value() == Scale(Value(), scalar)
    {
      r := new Vector2D(components[0] * scalar, components[1] * scalar);
    }

    /** `scalar * self`. */
    method RMul(scalar: real) returns (r: Vector2D)
      requires Valid()
      ensures fresh(r) && r.Valid() && r.Value() == ScaleLeft(scalar, Value())
    {
      r := new Vector2D(scalar * components[0], scalar * components[1]);
    }

    /** `self / scalar`; Python raises ZeroDivisionError for a zero scalar. */
    method Div(scalar: real) returns (r: Vector2D)
      requires Valid() && scalar != 0.0
      ensures fresh(r) && r.Valid() && r.Value() == Quotient(Value(), scalar)
    {
      r := new Vector2D(components[0] / scalar, components[1] / scalar);
    }

    /** `scalar / self`; both components must be non-zero. */
    method RDiv(scalar: real) returns (r: Vector2D)
      requires Valid() && components[0] != 0.0 && components[1] != 0.0
      ensures fresh(r) && r.Valid() && r.Value() == Reciprocal(scalar, Value())
    {
      r := new Vector2D(scalar / components[0], scalar / components[1]);
    }

    /** `-self`. */
    method Neg() returns (r: Vector2D)
      requires Valid()
      ensures fresh(r) && r.Valid() && r.Value() == Negated(Value())
    {
      r := new Vector2D(-components[0], -components[1]);
    }

    /** `self += other`: updates `x`, then `y`, and returns the receiver itself. */
    method AddInPlace(other: Vector2D) returns (r: Vector2D)
      requires Valid() && other.Valid()
      modifies this
      ensures r == this && Valid()
      ensures Value() == Plus(old(Value()), old(other.Value()))
      ensures other != this ==> other.Value() == old(other.Value())
    {
      components := components[0 := components[0] + other.components[0]];
      components := components[1 := components[1] + other.components[1]];
      r := this;
    }

    /** `self -= other`. */
    method SubInPlace(other: Vector2D) returns (r: Vector2D)
      requires Valid() && other.Valid()
      modifies this
      ensures r == this && Valid()
      ensures Value() == Minus(old(Value()), old(other.Value()))
      ensures other != this ==> other.Value() == old(other.Value())
    {
      components := components[0 := components[0] - other.components[0]];
      components := components[1 := components[1] - other.components[1]];
      r := this;
    }

    /** `self *= scalar`. */
    method MulInPlace(scalar: real) returns (r: Vector2D)
      requires Valid()
      modifies this
      ensures r == this && Valid()
      ensures Value() == Scale(old(Value()), scalar)
    {
      components := components[0 := components[0] * scalar];
      components := components[1 := components[1] * scalar];
      r := this;
    }

    /** `self /= scalar`. */
    method DivInPlace(scalar: real) returns (r: Vector2D)
      requires Valid() && scalar != 0.0
      modifies this
      ensures r == this && Valid()
      ensures Value() == Quotient(old(Value()), scalar)
    {
      components := components[0 := components[0] / scalar];
      components := components[1 := components[1] / scalar];
      r := this;
    }

    /** `self == other`: componentwise. */
    function Equals(other: Vector2D): (r: bool)
      reads this, other
      requires Valid() && other.Valid()
      ensures r <==> Value() == other.Value()
    {
      components[0] == other.components[0] && components[1] == other.components[1]
    }

    /** `self != other`: the negation of `==`. */
    function NotEquals(other: Vector2D): (r: bool)
      reads this, other
      requires Valid() && other.Valid()
      ensures r <==> Value() != other.Value()
    {
      !Equals(other)
    }

    /** `__nonzero__`: `x or y` of the current value, zero exactly when the vector is false. */
    function NonZero(): (r: real)
      reads this
      requires Valid()
      ensures r == 0.0 <==> !IsTruthy(Value())
    {
      NonZeroOf(Value())
    }
  }

  /**
   * A copy is a separate object: updating it in place leaves the original as it was.
   */
  method CopyIsIndependent(a: Vector2D, d: Vector2D) returns (c: Vector2D)
    requires a.Valid() && d.Valid()
    ensures fresh(c) && c.Valid()
    ensures c.Value() == Plus(a.Value(), d.Value())
    ensures a.Value() == old(a.Value())
  {
    c := a.Copy();
    var same := c.AddInPlace(d);
  }

  /** `a += a` doubles `a`: the aliased operand is read before it changes. */
  method AddToItself(a: Vector2D) returns (r: Vector2D)
    requires a.Valid()
    modifies a
    ensures r == a && a.Valid()
    ensures a.Value() == Scale(old(a.Value()), 2.0)
  {
    r := a.AddInPlace(a);
  }
}
