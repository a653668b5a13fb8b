/** The numeric vocabulary of the thruster: IEEE doubles where a value
    crosses the boundary, exact reals inside, and the small gz::math helpers
    (fixnan, clamp, vector products) the thruster calls. */
module Numerics {

  datatype Option<T> = None | Some(value: T) {
    /** The value, or `default` when there is none (an SDF element that is absent). */
    function GetOr(default: T): T {
      match this
      case Some(v) => v
      case None => default
    }
  }

  /** A double as it can reach the thruster: not-a-number, an infinity
      (sign given by `negative`) or a finite value. */
  datatype Double = NaN | Inf(negative: bool) | Finite(value: real)

  /** std::numeric_limits<double>::epsilon(), that is 2^-52. */
  const Epsilon: real := 0.0000000000000002220446049250313080847263336181640625

  function Abs(x: real): (r: real)
    ensures 0.0 <= r && (r == x || r == -x)
  {
    if x < 0.0 then -x else x
  }

  /** gz::math::fixnan: a NaN or an infinity becomes 0, a finite value passes. */
  function FixNan(x: Double): (r: real)
    ensures x.Finite? ==> r == x.value
    ensures !x.Finite? ==> r == 0.0
  {
    if x.Finite? then x.value else 0.0
  }

  /** gz::math::clamp, that is std::max(std::min(v, hi), lo). */
  function Clamp(v: real, lo: real, hi: real): (r: real)
    ensures lo <= hi ==> lo <= r <= hi
    ensures lo <= v <= hi ==> r == v
    ensures v < lo ==> r == lo
    ensures lo <= hi < v ==> r == hi
  {
    var m := if hi < v then hi else v;
    if m < lo then lo else m
  }

  /** `std::abs(x) > bound` on a double: false for NaN, true for an infinity. */
  predicate AbsExceeds(x: Double, bound: real): (b: bool)
    ensures x.NaN? ==> !b
    ensures x.Inf? ==> b
    ensures x.Finite? ==> (b <==> x.value > bound || x.value < -bound)
  {
    match x
    case NaN => false
    case Inf(_) => true
    case Finite(v) => Abs(v) > bound
  }

  /** `a - x` for a finite `a`: NaN stays NaN and an infinity changes sign. */
  function Minus(a: real, x: Double): (r: Double)
    ensures r.Finite? <==> x.Finite?
    ensures x.Finite? ==> r.value == a - x.value
    ensures x.NaN? ==> r == NaN
    ensures x.Inf? ==> r == Inf(!x.negative)
  {
    match x
    case NaN => NaN
    case Inf(neg) => Inf(!neg)
    case Finite(v) => Finite(a - v)
  }

  /** What the model relies on from the platform's square root: on a
      non-negative argument it returns the non-negative root. */
  ghost predicate IsSqrt(sqrt: real -> real) {
    forall x :: 0.0 <= x ==> 0.0 <= sqrt(x) && sqrt(x) * sqrt(x) == x
  }

  /** Squaring is strictly increasing on the non-negative reals. */
  lemma SquareIncreasing(a: real, b: real)
    requires 0.0 <= a < b
    ensures a * a < b * b
  {
    var d := b - a;
    assert b * b == a * a + 2.0 * a * d + d * d;
    assert 0.0 < d * d && 0.0 <= a * d;
  }

  /** Two non-negative numbers with the same square are equal. */
  lemma SquareInjective(a: real, b: real)
    requires 0.0 <= a && 0.0 <= b && a * a == b * b
    ensures a == b
  {
    if a < b {
      SquareIncreasing(a, b);
    } else if b < a {
      SquareIncreasing(b, a);
    }
  }

  /** The root of a square is the absolute value. */
  lemma SqrtOfSquare(sqrt: real -> real, x: real)
    requires IsSqrt(sqrt)
    ensures sqrt(x * x) == Abs(x)
  {
    assert Abs(x) * Abs(x) == x * x;
    assert 0.0 <= x * x;
    SquareInjective(sqrt(x * x), Abs(x));
  }

  /** The root is zero exactly at zero. */
  lemma SqrtZero(sqrt: real -> real, q: real)
    requires IsSqrt(sqrt) && 0.0 <= q
    ensures sqrt(q) == 0.0 <==> q == 0.0
  {
    var s := sqrt(q);
    if s != 0.0 {
      PositiveSquareNonzero(s, q);
    }
  }

  lemma PositiveSquareNonzero(s: real, q: real)
    requires 0.0 < s && s * s == q
    ensures q != 0.0
  {
    SquareIncreasing(0.0, s);
  }

  /** gz::math::Vector3d, with the products the thruster uses. */
  datatype Vec3 = Vec3(x: real, y: real, z: real)

  /** The vector v * s. */
  function Scale(v: Vec3, s: real): (r: Vec3)
    ensures s == 0.0 ==> r == Vec3(0.0, 0.0, 0.0)
    ensures v == Vec3(0.0, 0.0, 0.0) ==> r == v
    ensures s == 1.0 ==> r == v
  {
    Vec3(v.x * s, v.y * s, v.z * s)
  }

  /** The dot product; with a unit coordinate axis it picks that coordinate. */
  function Dot(a: Vec3, b: Vec3): (r: real)
    ensures a == Vec3(0.0, 0.0, 0.0) || b == Vec3(0.0, 0.0, 0.0) ==> r == 0.0
    ensures a == b ==> 0.0 <= r
    ensures b == Vec3(1.0, 0.0, 0.0) ==> r == a.x
  {
    assert 0.0 <= a.x * a.x && 0.0 <= a.y * a.y && 0.0 <= a.z * a.z;
    a.x * b.x + a.y * b.y + a.z * b.z
  }

  /** Vector3d::Length: the Euclidean norm. */
  function Length(sqrt: real -> real, v: Vec3): (r: real)
    requires IsSqrt(sqrt)
    ensures 0.0 <= r && r * r == Dot(v, v)
  {
    assert 0.0 <= v.x * v.x && 0.0 <= v.y * v.y && 0.0 <= v.z * v.z;
    sqrt(Dot(v, v))
  }
}
