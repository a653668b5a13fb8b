/** The quadratic propeller law T = C * D^4 * |w| * w * rho (Fossen,
    "Guidance and Control of Ocean Vehicles", p. 246) in both directions,
    and the adaptive thrust-coefficient rule.  C is the thrust coefficient,
    D the propeller diameter, rho the fluid density, w the angular velocity. */
module PropellerLaw {
  import opened Numerics

  /** pow(x, n) for a natural exponent. */
  function Pow(x: real, n: nat): real
    decreases n
  {
    if n == 0 then 1.0 else x * Pow(x, n - 1)
  }

  /** An even power of a nonzero number is positive. */
  lemma {:induction false} EvenPowerPositive(x: real, n: nat)
    requires x != 0.0 && n % 2 == 0
    ensures 0.0 < Pow(x, n)
    decreases n
  {
    if n > 0 {
      EvenPowerPositive(x, n - 2);
      assert Pow(x, n) == x * (x * Pow(x, n - 2));
      SquareTimesPositive(x, Pow(x, n - 2));
    }
  }

  lemma SquareTimesPositive(x: real, p: real)
    requires x != 0.0 && 0.0 < p
    ensures 0.0 < x * (x * p)
  {
    assert 0.0 < x * x;
    assert x * (x * p) == (x * x) * p;
  }

  /** pow(D, 4): positive exactly when the diameter is nonzero. */
  function Pow4(d: real): (p: real)
    ensures 0.0 < p <==> d != 0.0
    ensures p == 0.0 <==> d == 0.0
  {
    if d == 0.0 then Pow(d, 4)
    else
      EvenPowerPositive(d, 4);
      Pow(d, 4)
  }

  /** The product |w| * w has the sign of w and the magnitude w * w. */
  lemma SignedSquare(w: real)
    ensures Abs(w) * w == (if 0.0 <= w then w * w else -(w * w))
    ensures 0.0 < w ==> 0.0 < Abs(w) * w
    ensures w < 0.0 ==> Abs(w) * w < 0.0
  {
    if w != 0.0 {
      assert 0.0 < w * w;
    }
  }

  /** AngularVelToThrust: the thrust produced at angular velocity w.  For
      a positive density and a nonzero diameter it has the sign of C * w. */
  function AngularVelToThrust(c: real, d: real, rho: real, w: real): (t: real)
    ensures 0.0 < rho && d != 0.0 ==> (0.0 < t <==> 0.0 < c * w) && (t < 0.0 <==> c * w < 0.0)
  {
    SignedSquare(w);
    var g := Pow4(d) * rho;
    assert 0.0 < rho && d != 0.0 ==> 0.0 < g;
    assert c * Pow4(d) * Abs(w) * w * rho == (c * g) * (Abs(w) * w);
    c * Pow4(d) * Abs(w) * w * rho
  }

  /** AngularVelToThrust is odd in the angular velocity. */
  lemma ThrustIsOdd(c: real, d: real, rho: real, w: real)
    ensures AngularVelToThrust(c, d, rho, -w) == -AngularVelToThrust(c, d, rho, w)
  {
    assert Abs(-w) == Abs(w);
  }

  /** The denominator of ThrustToAngularVel: rho * C * D^4. */
  function Denominator(c: real, d: real, rho: real): (k: real)
    ensures k != 0.0 <==> rho != 0.0 && c != 0.0 && d != 0.0
  {
    var p := Pow4(d);
    assert rho * c * p == 0.0 <==> rho * c == 0.0 || p == 0.0;
    rho * c * p
  }

  /** The interior of ThrustToAngularVec: sqrt(|t / (rho * C * D^4)|),
      negated unless t * C > 0.  When the denominator is zero the double
      division gives NaN for t = 0 and an infinity otherwise; the infinity
      survives abs and sqrt and is negated unless t * C > 0. */
  function ThrustToAngularVel(sqrt: real -> real, c: real, d: real, rho: real, t: real): (w: Double)
    requires IsSqrt(sqrt)
    ensures w.Finite? <==> Denominator(c, d, rho) != 0.0
    ensures w == NaN <==> Denominator(c, d, rho) == 0.0 && t == 0.0
    ensures w.Inf? ==> (w.negative <==> t * c <= 0.0)
    ensures w.Finite? ==> Abs(w.value) * Abs(w.value) == Abs(t / Denominator(c, d, rho))
    ensures w.Finite? ==> (0.0 < w.value <==> 0.0 < t * c) && (w.value == 0.0 <==> t == 0.0)
  {
    var k := Denominator(c, d, rho);
    if k == 0.0 then
      if t == 0.0 then NaN else Inf(t * c <= 0.0)
    else
      var q := Abs(t / k);
      var magnitude := sqrt(q);
      assert q == 0.0 <==> t == 0.0;
      SqrtZero(sqrt, q);
      Finite(if t * c > 0.0 then magnitude else -magnitude)
  }

  /** Under a positive density, t * C and t / (rho * C * D^4) have the same sign. */
  lemma QuotientSign(c: real, d: real, rho: real, t: real)
    requires 0.0 < rho && c != 0.0 && d != 0.0
    ensures (0.0 < t * c <==> 0.0 < t / Denominator(c, d, rho))
  {
    var k := Denominator(c, d, rho);
    var q := t / k;
    var g := rho * Pow4(d);
    assert 0.0 < g;
    assert k == c * g;
    assert t == q * k;
    assert t * c == q * (c * c * g);
    assert 0.0 < c * c * g;
  }

  /** Round trip thrust -> angular velocity -> thrust: converting a thrust
      to an angular velocity and back, under one fixed coefficient, gives
      the thrust again. */
  lemma {:induction false} ThrustRoundTrip(sqrt: real -> real, c: real, d: real, rho: real, t: real)
    requires IsSqrt(sqrt)
    requires 0.0 < rho && c != 0.0 && d != 0.0
    ensures ThrustToAngularVel(sqrt, c, d, rho, t).Finite?
    ensures AngularVelToThrust(c, d, rho, ThrustToAngularVel(sqrt, c, d, rho, t).value) == t
  {
    var k := Denominator(c, d, rho);
    var q := t / k;
    var w := ThrustToAngularVel(sqrt, c, d, rho, t).value;
    QuotientSign(c, d, rho, t);
    assert Abs(w) * Abs(w) == Abs(q);
    assert Abs(w) * w == q by {
      if 0.0 < t * c {
        assert 0.0 < w && 0.0 < q;
      } else {
        assert w <= 0.0 && q <= 0.0;
        assert Abs(w) * w == -(Abs(w) * Abs(w));
      }
    }
    assert k * q == t;
    assert AngularVelToThrust(c, d, rho, w) == k * (Abs(w) * w);
  }

  /** The thrust is the denominator of the inverse times |w| * w. */
  lemma ThrustAsProduct(c: real, d: real, rho: real, w: real)
    ensures AngularVelToThrust(c, d, rho, w) == Denominator(c, d, rho) * (Abs(w) * w)
  {
  }

  /** Round trip angular velocity -> thrust -> angular velocity, under one
      fixed coefficient. */
  lemma {:induction false} AngularVelRoundTrip(sqrt: real -> real, c: real, d: real, rho: real, w: real)
    requires IsSqrt(sqrt)
    requires 0.0 < rho && c != 0.0 && d != 0.0
    ensures ThrustToAngularVel(sqrt, c, d, rho, AngularVelToThrust(c, d, rho, w)) == Finite(w)
  {
    var k := Denominator(c, d, rho);
    var t := AngularVelToThrust(c, d, rho, w);
    var m := Abs(w) * w;
    ThrustAsProduct(c, d, rho, w);
    assert t / k == m;
    SignedSquare(w);
    assert Abs(m) == w * w;
    SqrtOfSquare(sqrt, w);
    assert sqrt(Abs(t / k)) == Abs(w);
    QuotientSign(c, d, rho, t);
    assert 0.0 < t * c <==> 0.0 < w;
  }

  /** UpdateThrustCoefficient: C = alpha1 + alpha2 * ((1 - wakeFraction) * v) / (w * D),
      where v is the cached linear speed and w the angular velocity held
      before the conversion.  It is only evaluated when |w| > epsilon; an
      infinite w makes the quotient vanish. */
  function UpdatedCoefficient(alpha1: real, alpha2: real, wakeFraction: real, linearVelocity: real,
                              w: Double, d: real): (c: real)
    requires d != 0.0 && AbsExceeds(w, Epsilon)
    ensures w.Finite? ==> (c - alpha1) * (w.value * d) == alpha2 * ((1.0 - wakeFraction) * linearVelocity)
    ensures w.Inf? ==> c == alpha1
    ensures alpha2 == 0.0 || linearVelocity == 0.0 || wakeFraction == 1.0 ==> c == alpha1
  {
    if w.Inf? then alpha1
    else
      assert w.value * d != 0.0;
      alpha1 + alpha2 * (((1.0 - wakeFraction) * linearVelocity) / (w.value * d))
  }
}
