/** Worked runs of the thruster: each client configures a fresh thruster
    and drives it through its callbacks and ticks. */
module Scenarios {
  import opened Numerics
  import opened PropellerLaw
  import opened Configuration
  import opened PowerGate
  import opened ThrusterSystem

  const NoSdf: Sdf := Sdf(None, None, None, None, None, None, None, None, None, None)

  /** A PID whose step never produces torque, and a resting link. */
  const IdlePid: (Double, real) -> real := (e: Double, dt: real) => 0.0
  const Still: LinkState := LinkState(Vec3(1.0, 0.0, 0.0), Zero, Zero)

  /** pow(0.02, 4) = 1.6e-7. */
  lemma DefaultDiameterPow4()
    ensures Pow4(0.02) == 0.00000016
  {
    assert Pow(0.02, 2) == 0.0004;
    assert Pow(0.02, 4) == 0.02 * (0.02 * Pow(0.02, 2));
  }

  /** Coefficient 1, diameter 0.02, density 1000, velocity control: a
      10 N command gives sqrt(10 / (1000 * 0.02^4)) = 250 rad/s, and the
      next tick writes that value as the joint velocity command. */
  method CommandedThrustSetsVelocity(sqrt: real -> real) returns (w: Double, a: Option<Actuation>)
    requires IsSqrt(sqrt)
    ensures w == Finite(250.0)
    ensures a.Some? && a.value.velocityCmd == Some(Finite(250.0))
    ensures a.Some? && a.value.torque == Zero && a.value.force == Vec3(10.0, 0.0, 0.0)
  {
    var sdf := NoSdf.(thrustCoefficient := Some(1.0), velocityControl := Some(true));
    var th := new Thruster.Configure(7, sdf, sqrt);
    th.OnCmdThrust(Finite(10.0));
    DefaultDiameterPow4();
    assert Denominator(1.0, 0.02, 1000.0) == 0.00016;
    SqrtOfSquare(sqrt, 250.0);
    assert th.propellerAngVel == Finite(250.0);
    w := th.propellerAngVel;
    a := th.PreUpdate(UpdateInfo(false, 0.001), Still, IdlePid);
  }

  /** An angular velocity command of -50 rad/s under the defaults
      produces 1 * 0.02^4 * 50 * (-50) * 1000 = -0.4 N. */
  method CommandedVelocitySetsThrust(sqrt: real -> real) returns (t: real, c: real)
    requires IsSqrt(sqrt)
    ensures t == -0.4 && c == DefaultThrustCoefficient
  {
    var th := new Thruster.Configure(7, NoSdf, sqrt);
    th.OnCmdAngVel(Finite(-50.0));
    DefaultDiameterPow4();
    t := th.thrust;
    c := th.thrustCoefficient;
  }

  /** A maximum below the minimum is refused as a pair. */
  lemma InvertedBoundsRevert()
    ensures ResolveBounds(Some(5.0), Some(10.0)) == Bounds(DefaultCmdMin, DefaultCmdMax)
  {
  }

  /** With bounds [5, 10], NaN and infinite commands become 0 and are
      clamped up to the minimum 5; a command of 1e6 is clamped to 10. */
  method SanitisedCommands(sqrt: real -> real) returns (fromNaN: real, fromInf: real, fromLarge: real)
    requires IsSqrt(sqrt)
    ensures fromNaN == 5.0 && fromInf == 5.0 && fromLarge == 10.0
  {
    var th := new Thruster.Configure(7, NoSdf.(maxThrustCmd := Some(10.0), minThrustCmd := Some(5.0)), sqrt);
    th.OnCmdThrust(NaN);
    fromNaN := th.thrust;
    th.OnCmdThrust(Inf(false));
    fromInf := th.thrust;
    th.OnCmdThrust(Finite(1000000.0));
    fromLarge := th.thrust;
  }

  /** A depleted battery of the model suppresses the next tick; batteries
      of other models do not; a recharged battery re-enables it. */
  method BatteryGatesTicks(sqrt: real -> real) returns (depleted: Option<Actuation>, recharged: Option<Actuation>)
    requires IsSqrt(sqrt)
    ensures depleted == None
    ensures recharged.Some?
  {
    var th := new Thruster.Configure(7, NoSdf, sqrt);
    var low := [Battery(7, 0.0), Battery(8, 0.5)];
    DepletedBatteryCloses(low, 7, 0);
    th.PostUpdate(low);
    depleted := th.PreUpdate(UpdateInfo(false, 0.001), Still, IdlePid);
    var charged := [Battery(7, 0.3)];
    OtherModelsIgnored(charged, Battery(8, 0.0), 7);
    assert Sufficient(charged, 7);
    th.PostUpdate(charged + [Battery(8, 0.0)]);
    recharged := th.PreUpdate(UpdateInfo(false, 0.001), Still, IdlePid);
  }

  /** A paused tick produces nothing even when enabled. */
  method PausedTickIsSilent(sqrt: real -> real) returns (a: Option<Actuation>)
    requires IsSqrt(sqrt)
    ensures a == None
  {
    var th := new Thruster.Configure(7, NoSdf, sqrt);
    a := th.PreUpdate(UpdateInfo(true, 0.001), Still, IdlePid);
  }

  /** The first command from rest never re-estimates the coefficient, and
      the estimate lags the linear speed by one tick: with alpha1 = 1,
      alpha2 = 0.5 and wake fraction 0.2, a 10 N command spins the
      propeller at 250 rad/s; the first tick still sees the cached speed 0
      and keeps C = 1, and only the second tick uses the speed 2 m/s it
      cached, giving C = 1 + 0.5 * (0.8 * 2) / (250 * 0.02) = 1.16. */
  method AdaptiveCoefficientLags(sqrt: real -> real) returns (fromRest: real, firstTick: real, secondTick: real)
    requires IsSqrt(sqrt)
    ensures fromRest == 1.0 && firstTick == 1.0 && secondTick == 1.16
  {
    var th := new Thruster.Configure(7, NoSdf.(alpha2 := Some(0.5)), sqrt);
    th.OnCmdThrust(Finite(10.0));
    fromRest := th.thrustCoefficient;
    DefaultDiameterPow4();
    assert Denominator(1.0, 0.02, 1000.0) == 0.00016;
    SqrtOfSquare(sqrt, 250.0);
    assert th.propellerAngVel == Finite(250.0);
    var moving := Still.(worldLinearVelocity := Vec3(2.0, 0.0, 0.0));
    var a := th.PreUpdate(UpdateInfo(false, 0.001), moving, IdlePid);
    firstTick := th.thrustCoefficient;
    assert firstTick == 1.0;
    assert th.propellerAngVel == Finite(250.0);
    SqrtOfSquare(sqrt, 2.0);
    assert Dot(moving.worldLinearVelocity, moving.worldLinearVelocity) == 2.0 * 2.0;
    assert th.linearVelocity == 2.0;
    LagStep();
    a := th.PreUpdate(UpdateInfo(false, 0.001), moving, IdlePid);
    secondTick := th.thrustCoefficient;
  }

  /** The re-estimate of the second tick of AdaptiveCoefficientLags. */
  lemma LagStep()
    ensures UpdatedCoefficient(1.0, 0.5, 0.2, 2.0, Finite(250.0), 0.02) == 1.16
  {
    assert (1.0 - 0.2) * 2.0 == 1.6;
    assert 250.0 * 0.02 == 5.0;
  }
}
