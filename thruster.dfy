/** The thruster actuator: command ingestion, the per-tick control step and
    the power gate, over the state of ThrusterPrivateData. */
module ThrusterSystem {
  import opened Numerics
  import opened PropellerLaw
  import opened Configuration
  import opened PowerGate

  /** The part of gz::sim::UpdateInfo the step reads. */
  datatype UpdateInfo = UpdateInfo(paused: bool, dt: real)

  /** What one tick reads about the propeller link: the spin axis in the
      world frame (already rotated and normalised), and the link's world
      angular and linear velocities. */
  datatype LinkState = LinkState(unitAxis: Vec3, worldAngularVelocity: Vec3, worldLinearVelocity: Vec3)

  /** What one tick produces: the world wrench added to the link, the
      published feedback value, and the joint velocity command written
      under velocity control. */
  datatype Actuation = Actuation(force: Vec3, torque: Vec3, feedback: Double, velocityCmd: Option<Double>)

  /** Errors at most this large (rad/s) leave the PID idle. */
  const Deadband: real := 0.1

  const Zero: Vec3 := Vec3(0.0, 0.0, 0.0)

  /** The propeller's measured spin: its angular velocity projected on the axis. */
  function Measured(link: LinkState): (r: real)
    ensures link.worldAngularVelocity == Zero ==> r == 0.0
    ensures link.unitAxis == Vec3(1.0, 0.0, 0.0) ==> r == link.worldAngularVelocity.x
  {
    Dot(link.worldAngularVelocity, link.unitAxis)
  }

  /** The torque of one tick: none under velocity control or inside the
      deadband, otherwise one PID step on the error measured - desired. */
  function PropellerTorque(velocityControl: bool, measured: real, desired: Double, dt: real,
                           pid: (Double, real) -> real): (torque: real)
    ensures velocityControl ==> torque == 0.0
    ensures !AbsExceeds(Minus(measured, desired), Deadband) ==> torque == 0.0
    ensures !velocityControl && AbsExceeds(Minus(measured, desired), Deadband) ==>
      torque == pid(Minus(measured, desired), dt)
    ensures torque != 0.0 ==> !velocityControl && torque == pid(Minus(measured, desired), dt)
  {
    if velocityControl then 0.0
    else
      var error := Minus(measured, desired);
      if AbsExceeds(error, Deadband) then pid(error, dt) else 0.0
  }

  /** The published feedback: the complementary quantity of the command
      channel.  Thrust commands are answered with an angular velocity
      (measured under the PID, commanded under velocity control); angular
      velocity commands are answered with the thrust. */
  function Feedback(opmode: OperationMode, velocityControl: bool, measured: real, desired: Double,
                    thrust: real): (f: Double)
    ensures opmode == AngVelCmd ==> f == Finite(thrust)
    ensures opmode == ForceCmd && velocityControl ==> f == desired
    ensures opmode == ForceCmd && !velocityControl ==> f == Finite(measured)
  {
    match opmode
    case AngVelCmd => Finite(thrust)
    case ForceCmd => if velocityControl then desired else Finite(measured)
  }

  /** The outputs of one running tick, given the thrust and the angular
      velocity derived from it for this tick. */
  function Actuate(opmode: OperationMode, velocityControl: bool, thrust: real, desired: Double,
                   link: LinkState, dt: real, pid: (Double, real) -> real): (a: Actuation)
    ensures a.force == Scale(link.unitAxis, thrust)
    ensures a.feedback == Feedback(opmode, velocityControl, Measured(link), desired, thrust)
    ensures velocityControl <==> a.velocityCmd == Some(desired)
    ensures a.velocityCmd == None || a.velocityCmd == Some(desired)
    ensures velocityControl ==> a.torque == Zero
    ensures !AbsExceeds(Minus(Measured(link), desired), Deadband) ==> a.torque == Zero
    ensures !velocityControl && AbsExceeds(Minus(Measured(link), desired), Deadband) ==>
      a.torque == Scale(link.unitAxis, pid(Minus(Measured(link), desired), dt))
    ensures a.torque != Zero ==>
      !velocityControl && a.torque == Scale(link.unitAxis, pid(Minus(Measured(link), desired), dt))
  {
    var torque := PropellerTorque(velocityControl, Measured(link), desired, dt, pid);
    Actuation(Scale(link.unitAxis, thrust), Scale(link.unitAxis, torque),
              Feedback(opmode, velocityControl, Measured(link), desired, thrust),
              if velocityControl then Some(desired) else None)
  }

  /** ThrusterPrivateData with the Thruster system's configure, pre-update
      and post-update steps. */
  class Thruster {
    const opmode: OperationMode
    const velocityControl: bool
    const cmdMin: real
    const cmdMax: real
    const thrustCoefficientSet: bool
    const wakeFraction: real
    const alpha1: real
    const alpha2: real
    const fluidDensity: real
    const propellerDiameter: real
    const modelEntity: Entity
    /** The platform square root. */
    const sqrt: real -> real

    /** Thrust in N. */
    var thrust: real
    /** Desired propeller angular velocity in rad/s. */
    var propellerAngVel: Double
    var thrustCoefficient: real
    /** False while a battery of the model is depleted. */
    var enabled: bool
    /** The vehicle's linear speed, as cached by the previous tick. */
    var linearVelocity: real

    /** What Configure establishes and nothing later changes. */
    ghost predicate Configured() {
      cmdMin <= cmdMax && propellerDiameter != 0.0 && IsSqrt(sqrt)
    }

    /** Under a positive density and a nonzero coefficient the thrust and
        the angular velocity describe one operating point of the law. */
    ghost predicate PairConsistent()
      reads this
    {
      0.0 < fluidDensity && thrustCoefficient != 0.0 ==>
        propellerAngVel.Finite? &&
        AngularVelToThrust(thrustCoefficient, propellerDiameter, fluidDensity, propellerAngVel.value) == thrust
    }

    ghost predicate Valid()
      reads this
    {
      Configured() && PairConsistent() && 0.0 <= linearVelocity
    }

    /** The coefficient the next conversion uses: unchanged when it was
        configured explicitly or when the propeller is (nearly) still,
        otherwise re-estimated from the current angular velocity and the
        cached linear speed. */
    function ConversionCoefficient(): (c: real)
      reads this`thrustCoefficient, this`propellerAngVel, this`linearVelocity
      requires propellerDiameter != 0.0
      ensures thrustCoefficientSet ==> c == thrustCoefficient
      ensures !AbsExceeds(propellerAngVel, Epsilon) ==> c == thrustCoefficient
      ensures !thrustCoefficientSet && AbsExceeds(propellerAngVel, Epsilon) ==>
        c == UpdatedCoefficient(alpha1, alpha2, wakeFraction, linearVelocity, propellerAngVel, propellerDiameter)
    {
      if !thrustCoefficientSet && AbsExceeds(propellerAngVel, Epsilon) then
        UpdatedCoefficient(alpha1, alpha2, wakeFraction, linearVelocity, propellerAngVel, propellerDiameter)
      else thrustCoefficient
    }

    /** Thruster::Configure for a plugin that finds its joint and link. */
    constructor Configure(model: Entity, sdf: Sdf, sqrt: real -> real)
      requires IsSqrt(sqrt)
      requires sdf.propellerDiameter.GetOr(DefaultPropellerDiameter) != 0.0
      ensures Valid()
      ensures opmode == Mode(sdf)
      ensures velocityControl == sdf.velocityControl.GetOr(false)
      ensures Bounds(cmdMin, cmdMax) == ResolveBounds(sdf.maxThrustCmd, sdf.minThrustCmd)
      ensures thrustCoefficientSet <==> sdf.thrustCoefficient.Some?
      ensures thrustCoefficient == sdf.thrustCoefficient.GetOr(DefaultThrustCoefficient)
      ensures propellerDiameter == sdf.propellerDiameter.GetOr(DefaultPropellerDiameter)
      ensures fluidDensity == sdf.fluidDensity.GetOr(DefaultFluidDensity)
      ensures wakeFraction == sdf.wakeFraction.GetOr(DefaultWakeFraction)
      ensures alpha1 == sdf.alpha1.GetOr(DefaultAlpha1)
      ensures alpha2 == sdf.alpha2.GetOr(DefaultAlpha2)
      ensures modelEntity == model && this.sqrt == sqrt
      ensures thrust == 0.0 && propellerAngVel == Finite(0.0) && enabled && linearVelocity == 0.0
    {
      modelEntity := model;
      this.sqrt := sqrt;
      thrustCoefficient := sdf.thrustCoefficient.GetOr(DefaultThrustCoefficient);
      thrustCoefficientSet := sdf.thrustCoefficient.Some?;
      propellerDiameter := sdf.propellerDiameter.GetOr(DefaultPropellerDiameter);
      fluidDensity := sdf.fluidDensity.GetOr(DefaultFluidDensity);
      opmode := Mode(sdf);
      wakeFraction := sdf.wakeFraction.GetOr(DefaultWakeFraction);
      alpha1 := sdf.alpha1.GetOr(DefaultAlpha1);
      alpha2 := sdf.alpha2.GetOr(DefaultAlpha2);
      var bounds := ResolveBounds(sdf.maxThrustCmd, sdf.minThrustCmd);
      cmdMin := bounds.min;
      cmdMax := bounds.max;
      velocityControl := sdf.velocityControl.GetOr(false);
      thrust := 0.0;
      propellerAngVel := Finite(0.0);
      enabled := true;
      linearVelocity := 0.0;
    }

    /** UpdateThrustCoefficient; it is only ever called under the guard of
        ThrustToAngularVec, which rules out a zero angular velocity. */
    method UpdateThrustCoefficient()
      requires propellerDiameter != 0.0 && AbsExceeds(propellerAngVel, Epsilon)
      modifies this`thrustCoefficient
      ensures thrustCoefficient ==
        UpdatedCoefficient(alpha1, alpha2, wakeFraction, linearVelocity, propellerAngVel, propellerDiameter)
    {
      thrustCoefficient :=
        UpdatedCoefficient(alpha1, alpha2, wakeFraction, linearVelocity, propellerAngVel, propellerDiameter);
    }

    /** ThrustToAngularVec: re-estimates the coefficient from the angular
        velocity held before the call, then inverts the law under it. */
    method ThrustToAngularVec(t: real) returns (w: Double)
      requires Configured()
      modifies this`thrustCoefficient
      ensures thrustCoefficient == old(ConversionCoefficient())
      ensures w == ThrustToAngularVel(sqrt, thrustCoefficient, propellerDiameter, fluidDensity, t)
    {
      if !thrustCoefficientSet && AbsExceeds(propellerAngVel, Epsilon) {
        UpdateThrustCoefficient();
      }
      w := ThrustToAngularVel(sqrt, thrustCoefficient, propellerDiameter, fluidDensity, t);
    }

    /** OnCmdThrust: the sanitised, clamped thrust, and the angular velocity
        that produces it. */
    method OnCmdThrust(msg: Double)
      requires Valid()
      modifies this`thrust, this`propellerAngVel, this`thrustCoefficient
      ensures Valid()
      ensures thrust == Clamp(FixNan(msg), cmdMin, cmdMax) && cmdMin <= thrust <= cmdMax
      ensures thrustCoefficient == old(ConversionCoefficient())
      ensures propellerAngVel == ThrustToAngularVel(sqrt, thrustCoefficient, propellerDiameter, fluidDensity, thrust)
    {
      thrust := Clamp(FixNan(msg), cmdMin, cmdMax);
      propellerAngVel := ThrustToAngularVec(thrust);
      if 0.0 < fluidDensity && thrustCoefficient != 0.0 {
        ThrustRoundTrip(sqrt, thrustCoefficient, propellerDiameter, fluidDensity, thrust);
      }
    }

    /** OnCmdAngVel: the sanitised angular velocity, clamped to the command
        bounds, and the thrust it produces; the coefficient is left alone. */
    method OnCmdAngVel(msg: Double)
      requires Valid()
      modifies this`thrust, this`propellerAngVel
      ensures Valid()
      ensures propellerAngVel == Finite(Clamp(FixNan(msg), cmdMin, cmdMax))
      ensures cmdMin <= propellerAngVel.value <= cmdMax
      ensures thrust == AngularVelToThrust(thrustCoefficient, propellerDiameter, fluidDensity, propellerAngVel.value)
    {
      propellerAngVel := Finite(Clamp(FixNan(msg), cmdMin, cmdMax));
      thrust := AngularVelToThrust(thrustCoefficient, propellerDiameter, fluidDensity, propellerAngVel.value);
    }

    /** HasSufficientBattery: visits every battery and clears the result on
        a depleted one owned by this model. */
    method HasSufficientBattery(batteries: seq<Battery>) returns (result: bool)
      ensures result == Sufficient(batteries, modelEntity)
    {
      result := true;
      var i := 0;
      while i < |batteries|
        invariant 0 <= i <= |batteries|
        invariant result == Sufficient(batteries[..i], modelEntity)
      {
        assert batteries[..i + 1] == batteries[..i] + [batteries[i]];
        SufficientAppend(batteries[..i], [batteries[i]], modelEntity);
        if batteries[i].parent == modelEntity {
          if batteries[i].soc <= 0.0 {
            result := false;
          }
        }
        i := i + 1;
      }
      assert batteries[..i] == batteries;
    }

    /** PostUpdate: the gate for the next tick. */
    method PostUpdate(batteries: seq<Battery>)
      requires Valid()
      modifies this`enabled
      ensures Valid()
      ensures enabled == Sufficient(batteries, modelEntity)
    {
      enabled := HasSufficientBattery(batteries);
    }

    /** PreUpdate: one control tick.  A paused or disabled thruster does
        nothing.  Otherwise the angular velocity is re-derived from the
        thrust (possibly re-estimating the coefficient), the wrench, the
        feedback and the velocity command are produced, and the linear
        speed is cached last, for the next tick's estimate. */
    method PreUpdate(info: UpdateInfo, link: LinkState, pid: (Double, real) -> real)
      returns (out: Option<Actuation>)
      requires Valid()
      modifies this`propellerAngVel, this`thrustCoefficient, this`linearVelocity
      ensures Valid()
      ensures info.paused || !enabled ==> out == None && unchanged(this)
      ensures !info.paused && enabled ==>
        && thrustCoefficient == old(ConversionCoefficient())
        && propellerAngVel == ThrustToAngularVel(sqrt, thrustCoefficient, propellerDiameter, fluidDensity, thrust)
        && linearVelocity == Length(sqrt, link.worldLinearVelocity)
        && out == Some(Actuate(opmode, velocityControl, thrust, propellerAngVel, link, info.dt, pid))
      ensures old(ConversionCoefficient()) == old(thrustCoefficient) &&
              0.0 < fluidDensity && thrustCoefficient != 0.0 ==>
        propellerAngVel == old(propellerAngVel)
    {
      if info.paused || !enabled {
        return None;
      }
      var desiredThrust := thrust;
      ghost var held := ConversionCoefficient() == thrustCoefficient;
      ghost var before := propellerAngVel;
      propellerAngVel := ThrustToAngularVec(thrust);
      var desiredAngVel := propellerAngVel;
      if 0.0 < fluidDensity && thrustCoefficient != 0.0 {
        ThrustRoundTrip(sqrt, thrustCoefficient, propellerDiameter, fluidDensity, thrust);
        if held {
          AngularVelRoundTrip(sqrt, thrustCoefficient, propellerDiameter, fluidDensity, before.value);
        }
      }

      var torque := 0.0;
      var feedback: Double;
      var velocityCmd: Option<Double> := None;
      if !velocityControl {
        var currentAngular := Dot(link.worldAngularVelocity, link.unitAxis);
        var angularError := Minus(currentAngular, desiredAngVel);
        if AbsExceeds(angularError, Deadband) {
          torque := pid(angularError, info.dt);
        }
        feedback := Finite(currentAngular);
      } else {
        velocityCmd := Some(desiredAngVel);
        feedback := desiredAngVel;
      }
      var published := if opmode == ForceCmd then feedback else Finite(desiredThrust);
      out := Some(Actuation(Scale(link.unitAxis, desiredThrust), Scale(link.unitAxis, torque),
                            published, velocityCmd));

      linearVelocity := Length(sqrt, link.worldLinearVelocity);
    }
  }
}
