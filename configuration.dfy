/** The part of Thruster::Configure that the control law depends on: the
    optional SDF elements, their defaults, and the resolution of the
    command bounds. */
module Configuration {
  import opened Numerics

  /** ForceCmd takes thrust commands; AngVelCmd takes angular velocity commands. */
  datatype OperationMode = ForceCmd | AngVelCmd

  /** The optional SDF elements read by Configure; None is an absent element. */
  datatype Sdf = Sdf(
    thrustCoefficient: Option<real>,
    propellerDiameter: Option<real>,
    fluidDensity: Option<real>,
    useAngVelCmd: Option<bool>,
    wakeFraction: Option<real>,
    alpha1: Option<real>,
    alpha2: Option<real>,
    maxThrustCmd: Option<real>,
    minThrustCmd: Option<real>,
    velocityControl: Option<bool>)

  const DefaultCmdMin: real := -1000.0
  const DefaultCmdMax: real := 1000.0
  const DefaultThrustCoefficient: real := 1.0
  const DefaultWakeFraction: real := 0.2
  const DefaultAlpha1: real := 1.0
  const DefaultAlpha2: real := 0.0
  const DefaultFluidDensity: real := 1000.0
  const DefaultPropellerDiameter: real := 0.02

  /** The closed interval that commands are clamped to. */
  datatype Bounds = Bounds(min: real, max: real)

  /** The bounds block of Configure: each configured bound overrides its
      default; a pair with max < min is refused as a whole and both
      defaults stay. */
  function ResolveBounds(maxThrustCmd: Option<real>, minThrustCmd: Option<real>): (b: Bounds)
    ensures b.min <= b.max
    ensures maxThrustCmd.GetOr(DefaultCmdMax) < minThrustCmd.GetOr(DefaultCmdMin) ==>
      b == Bounds(DefaultCmdMin, DefaultCmdMax)
    ensures minThrustCmd.GetOr(DefaultCmdMin) <= maxThrustCmd.GetOr(DefaultCmdMax) ==>
      b == Bounds(minThrustCmd.GetOr(DefaultCmdMin), maxThrustCmd.GetOr(DefaultCmdMax))
  {
    var maxCmd := maxThrustCmd.GetOr(DefaultCmdMax);
    var minCmd := minThrustCmd.GetOr(DefaultCmdMin);
    if maxCmd < minCmd then Bounds(DefaultCmdMin, DefaultCmdMax) else Bounds(minCmd, maxCmd)
  }

  /** The mode chosen by use_angvel_cmd; ForceCmd when it is absent or false. */
  function Mode(sdf: Sdf): (m: OperationMode)
    ensures m == AngVelCmd <==> sdf.useAngVelCmd == Some(true)
  {
    if sdf.useAngVelCmd.GetOr(false) then AngVelCmd else ForceCmd
  }

  /** A bound configured alone is kept only if it is on the right side of
      the other default: a lone max_thrust_cmd below -1000 is refused. */
  lemma LoneMaximumBelowDefaultMinimum(m: real)
    requires m < DefaultCmdMin
    ensures ResolveBounds(Some(m), None) == Bounds(DefaultCmdMin, DefaultCmdMax)
  {
  }

  /** Both bounds absent: the defaults. */
  lemma NoBoundsConfigured()
    ensures ResolveBounds(None, None) == Bounds(DefaultCmdMin, DefaultCmdMax)
  {
  }
}
