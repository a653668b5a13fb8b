# Thruster actuator model

A Dafny model of the thruster system of gz-sim (`src/systems/thruster/Thruster.cc`).
The system drives a marine propeller from one of two kinds of command.

- **Commands.** A thrust command in N (`ForceCmd` mode) or an angular velocity command in rad/s (`AngVelCmd` mode). Either one is sanitised (NaN and infinities become 0) and clamped to the configured bounds.
- **Conversion.** The paired quantity is derived through the quadratic propeller law `T = C * D^4 * |w| * w * rho`. Here C is the thrust coefficient, D the propeller diameter, rho the fluid density and w the angular velocity.
- **Adaptive coefficient.** When no thrust coefficient was configured and the stored angular velocity exceeds epsilon in magnitude (2^-52), a thrust-to-angular-velocity conversion first re-estimates C as `alpha1 + alpha2 * ((1 - wakeFraction) * v) / (w * D)`. It uses the angular velocity held before the conversion and the linear speed cached by the previous tick.
- **Each simulation tick.** A paused or disabled thruster does nothing. Otherwise the tick:
  - re-derives the angular velocity from the thrust;
  - either writes that velocity as a joint velocity command (velocity control), or runs one PID step on the error between the measured and the desired spin, with a 0.1 rad/s deadband;
  - publishes the complementary quantity as feedback;
  - applies the wrench `axis * thrust`, `axis * torque`;
  - caches the vehicle's linear speed for the next tick.
- **Power gate.** After each tick, the thruster is enabled exactly when every battery whose parent is the thruster's model has a positive state of charge.

## Files

- `numerics.dfy`, module `Numerics`:
  - a `Double` datatype (NaN, signed infinity, finite real) for values that cross the IEEE boundary: message payloads and the stored angular velocity;
  - `fixnan`, `clamp`, `abs`, vector helpers;
  - the square-root hypothesis `IsSqrt` and lemmas about squares and roots.
- `propeller_law.dfy`, module `PropellerLaw`: the conversion law in both directions, its sign laws, the two round trips, and the coefficient update rule.
- `configuration.dfy`, module `Configuration`: the SDF elements read by `Configure`, their defaults, and the resolution of the command bounds.
- `power_gate.dfy`, module `PowerGate`: batteries and the sufficiency predicate.
- `thruster.dfy`, module `ThrusterSystem`: the class `Thruster` with the mutable fields of `ThrusterPrivateData`, and pure specifications of one tick's outputs.
  - The mutable fields are `thrust`, `propellerAngVel`, `thrustCoefficient`, `enabled` and `linearVelocity`.
  - Configuration values are `const` fields set once by the constructor `Configure`.
  - The class invariant `Valid()` holds that, whenever the density is positive and the coefficient nonzero, the stored thrust and angular velocity are one operating point of the law.
  - Every callback and tick method preserves `Valid()`.
- `scenarios.dfy`, module `Scenarios`: worked runs on freshly configured thrusters.

Real arithmetic stands for doubles. A `real -> real` function stands for the platform's `sqrt`; it is passed in and assumed to satisfy `IsSqrt`. The PID controller is a `(error, dt) -> torque` parameter of the tick.

## Model

| member | source | states |
|---|---|---|
| Numerics.FixNan | src/systems/thruster/Thruster.cc:440-441 | a finite value passes unchanged; NaN and either infinity become 0 |
| Numerics.Clamp | src/systems/thruster/Thruster.cc:440-441 | the result lies in [lo, hi]; a value inside is kept; a value below becomes lo, one above becomes hi |
| Numerics.Minus | src/systems/thruster/Thruster.cc:561 | the error measured - desired is finite exactly when desired is; NaN stays NaN; an infinity changes sign |
| Numerics.AbsExceeds | src/systems/thruster/Thruster.cc:468 | std::abs(x) > bound on a double: false for NaN, true for either infinity, and for a finite x true exactly when x lies outside [-bound, bound] |
| Numerics.Dot | src/systems/thruster/Thruster.cc:560 | zero when either vector is zero; a vector with itself is non-negative; against the x axis it picks the x coordinate |
| Numerics.Scale | src/systems/thruster/Thruster.cc:601-602 | scaling by zero or scaling the zero vector gives the zero vector; scaling by one keeps the vector |
| ThrusterSystem.Measured | src/systems/thruster/Thruster.cc:560 | the measured spin is zero for a link at rest, and for an axis along x it is the x component of the angular velocity |
| Numerics.Length | src/systems/thruster/Thruster.cc:605-607 | the cached speed is non-negative and its square is the squared norm of the world linear velocity |
| PropellerLaw.Pow4 | src/systems/thruster/Thruster.cc:477 | pow(D, 4) is positive exactly when D is nonzero, and zero exactly when D is zero |
| PropellerLaw.AngularVelToThrust | src/systems/thruster/Thruster.cc:493-499 | for positive density and nonzero diameter the thrust is positive exactly when C * w > 0 and negative exactly when C * w < 0 |
| PropellerLaw.ThrustIsOdd | src/systems/thruster/Thruster.cc:497-498 | reversing the angular velocity reverses the thrust |
| PropellerLaw.Denominator | src/systems/thruster/Thruster.cc:476-477 | rho * C * D^4 is zero exactly when one of the three factors is |
| PropellerLaw.ThrustToAngularVel | src/systems/thruster/Thruster.cc:474-481 | finite exactly when the denominator is nonzero; then its square magnitude is abs(t / (rho * C * D^4)), it is positive exactly when t * C > 0 and zero exactly when t is; with a zero denominator: NaN for zero thrust, otherwise an infinity that is negative unless t * C > 0 |
| PropellerLaw.QuotientSign | src/systems/thruster/Thruster.cc:474-479 | for positive density, nonzero C and D, the sign test t * C > 0 agrees with the sign of t / (rho * C * D^4) |
| PropellerLaw.ThrustRoundTrip | src/systems/thruster/Thruster.cc:474-498 | under one coefficient C != 0, density > 0 and D != 0, converting any thrust to an angular velocity and back gives the thrust again |
| PropellerLaw.AngularVelRoundTrip | src/systems/thruster/Thruster.cc:474-498 | under the same conditions, converting any angular velocity to a thrust and back gives the angular velocity again |
| PropellerLaw.UpdatedCoefficient | src/systems/thruster/Thruster.cc:485-490 | for a finite w, (C - alpha1) * (w * D) equals alpha2 * (1 - wakeFraction) * v; an infinite w gives alpha1; alpha2 = 0, v = 0 or wakeFraction = 1 gives alpha1 |
| Configuration.ResolveBounds | src/systems/thruster/Thruster.cc:366-387 | min <= max always; a configured pair (absent elements taking the defaults -1000/1000) with min <= max is adopted; a pair with max < min reverts to both defaults |
| Configuration.Mode | src/systems/thruster/Thruster.cc:225-230 | angular velocity commands exactly when use_angvel_cmd is present and true |
| Configuration.LoneMaximumBelowDefaultMinimum | src/systems/thruster/Thruster.cc:366-387 | a lone max_thrust_cmd below -1000 is compared against the default minimum and refused |
| PowerGate.NoBatteriesIsSufficient | src/systems/thruster/Thruster.cc:505-520 | with no battery the gate is open |
| PowerGate.DepletedBatteryCloses | src/systems/thruster/Thruster.cc:510-515 | one battery of the model with charge <= 0 closes the gate |
| PowerGate.SufficientAppend | src/systems/thruster/Thruster.cc:506-519 | the gate over two battery lists is the conjunction of the two gates |
| PowerGate.OtherModelsIgnored | src/systems/thruster/Thruster.cc:510 | a battery whose parent is another model does not change the gate |
| ThrusterSystem.PropellerTorque | src/systems/thruster/Thruster.cc:557-566 | zero under velocity control; zero whenever abs(measured - desired) <= 0.1, whatever the PID; otherwise one PID step on that error |
| ThrusterSystem.Feedback | src/systems/thruster/Thruster.cc:567-596 | angular velocity commands are answered with the thrust; thrust commands with the measured spin under the PID and the desired spin under velocity control |
| ThrusterSystem.Actuate | src/systems/thruster/Thruster.cc:555-602 | force is axis * thrust; a velocity command is produced exactly under velocity control and carries the desired spin; the torque is zero under velocity control or inside the deadband, otherwise axis * PID output |
| ThrusterSystem.Thruster.ConversionCoefficient | src/systems/thruster/Thruster.cc:467-471 | the coefficient stays as it is when it was configured explicitly or when abs(w) <= epsilon (NaN included); otherwise it is the re-estimate from the current w and the cached speed |
| ThrusterSystem.Thruster.Configure | src/systems/thruster/Thruster.cc:206-392 | every configuration value is the SDF element or its default; the coefficient counts as set exactly when thrust_coefficient is present; the bounds are the resolved pair; the state starts at zero thrust, zero spin, enabled, zero speed, and satisfies the invariant |
| ThrusterSystem.Thruster.UpdateThrustCoefficient | src/systems/thruster/Thruster.cc:485-490 | stores the re-estimated coefficient and changes nothing else |
| ThrusterSystem.Thruster.ThrustToAngularVec | src/systems/thruster/Thruster.cc:462-482 | first moves the coefficient to the guarded re-estimate from the previous angular velocity, then returns the inverse of the law under the new coefficient; only the coefficient changes |
| ThrusterSystem.Thruster.OnCmdThrust | src/systems/thruster/Thruster.cc:437-446 | the stored thrust is clamp(fixnan(x)) and lies within the bounds; the stored angular velocity is the inverse of the law under the (possibly re-estimated) coefficient; the invariant is kept; enabled and the cached speed do not change |
| ThrusterSystem.Thruster.OnCmdAngVel | src/systems/thruster/Thruster.cc:449-459 | the stored angular velocity is clamp(fixnan(x)) within the command bounds; the thrust is the law applied to it; the coefficient does not change; the invariant is kept |
| ThrusterSystem.Thruster.HasSufficientBattery | src/systems/thruster/Thruster.cc:502-521 | true exactly when every battery whose parent is the model has charge > 0 |
| ThrusterSystem.Thruster.PostUpdate | src/systems/thruster/Thruster.cc:611-615 | enabled becomes exactly the battery sufficiency; nothing else changes |
| ThrusterSystem.Thruster.PreUpdate | src/systems/thruster/Thruster.cc:524-607 | paused or disabled: no output and no field changed; otherwise the coefficient is the guarded re-estimate computed before the speed is refreshed, the angular velocity is re-derived from the unchanged thrust, the output is Actuate of these, the cached speed is the link's current speed; when the coefficient is held (and positive density, nonzero C) the angular velocity is a fixed point of the tick |
| Scenarios.DefaultDiameterPow4 | src/systems/thruster/Thruster.cc:137 | pow(0.02, 4) = 1.6e-7 |
| Scenarios.CommandedThrustSetsVelocity | src/systems/thruster/Thruster.cc:437-602 | C = 1, D = 0.02, rho = 1000 with velocity control: a 10 N command spins at 250 rad/s and the next tick writes 250 rad/s as the joint velocity command, with no torque and force 10 N along the axis |
| Scenarios.CommandedVelocitySetsThrust | src/systems/thruster/Thruster.cc:449-459 | under the defaults, -50 rad/s gives -0.4 N and leaves C at 1 |
| Scenarios.InvertedBoundsRevert | src/systems/thruster/Thruster.cc:366-387 | max 5 below min 10 reverts to [-1000, 1000] |
| Scenarios.SanitisedCommands | src/systems/thruster/Thruster.cc:437-446 | with bounds [5, 10], NaN and +infinity are stored as 5 and 1e6 as 10 |
| Scenarios.BatteryGatesTicks | src/systems/thruster/Thruster.cc:502-534 | a depleted battery of the model suppresses the next tick; once it is recharged the tick acts again, though another model's battery is empty |
| Scenarios.PausedTickIsSilent | src/systems/thruster/Thruster.cc:528-529 | a paused tick produces no output |
| Scenarios.AdaptiveCoefficientLags | src/systems/thruster/Thruster.cc:462-607 | a command from rest keeps C; the first tick still uses the cached speed 0 and keeps C = 1; the second uses the cached 2 m/s and gives C = 1.16 |

## Left out

- Transport: subscriptions, advertisement, topic names and publishing. The published value is part of the tick's returned `Actuation`.
- The mutex: each callback and tick is one atomic method.
- The entity-component store:
  - Batteries are a sequence of (parent, state of charge) pairs, one per BatterySoC component, in the store's iteration order.
  - The link's velocities are tick inputs.
  - The joint velocity command is an output. Creating the JointVelocityCmd component and overwriting an existing one are the same output in the model.
  - A missing WorldLinearVelocity component (a null dereference in the source) is not modelled.
- Pose and quaternion math: rotating and normalising the joint axis. The world unit axis is a tick input.
- PID: gz::math::PID is not part of this model. `Init`, the gains, the integral state and the command limits derived from the bounds are not modelled; one step is an opaque function of (error, dt). This covers the inverted `HasElement` tests for `i_gain` and `d_gain`.
- Configure paths outside the bounds and coefficient blocks:
  - the early returns for a missing joint name and for a joint that is not found;
  - the namespace and topic options;
  - enabling the velocity components.
- Diagnostics: the gzerr, gzwarn and gzdbg messages are not modelled. This includes the message when an inverted bounds pair reverts and the warnings when alpha_1 or alpha_2 come with a thrust_coefficient.
- IEEE behaviour beyond the explicit NaN and infinity cases: rounding, overflow, signed zero, and the accuracy of `sqrt` and `pow`.
- NaN configuration values and NaN battery charges are not represented. These are reals.
- ThrusterSystem.Thruster.Configure: requires a nonzero resolved propeller diameter. With D = 0 the coefficient update divides by zero and the coefficient itself would become NaN or infinite, which the model does not represent.
- ThrusterSystem.Thruster.UpdateThrustCoefficient: requires abs(w) > epsilon, because its only caller tests exactly that first.
- PropellerLaw.ThrustRoundTrip and PropellerLaw.AngularVelRoundTrip: exact over the reals. The source round-trips only up to floating-point error.

Behaviour of the source worth noting:

- An infinite command is sanitised like NaN. gz::math::fixnan maps both to 0.
- The round trips need only a nonzero coefficient, not a positive one.
- The thrust/angular-velocity pair is consistent only while the density is positive and the coefficient nonzero. Once the coefficient estimate reaches zero, the stored angular velocity becomes NaN or infinite.
- Batteries are matched by their parent entity being the model.
