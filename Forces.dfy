/** The per-particle, per-frame step of `applyPhysics`: restoring spring,
    pointer/gesture interaction, the mode-specific contribution, damping and
    integration. Trigonometry (`sin`) and vector length (`norm`) are supplied
    functions; the mode-specific forces, which are built from trigonometry and
    `Math.random`, are supplied per particle as a `ModeSample`. */
module Forces {
  import opened Vectors
  import opened Controls
  import opened Catalog

  /** Everything a frame reads that is the same for every particle. */
  datatype FrameInput = FrameInput(
    interaction: Interaction,
    pointerX: real, pointerY: real,          // mousePosition, in [-1,1]
    gestureEnabled: bool,
    gestureX: real, gestureY: real,          // gesturePositionRef
    gestureIntensity: real,                  // gestureIntensityRef
    audioEnabled: bool,
    audio: real,                             // `audioEnabled ? analyzeAudio() : 0`
    time: real,                              // time.current
    deltaTime: real)

  /** The mode-specific contribution for one particle in one frame. `force` is
      what the mode's branch adds to the velocity (vortex swirl, fractal pulse,
      neural jitter, fluid flow and turbulence, biological streaming and division,
      or weather wind); for weather, `chance`, `lift` and `drop` are the three
      `Math.random()` draws of the precipitation reset and `storm` is the
      audio-driven jitter added after it. The source adds the storm jitter and
      the fluid turbulence only with audio on, so with audio off the caller
      passes `Zero` for `storm` and leaves turbulence out of `force`. */
  datatype ModeSample = ModeSample(force: Vec3, chance: real, lift: real, drop: real, storm: Vec3)

  datatype Particle = Particle(position: Vec3, velocity: Vec3)

  const InteractionRadius: real := 10.0
  const BaseStrength: real := 0.05
  const Damping: real := 0.98

  // ---------------------------------------------------------------------------
  // Interaction.

  /** The gesture position drives the interaction only in gesture mode with
      gesture capture on; otherwise the pointer does. */
  predicate GestureDriven(f: FrameInput) {
    f.interaction == Gesture && f.gestureEnabled
  }

  /** `interactionVector`: the driving 2D position scaled by 10 into the z = 0 plane. */
  function InteractionPoint(f: FrameInput): Vec3 {
    if GestureDriven(f) then Vec3(f.gestureX * 10.0, f.gestureY * 10.0, 0.0)
    else Vec3(f.pointerX * 10.0, f.pointerY * 10.0, 0.0)
  }

  /** A coordinate pair in the normalised [-1,1] square. */
  predicate InUnitSquare(x: real, y: real) {
    -1.0 <= x <= 1.0 && -1.0 <= y <= 1.0
  }

  /** When the driving position (gesture or pointer) is normalised to [-1,1],
      the interaction point lies in the [-10,10] square of the z = 0 plane. */
  lemma InteractionPointInSquare(f: FrameInput)
    requires GestureDriven(f) ==> InUnitSquare(f.gestureX, f.gestureY)
    requires !GestureDriven(f) ==> InUnitSquare(f.pointerX, f.pointerY)
    ensures var q := InteractionPoint(f);
      q.z == 0.0 && -10.0 <= q.x <= 10.0 && -10.0 <= q.y <= 10.0
  {
  }

  /** Only the driving source matters: outside gesture-driven mode the gesture
      position does not move the point, and in it the pointer does not. */
  lemma InteractionPointSource(f: FrameInput, x: real, y: real)
    ensures !GestureDriven(f) ==> InteractionPoint(f.(gestureX := x, gestureY := y)) == InteractionPoint(f)
    ensures GestureDriven(f) ==> InteractionPoint(f.(pointerX := x, pointerY := y)) == InteractionPoint(f)
  {
  }

  /** `interactionStrength`: 0.05, scaled by twice the gesture intensity when the
      gesture drives the interaction. */
  function InteractionStrength(f: FrameInput): (s: real)
    ensures !GestureDriven(f) ==> s == BaseStrength
    ensures GestureDriven(f) && UnitChannel(f.gestureIntensity) ==> 0.0 <= s <= 2.0 * BaseStrength
  {
    if GestureDriven(f) then BaseStrength * (f.gestureIntensity * 2.0) else BaseStrength
  }

  /** The falloff `1 - d / radius`. */
  function Falloff(d: real): real {
    1.0 - d / InteractionRadius
  }

  /** The scalar the normalised direction towards the interaction point is multiplied
      by, as the source's `switch` computes it. In "voice" mode with audio off no
      `multiplyScalar` runs, so the unit direction itself is added. */
  function GainAsWritten(f: FrameInput, d: real, sin: real -> real): real {
    var s := InteractionStrength(f);
    match f.interaction
    case Attract => s * Falloff(d)
    case Gesture => s * Falloff(d)
    case Repel => -s * Falloff(d)
    case Wave => sin(f.time * 3.0 - d * 0.5) * (s * Falloff(d))
    case Voice => if f.audioEnabled then s * f.audio * 3.0 * Falloff(d) else 1.0
  }

  /** The gain with the voice branch corrected: no interaction force when audio
      is off. */
  function Gain(f: FrameInput, d: real, sin: real -> real): (g: real)
    ensures f.interaction == Voice && !f.audioEnabled ==> g == 0.0
    ensures !(f.interaction == Voice && !f.audioEnabled) ==> g == GainAsWritten(f, d, sin)
  {
    if f.interaction == Voice && !f.audioEnabled then 0.0 else GainAsWritten(f, d, sin)
  }

  /** Force 2, given the gain the interaction kind yields at distance `d`. */
  function InteractionWith(toPoint: Vec3, d: real, gain: real): Vec3 {
    if d < InteractionRadius then Scale(Normalize(toPoint, d), gain) else Zero
  }

  function InteractionForce(f: FrameInput, p: Vec3, sin: real -> real, norm: Vec3 -> real): Vec3 {
    var toPoint := Sub(InteractionPoint(f), p);
    var d := norm(toPoint);
    InteractionWith(toPoint, d, Gain(f, d, sin))
  }

  function InteractionForceAsWritten(f: FrameInput, p: Vec3, sin: real -> real, norm: Vec3 -> real): Vec3 {
    var toPoint := Sub(InteractionPoint(f), p);
    var d := norm(toPoint);
    InteractionWith(toPoint, d, GainAsWritten(f, d, sin))
  }

  // ---------------------------------------------------------------------------
  // Spring, weather reset, damping and integration.

  /** Force 1: `(origin - position) * 0.001`. */
  function Spring(p: Vec3, origin: Vec3): Vec3 {
    Scale(Sub(origin, p), 0.001)
  }

  /** The precipitation reset fires below y = -2 when the draw exceeds 0.99. */
  predicate Respawns(p: Vec3, s: ModeSample) {
    p.y < -2.0 && s.chance > 0.99
  }

  /** The height a reset particle is moved to: `8 + Math.random() * 4`. */
  function RespawnHeight(s: ModeSample): (y: real)
    ensures 0.0 <= s.lift < 1.0 ==> 8.0 <= y < 12.0
  {
    8.0 + s.lift * 4.0
  }

  /** The downward speed a reset particle is given: `-0.05 - Math.random() * 0.1`. */
  function RespawnFall(s: ModeSample): (vy: real)
    ensures 0.0 <= s.drop < 1.0 ==> -0.15 < vy <= -0.05
  {
    -0.05 - s.drop * 0.1
  }

  /** The velocity after the mode-specific branch, before damping. */
  function ModeVelocity(m: Mode, p: Vec3, v: Vec3, s: ModeSample): Vec3 {
    var w := Add(v, s.force);
    if m == Weather then
      var reset := if Respawns(p, s) then w.(y := RespawnFall(s)) else w;
      Add(reset, s.storm)
    else w
  }

  /** Damping by 0.98, then `position += velocity * deltaTime * speed`. */
  function Integrate(p: Vec3, v: Vec3, deltaTime: real, speed: real): Particle {
    var damped := Scale(v, Damping);
    Particle(Add(p, Scale(damped, deltaTime * speed)), damped)
  }

  /** One particle's step, as the model runs it (both findings corrected): the
      weather reset moves the particle itself, and voice without audio adds no
      force. */
  function Step(m: Mode, f: FrameInput, speed: real, p: Vec3, v: Vec3, origin: Vec3, s: ModeSample,
                sin: real -> real, norm: Vec3 -> real): Particle
  {
    var v1 := Add(Add(v, Spring(p, origin)), InteractionForce(f, p, sin, norm));
    var start := if m == Weather && Respawns(p, s) then p.(y := RespawnHeight(s)) else p;
    Integrate(start, ModeVelocity(m, p, v1, s), f.deltaTime, speed)
  }

  /** One particle's step as the source writes it: the reset's write to
      `positions[idx + 1]` is overwritten from the unchanged local copy at the end
      of the loop body, and voice without audio adds the unit direction. */
  function StepAsWritten(m: Mode, f: FrameInput, speed: real, p: Vec3, v: Vec3, origin: Vec3, s: ModeSample,
                         sin: real -> real, norm: Vec3 -> real): Particle
  {
    var v1 := Add(Add(v, Spring(p, origin)), InteractionForceAsWritten(f, p, sin, norm));
    Integrate(p, ModeVelocity(m, p, v1, s), f.deltaTime, speed)
  }

  // ---------------------------------------------------------------------------
  // Properties of the step.

  /** Whenever the weather reset does not fire, in every mode, the new velocity is
      the old one plus spring, interaction and mode force (for weather, the wind
      plus the storm jitter), damped by 0.98, and the position moves by the new
      velocity times `deltaTime * speed`. */
  lemma StepFormula(m: Mode, f: FrameInput, speed: real, p: Vec3, v: Vec3, origin: Vec3, s: ModeSample,
                    sin: real -> real, norm: Vec3 -> real)
    requires m != Weather || !Respawns(p, s)
    ensures var modeForce := if m == Weather then Add(s.force, s.storm) else s.force;
      var r := Step(m, f, speed, p, v, origin, s, sin, norm);
      && r.velocity == Scale(Add(Add(Add(v, Scale(Sub(origin, p), 0.001)), InteractionForce(f, p, sin, norm)), modeForce), 0.98)
      && r.position == Add(p, Scale(r.velocity, f.deltaTime * speed))
  {
  }

  /** The interaction force vanishes at and beyond the radius of 10. */
  lemma InteractionGated(f: FrameInput, p: Vec3, sin: real -> real, norm: Vec3 -> real)
    requires norm(Sub(InteractionPoint(f), p)) >= InteractionRadius
    ensures InteractionForce(f, p, sin, norm) == Zero
  {
  }

  /** Inside the radius, attraction (and gesture) pulls with a gain in
      (0, strength] along the unit direction towards the interaction point. */
  lemma AttractGainBounds(f: FrameInput, d: real, sin: real -> real)
    requires f.interaction == Attract || f.interaction == Gesture
    requires InteractionStrength(f) > 0.0 && 0.0 <= d < InteractionRadius
    ensures 0.0 < Gain(f, d, sin) <= InteractionStrength(f)
  {
    var s := InteractionStrength(f);
    var k := Falloff(d);
    assert 0.0 < k <= 1.0;
    assert Gain(f, d, sin) == s * k;
    MulNonNegative(s, 1.0 - k);
    MulPositive(s, k);
  }

  /** Repulsion has exactly the opposite gain of attraction. */
  lemma RepelGainNegates(f: FrameInput, d: real, sin: real -> real)
    requires f.interaction == Repel
    ensures Gain(f, d, sin) == -Gain(f.(interaction := Attract), d, sin)
  {
    var a := f.(interaction := Attract);
    assert InteractionStrength(a) == InteractionStrength(f);
    assert Gain(a, d, sin) == InteractionStrength(f) * Falloff(d);
  }

  lemma MulPositive(x: real, y: real)
    requires 0.0 < x && 0.0 < y
    ensures 0.0 < x * y
  {
  }

  /** Repelling is attracting reversed: the two interaction forces are opposite
      vectors, whatever the particle's position. */
  lemma RepelOppositeOfAttract(f: FrameInput, p: Vec3, sin: real -> real, norm: Vec3 -> real)
    requires f.interaction == Repel
    ensures InteractionForce(f, p, sin, norm) == Scale(InteractionForce(f.(interaction := Attract), p, sin, norm), -1.0)
  {
    var a := f.(interaction := Attract);
    assert InteractionPoint(a) == InteractionPoint(f);
    assert InteractionStrength(a) == InteractionStrength(f);
  }

  /** With no force acting (the particle sits at its origin, the interaction point
      is out of range, the mode adds nothing), a step only damps the velocity by
      0.98. */
  lemma FreeStepDamps(m: Mode, f: FrameInput, speed: real, p: Vec3, v: Vec3, s: ModeSample,
                      sin: real -> real, norm: Vec3 -> real)
    requires m != Weather && s.force == Zero
    requires norm(Sub(InteractionPoint(f), p)) >= InteractionRadius
    ensures Step(m, f, speed, p, v, p, s, sin, norm) == Integrate(p, v, f.deltaTime, speed)
    ensures Step(m, f, speed, p, v, p, s, sin, norm).velocity == Scale(v, 0.98)
  {
    InteractionGated(f, p, sin, norm);
    assert Add(Add(v, Spring(p, p)), Zero) == v;
  }

  /** With no force acting, a step shrinks the squared speed by exactly 0.98
      squared, so a free particle slows down. */
  lemma DampingShrinksSpeed(m: Mode, f: FrameInput, speed: real, p: Vec3, v: Vec3, s: ModeSample,
                            sin: real -> real, norm: Vec3 -> real)
    requires m != Weather && s.force == Zero
    requires norm(Sub(InteractionPoint(f), p)) >= InteractionRadius
    ensures var w := Step(m, f, speed, p, v, p, s, sin, norm).velocity;
      Dot(w, w) == 0.98 * 0.98 * Dot(v, v) && Dot(w, w) <= Dot(v, v)
  {
    FreeStepDamps(m, f, speed, p, v, s, sin, norm);
    ScaledSquare(v, 0.98);
  }

  lemma ScaledSquare(v: Vec3, k: real)
    requires 0.0 <= k <= 1.0
    ensures Dot(Scale(v, k), Scale(v, k)) == k * k * Dot(v, v)
    ensures Dot(Scale(v, k), Scale(v, k)) <= Dot(v, v)
  {
    assert Dot(v, v) >= 0.0;
    MulNonNegative(k, 1.0 - k);
    MulNonNegative(k * k, Dot(v, v));
    MulNonNegative(1.0 - k * k, Dot(v, v));
  }

  /** A particle at rest at its origin, with nothing else acting, stays put. */
  lemma RestIsEquilibrium(m: Mode, f: FrameInput, speed: real, p: Vec3, s: ModeSample,
                          sin: real -> real, norm: Vec3 -> real)
    requires m != Weather && s.force == Zero
    requires norm(Sub(InteractionPoint(f), p)) >= InteractionRadius
    ensures Step(m, f, speed, p, Zero, p, s, sin, norm) == Particle(p, Zero)
  {
    FreeStepDamps(m, f, speed, p, Zero, s, sin, norm);
    IntegrateAtRest(p, f.deltaTime, speed);
  }

  lemma IntegrateAtRest(p: Vec3, deltaTime: real, speed: real)
    ensures Integrate(p, Zero, deltaTime, speed) == Particle(p, Zero)
  {
    var k := deltaTime * speed;
    assert Scale(Zero, Damping) == Zero;
    assert Scale(Zero, k) == Zero;
    assert Add(p, Zero) == p;
  }

  /** The vortex branch's swirl `normalize(-z, 0, x) * 0.01` is purely tangential:
      it is orthogonal to the particle's horizontal radius `(x, 0, z)`. */
  function VortexForce(p: Vec3, norm: Vec3 -> real): (w: Vec3)
    ensures w.y == 0.0
    ensures Dot(w, Vec3(p.x, 0.0, p.z)) == 0.0
  {
    var perpendicular := Vec3(-p.z, 0.0, p.x);
    var k := if norm(perpendicular) == 0.0 then 0.01 else 0.01 / norm(perpendicular);
    assert Scale(Normalize(perpendicular, norm(perpendicular)), 0.01) == Vec3(-p.z * k, 0.0, p.x * k);
    Scale(Normalize(perpendicular, norm(perpendicular)), 0.01)
  }

  // ---------------------------------------------------------------------------
  // Weather reset: the source loses the new height; the model keeps it.

  /** As written, a particle that triggers the reset ends the frame where plain
      integration takes it, not at the reset height: one at y = -3 stays below -2. */
  lemma RespawnLostAsWritten(f: FrameInput, p: Vec3, s: ModeSample, sin: real -> real, norm: Vec3 -> real)
    requires p == Vec3(0.0, -3.0, 0.0) && s == ModeSample(Zero, 0.995, 0.5, 0.5, Zero)
    requires f.deltaTime == 1.0 && norm(Sub(InteractionPoint(f), p)) >= InteractionRadius
    ensures StepAsWritten(Weather, f, 0.35, p, Zero, p, s, sin, norm).position.y < -2.0
  {
    InteractionGatedAsWritten(f, p, sin, norm);
    ResetIgnoredAsWritten(f, p, s, sin, norm);
  }

  lemma ResetIgnoredAsWritten(f: FrameInput, p: Vec3, s: ModeSample, sin: real -> real, norm: Vec3 -> real)
    requires p == Vec3(0.0, -3.0, 0.0) && s == ModeSample(Zero, 0.995, 0.5, 0.5, Zero)
    requires f.deltaTime == 1.0 && InteractionForceAsWritten(f, p, sin, norm) == Zero
    ensures StepAsWritten(Weather, f, 0.35, p, Zero, p, s, sin, norm).position.y < -2.0
  {
    UnforcedStepAsWritten(f, 0.35, p, s, sin, norm);
    ResetFallStaysLow(p, s);
  }

  /** The example particle does trigger the reset (reset height 10), yet the
      velocity the reset gives it, integrated from where it is, keeps it below -2. */
  lemma ResetFallStaysLow(p: Vec3, s: ModeSample)
    requires p == Vec3(0.0, -3.0, 0.0) && s == ModeSample(Zero, 0.995, 0.5, 0.5, Zero)
    ensures Respawns(p, s) && RespawnHeight(s) == 10.0
    ensures Integrate(p, ModeVelocity(Weather, p, Zero, s), 1.0, 0.35).position.y < -2.0
  {
  }

  /** As written, a weather particle at rest at its origin and out of the
      interaction's reach integrates from where it is, whatever the reset does. */
  lemma UnforcedStepAsWritten(f: FrameInput, speed: real, p: Vec3, s: ModeSample,
                              sin: real -> real, norm: Vec3 -> real)
    requires InteractionForceAsWritten(f, p, sin, norm) == Zero
    ensures StepAsWritten(Weather, f, speed, p, Zero, p, s, sin, norm)
            == Integrate(p, ModeVelocity(Weather, p, Zero, s), f.deltaTime, speed)
  {
    assert Add(Add(Zero, Spring(p, p)), Zero) == Zero;
  }

  lemma InteractionGatedAsWritten(f: FrameInput, p: Vec3, sin: real -> real, norm: Vec3 -> real)
    requires norm(Sub(InteractionPoint(f), p)) >= InteractionRadius
    ensures InteractionForceAsWritten(f, p, sin, norm) == Zero
  {
  }

  /** With the correction, a reset particle starts integration from its reset
      height in [8,12) with a downward speed: its new height is that height plus
      its (damped) velocity times `deltaTime * speed`. The horizontal components
      are kept: x and z of the velocity take spring, interaction, wind and storm
      as in any other step, and x and z of the position integrate from where the
      particle was. */
  lemma RespawnKept(f: FrameInput, speed: real, p: Vec3, v: Vec3, origin: Vec3, s: ModeSample,
                    sin: real -> real, norm: Vec3 -> real)
    requires Respawns(p, s) && 0.0 <= s.lift < 1.0 && 0.0 <= s.drop < 1.0
    ensures var r := Step(Weather, f, speed, p, v, origin, s, sin, norm);
      var v1 := Add(Add(v, Spring(p, origin)), InteractionForce(f, p, sin, norm));
      && 8.0 <= RespawnHeight(s) < 12.0
      && r.velocity.y == 0.98 * (RespawnFall(s) + s.storm.y)
      && r.position.y == RespawnHeight(s) + r.velocity.y * (f.deltaTime * speed)
      && r.velocity.x == 0.98 * (v1.x + s.force.x + s.storm.x)
      && r.velocity.z == 0.98 * (v1.z + s.force.z + s.storm.z)
      && r.position.x == p.x + r.velocity.x * (f.deltaTime * speed)
      && r.position.z == p.z + r.velocity.z * (f.deltaTime * speed)
  {
  }

  // ---------------------------------------------------------------------------
  // Voice with audio off: the source adds a unit vector; the model adds nothing.

  /** As written, in voice mode with audio off a particle inside the radius gets
      the unit direction towards the interaction point added to its velocity:
      a force of magnitude 1, twenty times the strength 0.05 of every other kind. */
  lemma VoiceWithoutAudioAsWritten(f: FrameInput, p: Vec3, sin: real -> real, norm: Vec3 -> real)
    requires f.interaction == Voice && !f.audioEnabled
    requires var d := norm(Sub(InteractionPoint(f), p)); 0.0 < d < InteractionRadius
    ensures var d := norm(Sub(InteractionPoint(f), p));
      Scale(InteractionForceAsWritten(f, p, sin, norm), d) == Sub(InteractionPoint(f), p)
  {
    var toPoint := Sub(InteractionPoint(f), p);
    var d := norm(toPoint);
    assert InteractionForceAsWritten(f, p, sin, norm) == Normalize(toPoint, d);
  }

  /** With the correction, voice mode with audio off exerts no interaction force. */
  lemma VoiceWithoutAudioSilent(f: FrameInput, p: Vec3, sin: real -> real, norm: Vec3 -> real)
    requires f.interaction == Voice && !f.audioEnabled
    ensures InteractionForce(f, p, sin, norm) == Zero
  {
  }

  /** With audio on, the voice gain is `0.05 * audio * 3 * (1 - d/10)`, in
      [0, 0.15] for an intensity in [0,1] inside the radius. */
  lemma VoiceGainBounds(f: FrameInput, d: real, sin: real -> real)
    requires f.interaction == Voice && f.audioEnabled && UnitChannel(f.audio)
    requires 0.0 <= d < InteractionRadius
    ensures 0.0 <= Gain(f, d, sin) <= 0.15
  {
    var k := Falloff(d);
    assert 0.0 < k <= 1.0;
    MulNonNegative(f.audio, k);
    MulNonNegative(f.audio, 1.0 - k);
    assert f.audio * k <= f.audio;
    assert Gain(f, d, sin) == 0.15 * (f.audio * k);
  }
}
