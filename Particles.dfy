/** The particle system: the flat position and colour buffers and the two
    parallel per-particle lists, filled by `createParticleSystem` and advanced in
    place by `applyPhysics`. */
module Particles {
  import opened Vectors
  import opened Controls
  import opened Catalog
  import opened Forces

  /** What generation draws for one particle: its position from the mode's
      distribution, its colour index, and the three `Math.random()` values of its
      initial velocity. */
  datatype Draw = Draw(pos: Vec3, colorIndex: real, rx: real, ry: real, rz: real)

  /** `(Math.random() - 0.5) * 0.01` */
  function Jitter(r: real): (v: real)
    ensures 0.0 <= r < 1.0 ==> -0.005 <= v < 0.005
  {
    (r - 0.5) * 0.01
  }

  function InitialVelocity(d: Draw): Vec3 {
    Vec3(Jitter(d.rx), Jitter(d.ry), Jitter(d.rz))
  }

  /** Each component of a particle's initial velocity lies in [-0.005, 0.005)
      when its random draw lies in [0,1). */
  lemma InitialVelocityBounds(d: Draw)
    requires 0.0 <= d.rx < 1.0 && 0.0 <= d.ry < 1.0 && 0.0 <= d.rz < 1.0
    ensures var v := InitialVelocity(d);
      && -0.005 <= v.x < 0.005 && -0.005 <= v.y < 0.005 && -0.005 <= v.z < 0.005
  {
  }

  /** The vector held in slots `3i..3i+2` of a flat buffer. */
  function Triple(buf: seq<real>, i: nat): Vec3
    requires 3 * i + 2 < |buf|
  {
    Vec3(buf[3 * i], buf[3 * i + 1], buf[3 * i + 2])
  }

  /** The colour held in slots `3i..3i+2` of a flat buffer. */
  function ColorAt(buf: seq<real>, i: nat): Color
    requires 3 * i + 2 < |buf|
  {
    Color(buf[3 * i], buf[3 * i + 1], buf[3 * i + 2])
  }

  /** The material size while audio plays: `baseSize * (1 + audio * 0.5)`. */
  function SizePulse(baseSize: real, audio: real): (s: real)
    ensures 0.0 < baseSize && UnitChannel(audio) ==> baseSize <= s <= 1.5 * baseSize
  {
    baseSize * (1.0 + audio * 0.5)
  }

  /** The body of `applyPhysics`'s loop for one particle, written force by force
      on the vector operations: the spring, the distance-gated interaction
      chosen by kind, the mode's contribution with the weather reset and storm,
      damping and integration. It is proved to compute `Step`, so the two
      corrections hold here too: the reset moves the particle itself, and voice
      without audio adds nothing. */
  method StepParticle(m: Mode, f: FrameInput, speed: real, position: Vec3, v: Vec3, origin: Vec3, s: ModeSample,
                      sin: real -> real, norm: Vec3 -> real) returns (next: Particle)
    ensures next == Step(m, f, speed, position, v, origin, s, sin, norm)
  {
    var velocity := v;
    // Force 1: the spring back to the original position.
    var toOrigin := Sub(origin, position);
    velocity := Add(velocity, Scale(toOrigin, 0.001));
    // Force 2: pointer or gesture interaction within the radius.
    velocity := Interact(f, position, velocity, sin, norm);
    // Force 3: the mode's contribution; for weather, the reset and the storm.
    var particle;
    particle, velocity := ModeStep(m, position, velocity, s);
    next := Damp(particle, velocity, f.deltaTime, speed);
  }

  /** The interaction block: within the radius, the unit direction towards the
      interaction point, scaled by the interaction kind, is added to `v`. */
  method Interact(f: FrameInput, position: Vec3, v: Vec3, sin: real -> real, norm: Vec3 -> real)
    returns (velocity: Vec3)
    ensures velocity == Add(v, InteractionForce(f, position, sin, norm))
  {
    velocity := v;
    var toInteraction := Sub(InteractionPoint(f), position);
    var distance := norm(toInteraction);
    if distance < InteractionRadius {
      var force := InteractionKind(f, Normalize(toInteraction, distance), distance, sin);
      velocity := Add(velocity, force);
    }
  }

  /** Damping by 0.98, then `particle += velocity * deltaTime * speed`. */
  method Damp(particle: Vec3, v: Vec3, deltaTime: real, speed: real) returns (next: Particle)
    ensures next == Integrate(particle, v, deltaTime, speed)
  {
    var velocity := Scale(v, 0.98);
    var moved := Add(particle, Scale(velocity, deltaTime * speed));
    next := Particle(moved, velocity);
  }

  /** The `switch` on the mode: its force is added, and for weather a particle
      below -2 whose draw exceeds 0.99 is moved to the reset height with a
      downward speed (the correction: the particle itself moves), after which
      the storm jitter is added. */
  method ModeStep(m: Mode, position: Vec3, v: Vec3, s: ModeSample) returns (particle: Vec3, velocity: Vec3)
    ensures velocity == ModeVelocity(m, position, v, s)
    ensures particle == if m == Weather && Respawns(position, s) then position.(y := RespawnHeight(s)) else position
  {
    velocity := Add(v, s.force);
    particle := position;
    if m == Weather {
      if particle.y < -2.0 && s.chance > 0.99 {
        particle := particle.(y := 8.0 + s.lift * 4.0);
        velocity := velocity.(y := -0.05 - s.drop * 0.1);
      }
      velocity := Add(velocity, s.storm);
    }
  }

  /** The `switch` on the interaction kind: the unit direction `force` towards
      the interaction point, at distance `d`, scaled as the kind says. Voice
      without audio yields `Zero` (the correction). */
  method InteractionKind(f: FrameInput, force: Vec3, d: real, sin: real -> real) returns (w: Vec3)
    ensures w == Scale(force, Gain(f, d, sin))
  {
    var strength := InteractionStrength(f);
    var falloff := 1.0 - d / InteractionRadius;
    match f.interaction {
      case Attract => w := Scale(force, strength * falloff);
      case Gesture => w := Scale(force, strength * falloff);
      case Repel => w := Scale(force, -strength * falloff);
      case Wave => w := Scale(force, sin(f.time * 3.0 - d * 0.5) * (strength * falloff));
      case Voice =>
        if f.audioEnabled {
          w := Scale(force, strength * f.audio * 3.0 * falloff);
        } else {
          w := Zero;
        }
    }
  }

  /** The loop of `applyPhysics` over the flat position buffer: particle `i`
      takes one `Step` from slots `3i..3i+2` and its velocity, and the result is
      written back to those slots; the new velocities are returned in order. */
  method StepAll(m: Mode, f: FrameInput, speed: real, positions: array<real>, velocities: seq<Vec3>,
                 origins: seq<Vec3>, samples: seq<ModeSample>, sin: real -> real, norm: Vec3 -> real)
    returns (next: seq<Vec3>)
    requires positions.Length == 3 * |velocities| && |origins| == |velocities| == |samples|
    modifies positions
    ensures |next| == |velocities|
    ensures forall i :: 0 <= i < |velocities| ==>
      var r := Step(m, f, speed, Triple(old(positions[..]), i), velocities[i], origins[i], samples[i], sin, norm);
      Triple(positions[..], i) == r.position && next[i] == r.velocity
  {
    ghost var p0 := positions[..];
    var n := |velocities|;
    next := velocities;
    var i := 0;
    while i < n
      invariant 0 <= i <= n && |next| == n && |p0| == positions.Length == 3 * n
      invariant forall j :: 3 * i <= j < 3 * n ==> positions[j] == p0[j]
      invariant forall k :: i <= k < n ==> next[k] == velocities[k]
      invariant forall k :: 0 <= k < i ==>
        var r := Step(m, f, speed, Triple(p0, k), velocities[k], origins[k], samples[k], sin, norm);
        Triple(positions[..], k) == r.position && next[k] == r.velocity
    {
      var idx := i * 3;
      var particle := Vec3(positions[idx], positions[idx + 1], positions[idx + 2]);
      assert particle == Triple(p0, i);
      var r := StepParticle(m, f, speed, particle, next[i], origins[i], samples[i], sin, norm);
      positions[idx] := r.position.x;
      positions[idx + 1] := r.position.y;
      positions[idx + 2] := r.position.z;
      next := next[i := r.velocity];
      i := i + 1;
    }
  }

  /** The generation loop of `createParticleSystem`: particle `i` is written at
      slots `3i..3i+2` of fresh position and colour buffers, with its origin,
      its initial velocity and its gradient colour over palette `p`. */
  method Generate(p: Palette, draws: seq<Draw>)
    returns (posArray: array<real>, colorArray: array<real>, vs: seq<Vec3>, os: seq<Vec3>)
    ensures fresh(posArray) && fresh(colorArray) && posArray != colorArray
    ensures posArray.Length == 3 * |draws| && colorArray.Length == 3 * |draws|
    ensures |vs| == |draws| && |os| == |draws|
    ensures forall k :: 0 <= k < |draws| ==>
      && Triple(posArray[..], k) == draws[k].pos
      && os[k] == draws[k].pos
      && vs[k] == InitialVelocity(draws[k])
      && ColorAt(colorArray[..], k) == ParticleColor(p, draws[k].colorIndex)
  {
    var n := |draws|;
    posArray := new real[n * 3];
    colorArray := new real[n * 3];
    vs := [];
    os := [];
    var i := 0;
    while i < n
      invariant 0 <= i <= n
      invariant |vs| == i && |os| == i
      invariant forall k :: 0 <= k < i ==>
        && Triple(posArray[..], k) == draws[k].pos
        && os[k] == draws[k].pos
        && vs[k] == InitialVelocity(draws[k])
        && ColorAt(colorArray[..], k) == ParticleColor(p, draws[k].colorIndex)
    {
      var d := draws[i];
      var index := i * 3;
      posArray[index] := d.pos.x;
      posArray[index + 1] := d.pos.y;
      posArray[index + 2] := d.pos.z;
      os := os + [d.pos];
      vs := vs + [InitialVelocity(d)];
      var c := ParticleColor(p, d.colorIndex);
      colorArray[index] := c.r;
      colorArray[index + 1] := c.g;
      colorArray[index + 2] := c.b;
      i := i + 1;
    }
  }

  class ParticleSystem {
    var mode: Mode
    var positions: array<real>
    var colors: array<real>
    var velocities: seq<Vec3>
    var origPositions: seq<Vec3>
    /** The points material's size. */
    var size: real

    /** Both buffers hold three numbers per particle, the two lists one entry
        each, and the buffers are distinct arrays. */
    ghost predicate Valid()
      reads this
    {
      && positions.Length == 3 * |velocities|
      && colors.Length == 3 * |velocities|
      && |origPositions| == |velocities|
      && positions != colors
    }

    /** `createParticleSystem` for mode `m`: particle `i` is written at slots
        `3i..3i+2` of the position buffer, its origin is that same position, its
        initial velocity comes from its random draws and its colour is the mode's
        gradient at its colour index. */
    constructor Create(m: Mode, draws: seq<Draw>)
      requires |draws| == Config(m).count
      ensures Valid() && fresh(positions) && fresh(colors)
      ensures mode == m && size == Config(m).size
      ensures |velocities| == Config(m).count
      ensures forall i :: 0 <= i < |draws| ==>
        && Triple(positions[..], i) == draws[i].pos
        && origPositions[i] == draws[i].pos
        && velocities[i] == InitialVelocity(draws[i])
        && ColorAt(colors[..], i) == ParticleColor(Config(m).colors, draws[i].colorIndex)
      ensures forall i :: 0 <= i < |draws| ==> UnitColor(ColorAt(colors[..], i))
    {
      var config := Config(m);
      var posArray, colorArray, vs, os := Generate(config.colors, draws);
      forall k | 0 <= k < |draws|
        ensures UnitColor(ParticleColor(config.colors, draws[k].colorIndex))
      {
        ParticleColorInUnit(config.colors, draws[k].colorIndex);
      }
      mode := m;
      positions := posArray;
      colors := colorArray;
      velocities := vs;
      origPositions := os;
      size := config.size;
    }

    /** One frame of `applyPhysics`. Paused, nothing changes. Otherwise every
        particle takes one `Step` from its buffered position and its velocity,
        written back to its own three slots and its own velocity entry; the
        colours, origins and mode are untouched, and the material size pulses
        with the audio when audio is on. `samples[i]` is particle `i`'s
        mode-specific contribution this frame. */
    method ApplyPhysics(paused: bool, f: FrameInput, samples: seq<ModeSample>,
                        sin: real -> real, norm: Vec3 -> real)
      requires Valid() && |samples| == |velocities|
      modifies this, positions
      ensures Valid()
      ensures positions == old(positions) && colors == old(colors) && mode == old(mode)
      ensures origPositions == old(origPositions) && |velocities| == |old(velocities)|
      ensures paused ==> positions[..] == old(positions[..]) && velocities == old(velocities) && size == old(size)
      ensures !paused ==> forall i :: 0 <= i < |velocities| ==>
        var r := Step(mode, f, Config(mode).speed, Triple(old(positions[..]), i), old(velocities)[i],
                      origPositions[i], samples[i], sin, norm);
        Triple(positions[..], i) == r.position && velocities[i] == r.velocity
      ensures !paused ==> size == (if f.audioEnabled then SizePulse(Config(mode).size, f.audio) else old(size))
    {
      if paused {
        return;
      }
      var config := Config(mode);
      if f.audioEnabled {
        size := SizePulse(config.size, f.audio);
      }
      velocities := StepAll(mode, f, config.speed, positions, velocities, origPositions, samples, sin, norm);
    }
  }
}
