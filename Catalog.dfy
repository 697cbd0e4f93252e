/** The per-mode parameter table (`modeConfigs`) and the colour gradient that
    turns a particle's colour index into an RGB colour at generation time. */
module Catalog {
  import opened Controls

  /** An RGB colour with channels as reals; the table's colours have channels in [0,1]. */
  datatype Color = Color(r: real, g: real, b: real)

  /** The three-colour gradient of a mode, `colors[0]`, `colors[1]`, `colors[2]`. */
  datatype Palette = Palette(c0: Color, c1: Color, c2: Color)

  datatype Distribution = Sphere | Mandelbulb | Spiral | Network | FluidLines | Cellular | Atmospheric

  datatype ModeConfig = ModeConfig(count: nat, size: real, speed: real, colors: Palette, distribution: Distribution)

  predicate UnitChannel(v: real) { 0.0 <= v <= 1.0 }

  predicate UnitColor(c: Color) { UnitChannel(c.r) && UnitChannel(c.g) && UnitChannel(c.b) }

  predicate UnitPalette(p: Palette) { UnitColor(p.c0) && UnitColor(p.c1) && UnitColor(p.c2) }

  /** `new THREE.Color(0xRRGGBB)`: each byte of the hexadecimal literal over 255. */
  function Hex(h: int): (c: Color)
    requires 0 <= h < 0x100_0000
    ensures UnitColor(c)
  {
    Color((h / 0x1_0000) as real / 255.0, (h / 0x100 % 0x100) as real / 255.0, (h % 0x100) as real / 255.0)
  }

  /** The mode table. */
  function Config(m: Mode): (c: ModeConfig)
    ensures c.count > 0 && c.size > 0.0 && c.speed > 0.0
    ensures UnitPalette(c.colors)
    ensures (c.distribution == Sphere) == (m == Cosmic)
  {
    match m
    case Cosmic => ModeConfig(20000, 0.03, 0.2, Palette(Hex(0x0b66ff), Hex(0xff00ff), Hex(0x00ffff)), Sphere)
    case Fractal => ModeConfig(15000, 0.04, 0.3, Palette(Hex(0x00ff00), Hex(0xffff00), Hex(0xff6600)), Mandelbulb)
    case Vortex => ModeConfig(25000, 0.02, 0.5, Palette(Hex(0xff0000), Hex(0xff6600), Hex(0xffcc00)), Spiral)
    case Neural => ModeConfig(30000, 0.015, 0.15, Palette(Hex(0x6600ff), Hex(0x0066ff), Hex(0x00ffcc)), Network)
    case Fluid => ModeConfig(35000, 0.02, 0.4, Palette(Hex(0x0044ff), Hex(0x00ccff), Hex(0x00ffcc)), FluidLines)
    case Biological => ModeConfig(25000, 0.025, 0.2, Palette(Hex(0x00cc44), Hex(0x44ff88), Hex(0xffcc44)), Cellular)
    case Weather => ModeConfig(30000, 0.03, 0.35, Palette(Hex(0x0088ff), Hex(0xffffff), Hex(0xff4400)), Atmospheric)
  }

  // ---------------------------------------------------------------------------
  // Colour selection.

  /** `Math.max(0, Math.min(1, colorIndex))` */
  function ColorMix(colorIndex: real): (mix: real)
    ensures UnitChannel(mix)
    ensures UnitChannel(colorIndex) ==> mix == colorIndex
    ensures colorIndex < 0.0 ==> mix == 0.0
    ensures colorIndex > 1.0 ==> mix == 1.0
  {
    var upper := if colorIndex < 1.0 then colorIndex else 1.0;
    if 0.0 < upper then upper else 0.0
  }

  /** `Color.lerp`: each channel moves the fraction `t` of the way from `a` to `b`. */
  function Lerp(a: Color, b: Color, t: real): Color {
    Color(a.r + (b.r - a.r) * t, a.g + (b.g - a.g) * t, a.b + (b.b - a.b) * t)
  }

  /** The mix within the chosen half of the gradient. */
  function AdjustedMix(mix: real): (t: real)
    ensures UnitChannel(mix) ==> UnitChannel(t)
  {
    if mix < 0.5 then mix * 2.0 else (mix - 0.5) * 2.0
  }

  /** The colour written to the colour buffer for a clamped mix. */
  function Gradient(p: Palette, mix: real): Color {
    if mix < 0.5 then Lerp(p.c0, p.c1, AdjustedMix(mix)) else Lerp(p.c1, p.c2, AdjustedMix(mix))
  }

  /** The colour of a particle with colour index `colorIndex`. */
  function ParticleColor(p: Palette, colorIndex: real): Color {
    Gradient(p, ColorMix(colorIndex))
  }

  predicate Between(lo: real, hi: real, v: real) {
    (lo <= v <= hi) || (hi <= v <= lo)
  }

  predicate ColorBetween(a: Color, b: Color, c: Color) {
    Between(a.r, b.r, c.r) && Between(a.g, b.g, c.g) && Between(a.b, b.b, c.b)
  }

  lemma MulNonNegative(x: real, y: real)
    requires 0.0 <= x && 0.0 <= y
    ensures 0.0 <= x * y
  {
  }

  lemma LerpChannelBetween(a: real, b: real, t: real)
    requires UnitChannel(t)
    ensures Between(a, b, a + (b - a) * t)
  {
    var d := if a <= b then b - a else a - b;
    MulNonNegative(d, t);
    MulNonNegative(d, 1.0 - t);
    assert d * t + d * (1.0 - t) == d;
  }

  lemma LerpBetween(a: Color, b: Color, t: real)
    requires UnitChannel(t)
    ensures ColorBetween(a, b, Lerp(a, b, t))
  {
    LerpChannelBetween(a.r, b.r, t);
    LerpChannelBetween(a.g, b.g, t);
    LerpChannelBetween(a.b, b.b, t);
  }

  /** Each channel of the gradient colour lies between the corresponding channels
      of the two palette colours of the chosen half: the first two below a mix of
      0.5, the last two from 0.5 on. */
  lemma GradientBetween(p: Palette, mix: real)
    requires UnitChannel(mix)
    ensures mix < 0.5 ==> ColorBetween(p.c0, p.c1, Gradient(p, mix))
    ensures mix >= 0.5 ==> ColorBetween(p.c1, p.c2, Gradient(p, mix))
  {
    LerpBetween(if mix < 0.5 then p.c0 else p.c1, if mix < 0.5 then p.c1 else p.c2, AdjustedMix(mix));
  }

  /** The ends and the middle of the gradient are exactly the palette colours. */
  lemma GradientStops(p: Palette)
    ensures Gradient(p, 0.0) == p.c0
    ensures Gradient(p, 0.5) == p.c1
    ensures Gradient(p, 1.0) == p.c2
  {
  }

  lemma BetweenUnit(lo: real, hi: real, v: real)
    requires UnitChannel(lo) && UnitChannel(hi) && Between(lo, hi, v)
    ensures UnitChannel(v)
  {
  }

  /** Whatever the colour index, a particle's colour lies between two palette
      colours of its mode, so every channel is in [0,1]. */
  lemma ParticleColorInUnit(p: Palette, colorIndex: real)
    requires UnitPalette(p)
    ensures UnitColor(ParticleColor(p, colorIndex))
  {
    var mix := ColorMix(colorIndex);
    var c := Gradient(p, mix);
    GradientBetween(p, mix);
    var a, b := if mix < 0.5 then p.c0 else p.c1, if mix < 0.5 then p.c1 else p.c2;
    BetweenUnit(a.r, b.r, c.r);
    BetweenUnit(a.g, b.g, c.g);
    BetweenUnit(a.b, b.b, c.b);
  }
}
