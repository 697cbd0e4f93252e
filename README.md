# Particles: a verified model of the particle-system core

This project models the simulation core of the particles visualiser, a React and
Three.js component (`src/App.tsx`) that shows tens of thousands of coloured points.
The points drift under a spring back to their origin and an interaction with the pointer or a
gesture, plus a force that depends on the visual mode. The model covers:

- **Key-driven state** (module `Controls`):
  - the `m` key cycles seven visual modes (`NextMode`);
  - the `i` key cycles five interaction kinds (`NextInteraction`);
  - any unknown value falls back to the first;
  - space toggles pause;
  - the animation clock advances by 0.01 per unpaused frame. The clock is the `Clock` class.
- **Mode table and colours** (module `Catalog`): the per-mode configuration, and the clamp-and-lerp
  gradient that turns a particle's colour index into a colour over the mode's three-colour palette
  (`Gradient`, applied to the clamped index by `ParticleColor`).
- **One particle's step** (module `Forces`):
  - the spring, the distance-gated attract, repel, wave, voice or gesture interaction, the
    mode's contribution, damping by 0.98 and `position += velocity * deltaTime * speed`;
  - `Step` is the body of `applyPhysics`'s per-particle loop, with the two defects under Findings
    corrected;
  - `StepAsWritten` (with `GainAsWritten` and `InteractionForceAsWritten`) is the same body exactly
    as the source writes it.
- **The particle system** (module `Particles`), a class holding:
  - the flat position and colour buffers, as arrays;
  - the parallel `velocities` and `origPositions` lists.

  Its constructor `Create` is `createParticleSystem`; its generation loop is the method `Generate`.
  `ApplyPhysics` is `applyPhysics` with the two defects under Findings corrected. Its loop over
  the buffer, `StepAll`, updates the positions in place, and `StepParticle` is the loop's body,
  with the helper methods `Interact` (the distance-gated interaction block), `InteractionKind` (its
  `switch`), `ModeStep` (the mode `switch`) and `Damp` (damping and integration).
- **Signal reducers** (module `Signals`):
  - `analyzeAudio` averages the analyser's bytes and smooths the level exponentially;
  - `processGestures` scans an 80x60 RGBA frame for the first brightest sampled pixel and
    normalises it. The scan is `Brightest`, whose inner loop over one row is `ScanRow`.

  Both functions update the fields of the `SignalState` class.
- **One animation frame** (module `Frame`), in the order the source runs it: the gesture scan,
  the clock tick, then the audio and the physics, both skipped when paused. `Animate` is
  `animate`, and `FrameDelta` is its elapsed time `(currentTime - lastTime) / 16.67`.

Modelling choices:
- JavaScript numbers are mathematical reals.
- Vector length (a square root) and `Math.sin` are supplied functions (`norm`, `sin`).
- Everything built from `Math.random()` and the trigonometric distributions is supplied per
  particle:
  - generation receives a `Draw` for each particle (position, colour index, three random values);
  - each frame receives a `ModeSample` for each particle (the mode's force, and for the weather
    mode its three random draws and the storm jitter). The source adds the storm jitter and the
    fluid turbulence only with audio on, so with audio off the caller passes `Zero` for `storm`
    and leaves the turbulence out of the force.

## Model

| member | source | states |
|---|---|---|
| Controls.IndexOfFirst | src/App.tsx:632-651 | the position of a name in a cycle table is -1 exactly when the name is absent, and otherwise its first occurrence |
| Controls.CycleStep | src/App.tsx:632-651 | reference for a cycling key: a name that is not in the table goes to the first entry |
| Controls.CycleStepAt | src/App.tsx:632-651 | in a table of distinct names, a press moves each name one place on and the last name back to the first |
| Controls.PressesFromIndex | src/App.tsx:632-651 | in a table of distinct names, j presses (j at most the table's length) from the k-th name land on the name k + j places on, wrapping past the end |
| Controls.CycleStepInTable | src/App.tsx:632-651 | a press always lands on a name in the table |
| Controls.CyclePeriod | src/App.tsx:632-651 | in a table of distinct names, as many presses as the table has entries return every name to itself |
| Controls.EventuallyPeriodic | src/App.tsx:632-651 | from any value, even an unknown one, the press sequence is periodic with the table's length from the first press on |
| Controls.PressesInTable | src/App.tsx:632-651 | starting inside the table, every number of presses stays inside it |
| Controls.PressesAdd | src/App.tsx:632-651 | a + b presses are a presses followed by b presses |
| Controls.ModeCycleDistinct | src/App.tsx:15 | the seven mode names are distinct |
| Controls.InteractionCycleDistinct | src/App.tsx:16 | the five interaction names are distinct |
| Controls.NextModeIsCycleStep | src/App.tsx:632-642 | the `m` handler's chain of comparisons equals one step along cosmic, fractal, vortex, neural, fluid, biological, weather with fallback to cosmic |
| Controls.NextInteractionIsCycleStep | src/App.tsx:644-652 | the `i` handler's chain equals one step along attract, repel, wave, voice, gesture with fallback to attract |
| Controls.IterateOnTable | src/App.tsx:632-651 | repeating a handler that agrees with a table step everywhere is pressing along the table |
| Controls.ModePressesOnTable | src/App.tsx:632-642 | n `m` presses are n steps along the mode table |
| Controls.InteractionPressesOnTable | src/App.tsx:644-652 | n `i` presses are n steps along the interaction table |
| Controls.ModeKeyTotal | src/App.tsx:632-642 | `m` always yields one of the seven modes, and every value other than the first six names yields cosmic |
| Controls.ModeKeyPeriod | src/App.tsx:632-642 | seven `m` presses bring every mode back to itself |
| Controls.ModeKeyEventuallyPeriodic | src/App.tsx:632-642 | from any value, the sequence of modes repeats every seven presses after the first |
| Controls.InteractionKeyTotal | src/App.tsx:644-652 | `i` always yields one of the five kinds, and every value other than the first four names yields attract |
| Controls.InteractionKeyPeriod | src/App.tsx:644-652 | five `i` presses bring every kind back to itself |
| Controls.InteractionKeyEventuallyPeriodic | src/App.tsx:644-652 | from any value, the sequence of kinds repeats every five presses after the first |
| Controls.ModeOf | src/App.tsx:15 | each mode name denotes the mode whose name it is |
| Controls.ModeNameRoundTrip | src/App.tsx:15 | mode to name to mode is the identity, and every name is in the cycle |
| Controls.InteractionOf | src/App.tsx:16 | each interaction name denotes the kind whose name it is |
| Controls.InteractionNameRoundTrip | src/App.tsx:16 | kind to name to kind is the identity, and every name is in the cycle |
| Controls.TogglePaused | src/App.tsx:654-656 | space always flips the pause flag |
| Controls.TogglePausedTwice | src/App.tsx:654-656 | two presses of space restore the pause flag |
| Controls.Advance | src/App.tsx:1125 | the clock grows by exactly 0.01 in an unpaused frame and not at all in a paused one |
| Controls.RunAdvancesByUnpaused | src/App.tsx:1125 | over any run of frames the clock grows by 0.01 times the number of unpaused frames, so it never decreases |
| Controls.Clock.constructor | src/App.tsx:27 | the clock starts at 0 |
| Controls.Clock.Tick | src/App.tsx:1125 | a tick sets the clock to its advanced value and never decreases it |
| Catalog.Hex | src/App.tsx:146-227 | each channel of a hexadecimal colour literal, byte over 255, is in [0,1] |
| Catalog.Config | src/App.tsx:146-227 | every mode has positive count, size and speed and a palette of colours in [0,1], and only cosmic uses the sphere distribution |
| Catalog.ColorMix | src/App.tsx:522 | the colour index clamped to [0,1]: unchanged inside, 0 below, 1 above |
| Catalog.AdjustedMix | src/App.tsx:524-541 | the mix rescaled within its half of the gradient stays in [0,1] |
| Catalog.LerpChannelBetween | src/App.tsx:530 | a channel interpolated with a fraction in [0,1] lies between its two ends |
| Catalog.LerpBetween | src/App.tsx:530 | a colour interpolated with a fraction in [0,1] lies between its two ends in every channel |
| Catalog.GradientBetween | src/App.tsx:524-541 | below 0.5 the colour lies between the first two palette colours, from 0.5 on between the last two |
| Catalog.GradientStops | src/App.tsx:524-541 | a mix of 0 gives the first palette colour, 0.5 the second and 1 the third |
| Catalog.ParticleColorInUnit | src/App.tsx:522-541 | for any colour index, a particle's colour has every channel in [0,1] |
| Vectors.Normalize | src/App.tsx:901 | normalising divides by the length, except that a zero length leaves the vector as it is |
| Forces.InteractionPointInSquare | src/App.tsx:846-861 | when the driving position (gesture or pointer) lies in [-1,1] on both axes, the interaction point lies in the [-10,10] square of the z = 0 plane |
| Forces.InteractionPointSource | src/App.tsx:846-861 | only the driving source moves the point: outside gesture mode with capture on the gesture position has no effect, and inside it the pointer has none |
| Forces.InteractionStrength | src/App.tsx:843-855 | the strength is 0.05, or 0.05 times twice the gesture intensity (so within [0, 0.1]) when the gesture drives |
| Forces.Gain | src/App.tsx:903-934 | voice with audio off has gain 0; every other case keeps the source's gain |
| Forces.InteractionGated | src/App.tsx:896-900 | at or beyond distance 10 the interaction adds nothing |
| Forces.AttractGainBounds | src/App.tsx:904-911 | inside the radius, attract and gesture pull with a gain in (0, strength] |
| Forces.RepelGainNegates | src/App.tsx:911-916 | the repel gain is exactly the negated attract gain |
| Forces.RepelOppositeOfAttract | src/App.tsx:896-938 | the repel force is exactly the attract force reversed |
| Forces.VoiceGainBounds | src/App.tsx:925-934 | with audio on and intensity in [0,1], the voice gain inside the radius lies in [0, 0.15] |
| Forces.RespawnHeight | src/App.tsx:1076 | a reset particle's height is in [8,12) for a random draw in [0,1) |
| Forces.RespawnFall | src/App.tsx:1078 | a reset particle's vertical speed is in (-0.15, -0.05] for a random draw in [0,1) |
| Forces.StepFormula | src/App.tsx:886-1099 | in every mode, whenever the weather reset does not fire, the new velocity is 0.98 times (v + 0.001 (origin - p) + interaction + mode force), the mode force being the wind plus the storm jitter for weather, and the new position is p plus that velocity times deltaTime times speed |
| Forces.FreeStepDamps | src/App.tsx:1096-1099 | a particle at its origin, out of reach and without a mode force, only has its velocity damped by 0.98 and moves by it |
| Forces.DampingShrinksSpeed | src/App.tsx:1096 | with no force acting, a step scales the particle's squared speed by exactly 0.98 squared, so it never speeds up |
| Forces.RestIsEquilibrium | src/App.tsx:886-1104 | a particle at rest at its origin, out of reach and without a mode force stays where it is, at rest |
| Forces.VortexForce | src/App.tsx:942-951 | the vortex swirl is horizontal and perpendicular to the particle's horizontal radius |
| Forces.RespawnKept | src/App.tsx:1074-1099 | with the correction, a reset particle restarts from a height in [8,12) with vertical velocity 0.98 times (fall + storm) and moves from there; the horizontal components are kept, x and z of the velocity being 0.98 times (v + spring + interaction + wind + storm) and x and z of the position integrating from where the particle was |
| Forces.RespawnLostAsWritten | src/App.tsx:1074-1104 | as written, a particle at y = -3 that triggers the reset still ends the frame below -2 |
| Forces.ResetIgnoredAsWritten | src/App.tsx:1074-1104 | as written, the reset's new height does not reach the position buffer when no interaction acts |
| Forces.ResetFallStaysLow | src/App.tsx:1074-1080 | the example particle triggers the reset (height 10) while its reset velocity leaves it below -2 |
| Forces.UnforcedStepAsWritten | src/App.tsx:886-1104 | as written, a weather particle at rest at its origin integrates from where it is, whatever the reset does |
| Forces.InteractionGatedAsWritten | src/App.tsx:896-900 | the written interaction also vanishes at or beyond distance 10 |
| Forces.VoiceWithoutAudioAsWritten | src/App.tsx:925-937 | as written, voice with audio off adds the unit direction towards the interaction point to the particle's velocity |
| Forces.VoiceWithoutAudioSilent | src/App.tsx:925-937 | with the correction, voice with audio off adds no force |
| Particles.Jitter | src/App.tsx:513-519 | a velocity component made from a random draw in [0,1) lies in [-0.005, 0.005) |
| Particles.InitialVelocityBounds | src/App.tsx:513-519 | every component of an initial velocity lies in [-0.005, 0.005) |
| Particles.SizePulse | src/App.tsx:872-876 | with audio intensity in [0,1] the material size lies between its base and 1.5 times it |
| Particles.Generate | src/App.tsx:250-543 | the generation loop fills fresh, distinct buffers of 3 times count entries: particle i's triple is its drawn position, its origin equals it, its velocity comes from its draws and its colour is the gradient colour |
| Particles.StepParticle | src/App.tsx:878-1099 | the loop body, written force by force on the vector operations (spring towards the origin, distance-gated interaction `Interact`, mode force with the weather reset and storm `ModeStep`, damping and integration `Damp`), computes exactly one corrected step `Forces.Step` |
| Particles.StepAll | src/App.tsx:878-1105 | the loop over the buffer writes particle i's corrected step to slots 3i..3i+2 and returns the new velocities in order |
| Particles.ParticleSystem.Create | src/App.tsx:230-543 | both buffers have 3 times count entries and both lists count entries; particle i's triple is its drawn position, its origin equals that triple, its velocity comes from its draws and its colour is the gradient colour (in [0,1]) |
| Particles.ParticleSystem.ApplyPhysics | src/App.tsx:834-1109 | paused, nothing changes; otherwise each particle's triple and velocity become one corrected step (`Forces.Step`) from their old values, and origins, colours, mode and buffer identity stay unchanged; the size pulses when audio is on |
| Signals.Sum | src/App.tsx:711-714 | the sum of n bytes lies in [0, 255 n] |
| Signals.SumBytes | src/App.tsx:711-714 | the accumulation loop computes that sum |
| Signals.Level | src/App.tsx:716-717 | the average byte over 255 lies in [0,1] |
| Signals.Smooth | src/App.tsx:720-721 | the smoothed intensity lies between the previous intensity and the new level |
| Signals.SmoothStaysInUnit | src/App.tsx:720-721 | smoothing keeps an intensity in [0,1] |
| Signals.SmoothApproaches | src/App.tsx:720-721 | each step closes 15% of the gap to the new level |
| Signals.SmoothFixedPoint | src/App.tsx:720-721 | a steady level is left unchanged |
| Signals.Brightness | src/App.tsx:812-813 | a pixel's brightness, the mean of its red, green and blue bytes, lies in [0,255] |
| Signals.ScanRow | src/App.tsx:811-821 | the inner loop over one even row extends what the scan holds from the row's start to its end: the best so far is at least every sampled pixel scanned, and the first such |
| Signals.Brightest | src/App.tsx:805-822 | the result is at least as bright as every sampled pixel; if it is brighter than black it is a sampled pixel and every pixel scanned before it is strictly darker; if not, it is the centre (40, 30) |
| Signals.FirstBrightestUnique | src/App.tsx:805-822 | at most one brightness and pixel meet that description, so the scan's result is determined by the frame |
| Signals.Normalized | src/App.tsx:824-830 | a pixel on the canvas maps into [-1,1) on both axes, and a brightness in [0,255] maps to an intensity in [0,1] |
| Signals.BlackFrameCentred | src/App.tsx:805-830 | the centre pixel with brightness 0 normalises to position (0,0) with intensity 0 |
| Signals.BlackFrameGesture | src/App.tsx:805-830 | the gesture scanned from an all-black frame is position (0,0) with intensity 0 |
| Signals.SignalState.constructor | src/App.tsx:36-43 | audio intensity, gesture position and gesture intensity start at 0 |
| Signals.SignalState.AnalyzeAudio | src/App.tsx:704-724 | without audio or analyser it yields 0 and keeps the intensity; otherwise the intensity becomes the smoothed level and is returned, staying in [0,1] |
| Signals.SignalState.ProcessGestures | src/App.tsx:787-831 | without capture or video nothing changes; otherwise the gesture is the normalised first brightest sampled pixel of the frame, or the centre with intensity 0 when no sampled pixel is brighter than black |
| Frame.Animate | src/App.tsx:1113-1131 | one frame: with capture on and a video frame, the gesture becomes the frame's scanned gesture; the clock advances unless paused; the audio is smoothed only when not paused and audio is on; the physics sees the scanned gesture, the advanced clock and the smoothed audio, and moves every particle by one corrected step unless paused; mode, colours, origins and buffers stay, and the size pulses as in `applyPhysics` |

## Left out

- Rendering, scene, camera, lights, post-processing and the colour-grading shader: these are
  library and GPU code.
- Camera and light motion: purely visual.
- The seven spatial distributions and the mode-specific trigonometric and random forces. They
  enter as the supplied `Draw` and `ModeSample` values and are not computed. `Forces.VortexForce`
  models the vortex swirl alone.
- `Math.random`, `Math.sin` and `Vector3.length`: these enter as supplied values and functions.
- Float32 storage of the buffers and IEEE rounding: numbers are reals, which is an idealisation.
- `THREE.Color`'s colour-space handling: a hexadecimal colour is modelled as its bytes over 255.
- Signals.SignalState.AnalyzeAudio: requires a non-empty byte buffer when it runs, because the
  analyser's buffer always has `frequencyBinCount` = 128 entries (`fftSize` 256). With an empty
  buffer the source would compute NaN.
- Signals.SignalState.ProcessGestures: the canvas element, the 2D context and `drawImage` are
  browser APIs. The frame enters as the byte array. A missing context is folded into `ready`.
- Audio capture and AudioContext setup and teardown, camera and video capture, screenshots and
  recording: these are asynchronous I/O.
- DOM listeners, resize handling, mouse and touch normalisation, `requestAnimationFrame`
  scheduling and the JSX user interface. The pointer position enters `Frame.Animate` as a value.
- The React effect lifecycle, which rebuilds the scene and regenerates the particles whenever
  the mode, interaction, pause, audio, audio source or gesture state changes. On every such
  change its cleanup also tears down the audio context and the video resources, including the
  change that enabling audio or gesture capture itself causes. The model treats generation
  (`Particles.ParticleSystem.Create`) and frames (`Frame.Animate`) as separate operations; the
  torn-down and re-created analyser and video enter `Frame.Animate` only through `analyserReady`
  and `videoReady`.
- The `h` key and other UI toggles, which change only what is displayed.
- Particles.ParticleSystem.ApplyPhysics, Particles.StepAll, Particles.StepParticle: run the
  corrected step `Forces.Step`, not the step as written, and so differ from the source in two
  cases (see Findings):
  - a weather particle below -2 whose reset draw exceeds 0.99 integrates from the reset height
    8 + 4 * lift, whereas the source writes the integrated old height back over the reset;
  - voice mode with audio off adds no interaction force, whereas the source adds the unit
    direction towards the interaction point to the particle's velocity.
- Frame.Animate: runs `Particles.ParticleSystem.ApplyPhysics` and so has the same two deviations
  from the source's step.
- Particles.ParticleSystem.ApplyPhysics: the early return for a missing particle object is not
  modelled, because the system always exists here. Each velocity `Vector3` is mutated in place in
  the source and becomes an updated entry of the `velocities` sequence. No two entries alias.

## Findings

| source | as written | input that shows it | evidently intended | confidence | as-written member | corrected member |
|---|---|---|---|---|---|---|
| src/App.tsx:1074-1104 | the weather reset writes the new height to `positions[idx + 1]`, but the end of the loop body writes the unchanged local `particle.y` back to that slot, so the respawn is lost and only the velocity reset survives | a weather particle at (0, -3, 0), at rest at its origin and out of reach, with reset draw 0.995, lift 0.5, drop 0.5 and deltaTime 1: it should restart from the reset height 10 and take one integration step from there (to about 9.97), but ends below -2 | the particle restarts from the reset height 8 + 4 * random, in [8,12) | not executed | Forces.RespawnLostAsWritten | Forces.RespawnKept |
| src/App.tsx:925-937 | in voice mode with audio off, no `multiplyScalar` runs, so the normalised direction itself (magnitude 1, twenty times the base strength 0.05) is added to the velocity | voice interaction, audio off, a particle at distance 5 from the pointer: its velocity gains the full unit vector towards the pointer | without audio the voice interaction exerts no force | not executed | Forces.VoiceWithoutAudioAsWritten | Forces.VoiceWithoutAudioSilent |

The rest of the model runs the corrected step, `Forces.Step`. `Forces.StepAsWritten` and
`Forces.InteractionForceAsWritten` keep the behaviour as written for the lemmas above.
