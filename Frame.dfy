/** One animation frame in the order `animate` runs it: the gesture scan (when
    gesture capture is on), the clock tick, then `applyPhysics`, which returns
    at once when paused and otherwise reads the audio intensity (when audio is
    on) before moving the particles. */
module Frame {
  import opened Vectors
  import opened Controls
  import opened Catalog
  import opened Forces
  import opened Particles
  import opened Signals

  /** The component state a frame reads. */
  datatype Settings = Settings(interaction: Interaction, paused: bool, gestureEnabled: bool, audioEnabled: bool)

  /** The elapsed time in units of a 60 Hz frame: `(currentTime - lastTime) / 16.67`. */
  function FrameDelta(currentTime: real, lastTime: real): real {
    (currentTime - lastTime) / 16.67
  }

  /** `video` is the frame drawn to the 80x60 canvas and `spectrum` the bytes the
      analyser fills; `videoReady` and `analyserReady` say whether the video
      element and the analyser exist. The frame's physics input carries the
      gesture as just scanned, the clock as just advanced, and the audio
      intensity as just smoothed (0 with audio off or no analyser). Paused,
      neither the audio smoothing nor the particles move, and the clock stands
      still. */
  method Animate(clock: Clock, system: ParticleSystem, signals: SignalState, st: Settings,
                 pointerX: real, pointerY: real, currentTime: real, lastTime: real,
                 videoReady: bool, video: array<byte>, analyserReady: bool, spectrum: array<byte>,
                 samples: seq<ModeSample>, sin: real -> real, norm: Vec3 -> real)
    returns (newLastTime: real, f: FrameInput)
    requires system.Valid() && signals.Valid() && |samples| == |system.velocities|
    requires st.gestureEnabled && videoReady ==> video.Length == Width * Height * 4
    requires analyserReady ==> spectrum.Length > 0
    modifies clock, system, system.positions, signals
    ensures newLastTime == currentTime
    ensures system.Valid() && signals.Valid()
    ensures clock.time == Advance(old(clock.time), st.paused)
    ensures !(st.gestureEnabled && videoReady) ==> signals.gesture == old(signals.gesture)
    ensures st.gestureEnabled && videoReady ==> ScannedGesture(video[..], signals.gesture)
    ensures st.paused || !st.audioEnabled || !analyserReady ==> signals.audioIntensity == old(signals.audioIntensity)
    ensures !st.paused && st.audioEnabled && analyserReady ==>
      signals.audioIntensity == Smooth(old(signals.audioIntensity), Level(spectrum[..]))
    ensures !st.paused ==> f == FrameInput(st.interaction, pointerX, pointerY, st.gestureEnabled,
                            signals.gesture.x, signals.gesture.y, signals.gesture.intensity,
                            st.audioEnabled, if st.audioEnabled && analyserReady then signals.audioIntensity else 0.0,
                            clock.time, FrameDelta(currentTime, lastTime))
    ensures system.positions == old(system.positions) && system.colors == old(system.colors)
    ensures system.mode == old(system.mode) && system.origPositions == old(system.origPositions)
    ensures st.paused ==>
      && system.positions[..] == old(system.positions[..]) && system.velocities == old(system.velocities)
      && system.size == old(system.size)
    ensures !st.paused ==>
      system.size == (if st.audioEnabled then SizePulse(Config(system.mode).size, f.audio) else old(system.size))
    ensures !st.paused ==> forall i :: 0 <= i < |system.velocities| ==>
      var r := Step(system.mode, f, Config(system.mode).speed, Triple(old(system.positions[..]), i),
                    old(system.velocities)[i], system.origPositions[i], samples[i], sin, norm);
      Triple(system.positions[..], i) == r.position && system.velocities[i] == r.velocity
  {
    var deltaTime := FrameDelta(currentTime, lastTime);
    newLastTime := currentTime;
    if st.gestureEnabled {
      signals.ProcessGestures(true, videoReady, video);
    }
    clock.Tick(st.paused);
    var audio := 0.0;
    if !st.paused && st.audioEnabled {
      audio := signals.AnalyzeAudio(true, analyserReady, spectrum);
    }
    f := FrameInput(st.interaction, pointerX, pointerY, st.gestureEnabled,
                    signals.gesture.x, signals.gesture.y, signals.gesture.intensity,
                    st.audioEnabled, audio, clock.time, deltaTime);
    system.ApplyPhysics(st.paused, f, samples, sin, norm);
  }
}
