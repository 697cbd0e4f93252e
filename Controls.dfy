/** The keyboard-driven controls of the particle field: the `m` key cycles the
    visual mode, the `i` key cycles the interaction kind, the space bar toggles
    pause; and the simulation clock that advances once per animation frame. */
module Controls {

  datatype Mode = Cosmic | Fractal | Vortex | Neural | Fluid | Biological | Weather

  datatype Interaction = Attract | Repel | Wave | Voice | Gesture

  /** The order in which the `m` key visits the modes. */
  const ModeCycle: seq<string> :=
    ["cosmic", "fractal", "vortex", "neural", "fluid", "biological", "weather"]

  /** The order in which the `i` key visits the interaction kinds. */
  const InteractionCycle: seq<string> := ["attract", "repel", "wave", "voice", "gesture"]

  // ---------------------------------------------------------------------------
  // A cycle of names, as a table: the reference the key handlers are checked
  // against.

  predicate Distinct(c: seq<string>) {
    forall i, j :: 0 <= i < j < |c| ==> c[i] != c[j]
  }

  /** Index of the first occurrence of `s` in `c` at or after `i`, or -1. */
  function IndexFrom(c: seq<string>, s: string, i: nat): (k: int)
    requires i <= |c|
    ensures k == -1 || i <= k < |c|
    decreases |c| - i
  {
    if i == |c| then -1
    else if c[i] == s then i
    else IndexFrom(c, s, i + 1)
  }

  /** Index of the first occurrence of `s` in `c`, or -1. */
  function IndexOf(c: seq<string>, s: string): (k: int)
    ensures -1 <= k < |c|
  {
    IndexFrom(c, s, 0)
  }

  lemma {:induction false} IndexFromFirst(c: seq<string>, s: string, i: nat)
    requires i <= |c|
    decreases |c| - i
    ensures var k := IndexFrom(c, s, i);
      && (k == -1 <==> forall j :: i <= j < |c| ==> c[j] != s)
      && (0 <= k ==> c[k] == s && forall j :: i <= j < k ==> c[j] != s)
  {
    if i < |c| && c[i] != s {
      IndexFromFirst(c, s, i + 1);
    }
  }

  /** `IndexOf` finds the first occurrence, and yields -1 exactly when the name
      is absent. */
  lemma IndexOfFirst(c: seq<string>, s: string)
    ensures var k := IndexOf(c, s);
      && (k == -1 <==> s !in c)
      && (0 <= k ==> c[k] == s && forall j :: 0 <= j < k ==> c[j] != s)
  {
    IndexFromFirst(c, s, 0);
  }

  lemma IndexOfDistinct(c: seq<string>, k: int)
    requires Distinct(c) && 0 <= k < |c|
    ensures IndexOf(c, c[k]) == k
  {
    IndexOfFirst(c, c[k]);
  }

  /** One key press on a cycle: the successor of a name in the table, and the
      first name for the last name or any name not in the table. */
  function CycleStep(c: seq<string>, s: string): (r: string)
    requires |c| > 0
    ensures s !in c ==> r == c[0]
  {
    IndexOfFirst(c, s);
    var k := IndexOf(c, s);
    if 0 <= k < |c| - 1 then c[k + 1] else c[0]
  }

  lemma CycleStepInTable(c: seq<string>, s: string)
    requires |c| > 0
    ensures CycleStep(c, s) in c
  {
    var k := IndexOf(c, s);
    if 0 <= k < |c| - 1 {
      assert c[k + 1] in c;
    }
  }

  /** In a table of distinct names, a press moves a name one place on, and the
      last name back to the first. */
  lemma CycleStepAt(c: seq<string>, k: nat)
    requires Distinct(c) && k < |c|
    ensures CycleStep(c, c[k]) == if k < |c| - 1 then c[k + 1] else c[0]
  {
    IndexOfDistinct(c, k);
  }

  /** `n` key presses starting from the name `s`. */
  function Presses(c: seq<string>, s: string, n: nat): string
    requires |c| > 0
    decreases n
  {
    if n == 0 then s else Presses(c, CycleStep(c, s), n - 1)
  }

  lemma {:induction false} PressesAdd(c: seq<string>, s: string, a: nat, b: nat)
    decreases a
    requires |c| > 0
    ensures Presses(c, s, a + b) == Presses(c, Presses(c, s, a), b)
  {
    if a > 0 {
      PressesAdd(c, CycleStep(c, s), a - 1, b);
    }
  }

  /** In a table of distinct names, `j` presses from the `k`-th name move `j`
      places on, wrapping past the last name to the first. */
  lemma {:induction false} PressesFromIndex(c: seq<string>, k: nat, j: nat)
    decreases j
    requires Distinct(c) && k < |c| && j <= |c|
    ensures Presses(c, c[k], j) == if k + j < |c| then c[k + j] else c[k + j - |c|]
  {
    if j > 0 {
      var next := if k < |c| - 1 then k + 1 else 0;
      CycleStepAt(c, k);
      PressesFromIndex(c, next, j - 1);
    }
  }

  /** Pressing as many times as the cycle is long returns to the start. */
  lemma CyclePeriod(c: seq<string>, k: nat)
    requires Distinct(c) && k < |c|
    ensures Presses(c, c[k], |c|) == c[k]
  {
    PressesFromIndex(c, k, |c|);
  }

  /** From any name, even one not in the table, the first press lands in the
      table, and from then on the names repeat with the cycle's period. */
  lemma EventuallyPeriodic(c: seq<string>, s: string, n: nat)
    requires Distinct(c) && |c| > 0
    ensures Presses(c, s, 1) in c
    ensures Presses(c, s, n + 1 + |c|) == Presses(c, s, n + 1)
  {
    var t := Presses(c, s, n + 1);
    PressesAdd(c, s, 1, n);
    assert Presses(c, s, 1) == CycleStep(c, s);
    assert t in c by {
      PressesInTable(c, CycleStep(c, s), n);
    }
    var k :| 0 <= k < |c| && c[k] == t;
    PressesAdd(c, s, n + 1, |c|);
    CyclePeriod(c, k);
  }

  lemma {:induction false} PressesInTable(c: seq<string>, s: string, n: nat)
    decreases n
    requires |c| > 0 && s in c
    ensures Presses(c, s, n) in c
  {
    if n > 0 {
      CycleStepInTable(c, s);
      PressesInTable(c, CycleStep(c, s), n - 1);
    }
  }

  // ---------------------------------------------------------------------------
  // The key handlers as the source writes them: a chain of comparisons whose
  // final fallback also catches any unrecognised name.

  /** `m`: the functional update passed to `setMode`. */
  function NextMode(prev: string): string {
    if prev == "cosmic" then "fractal"
    else if prev == "fractal" then "vortex"
    else if prev == "vortex" then "neural"
    else if prev == "neural" then "fluid"
    else if prev == "fluid" then "biological"
    else if prev == "biological" then "weather"
    else "cosmic"
  }

  /** `i`: the functional update passed to `setInteractionMode`. */
  function NextInteraction(prev: string): string {
    if prev == "attract" then "repel"
    else if prev == "repel" then "wave"
    else if prev == "wave" then "voice"
    else if prev == "voice" then "gesture"
    else "attract"
  }

  lemma ModeCycleDistinct()
    ensures Distinct(ModeCycle)
  {
  }

  lemma InteractionCycleDistinct()
    ensures Distinct(InteractionCycle)
  {
  }

  /** The `m` handler is exactly one press on the mode table. */
  lemma NextModeIsCycleStep(prev: string)
    ensures NextMode(prev) == CycleStep(ModeCycle, prev)
  {
  }

  /** The `i` handler is exactly one press on the interaction table. */
  lemma NextInteractionIsCycleStep(prev: string)
    ensures NextInteraction(prev) == CycleStep(InteractionCycle, prev)
  {
  }

  /** `n` presses of a key whose handler is `next`. */
  function Iterate(next: string -> string, s: string, n: nat): string
    decreases n
  {
    if n == 0 then s else Iterate(next, next(s), n - 1)
  }

  lemma {:induction false} IterateOnTable(c: seq<string>, next: string -> string, s: string, n: nat)
    requires |c| > 0
    requires forall t :: next(t) == CycleStep(c, t)
    ensures Iterate(next, s, n) == Presses(c, s, n)
    decreases n
  {
    if n > 0 {
      IterateOnTable(c, next, next(s), n - 1);
    }
  }

  lemma ModePressesOnTable(s: string, n: nat)
    ensures Iterate(NextMode, s, n) == Presses(ModeCycle, s, n)
  {
    forall t ensures NextMode(t) == CycleStep(ModeCycle, t) {
      NextModeIsCycleStep(t);
    }
    IterateOnTable(ModeCycle, NextMode, s, n);
  }

  lemma InteractionPressesOnTable(s: string, n: nat)
    ensures Iterate(NextInteraction, s, n) == Presses(InteractionCycle, s, n)
  {
    forall t ensures NextInteraction(t) == CycleStep(InteractionCycle, t) {
      NextInteractionIsCycleStep(t);
    }
    IterateOnTable(InteractionCycle, NextInteraction, s, n);
  }

  /** The `m` key always yields one of the seven mode names, and any name not in
      the table (as well as "weather") goes to "cosmic". */
  lemma ModeKeyTotal(s: string)
    ensures NextMode(s) in ModeCycle
    ensures s !in ModeCycle[..6] ==> NextMode(s) == "cosmic"
  {
    var named := ModeCycle[..6];
    assert named[0] == "cosmic" && named[1] == "fractal" && named[2] == "vortex";
    assert named[3] == "neural" && named[4] == "fluid" && named[5] == "biological";
  }

  /** Seven presses of `m` from any mode return to it. */
  lemma ModeKeyPeriod(s: string)
    requires s in ModeCycle
    ensures Iterate(NextMode, s, 7) == s
  {
    ModeCycleDistinct();
    ModePressesOnTable(s, 7);
    var k :| 0 <= k < 7 && ModeCycle[k] == s;
    CyclePeriod(ModeCycle, k);
  }

  /** From any starting string, even an unrecognised one, the modes repeat every
      seven presses after the first. */
  lemma ModeKeyEventuallyPeriodic(s: string, n: nat)
    ensures Iterate(NextMode, s, n + 8) == Iterate(NextMode, s, n + 1)
  {
    ModeCycleDistinct();
    ModePressesOnTable(s, n + 8);
    ModePressesOnTable(s, n + 1);
    EventuallyPeriodic(ModeCycle, s, n);
  }

  /** The `i` key always yields one of the five interaction names, and any other
      name (as well as "gesture") goes to "attract". */
  lemma InteractionKeyTotal(s: string)
    ensures NextInteraction(s) in InteractionCycle
    ensures s !in InteractionCycle[..4] ==> NextInteraction(s) == "attract"
  {
    var named := InteractionCycle[..4];
    assert named[0] == "attract" && named[1] == "repel";
    assert named[2] == "wave" && named[3] == "voice";
  }

  /** Five presses of `i` from any interaction kind return to it. */
  lemma InteractionKeyPeriod(s: string)
    requires s in InteractionCycle
    ensures Iterate(NextInteraction, s, 5) == s
  {
    InteractionCycleDistinct();
    InteractionPressesOnTable(s, 5);
    var k :| 0 <= k < 5 && InteractionCycle[k] == s;
    CyclePeriod(InteractionCycle, k);
  }

  /** From any starting string the interaction kinds repeat every five presses
      after the first. */
  lemma InteractionKeyEventuallyPeriodic(s: string, n: nat)
    ensures Iterate(NextInteraction, s, n + 6) == Iterate(NextInteraction, s, n + 1)
  {
    InteractionCycleDistinct();
    InteractionPressesOnTable(s, n + 6);
    InteractionPressesOnTable(s, n + 1);
    EventuallyPeriodic(InteractionCycle, s, n);
  }

  // ---------------------------------------------------------------------------
  // Names and the enumerations the simulation dispatches on.

  function ModeName(m: Mode): string {
    match m
    case Cosmic => "cosmic"
    case Fractal => "fractal"
    case Vortex => "vortex"
    case Neural => "neural"
    case Fluid => "fluid"
    case Biological => "biological"
    case Weather => "weather"
  }

  function ModeOf(s: string): (m: Mode)
    requires s in ModeCycle
    ensures ModeName(m) == s
  {
    if s == "cosmic" then Cosmic
    else if s == "fractal" then Fractal
    else if s == "vortex" then Vortex
    else if s == "neural" then Neural
    else if s == "fluid" then Fluid
    else if s == "biological" then Biological
    else Weather
  }

  lemma ModeNameRoundTrip(m: Mode)
    ensures ModeName(m) in ModeCycle && ModeOf(ModeName(m)) == m
  {
  }

  function InteractionName(k: Interaction): string {
    match k
    case Attract => "attract"
    case Repel => "repel"
    case Wave => "wave"
    case Voice => "voice"
    case Gesture => "gesture"
  }

  function InteractionOf(s: string): (k: Interaction)
    requires s in InteractionCycle
    ensures InteractionName(k) == s
  {
    if s == "attract" then Attract
    else if s == "repel" then Repel
    else if s == "wave" then Wave
    else if s == "voice" then Voice
    else Gesture
  }

  lemma InteractionNameRoundTrip(k: Interaction)
    ensures InteractionName(k) in InteractionCycle && InteractionOf(InteractionName(k)) == k
  {
  }

  // ---------------------------------------------------------------------------
  // Pause and the simulation clock.

  /** The space bar: the functional update passed to `setPaused`. */
  function TogglePaused(paused: bool): (r: bool)
    ensures r != paused
  {
    !paused
  }

  lemma TogglePausedTwice(paused: bool)
    ensures TogglePaused(TogglePaused(paused)) == paused
  {
  }

  /** The clock after one animation frame. */
  function Advance(t: real, paused: bool): (r: real)
    ensures paused ==> r == t
    ensures !paused ==> r - t == 0.01
  {
    t + 0.01 * (if paused then 0.0 else 1.0)
  }

  /** The clock after a run of frames, given the pause state at each frame. */
  function Run(t: real, frames: seq<bool>): real
    decreases frames
  {
    if frames == [] then t else Run(Advance(t, frames[0]), frames[1..])
  }

  function Unpaused(frames: seq<bool>): nat {
    if frames == [] then 0 else (if frames[0] then 0 else 1) + Unpaused(frames[1..])
  }

  /** Over any run of frames the clock grows by exactly 0.01 per unpaused frame,
      so it never decreases. */
  lemma {:induction false} RunAdvancesByUnpaused(t: real, frames: seq<bool>)
    decreases frames
    ensures Run(t, frames) == t + 0.01 * Unpaused(frames) as real
    ensures Run(t, frames) >= t
  {
    if frames != [] {
      RunAdvancesByUnpaused(Advance(t, frames[0]), frames[1..]);
    }
  }

  /** `time.current`, advanced once per animation frame. */
  class Clock {
    var time: real

    constructor ()
      ensures time == 0.0
    {
      time := 0.0;
    }

    method Tick(paused: bool)
      modifies this
      ensures time == Advance(old(time), paused)
      ensures time >= old(time)
    {
      time := time + 0.01 * (if paused then 0.0 else 1.0);
    }
  }
}
