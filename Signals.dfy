/** The two signal reducers read once per frame: `analyzeAudio`, which averages
    the analyser's frequency bytes and smooths the result over time, and
    `processGestures`, which scans a low-resolution RGBA video frame for the
    brightest sampled pixel. */
module Signals {
  import opened Catalog

  type byte = x: int | 0 <= x < 256

  // ---------------------------------------------------------------------------
  // Audio.

  /** The sum of the bytes, accumulated from the front as the source's loop does. */
  function Sum(s: seq<byte>): (t: int)
    ensures 0 <= t <= 255 * |s|
    decreases |s|
  {
    if |s| == 0 then 0 else Sum(s[..|s| - 1]) + s[|s| - 1]
  }

  lemma DivAtMost(a: real, n: real, k: real)
    requires 0.0 < n && 0.0 <= a <= k * n
    ensures 0.0 <= a / n <= k
  {
    var q := a / n;
    assert q * n == a;
    if q > k {
      assert q * n > k * n;
    }
  }

  /** `average / 255`: the mean byte scaled to [0,1]. */
  function Level(s: seq<byte>): (level: real)
    requires |s| > 0
    ensures UnitChannel(level)
  {
    DivAtMost(Sum(s) as real, |s| as real, 255.0);
    (Sum(s) as real / |s| as real) / 255.0
  }

  /** The exponential smoothing `prev * 0.85 + level * 0.15`. */
  function Smooth(prev: real, level: real): (r: real)
    ensures Between(prev, level, r)
  {
    prev * 0.85 + level * 0.15
  }

  /** Smoothing keeps the intensity in [0,1]. */
  lemma SmoothStaysInUnit(prev: real, level: real)
    requires UnitChannel(prev) && UnitChannel(level)
    ensures UnitChannel(Smooth(prev, level))
  {
  }

  /** Each smoothing step closes 15% of the gap to the new level. */
  lemma SmoothApproaches(prev: real, level: real)
    ensures Smooth(prev, level) - level == 0.85 * (prev - level)
  {
  }

  /** A steady level is a fixed point of the smoothing. */
  lemma SmoothFixedPoint(level: real)
    ensures Smooth(level, level) == level
  {
  }

  /** The loop that adds up the analyser's bytes. */
  method SumBytes(data: array<byte>) returns (sum: int)
    ensures sum == Sum(data[..])
  {
    sum := 0;
    var i := 0;
    while i < data.Length
      invariant 0 <= i <= data.Length
      invariant sum == Sum(data[..i])
    {
      assert data[..i + 1][..i] == data[..i];
      sum := sum + data[i];
      i := i + 1;
    }
    assert data[..data.Length] == data[..];
  }

  // ---------------------------------------------------------------------------
  // Gestures.

  /** The canvas the video frame is drawn to. */
  const Width: int := 80
  const Height: int := 60

  /** A pixel the scan visits: every second column of every second row. */
  predicate Sampled(x: int, y: int) {
    0 <= x < Width && 0 <= y < Height && x % 2 == 0 && y % 2 == 0
  }

  /** Pixel `(x, y)` comes before `(x', y')` in the row-by-row scan. */
  predicate Before(x: int, y: int, x': int, y': int) {
    y < y' || (y == y' && x < x')
  }

  /** The mean of the red, green and blue bytes of pixel `(x, y)`. */
  function Brightness(data: seq<byte>, x: int, y: int): (b: real)
    requires |data| == Width * Height * 4
    requires 0 <= x < Width && 0 <= y < Height
    ensures 0.0 <= b <= 255.0
  {
    var i := (y * Width + x) * 4;
    (data[i] as int + data[i + 1] as int + data[i + 2] as int) as real / 3.0
  }

  /** `(x, y)` with brightness `b` is what the scan keeps: `b` is at least the
      brightness of every sampled pixel; when it is brighter than black, `(x, y)`
      is a sampled pixel of brightness `b` and every pixel scanned before it is
      strictly darker (the strict `>` keeps the first); when it is not, `(x, y)`
      is the centre `(40, 30)` the scan starts from. */
  ghost predicate FirstBrightest(data: seq<byte>, b: real, x: int, y: int)
    requires |data| == Width * Height * 4
  {
    && 0.0 <= b <= 255.0
    && (forall xx, yy :: Sampled(xx, yy) ==> Brightness(data, xx, yy) <= b)
    && (b == 0.0 ==> x == Width / 2 && y == Height / 2)
    && (b > 0.0 ==>
          && Sampled(x, y) && Brightness(data, x, y) == b
          && forall xx, yy :: Sampled(xx, yy) && Before(xx, yy, x, y) ==> Brightness(data, xx, yy) < b)
  }

  /** The first brightest sampled pixel is unique: at most one result meets
      `FirstBrightest`. */
  lemma FirstBrightestUnique(data: seq<byte>, b1: real, x1: int, y1: int, b2: real, x2: int, y2: int)
    requires |data| == Width * Height * 4
    requires FirstBrightest(data, b1, x1, y1) && FirstBrightest(data, b2, x2, y2)
    ensures b1 == b2 && x1 == x2 && y1 == y2
  {
    if b1 > 0.0 {
      assert Brightness(data, x1, y1) <= b2;
    }
    if b2 > 0.0 {
      assert Brightness(data, x2, y2) <= b1;
    }
  }

  /** What the scan holds on reaching pixel `(x, y)`: `b` is at least the
      brightness of every sampled pixel before it; it is 0 only at the centre
      `(40, 30)` the scan starts from, and otherwise is the brightness of a
      sampled pixel `(mx, my)` before `(x, y)` than which every earlier pixel is
      strictly darker. */
  ghost predicate ScannedTo(data: seq<byte>, b: real, mx: int, my: int, x: int, y: int)
    requires |data| == Width * Height * 4
  {
    && 0.0 <= b <= 255.0
    && (forall xx, yy :: Sampled(xx, yy) && Before(xx, yy, x, y) ==> Brightness(data, xx, yy) <= b)
    && (b == 0.0 ==> mx == Width / 2 && my == Height / 2)
    && (b > 0.0 ==>
          && Sampled(mx, my) && Before(mx, my, x, y) && Brightness(data, mx, my) == b
          && forall xx, yy :: Sampled(xx, yy) && Before(xx, yy, mx, my) ==> Brightness(data, xx, yy) < b)
  }

  /** Past the end of an even row is the start of the next even row. */
  lemma RowDone(data: seq<byte>, b: real, mx: int, my: int, y: int)
    requires |data| == Width * Height * 4 && y % 2 == 0
    requires ScannedTo(data, b, mx, my, Width, y)
    ensures ScannedTo(data, b, mx, my, 0, y + 2)
  {
  }

  /** Having scanned every row, the scan's result is the first brightest pixel. */
  lemma ScanDone(data: seq<byte>, b: real, mx: int, my: int)
    requires |data| == Width * Height * 4
    requires ScannedTo(data, b, mx, my, 0, Height)
    ensures FirstBrightest(data, b, mx, my)
  {
  }

  /** The inner loop of the scan: every second pixel of row `y`. */
  method ScanRow(data: array<byte>, y: int, b0: real, x0: int, y0: int) returns (maxBrightness: real, maxX: int, maxY: int)
    requires data.Length == Width * Height * 4 && 0 <= y < Height && y % 2 == 0
    requires ScannedTo(data[..], b0, x0, y0, 0, y)
    ensures ScannedTo(data[..], maxBrightness, maxX, maxY, Width, y)
  {
    maxBrightness, maxX, maxY := b0, x0, y0;
    var x := 0;
    while x < Width
      invariant 0 <= x <= Width && x % 2 == 0
      invariant ScannedTo(data[..], maxBrightness, maxX, maxY, x, y)
    {
      var i := (y * Width + x) * 4;
      var brightness := (data[i] as int + data[i + 1] as int + data[i + 2] as int) as real / 3.0;
      assert brightness == Brightness(data[..], x, y);
      if brightness > maxBrightness {
        ScanBrighter(data[..], maxBrightness, maxX, maxY, x, y);
        maxBrightness, maxX, maxY := brightness, x, y;
      } else {
        ScanNotBrighter(data[..], maxBrightness, maxX, maxY, x, y);
      }
      x := x + 2;
    }
  }

  /** A sampled pixel brighter than the best so far becomes the best. */
  lemma ScanBrighter(data: seq<byte>, b: real, mx: int, my: int, x: int, y: int)
    requires |data| == Width * Height * 4 && Sampled(x, y)
    requires ScannedTo(data, b, mx, my, x, y) && Brightness(data, x, y) > b
    ensures ScannedTo(data, Brightness(data, x, y), x, y, x + 2, y)
  {
    forall xx, yy | Sampled(xx, yy) && Before(xx, yy, x + 2, y)
      ensures Brightness(data, xx, yy) <= Brightness(data, x, y)
    {
      if Before(xx, yy, x, y) {
        assert Brightness(data, xx, yy) <= b;
      }
    }
  }

  /** A sampled pixel no brighter than the best so far changes nothing. */
  lemma ScanNotBrighter(data: seq<byte>, b: real, mx: int, my: int, x: int, y: int)
    requires |data| == Width * Height * 4 && Sampled(x, y)
    requires ScannedTo(data, b, mx, my, x, y) && Brightness(data, x, y) <= b
    ensures ScannedTo(data, b, mx, my, x + 2, y)
  {
    forall xx, yy | Sampled(xx, yy) && Before(xx, yy, x + 2, y)
      ensures Brightness(data, xx, yy) <= b
    {
      if !Before(xx, yy, x, y) {
        assert xx == x && yy == y;
      }
    }
  }

  /** The brightest-pixel scan, a nested loop over every second row and column. */
  method Brightest(data: array<byte>) returns (maxBrightness: real, maxX: int, maxY: int)
    requires data.Length == Width * Height * 4
    ensures FirstBrightest(data[..], maxBrightness, maxX, maxY)
  {
    maxBrightness, maxX, maxY := 0.0, Width / 2, Height / 2;
    var y := 0;
    while y < Height
      invariant 0 <= y <= Height && y % 2 == 0
      invariant ScannedTo(data[..], maxBrightness, maxX, maxY, 0, y)
    {
      maxBrightness, maxX, maxY := ScanRow(data, y, maxBrightness, maxX, maxY);
      RowDone(data[..], maxBrightness, maxX, maxY, y);
      y := y + 2;
    }
    ScanDone(data[..], maxBrightness, maxX, maxY);
  }

  /** The gesture position and intensity derived from the scan's result. */
  datatype Gesture = Gesture(x: real, y: real, intensity: real)

  /** `(maxX / 80) * 2 - 1`, `(maxY / 60) * 2 - 1` and `maxBrightness / 255`. */
  function Normalized(maxBrightness: real, maxX: int, maxY: int): (g: Gesture)
    ensures 0 <= maxX < Width ==> -1.0 <= g.x < 1.0
    ensures 0 <= maxY < Height ==> -1.0 <= g.y < 1.0
    ensures 0.0 <= maxBrightness <= 255.0 ==> UnitChannel(g.intensity)
  {
    Gesture(maxX as real / Width as real * 2.0 - 1.0, maxY as real / Height as real * 2.0 - 1.0, maxBrightness / 255.0)
  }

  /** The centre with brightness 0 normalises to position (0,0) with no intensity. */
  lemma BlackFrameCentred()
    ensures Normalized(0.0, Width / 2, Height / 2) == Gesture(0.0, 0.0, 0.0)
  {
  }

  /** `g` is the gesture `processGestures` derives from frame `data`: the
      normalised first brightest sampled pixel. */
  ghost predicate ScannedGesture(data: seq<byte>, g: Gesture)
    requires |data| == Width * Height * 4
  {
    exists b, x, y :: FirstBrightest(data, b, x, y) && g == Normalized(b, x, y)
  }

  /** An all-black frame puts the gesture at the centre with no intensity. */
  lemma BlackFrameGesture(data: seq<byte>, g: Gesture)
    requires |data| == Width * Height * 4
    requires forall i :: 0 <= i < |data| ==> data[i] == 0
    requires ScannedGesture(data, g)
    ensures g == Gesture(0.0, 0.0, 0.0)
  {
    var b, x, y :| FirstBrightest(data, b, x, y) && g == Normalized(b, x, y);
    BlackFrameCentred();
  }

  /** The references `analyzeAudio` and `processGestures` update: the smoothed
      audio intensity, and the gesture position and intensity. */
  class SignalState {
    var audioIntensity: real
    var gesture: Gesture

    /** Every value the reducers produce is in range. */
    ghost predicate Valid()
      reads this
    {
      && UnitChannel(audioIntensity)
      && -1.0 <= gesture.x <= 1.0 && -1.0 <= gesture.y <= 1.0
      && UnitChannel(gesture.intensity)
    }

    constructor ()
      ensures Valid()
      ensures audioIntensity == 0.0 && gesture == Gesture(0.0, 0.0, 0.0)
    {
      audioIntensity := 0.0;
      gesture := Gesture(0.0, 0.0, 0.0);
    }

    /** `analyzeAudio`: without audio or an analyser it yields 0 and leaves the
        intensity alone; otherwise it smooths the new level of `data` (the bytes
        `getByteFrequencyData` filled in) into the intensity and yields it. */
    method AnalyzeAudio(enabled: bool, ready: bool, data: array<byte>) returns (intensity: real)
      requires Valid()
      requires enabled && ready ==> data.Length > 0
      modifies this
      ensures Valid() && gesture == old(gesture)
      ensures !(enabled && ready) ==> intensity == 0.0 && audioIntensity == old(audioIntensity)
      ensures enabled && ready ==>
        audioIntensity == Smooth(old(audioIntensity), Level(data[..])) && intensity == audioIntensity
    {
      if !enabled || !ready {
        return 0.0;
      }
      var sum := SumBytes(data);
      var average := sum as real / data.Length as real;
      var normalized := average / 255.0;
      assert normalized == Level(data[..]);
      SmoothStaysInUnit(audioIntensity, normalized);
      audioIntensity := audioIntensity * 0.85 + normalized * 0.15;
      intensity := audioIntensity;
    }

    /** `processGestures`: without gesture capture or a video frame nothing
        changes; otherwise the gesture becomes the normalised brightest pixel. */
    method ProcessGestures(enabled: bool, ready: bool, data: array<byte>)
      requires Valid()
      requires enabled && ready ==> data.Length == Width * Height * 4
      modifies this
      ensures Valid() && audioIntensity == old(audioIntensity)
      ensures !(enabled && ready) ==> gesture == old(gesture)
      ensures enabled && ready ==> ScannedGesture(data[..], gesture)
    {
      if !enabled || !ready {
        return;
      }
      var maxBrightness, maxX, maxY := Brightest(data);
      gesture := Normalized(maxBrightness, maxX, maxY);
      assert FirstBrightest(data[..], maxBrightness, maxX, maxY) && gesture == Normalized(maxBrightness, maxX, maxY);
    }
  }
}
