/** The adaptive jitter buffer (internal/audio/playout.go). Samples, positions, gains and
    ratios are reals; times and durations are nanoseconds. */
module Playout {
  import opened Bytes
  import opened Arith
  import opened Resampler
  import opened Channels
  import AudioFormats

  const SECOND := 1_000_000_000
  const MS := 1_000_000
  const TARGET_STEP := 10 * MS
  const RELAX_AFTER := 10 * SECOND
  const RELAX_STEP := 5 * MS
  const MAX_DRIFT := 0.003
  const LAZY_DROP := 2048

  datatype Config = Config(target: nat, maxTarget: nat, max: nat)

  predicate Ordered(c: Config) {
    c.target <= c.maxTarget <= c.max
  }

  function ConfigFor(p: AudioFormats.Profile): Config {
    match p
    case LowLatency => Config(20 * MS, 80 * MS, 160 * MS)
    case Balanced => Config(40 * MS, 150 * MS, 300 * MS)
    case Music => Config(60 * MS, 200 * MS, 400 * MS)
  }

  /** Every profile orders its levels, and from 7 Hz on has a ceiling of at least a frame. */
  lemma ProfilesOrdered(p: AudioFormats.Profile, rate: nat)
    ensures Ordered(ConfigFor(p))
    ensures FramesFor(rate, ConfigFor(p).max) > 0 <==> rate * ConfigFor(p).max >= SECOND
    ensures rate >= 7 ==> FramesFor(rate, ConfigFor(p).max) > 0
  {
    DivBounds(rate * ConfigFor(p).max, SECOND);
  }

  function FramesFor(rate: nat, d: nat): nat {
    rate * d / SECOND
  }

  lemma FramesForMonotone(rate: nat, a: nat, b: nat)
    requires a <= b
    ensures FramesFor(rate, a) <= FramesFor(rate, b)
  {
    MulLe(a, b, rate);
    DivMonotone(rate * a, rate * b, SECOND);
  }

  /** Whole frames waiting beyond the read position. */
  function Level(samples: nat, ch: nat, pos: real): nat {
    if ch == 0 then 0
    else
      var l := samples / ch - pos.Floor - 1;
      if l < 0 then 0 else l
  }

  function Max(a: int, b: int): int {
    if a > b then a else b
  }

  // What a call to Render plays

  function ScaleFrame(frame: seq<real>, gain: real): (s: seq<real>)
    ensures |s| == |frame|
  {
    seq(|frame|, c requires 0 <= c < |frame| => frame[c] * gain)
  }

  /** Frames of the fade-out: the last sample frame ramped down, then silence. */
  function FadeLength(dstRate: nat): (n: nat)
    ensures n >= 1
  {
    Max(1, (dstRate as real * 0.003).Floor)
  }

  function FadeGain(n: nat, fade: nat): real
    requires fade >= 1
  {
    if n < fade then 1.0 - (n + 1) as real / fade as real else 0.0
  }

  function FadeFrames(last: seq<real>, n: nat, fade: nat): (fs: seq<seq<real>>)
    requires fade >= 1
    ensures |fs| == n && forall i :: 0 <= i < n ==> |fs[i]| == |last|
  {
    seq(n, i requires 0 <= i < n => ScaleFrame(last, FadeGain(i, fade)))
  }

  /** The ramp starts below full level, never rises, and ends in silence. */
  lemma FadeShape(n: nat, fade: nat)
    requires fade >= 1
    ensures 0.0 <= FadeGain(n + 1, fade) <= FadeGain(n, fade) < 1.0
    ensures n + 1 >= fade ==> FadeGain(n, fade) == 0.0
  {
    var f := fade as real;
    assert (n + 1) as real / f > 0.0;
    assert (n + 2) as real / f == (n + 1) as real / f + 1.0 / f;
    assert f / f == 1.0;
    if n < fade {
      RealLeOfMul((n + 1) as real / f, 1.0, f);
    }
    if n + 1 < fade {
      RealLeOfMul((n + 2) as real / f, 1.0, f);
    }
  }

  function GainStep(dstRate: nat): real {
    1.0 / Max(1, (dstRate as real * 0.005).Floor) as real
  }

  function NextGain(gain: real, gainStep: real): real {
    if gain < 1.0 then (if gain + gainStep > 1.0 then 1.0 else gain + gainStep) else gain
  }

  datatype Played = Played(frames: seq<seq<real>>, pos: real, gain: real)

  /** Up to n frames from (pos, gain), stopping where the queue cannot be read. */
  function Play(q: seq<real>, ch: nat, dstCh: nat, step: real, gainStep: real, pos: real, gain: real, n: nat): (p: Played)
    requires dstCh > 0
    ensures |p.frames| <= n && forall i :: 0 <= i < |p.frames| ==> |p.frames[i]| == dstCh
  {
    if n == 0 then Played([], pos, gain)
    else
      var p := Play(q, ch, dstCh, step, gainStep, pos, gain, n - 1);
      if |p.frames| < n - 1 || !Readable(q, ch, p.pos) then p
      else
        var g := NextGain(p.gain, gainStep);
        Played(p.frames + [ScaleFrame(MapFrame(OutFrame(q, ch, p.pos), dstCh), g)], p.pos + step, g)
  }

  function LastOf(frames: seq<seq<real>>, otherwise: seq<real>): seq<real> {
    if frames == [] then otherwise else frames[|frames| - 1]
  }

  // The drift control

  function Drift(adj: real, level: nat, target: nat, rate: nat): real
    requires rate > 0
  {
    var want0 := (level as real - target as real) / rate as real / 2.0;
    var want := if want0 > MAX_DRIFT then MAX_DRIFT else if want0 < -MAX_DRIFT then -MAX_DRIFT else want0;
    adj + (want - adj) * 0.05
  }

  lemma DriftBounded(adj: real, level: nat, target: nat, rate: nat)
    requires rate > 0 && -MAX_DRIFT <= adj <= MAX_DRIFT
    ensures -MAX_DRIFT <= Drift(adj, level, target, rate) <= MAX_DRIFT
  {
  }

  /** The ratio the device can follow: no step reads past the queue by more than the
      frames the next trim may drop. */
  predicate RatioOk(srcRate: nat, dstRate: nat) {
    srcRate as real * (1.0 + MAX_DRIFT) <= 4.0 * dstRate as real
  }

  function Step(srcRate: nat, dstRate: nat, adj: real): real
    requires dstRate > 0
  {
    srcRate as real / dstRate as real * (1.0 + adj)
  }

  lemma StepPositive(srcRate: nat, dstRate: nat, adj: real)
    requires srcRate > 0 && dstRate > 0 && -MAX_DRIFT <= adj <= MAX_DRIFT
    ensures 0.0 < Step(srcRate, dstRate, adj)
  {
    var r := srcRate as real / dstRate as real;
    assert r * dstRate as real == srcRate as real;
    RealMulPos(r, dstRate as real);
    RealMulPos(r, 1.0 + adj);
  }

  lemma StepBounds(srcRate: nat, dstRate: nat, adj: real)
    requires srcRate > 0 && dstRate > 0 && -MAX_DRIFT <= adj <= MAX_DRIFT && RatioOk(srcRate, dstRate)
    ensures 0.0 < Step(srcRate, dstRate, adj) <= 4.0
  {
    var s, d, a := srcRate as real, dstRate as real, 1.0 + adj;
    var r := s / d;
    assert r * d == s;
    StepPositive(srcRate, dstRate, adj);
    RealMulPos(r, d);
    RealMulLe(a, 1.0 + MAX_DRIFT, r);
    RatioTimes(s, d, 1.0 + MAX_DRIFT, 4.0);
    assert r * a == a * r && r * (1.0 + MAX_DRIFT) == (1.0 + MAX_DRIFT) * r;
    assert Step(srcRate, dstRate, adj) == r * a;
  }

  /** Trimming consumed frames stays inside the queue. */
  predicate TrimInside(frames: nat, pos: real) {
    pos.Floor - 1 <= frames
  }
}
