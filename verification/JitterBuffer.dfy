/** The state of the jitter buffer under any run of Push, Render, SetConfig, SetSource and
    Reset (internal/audio/playout.go). */
module JitterBuffer {
  import opened Options
  import opened Arith
  import opened Resampler
  import opened Channels
  import opened Playout

  datatype State = State(
    cfg: Config, srcRate: nat, srcCh: nat,
    q: seq<real>, pos: real,
    primed: bool, gain: real, adj: real, target: nat,
    lastUnderrun: Option<int>, lastRelax: Option<int>,
    lastOut: seq<real>)

  function Silence(ch: nat): seq<real> {
    seq(ch, _ => 0.0)
  }

  function Buffered(s: State): nat {
    Level(|s.q|, s.srcCh, s.pos)
  }

  // What every call keeps

  predicate WholeFrames(q: seq<real>, ch: nat) {
    if ch == 0 then q == [] else (|q| / ch) * ch == |q|
  }

  /** Frames already consumed but not yet cut from the queue. */
  predicate LazyTrim(frames: nat, pos: real) {
    pos >= 1.0 && pos.Floor - 1 <= LAZY_DROP && 2 * (pos.Floor - 1) <= frames
  }

  predicate Healthy(s: State) {
    && Ordered(s.cfg)
    && 0.0 <= s.gain <= 1.0
    && -MAX_DRIFT <= s.adj <= MAX_DRIFT
    && (s.srcRate > 0 ==> FramesFor(s.srcRate, s.cfg.target) <= s.target <= FramesFor(s.srcRate, s.cfg.maxTarget))
    && WholeFrames(s.q, s.srcCh)
    && (s.srcCh > 0 ==> LazyTrim(|s.q| / s.srcCh, s.pos))
    && (s.primed ==> s.srcRate > 0 && s.srcCh > 0)
  }

  // SetConfig, SetSource, Reset

  function Initial(cfg: Config): State {
    State(cfg, 0, 0, [], 0.0, false, 0.0, 0.0, 0, None, None, [])
  }

  function AfterSetConfig(s: State, cfg: Config): State {
    s.(cfg := cfg, target := if s.srcRate > 0 then FramesFor(s.srcRate, cfg.target) else s.target)
  }

  function AfterReset(s: State): State {
    s.(q := Silence(s.srcCh), pos := 1.0, primed := false, adj := 0.0,
       target := if s.srcRate > 0 then FramesFor(s.srcRate, s.cfg.target) else s.target)
  }

  function AfterSetSource(s: State, rate: nat, ch: nat): State {
    if rate == s.srcRate && ch == s.srcCh then s
    else
      var r := AfterReset(s.(srcRate := rate, srcCh := ch));
      r.(target := FramesFor(rate, s.cfg.target))
  }

  // Push

  lemma WholeCut(x: nat, ch: nat, drop: nat)
    requires ch > 0 && (x / ch) * ch == x && drop <= x / ch
    ensures 0 <= drop * ch <= x && (x - drop * ch) / ch == x / ch - drop
    ensures (x / ch - drop) * ch == x - drop * ch
  {
    MulLe(drop, x / ch, ch);
    DivLess(x, ch, drop);
    assert (x / ch - drop) * ch == (x / ch) * ch - drop * ch;
  }

  function WholePart(x: nat, ch: nat): (n: nat)
    requires ch > 0
    ensures n <= x
  {
    WholeBelow(x, ch);
    (x / ch) * ch
  }

  lemma WholeAdd(x: nat, y: nat, ch: nat)
    requires ch > 0 && (x / ch) * ch == x
    ensures (x + WholePart(y, ch)) / ch == x / ch + y / ch
    ensures (x / ch + y / ch) * ch == x + WholePart(y, ch)
  {
    assert (x / ch + y / ch) * ch == (x / ch) * ch + (y / ch) * ch;
    MulDiv(x / ch + y / ch, ch);
  }

  function Appended(s: State, samples: seq<real>): State
    requires s.srcCh > 0
  {
    s.(q := s.q + samples[..WholePart(|samples|, s.srcCh)])
  }

  predicate Overflowing(s: State) {
    var max := FramesFor(s.srcRate, s.cfg.max);
    max > 0 && Buffered(s) > max
  }

  /** Jump to the newest audio, leaving exactly the target level. */
  function Jumped(s: State): State
    requires s.srcCh > 0 && WholeFrames(s.q, s.srcCh) && s.target + 2 <= |s.q| / s.srcCh
  {
    var start := |s.q| / s.srcCh - (s.target + 2);
    WholeCut(|s.q|, s.srcCh, start);
    s.(q := s.q[start * s.srcCh..], pos := 1.0, gain := 0.0)
  }

  lemma OverflowHasTarget(s: State)
    requires Healthy(s) && s.srcCh > 0 && Overflowing(s)
    ensures s.srcRate > 0 && s.target + 2 < |s.q| / s.srcCh
  {
    FramesForMonotone(s.srcRate, s.cfg.maxTarget, s.cfg.max);
    assert s.srcRate == 0 ==> FramesFor(s.srcRate, s.cfg.max) == 0;
  }

  lemma AppendedHealthy(s: State, samples: seq<real>)
    requires Healthy(s) && s.srcCh > 0
    ensures Healthy(Appended(s, samples))
    ensures |Appended(s, samples).q| / s.srcCh == |s.q| / s.srcCh + |samples| / s.srcCh
  {
    WholeAdd(|s.q|, |samples|, s.srcCh);
  }

  function AfterPush(s: State, samples: seq<real>): (t: State)
    requires Healthy(s)
  {
    if s.srcCh == 0 || |samples| < s.srcCh then s
    else
      AppendedHealthy(s, samples);
      var a := Appended(s, samples);
      if Overflowing(a) then OverflowHasTarget(a); Jumped(a) else a
  }

  lemma JumpedFrames(s: State)
    requires s.srcCh > 0 && WholeFrames(s.q, s.srcCh) && s.target + 2 <= |s.q| / s.srcCh
    ensures WholeFrames(Jumped(s).q, s.srcCh) && |Jumped(s).q| / s.srcCh == s.target + 2
    ensures Buffered(Jumped(s)) == s.target
  {
    WholeCut(|s.q|, s.srcCh, |s.q| / s.srcCh - (s.target + 2));
  }

  /** After a push the level is within the hard ceiling, after an overflow it is exactly
      the target, and the queue holds at most 2050 frames more than the ceiling. */
  lemma PushBounds(s: State, samples: seq<real>)
    requires Healthy(s)
    ensures Healthy(AfterPush(s, samples))
    ensures var t, max := AfterPush(s, samples), FramesFor(s.srcRate, s.cfg.max);
            s.srcCh > 0 && |samples| >= s.srcCh && max > 0 ==>
              && Buffered(t) <= max
              && (Overflowing(Appended(s, samples)) ==> Buffered(t) == t.target && t.gain == 0.0)
              && |t.q| <= (max + LAZY_DROP + 2) * s.srcCh
  {
    if s.srcCh > 0 && |samples| >= s.srcCh {
      var a, t := Appended(s, samples), AfterPush(s, samples);
      var max := FramesFor(s.srcRate, s.cfg.max);
      AppendedHealthy(s, samples);
      if Overflowing(a) {
        OverflowHasTarget(a);
        JumpedFrames(a);
        FramesForMonotone(s.srcRate, s.cfg.maxTarget, s.cfg.max);
        MulLe(a.target + 2, max + LAZY_DROP + 2, s.srcCh);
      } else if max > 0 {
        MulLe(|a.q| / s.srcCh, max + LAZY_DROP + 2, s.srcCh);
      }
    }
  }

  // Render

  function Resized(s: State, dstCh: nat): State {
    s.(lastOut := if |s.lastOut| == dstCh then s.lastOut else Silence(dstCh))
  }

  function Quiet(s: State): State {
    s.(lastOut := Silence(|s.lastOut|))
  }

  /** Not yet primed and not enough audio to start. */
  predicate Starving(s: State) {
    !s.primed && (Buffered(s) < s.target || Buffered(s) < 3)
  }

  function Corrected(s: State): State
    requires s.srcRate > 0
  {
    s.(primed := true, gain := if s.primed then s.gain else 0.0,
       adj := Drift(s.adj, Buffered(s), s.target, s.srcRate))
  }

  function Heard(s: State, frames: nat, dstRate: nat, dstCh: nat): (p: Played)
    requires dstRate > 0 && dstCh > 0
  {
    Play(s.q, s.srcCh, dstCh, Step(s.srcRate, dstRate, s.adj), GainStep(dstRate), s.pos, s.gain, frames)
  }

  function Advanced(s: State, p: Played): State {
    s.(pos := p.pos, gain := p.gain, lastOut := LastOf(p.frames, s.lastOut))
  }

  function Underrun(s: State, now: int): State {
    var ceiling := FramesFor(s.srcRate, s.cfg.maxTarget);
    var raised := s.target + FramesFor(s.srcRate, TARGET_STEP);
    s.(primed := false, lastUnderrun := Some(now),
       target := if s.target >= ceiling then s.target else if raised > ceiling then ceiling else raised)
  }

  /** Frames to cut: only many, or more than half of the queue. */
  function Drop(samples: nat, ch: nat, pos: real): int {
    var drop := pos.Floor - 1;
    if drop > LAZY_DROP || (drop > 0 && drop * ch * 2 > samples) then drop else 0
  }

  predicate Trimmable(s: State) {
    s.srcCh > 0 && WholeFrames(s.q, s.srcCh) && s.pos >= 1.0 && TrimInside(|s.q| / s.srcCh, s.pos)
  }

  function Trimmed(s: State): State
    requires Trimmable(s)
  {
    var drop := Drop(|s.q|, s.srcCh, s.pos);
    WholeCut(|s.q|, s.srcCh, drop);
    s.(q := s.q[drop * s.srcCh..], pos := s.pos - drop as real)
  }

  predicate Since(last: Option<int>, now: int, d: nat) {
    last.None? || now - last.value > d
  }

  function Relaxed(s: State, now: int): State {
    var base := FramesFor(s.srcRate, s.cfg.target);
    if s.target > base && Since(s.lastUnderrun, now, RELAX_AFTER) && Since(s.lastRelax, now, RELAX_AFTER) then
      s.(target := Max(s.target - FramesFor(s.srcRate, RELAX_STEP), base), lastRelax := Some(now))
    else s
  }

  function Fade(dstRate: nat): (n: nat)
    ensures n >= 1
  {
    if dstRate > 0 then FadeLength(dstRate) else 1
  }

  /** Whether Render gives only the fade-out and silence. */
  predicate Idle(s: State, dstRate: nat) {
    s.srcRate == 0 || dstRate == 0 || Starving(s)
  }

  /** The frames written once playing: what can be heard, then the fade-out. */
  function Filled(c: State, frames: nat, dstRate: nat, dstCh: nat): (fs: seq<seq<real>>)
    requires dstRate > 0 && dstCh > 0 && |c.lastOut| == dstCh
    ensures |fs| == frames && forall i :: 0 <= i < frames ==> |fs[i]| == dstCh
  {
    var p := Heard(c, frames, dstRate, dstCh);
    p.frames + FadeFrames(LastOf(p.frames, c.lastOut), frames - |p.frames|, Fade(dstRate))
  }

  /** The frames Render writes: always exactly as many as asked for. */
  function Rendered(s: State, frames: nat, dstRate: nat, dstCh: nat): (fs: seq<seq<real>>)
    requires dstCh > 0
    ensures |fs| == frames && forall i :: 0 <= i < frames ==> |fs[i]| == dstCh
  {
    var r := Resized(s, dstCh);
    if Idle(s, dstRate) then FadeFrames(r.lastOut, frames, Fade(dstRate))
    else Filled(Corrected(r), frames, dstRate, dstCh)
  }

  /** State after the playing loop, before the queue is trimmed. */
  function Spent(c: State, frames: nat, dstRate: nat, dstCh: nat, now: int): State
    requires dstCh > 0 && c.srcRate > 0 && dstRate > 0
  {
    var p := Heard(c, frames, dstRate, dstCh);
    var a := Advanced(c, p);
    if |p.frames| < frames then Quiet(Underrun(a, now)) else a
  }

  lemma {:induction false} PlayInside(q: seq<real>, ch: nat, dstCh: nat, step: real, gainStep: real,
                                      pos: real, gain: real, n: nat)
    requires dstCh > 0 && ch > 0 && 0.0 < step <= 4.0 && gainStep > 0.0
    requires pos >= 1.0 && TrimInside(|q| / ch, pos) && 0.0 <= gain <= 1.0
    ensures var p := Play(q, ch, dstCh, step, gainStep, pos, gain, n);
            p.pos >= 1.0 && TrimInside(|q| / ch, p.pos) && 0.0 <= p.gain <= 1.0
  {
    hide OutFrame;
    hide MapFrame;
    if n > 0 {
      PlayInside(q, ch, dstCh, step, gainStep, pos, gain, n - 1);
    }
  }

  lemma NotIdle(s: State, dstRate: nat)
    requires Healthy(s) && !Idle(s, dstRate)
    ensures s.srcCh > 0 && s.srcRate > 0 && dstRate > 0
  {
  }

  lemma GainStepPositive(dstRate: nat)
    ensures GainStep(dstRate) > 0.0
  {
    var m := Max(1, (dstRate as real * 0.005).Floor) as real;
    assert GainStep(dstRate) * m == 1.0;
    RealMulPos(GainStep(dstRate), m);
  }

  lemma HeardInside(s: State, frames: nat, dstRate: nat, dstCh: nat)
    requires Healthy(s) && s.srcRate > 0 && s.srcCh > 0
    requires dstRate > 0 && dstCh > 0 && RatioOk(s.srcRate, dstRate)
    ensures var p := Heard(s, frames, dstRate, dstCh);
            Trimmable(Advanced(s, p)) && 0.0 <= p.gain <= 1.0
  {
    StepBounds(s.srcRate, dstRate, s.adj);
    GainStepPositive(dstRate);
    PlayInside(s.q, s.srcCh, dstCh, Step(s.srcRate, dstRate, s.adj), GainStep(dstRate), s.pos, s.gain, frames);
  }

  lemma CorrectedHealthy(s: State)
    requires Healthy(s) && s.srcRate > 0 && s.srcCh > 0
    ensures Healthy(Corrected(s))
  {
    DriftBounded(s.adj, Buffered(s), s.target, s.srcRate);
  }

  lemma SpentTrimmable(s: State, frames: nat, dstRate: nat, dstCh: nat, now: int)
    requires Healthy(s) && !Idle(s, dstRate) && dstCh > 0 && RatioOk(s.srcRate, dstRate)
    ensures s.srcRate > 0 && dstRate > 0
    ensures var c := Corrected(Resized(s, dstCh));
            Trimmable(Spent(c, frames, dstRate, dstCh, now)) && Healthy(Trimmed(Spent(c, frames, dstRate, dstCh, now)))
  {
    var c := Corrected(Resized(s, dstCh));
    NotIdle(s, dstRate);
    CorrectedHealthy(Resized(s, dstCh));
    HeardInside(c, frames, dstRate, dstCh);
    TrimmedHealthy(Spent(c, frames, dstRate, dstCh, now));
  }

  /** Everything but the read position is in order. */
  predicate Sound(s: State) {
    && Ordered(s.cfg) && 0.0 <= s.gain <= 1.0 && -MAX_DRIFT <= s.adj <= MAX_DRIFT
    && s.srcRate > 0
    && FramesFor(s.srcRate, s.cfg.target) <= s.target <= FramesFor(s.srcRate, s.cfg.maxTarget)
  }

  lemma TrimmedHealthy(s: State)
    requires Sound(s) && Trimmable(s)
    ensures Healthy(Trimmed(s))
  {
    var ch, drop := s.srcCh, Drop(|s.q|, s.srcCh, s.pos);
    WholeCut(|s.q|, ch, drop);
    FloorShift(s.pos, -drop);
    if drop == 0 {
      NothingDropped(|s.q|, ch, s.pos);
    }
  }

  lemma NothingDropped(samples: nat, ch: nat, pos: real)
    requires ch > 0 && (samples / ch) * ch == samples && pos >= 1.0 && Drop(samples, ch, pos) == 0
    ensures LazyTrim(samples / ch, pos)
  {
    var f, d := samples / ch, pos.Floor - 1;
    assert d * ch * 2 == (2 * d) * ch;
    assert (f + 1) * ch == f * ch + ch;
    if f < 2 * d {
      MulLe(f + 1, 2 * d, ch);
    }
  }

  /** The trim at the end of this call stays inside the queue. */
  predicate RenderInside(s: State, frames: nat, dstRate: nat, dstCh: nat, now: int)
    requires dstCh > 0
  {
    Idle(s, dstRate) || Trimmable(Spent(Corrected(Resized(s, dstCh)), frames, dstRate, dstCh, now))
  }

  function RenderedState(s: State, frames: nat, dstRate: nat, dstCh: nat, now: int): State
    requires dstCh > 0 && RenderInside(s, frames, dstRate, dstCh, now)
  {
    if Idle(s, dstRate) then Quiet(Resized(s, dstCh))
    else Relaxed(Trimmed(Spent(Corrected(Resized(s, dstCh)), frames, dstRate, dstCh, now)), now)
  }

  /** Any call whose trim stays inside keeps the buffer in order, whatever the ratio. */
  lemma InsideHealthy(s: State, frames: nat, dstRate: nat, dstCh: nat, now: int)
    requires Healthy(s) && dstCh > 0 && RenderInside(s, frames, dstRate, dstCh, now)
    ensures Healthy(RenderedState(s, frames, dstRate, dstCh, now))
  {
    if !Idle(s, dstRate) {
      var c := Corrected(Resized(s, dstCh));
      CorrectedHealthy(Resized(s, dstCh));
      PlayGain(c, frames, dstRate, dstCh);
      TrimmedHealthy(Spent(c, frames, dstRate, dstCh, now));
    }
  }

  lemma PlayGain(c: State, frames: nat, dstRate: nat, dstCh: nat)
    requires dstRate > 0 && dstCh > 0 && 0.0 <= c.gain <= 1.0
    ensures 0.0 <= Heard(c, frames, dstRate, dstCh).gain <= 1.0
  {
    GainStepPositive(dstRate);
    GainStays(c.q, c.srcCh, dstCh, Step(c.srcRate, dstRate, c.adj), GainStep(dstRate), c.pos, c.gain, frames);
  }

  lemma {:induction false} GainStays(q: seq<real>, ch: nat, dstCh: nat, step: real, gainStep: real,
                                     pos: real, gain: real, n: nat)
    requires dstCh > 0 && gainStep > 0.0 && 0.0 <= gain <= 1.0
    ensures 0.0 <= Play(q, ch, dstCh, step, gainStep, pos, gain, n).gain <= 1.0
  {
    hide OutFrame;
    hide MapFrame;
    if n > 0 {
      GainStays(q, ch, dstCh, step, gainStep, pos, gain, n - 1);
    }
  }

  function AfterRender(s: State, frames: nat, dstRate: nat, dstCh: nat, now: int): State
    requires Healthy(s) && dstCh > 0 && (dstRate > 0 ==> RatioOk(s.srcRate, dstRate))
  {
    RatioKeepsInside(s, frames, dstRate, dstCh, now);
    RenderedState(s, frames, dstRate, dstCh, now)
  }

  /** At a ratio within the bound every trim stays inside. */
  lemma RatioKeepsInside(s: State, frames: nat, dstRate: nat, dstCh: nat, now: int)
    requires Healthy(s) && dstCh > 0 && (dstRate > 0 ==> RatioOk(s.srcRate, dstRate))
    ensures RenderInside(s, frames, dstRate, dstCh, now)
  {
    if !Idle(s, dstRate) {
      SpentTrimmable(s, frames, dstRate, dstCh, now);
    }
  }

  lemma RenderHealthy(s: State, frames: nat, dstRate: nat, dstCh: nat, now: int)
    requires Healthy(s) && dstCh > 0 && (dstRate > 0 ==> RatioOk(s.srcRate, dstRate))
    ensures Healthy(AfterRender(s, frames, dstRate, dstCh, now))
  {
    RatioKeepsInside(s, frames, dstRate, dstCh, now);
    InsideHealthy(s, frames, dstRate, dstCh, now);
  }

  // What is heard

  function GainAfter(gain: real, gainStep: real, n: nat): real {
    if gain + n as real * gainStep > 1.0 then 1.0 else gain + n as real * gainStep
  }

  predicate HeardFrom(q: seq<real>, ch: nat, dstCh: nat, p: real, gain: real, frame: seq<real>)
    requires dstCh > 0
  {
    Readable(q, ch, p) && frame == ScaleFrame(MapFrame(OutFrame(q, ch, p), dstCh), gain)
  }

  /** Frame k of a run of playing frames: read k steps on, at the gain ramped k + 1 times. */
  predicate HeardAt(q: seq<real>, ch: nat, dstCh: nat, step: real, gainStep: real, pos: real, gain: real,
                    frame: seq<real>, k: nat)
    requires dstCh > 0
  {
    HeardFrom(q, ch, dstCh, pos + k as real * step, GainAfter(gain, gainStep, k + 1), frame)
  }

  lemma OneMore(k: nat, x: real)
    ensures (k + 1) as real * x == k as real * x + x
  {
    assert (k + 1) as real == k as real + 1.0;
  }

  lemma {:induction false} PlayPlaces(q: seq<real>, ch: nat, dstCh: nat, step: real, gainStep: real,
                                      pos: real, gain: real, n: nat)
    requires dstCh > 0 && 0.0 <= gain <= 1.0 && gainStep > 0.0
    ensures var p := Play(q, ch, dstCh, step, gainStep, pos, gain, n);
            && p.pos == pos + |p.frames| as real * step && p.gain == GainAfter(gain, gainStep, |p.frames|)
            && (|p.frames| == n || !Readable(q, ch, p.pos))
  {
    hide OutFrame;
    hide MapFrame;
    hide Readable;
    hide GainAfter;
    RampStep(gain, gainStep, 0);
    if n > 0 {
      PlayPlaces(q, ch, dstCh, step, gainStep, pos, gain, n - 1);
      var k := |Play(q, ch, dstCh, step, gainStep, pos, gain, n - 1).frames|;
      assert pos + (k + 1) as real * step == pos + k as real * step + step by {
        OneMore(k, step);
      }
      RampStep(gain, gainStep, k);
    }
  }

  /** The playing loop: evenly spaced reads and a linear fade-in that stops at one,
      ending early only where the queue cannot be read. */
  lemma {:induction false} HeardEvenly(q: seq<real>, ch: nat, dstCh: nat, step: real, gainStep: real,
                                       pos: real, gain: real, n: nat)
    requires dstCh > 0 && 0.0 <= gain <= 1.0 && gainStep > 0.0
    ensures var p := Play(q, ch, dstCh, step, gainStep, pos, gain, n);
            && (forall i :: 0 <= i < |p.frames| ==> HeardAt(q, ch, dstCh, step, gainStep, pos, gain, p.frames[i], i))
            && (|p.frames| == n || !Readable(q, ch, pos + |p.frames| as real * step))
  {
    hide OutFrame;
    hide MapFrame;
    hide ScaleFrame;
    hide HeardAt;
    PlayPlaces(q, ch, dstCh, step, gainStep, pos, gain, n);
    if n > 0 {
      HeardEvenly(q, ch, dstCh, step, gainStep, pos, gain, n - 1);
      PlayPlaces(q, ch, dstCh, step, gainStep, pos, gain, n - 1);
      var p := Play(q, ch, dstCh, step, gainStep, pos, gain, n - 1);
      var f := Play(q, ch, dstCh, step, gainStep, pos, gain, n).frames;
      if |f| > |p.frames| {
        HeardNext(q, ch, dstCh, step, gainStep, pos, gain, p, f[|p.frames|]);
      }
    }
  }

  lemma HeardNext(q: seq<real>, ch: nat, dstCh: nat, step: real, gainStep: real, pos: real, gain: real,
                  p: Played, frame: seq<real>)
    requires dstCh > 0 && 0.0 <= gain <= 1.0 && gainStep > 0.0
    requires p.pos == pos + |p.frames| as real * step && p.gain == GainAfter(gain, gainStep, |p.frames|)
    requires HeardFrom(q, ch, dstCh, p.pos, NextGain(p.gain, gainStep), frame)
    ensures HeardAt(q, ch, dstCh, step, gainStep, pos, gain, frame, |p.frames|)
  {
    hide HeardFrom;
    RampStep(gain, gainStep, |p.frames|);
  }

  lemma RampStep(gain: real, gainStep: real, k: nat)
    requires 0.0 <= gain <= 1.0 && gainStep > 0.0
    ensures NextGain(GainAfter(gain, gainStep, k), gainStep) == GainAfter(gain, gainStep, k + 1)
    ensures k == 0 ==> GainAfter(gain, gainStep, k) == gain
  {
    OneMore(k, gainStep);
    assert k as real * gainStep >= 0.0;
  }

  /** Cutting d consumed frames from the queue cannot be heard. */
  lemma {:induction false} CutIsSilent(q: seq<real>, ch: nat, d: nat, dstCh: nat, step: real, gainStep: real,
                                       pos: real, gain: real, n: nat)
    requires ch > 0 && dstCh > 0 && d * ch <= |q| && pos >= 1.0 && step > 0.0
    ensures var a, b := Play(q[d * ch..], ch, dstCh, step, gainStep, pos, gain, n),
                        Play(q, ch, dstCh, step, gainStep, pos + d as real, gain, n);
            a.frames == b.frames && a.gain == b.gain && b.pos == a.pos + d as real && a.pos >= 1.0
  {
    hide OutFrame;
    hide MapFrame;
    if n > 0 {
      CutIsSilent(q, ch, d, dstCh, step, gainStep, pos, gain, n - 1);
      var p := Play(q[d * ch..], ch, dstCh, step, gainStep, pos, gain, n - 1).pos;
      DivLess(|q|, ch, d);
      FloorShift(p, d);
      assert p.Floor >= 1;
      if Readable(q[d * ch..], ch, p) {
        SameFrame(q[d * ch..], q, ch, p, p + d as real, d);
      }
    }
  }

  lemma TrimKeepsLevel(s: State)
    requires Trimmable(s)
    ensures Buffered(Trimmed(s)) == Buffered(s)
  {
    var drop := Drop(|s.q|, s.srcCh, s.pos);
    WholeCut(|s.q|, s.srcCh, drop);
    FloorShift(s.pos, -drop);
  }

  /** Whether and when Render trims its queue makes no difference to what it plays next. */
  lemma TrimIsSilent(s: State, frames: nat, dstRate: nat, dstCh: nat)
    requires Sound(s) && Trimmable(s) && dstRate > 0 && dstCh > 0 && RatioOk(s.srcRate, dstRate)
    ensures Heard(Trimmed(s), frames, dstRate, dstCh).frames == Heard(s, frames, dstRate, dstCh).frames
  {
    hide Play;
    var drop := Drop(|s.q|, s.srcCh, s.pos);
    WholeCut(|s.q|, s.srcCh, drop);
    StepBounds(s.srcRate, dstRate, s.adj);
    CutIsSilent(s.q, s.srcCh, drop, dstCh, Step(s.srcRate, dstRate, s.adj), GainStep(dstRate),
                s.pos - drop as real, s.gain, frames);
  }

  // Runs

  datatype Event =
    | SettingConfig(cfg: Config)
    | SettingSource(rate: nat, ch: nat)
    | Resetting
    | Pushing(samples: seq<real>)
    | Rendering(frames: nat, dstRate: nat, dstCh: nat, now: int)

  predicate Admissible(s: State, e: Event) {
    match e
    case SettingConfig(cfg) => Ordered(cfg)
    case Rendering(_, dstRate, dstCh, _) => dstCh > 0 && (dstRate > 0 ==> RatioOk(s.srcRate, dstRate))
    case _ => true
  }

  function Next(s: State, e: Event): (t: State)
    requires Healthy(s) && Admissible(s, e)
  {
    match e
    case SettingConfig(cfg) => AfterSetConfig(s, cfg)
    case SettingSource(rate, ch) => AfterSetSource(s, rate, ch)
    case Resetting => AfterReset(s)
    case Pushing(samples) => AfterPush(s, samples)
    case Rendering(frames, dstRate, dstCh, now) => AfterRender(s, frames, dstRate, dstCh, now)
  }

  lemma ResetHealthy(s: State)
    requires Ordered(s.cfg) && 0.0 <= s.gain <= 1.0
    ensures Healthy(AfterReset(s))
  {
    FramesForMonotone(s.srcRate, s.cfg.target, s.cfg.maxTarget);
    if s.srcCh > 0 {
      DivUnique(s.srcCh, s.srcCh, 1);
    }
  }

  lemma NextHealthy(s: State, e: Event)
    requires Healthy(s) && Admissible(s, e)
    ensures Healthy(Next(s, e))
  {
    match e
    case SettingConfig(cfg) => FramesForMonotone(s.srcRate, cfg.target, cfg.maxTarget);
    case SettingSource(rate, ch) => ResetHealthy(s.(srcRate := rate, srcCh := ch));
    case Resetting => ResetHealthy(s);
    case Pushing(samples) => PushBounds(s, samples);
    case Rendering(frames, dstRate, dstCh, now) => RenderHealthy(s, frames, dstRate, dstCh, now);
  }

  /** A run of calls from a new playout: the list of states it goes through. */
  ghost predicate IsRun(cfg: Config, states: seq<State>, events: seq<Event>) {
    && |states| == |events| + 1 && states[0] == Initial(cfg)
    && forall i :: 0 <= i < |events| ==> Reaches(states[i], events[i], states[i + 1])
  }

  ghost predicate Reaches(s: State, e: Event, t: State) {
    Admissible(s, e) && (Healthy(s) ==> t == Next(s, e))
  }

  /** Every state of every run: whole frames, a read position with history, drift and
      gain in range, the target between its floor and its ceiling. */
  lemma {:induction false} RunHealthy(cfg: Config, states: seq<State>, events: seq<Event>, n: nat)
    requires Ordered(cfg) && IsRun(cfg, states, events) && n < |states|
    ensures Healthy(states[n])
  {
    if n > 0 {
      RunHealthy(cfg, states, events, n - 1);
      assert Reaches(states[n - 1], events[n - 1], states[n]);
      NextHealthy(states[n - 1], events[n - 1]);
    }
  }
}
