/** What the jitter buffer makes of everything pushed into it (internal/audio/playout.go):
    the listener hears one continuous reading of it. */
module Listening {
  import opened Options
  import opened Arith
  import opened Resampler
  import opened Channels
  import opened Playout
  import opened JitterBuffer

  /** All audio since the format was set or the buffer was reset, after one silent frame. */
  function History(h: seq<real>, s: State, e: Event): seq<real> {
    match e
    case SettingSource(rate, ch) => if rate == s.srcRate && ch == s.srcCh then h else Silence(ch)
    case Resetting => Silence(s.srcCh)
    case Pushing(samples) =>
      if s.srcCh == 0 then h else h + samples[..WholePart(|samples|, s.srcCh)]
    case _ => h
  }

  /** The queue is the end of the history. */
  predicate Holds(s: State, h: seq<real>) {
    && WholeFrames(h, s.srcCh) && |s.q| <= |h| && s.q == h[|h| - |s.q|..]
  }

  /** Frames of the history that have left the queue. */
  function Gone(s: State, h: seq<real>): int {
    if s.srcCh == 0 then 0 else |h| / s.srcCh - |s.q| / s.srcCh
  }

  /** The read position within the history. */
  function Reading(s: State, h: seq<real>): real {
    s.pos + Gone(s, h) as real
  }

  lemma GoneFrames(s: State, h: seq<real>)
    requires Holds(s, h) && WholeFrames(s.q, s.srcCh) && s.srcCh > 0
    ensures 0 <= Gone(s, h) && Gone(s, h) * s.srcCh == |h| - |s.q| && s.q == h[Gone(s, h) * s.srcCh..]
  {
    var ch := s.srcCh;
    assert Gone(s, h) * ch == (|h| / ch) * ch - (|s.q| / ch) * ch;
    DivMonotone(|s.q|, |h|, ch);
  }

  lemma Suffix(h: seq<real>, q: seq<real>, more: seq<real>, cut: nat)
    requires |q| <= |h| && q == h[|h| - |q|..] && cut <= |q + more|
    ensures var g, r := h + more, (q + more)[cut..]; |r| <= |g| && r == g[|g| - |r|..]
  {
    var g, r := h + more, (q + more)[cut..];
    assert g[|h| - |q|..] == q + more;
    assert g[|g| - |r|..] == g[|h| - |q|..][cut..];
  }

  // Pushes

  /** A push adds whole frames at the end. It moves the reading only when the level would
      go over the hard limit, and then to where the target level is left. */
  lemma PushReads(s: State, h: seq<real>, samples: seq<real>)
    requires Healthy(s) && Holds(s, h)
    ensures var t, g := AfterPush(s, samples), History(h, s, Pushing(samples));
            && Holds(t, g) && t.srcCh == s.srcCh
            && (s.srcCh > 0 ==>
                  if |samples| >= s.srcCh && Overflowing(Appended(s, samples)) then
                    Reading(t, g) == (|g| / s.srcCh - s.target - 1) as real
                  else Reading(t, g) == Reading(s, h) && t.gain == s.gain)
  {
    var ch := s.srcCh;
    if ch > 0 {
      var more := samples[..WholePart(|samples|, ch)];
      WholeAdd(|h|, |samples|, ch);
      WholeAdd(|s.q|, |samples|, ch);
      AppendedHealthy(s, samples);
      if |samples| < ch {
        DivUnique(|samples|, ch, 0);
        assert h + more == h;
      } else {
        PushedPart(s, h, samples);
      }
    }
  }

  lemma PushedPart(s: State, h: seq<real>, samples: seq<real>)
    requires Healthy(s) && Holds(s, h) && s.srcCh > 0 && |samples| >= s.srcCh
    ensures var t, g := AfterPush(s, samples), h + samples[..WholePart(|samples|, s.srcCh)];
            && Holds(t, g) && t.srcCh == s.srcCh
            && (if Overflowing(Appended(s, samples)) then Reading(t, g) == (|g| / s.srcCh - s.target - 1) as real
                else Reading(t, g) == Reading(s, h) && t.gain == s.gain)
  {
    var ch, a := s.srcCh, Appended(s, samples);
    var more := samples[..WholePart(|samples|, ch)];
    AppendedHealthy(s, samples);
    WholeAdd(|h|, |samples|, ch);
    WholeAdd(|s.q|, |samples|, ch);
    Suffix(h, s.q, more, 0);
    assert (s.q + more)[0..] == s.q + more;
    if Overflowing(a) {
      OverflowHasTarget(a);
      JumpedFrames(a);
      var start := |a.q| / ch - (a.target + 2);
      WholeCut(|a.q|, ch, start);
      Suffix(h, s.q, more, start * ch);
    }
  }

  // Renders

  /** n steps. */
  function Steps(n: nat, step: real): real {
    n as real * step
  }

  lemma PlayEvenly(h: seq<real>, ch: nat, dstCh: nat, step: real, gainStep: real, reading: real, gain: real, n: nat)
    requires dstCh > 0 && 0.0 <= gain <= 1.0 && gainStep > 0.0
    ensures EvenlyHeard(h, ch, dstCh, step, gainStep, reading, gain,
                        Play(h, ch, dstCh, step, gainStep, reading, gain, n).frames, n)
  {
    hide Play;
    hide HeardAt;
    hide Readable;
    HeardEvenly(h, ch, dstCh, step, gainStep, reading, gain, n);
  }

  /** Playing from the end of a history is playing from the history, further on. */
  lemma PlayOf(h: seq<real>, ch: nat, d: nat, dstCh: nat, step: real, gainStep: real, pos: real, gain: real, n: nat)
    requires ch > 0 && dstCh > 0 && d * ch <= |h| && pos >= 1.0 && step > 0.0 && 0.0 <= gain <= 1.0 && gainStep > 0.0
    ensures var p := Play(h[d * ch..], ch, dstCh, step, gainStep, pos, gain, n);
            && p.pos == pos + Steps(|p.frames|, step)
            && EvenlyHeard(h, ch, dstCh, step, gainStep, pos + d as real, gain, p.frames, n)
  {
    hide Play;
    hide EvenlyHeard;
    hide Steps;
    CutIsSilent(h, ch, d, dstCh, step, gainStep, pos, gain, n);
    PlayEnds(h[d * ch..], ch, dstCh, step, gainStep, pos, gain, n);
    PlayEvenly(h, ch, dstCh, step, gainStep, pos + d as real, gain, n);
  }

  lemma PlayEnds(q: seq<real>, ch: nat, dstCh: nat, step: real, gainStep: real, pos: real, gain: real, n: nat)
    requires dstCh > 0 && 0.0 <= gain <= 1.0 && gainStep > 0.0
    ensures var p := Play(q, ch, dstCh, step, gainStep, pos, gain, n); p.pos == pos + Steps(|p.frames|, step)
  {
    hide Play;
    hide GainAfter;
    PlayPlaces(q, ch, dstCh, step, gainStep, pos, gain, n);
  }

  /** Each frame is read evenly on from the reading, at a gain that ramps up to one, and
      the last one where the history ends, if they are fewer than n. */
  ghost predicate EvenlyHeard(h: seq<real>, ch: nat, dstCh: nat, step: real, gainStep: real, reading: real, gain: real,
                              frames: seq<seq<real>>, n: nat)
    requires dstCh > 0
  {
    && (forall i :: 0 <= i < |frames| ==> HeardAt(h, ch, dstCh, step, gainStep, reading, gain, frames[i], i))
    && (|frames| == n || (|frames| < n && !Readable(h, ch, reading + Steps(|frames|, step))))
  }

  lemma TrimReads(s: State, h: seq<real>)
    requires Trimmable(s) && Holds(s, h)
    ensures Holds(Trimmed(s), h) && Reading(Trimmed(s), h) == Reading(s, h)
  {
    var ch, drop := s.srcCh, Drop(|s.q|, s.srcCh, s.pos);
    WholeCut(|s.q|, ch, drop);
    Suffix(h, s.q, [], drop * ch);
    assert h + [] == h && s.q + [] == s.q;
  }

  /** What a render plays before it trims. */
  function Playing(s: State, dstCh: nat): State
    requires s.srcRate > 0
  {
    Corrected(Resized(s, dstCh))
  }

  /** The frames a render plays. */
  function HeardBy(s: State, frames: nat, dstRate: nat, dstCh: nat): seq<seq<real>>
    requires s.srcRate > 0 && dstRate > 0 && dstCh > 0
  {
    Heard(Playing(s, dstCh), frames, dstRate, dstCh).frames
  }

  function StepOf(s: State, dstRate: nat, dstCh: nat): real
    requires s.srcRate > 0 && dstRate > 0
  {
    Step(s.srcRate, dstRate, Playing(s, dstCh).adj)
  }

  lemma HeardIs(s: State, h: seq<real>, frames: nat, dstRate: nat, dstCh: nat)
    requires Healthy(s) && Holds(s, h) && dstCh > 0 && !Idle(s, dstRate)
    ensures s.srcRate > 0 && s.srcCh > 0 && dstRate > 0
    ensures var p := Heard(Playing(s, dstCh), frames, dstRate, dstCh);
            p.pos == s.pos + Steps(|p.frames|, StepOf(s, dstRate, dstCh))
    ensures EvenlyHeard(h, s.srcCh, dstCh, StepOf(s, dstRate, dstCh), GainStep(dstRate), Reading(s, h),
                        Playing(s, dstCh).gain, HeardBy(s, frames, dstRate, dstCh), frames)
  {
    NotIdle(s, dstRate);
    GoneFrames(s, h);
    var c := Playing(s, dstCh);
    DriftBounded(s.adj, Buffered(s), s.target, s.srcRate);
    hide Drift;
    StepPositive(s.srcRate, dstRate, c.adj);
    GainStepPositive(dstRate);
    hide Step;
    hide GainStep;
    hide EvenlyHeard;
    hide Play;
    hide Gone;
    PlayOf(h, s.srcCh, Gone(s, h), dstCh, StepOf(s, dstRate, dstCh), GainStep(dstRate), s.pos, c.gain, frames);
  }

  lemma SpentQueue(c: State, frames: nat, dstRate: nat, dstCh: nat, now: int)
    requires dstCh > 0 && c.srcRate > 0 && dstRate > 0
    ensures var t := Spent(c, frames, dstRate, dstCh, now);
            t.q == c.q && t.srcCh == c.srcCh && t.pos == Heard(c, frames, dstRate, dstCh).pos
  {
    hide Heard;
  }

  lemma RelaxReads(s: State, now: int)
    ensures var t := Relaxed(s, now); t.q == s.q && t.srcCh == s.srcCh && t.pos == s.pos
  {
  }

  /** A render moves the reading on by exactly the frames it plays. */
  lemma RenderReads(s: State, h: seq<real>, frames: nat, dstRate: nat, dstCh: nat, now: int)
    requires Healthy(s) && Holds(s, h) && dstCh > 0 && RenderInside(s, frames, dstRate, dstCh, now)
    ensures var t := RenderedState(s, frames, dstRate, dstCh, now);
            && Holds(t, h) && t.srcCh == s.srcCh
            && (if Idle(s, dstRate) then Reading(t, h) == Reading(s, h)
                else && s.srcRate > 0 && dstRate > 0
                     && Reading(t, h) == Reading(s, h) + Steps(|HeardBy(s, frames, dstRate, dstCh)|, StepOf(s, dstRate, dstCh)))
  {
    if !Idle(s, dstRate) {
      HeardIs(s, h, frames, dstRate, dstCh);
      var c := Playing(s, dstCh);
      SpentQueue(c, frames, dstRate, dstCh, now);
      hide Spent;
      hide Heard;
      hide StepOf;
      hide Steps;
      hide Drift;
      hide EvenlyHeard;
      var t := Spent(c, frames, dstRate, dstCh, now);
      TrimReads(t, h);
      RelaxReads(Trimmed(t), now);
      hide Trimmed;
      hide Relaxed;
    }
  }

  /** Whenever a render may play, what it writes begins with frames read from everything
      pushed so far, evenly on from where the reading stands, and it plays on until the
      pushed audio runs out. */
  lemma RenderPlays(s: State, h: seq<real>, frames: nat, dstRate: nat, dstCh: nat)
    requires Healthy(s) && Holds(s, h) && dstCh > 0 && !Idle(s, dstRate)
    ensures s.srcRate > 0 && dstRate > 0
    ensures HeardBy(s, frames, dstRate, dstCh) <= Rendered(s, frames, dstRate, dstCh)
    ensures EvenlyHeard(h, s.srcCh, dstCh, StepOf(s, dstRate, dstCh), GainStep(dstRate), Reading(s, h),
                        if s.primed then s.gain else 0.0, HeardBy(s, frames, dstRate, dstCh), frames)
  {
    HeardIs(s, h, frames, dstRate, dstCh);
    hide EvenlyHeard;
    hide Play;
    hide Drift;
  }

  // Runs

  function HistoryOf(states: seq<State>, events: seq<Event>): seq<real>
    requires |states| > |events|
  {
    if events == [] then []
    else
      var n := |events| - 1;
      History(HistoryOf(states[..|states| - 1], events[..n]), states[n], events[n])
  }

  lemma SilenceWhole(ch: nat)
    ensures WholeFrames(Silence(ch), ch) && (ch > 0 ==> |Silence(ch)| / ch == 1)
  {
    if ch > 0 {
      DivUnique(ch, ch, 1);
    }
  }

  /** Where a call leaves the reading. */
  ghost predicate ReadsOn(s: State, e: Event, t: State, h: seq<real>, g: seq<real>)
    requires Healthy(s)
  {
    match e
    case SettingConfig(_) => g == h && Reading(t, g) == Reading(s, h)
    case SettingSource(rate, ch) =>
      if rate == s.srcRate && ch == s.srcCh then t == s && g == h else g == Silence(ch) && Reading(t, g) == 1.0
    case Resetting => g == Silence(s.srcCh) && Reading(t, g) == 1.0
    case Pushing(samples) =>
      h <= g
      && (s.srcCh > 0 ==>
            if |samples| >= s.srcCh && Overflowing(Appended(s, samples)) then
              Reading(t, g) == (|g| / s.srcCh - s.target - 1) as real
            else Reading(t, g) == Reading(s, h))
    case Rendering(frames, dstRate, dstCh, _) =>
      g == h && dstCh > 0
      && (if Idle(s, dstRate) then Reading(t, g) == Reading(s, h)
          else && s.srcRate > 0 && dstRate > 0
               && Reading(t, g) == Reading(s, h) + Steps(|HeardBy(s, frames, dstRate, dstCh)|, StepOf(s, dstRate, dstCh)))
  }

  lemma StepReads(s: State, e: Event, h: seq<real>)
    requires Healthy(s) && Admissible(s, e) && Holds(s, h)
    ensures Holds(Next(s, e), History(h, s, e)) && ReadsOn(s, e, Next(s, e), h, History(h, s, e))
  {
    match e
    case SettingConfig(_) =>
    case SettingSource(rate, ch) => SilenceWhole(ch);
    case Resetting => SilenceWhole(s.srcCh);
    case Pushing(samples) =>
      hide Overflowing;
      hide AfterPush;
      PushReads(s, h, samples);
    case Rendering(frames, dstRate, dstCh, now) =>
      RatioKeepsInside(s, frames, dstRate, dstCh, now);
      hide RenderInside;
      hide RenderedState;
      hide Idle;
      hide HeardBy;
      hide Steps;
      hide StepOf;
      hide Reading;
      RenderReads(s, h, frames, dstRate, dstCh, now);
  }

  lemma {:induction false} RunHolds(cfg: Config, states: seq<State>, events: seq<Event>)
    requires Ordered(cfg) && IsRun(cfg, states, events)
    ensures Healthy(states[|events|]) && Holds(states[|events|], HistoryOf(states, events))
    decreases |events|
  {
    RunHealthy(cfg, states, events, |events|);
    if events != [] {
      var n := |events| - 1;
      assert Reaches(states[n], events[n], states[n + 1]);
      RunHolds(cfg, states[..n + 1], events[..n]);
      hide Healthy;
      hide Next;
      StepReads(states[n], events[n], HistoryOf(states[..n + 1], events[..n]));
    }
  }

  /** In every run: the queue is the end of everything pushed since the format was set or the
      buffer reset, and the listener reads that evenly. Only a render that plays moves the
      reading, by the frames it plays, and only an overflow jumps, to where the target level
      is left; trims and profile changes never show. */
  lemma OneReading(cfg: Config, states: seq<State>, events: seq<Event>, n: nat)
    requires Ordered(cfg) && IsRun(cfg, states, events) && n < |events|
    ensures Healthy(states[n])
    ensures ReadsOn(states[n], events[n], states[n + 1],
                    HistoryOf(states[..n + 1], events[..n]), HistoryOf(states[..n + 2], events[..n + 1]))
  {
    RunPart(cfg, states, events, n);
    RunHolds(cfg, states[..n + 1], events[..n]);
    hide Healthy;
    hide Next;
    hide IsRun;
    hide Holds;
    hide ReadsOn;
    HistoryNext(states, events, n);
    hide HistoryOf;
    StepReads(states[n], events[n], HistoryOf(states[..n + 1], events[..n]));
  }

  lemma RunPart(cfg: Config, states: seq<State>, events: seq<Event>, n: nat)
    requires IsRun(cfg, states, events) && n < |events|
    ensures IsRun(cfg, states[..n + 1], events[..n]) && Reaches(states[n], events[n], states[n + 1])
  {
    hide Reaches;
  }

  lemma HistoryNext(states: seq<State>, events: seq<Event>, n: nat)
    requires |states| == |events| + 1 && n < |events|
    ensures HistoryOf(states[..n + 2], events[..n + 1]) == History(HistoryOf(states[..n + 1], events[..n]), states[n], events[n])
  {
    hide History;
    assert states[..n + 2][..n + 1] == states[..n + 1] && events[..n + 1][..n] == events[..n];
  }
}
