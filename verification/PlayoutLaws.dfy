/** The control laws of the jitter buffer (internal/audio/playout.go): drift correction,
    fades, when it starts to play, and how its target moves. */
module PlayoutLaws {
  import opened Options
  import opened Arith
  import opened Playout
  import opened JitterBuffer

  // Drift

  /** The correction that absorbs a level error in two seconds, within 0.3 percent. */
  function Wanted(level: nat, target: nat, rate: nat): real
    requires rate > 0
  {
    var error, limit := level as real - target as real, 0.006 * rate as real;
    if error >= limit then 0.003 else if error <= -limit then -0.003 else error / (2.0 * rate as real)
  }

  /** Inside the limit, two seconds at the wanted correction make up for the error. */
  lemma WantedAbsorbs(level: nat, target: nat, rate: nat)
    requires rate > 0
    ensures var error, w := level as real - target as real, Wanted(level, target, rate);
            && -0.003 <= w <= 0.003
            && (-0.006 * rate as real <= error <= 0.006 * rate as real <==> w * (2.0 * rate as real) == error)
            && (error > 0.006 * rate as real ==> w == 0.003) && (error < -0.006 * rate as real ==> w == -0.003)
  {
    var error, r := level as real - target as real, rate as real;
    var x := error / (2.0 * r);
    Quotient(error, 2.0 * r);
    if -0.006 * r < error < 0.006 * r {
      Within(x, r, error);
    }
  }

  lemma Quotient(x: real, d: real)
    requires d > 0.0
    ensures x / d * d == x
  {
  }

  lemma Within(x: real, r: real, error: real)
    requires r > 0.0 && x * (2.0 * r) == error && -0.006 * r < error < 0.006 * r
    ensures -0.003 <= x <= 0.003
  {
    RealMulPos(x - 0.003, r);
    RealMulPos(-0.003 - x, r);
  }

  lemma WantedClamp(error: real, r: real)
    requires r > 0.0
    ensures error / r / 2.0 == error / (2.0 * r)
    ensures error / r / 2.0 > 0.003 <==> error > 0.006 * r
    ensures error / r / 2.0 < -0.003 <==> error < -0.006 * r
  {
    var x := error / r;
    assert x * r == error;
    RealMulPos(x - 0.006, r);
    RealMulPos(-0.006 - x, r);
    assert error / (2.0 * r) * (2.0 * r) == error;
    Halves(x, error / (2.0 * r), r);
  }

  lemma Halves(x: real, y: real, r: real)
    requires r > 0.0 && x * r == y * (2.0 * r)
    ensures x / 2.0 == y
  {
    RealLeOfMul(x, 2.0 * y, r);
    RealLeOfMul(2.0 * y, x, r);
  }

  /** One render takes the correction a twentieth of the way to the wanted one. */
  lemma DriftApproaches(adj: real, level: nat, target: nat, rate: nat)
    requires rate > 0
    ensures var w := Wanted(level, target, rate); Drift(adj, level, target, rate) - w == 0.95 * (adj - w)
  {
    var error, r := level as real - target as real, rate as real;
    WantedClamp(error, r);
    if error == 0.006 * r || error == -0.006 * r {
      assert error / r * r == error;
      Edge(error / r, r, if error == 0.006 * r then 0.006 else -0.006);
    }
  }

  lemma Edge(x: real, r: real, y: real)
    requires r > 0.0 && x * r == y * r
    ensures x == y
  {
    RealLeOfMul(x, y, r);
    RealLeOfMul(y, x, r);
  }

  function Power(n: nat): real {
    if n == 0 then 1.0 else 0.95 * Power(n - 1)
  }

  /** The correction after n renders at one level and target. */
  function Drifted(adj: real, level: nat, target: nat, rate: nat, n: nat): real
    requires rate > 0
  {
    if n == 0 then adj else Drift(Drifted(adj, level, target, rate, n - 1), level, target, rate)
  }

  /** It closes in on the wanted correction at the same rate for ever, from any start. */
  lemma {:induction false} DriftConverges(adj: real, level: nat, target: nat, rate: nat, n: nat)
    requires rate > 0
    ensures Drifted(adj, level, target, rate, n) - Wanted(level, target, rate)
         == Power(n) * (adj - Wanted(level, target, rate))
  {
    hide Wanted;
    hide Drift;
    if n > 0 {
      DriftConverges(adj, level, target, rate, n - 1);
      DriftApproaches(Drifted(adj, level, target, rate, n - 1), level, target, rate);
      Reassociate(0.95, Power(n - 1), adj - Wanted(level, target, rate));
    }
  }

  lemma Reassociate(a: real, b: real, c: real)
    ensures a * (b * c) == (a * b) * c
  {
  }

  /** Too much and too little audio are treated alike. */
  lemma DriftAntisymmetric(adj: real, a: nat, b: nat, rate: nat)
    requires rate > 0
    ensures Drift(-adj, a, b, rate) == -Drift(adj, b, a, rate)
  {
    hide Drift;
    DriftApproaches(-adj, a, b, rate);
    DriftApproaches(adj, b, a, rate);
    assert (b as real - a as real) / (2.0 * rate as real) == -((a as real - b as real) / (2.0 * rate as real));
  }

  /** No correction stays no correction exactly at the target level. */
  lemma DriftRests(level: nat, target: nat, rate: nat)
    requires rate > 0
    ensures Drift(0.0, level, target, rate) == 0.0 <==> level == target
    ensures Drift(0.0, level, target, rate) > 0.0 <==> level > target
  {
    hide Drift;
    DriftApproaches(0.0, level, target, rate);
    WantedAbsorbs(level, target, rate);
    Sign(Wanted(level, target, rate), 2.0 * rate as real);
  }

  lemma Sign(w: real, r: real)
    requires r > 0.0
    ensures w > 0.0 <==> w * r > 0.0
    ensures w == 0.0 <==> w * r == 0.0
  {
    RealMulPos(w, r);
    RealMulPos(-w, r);
  }

  /** Inside the limits more audio always means a higher correction. */
  lemma DriftRises(adj: real, a: nat, b: nat, target: nat, rate: nat)
    requires rate > 0 && a < b
    requires -0.006 * rate as real <= a as real - target as real && b as real - target as real <= 0.006 * rate as real
    ensures Drift(adj, a, target, rate) < Drift(adj, b, target, rate)
  {
    hide Drift;
    DriftApproaches(adj, a, target, rate);
    DriftApproaches(adj, b, target, rate);
    WantedAbsorbs(a, target, rate);
    WantedAbsorbs(b, target, rate);
    hide Wanted;
    Sign(Wanted(b, target, rate) - Wanted(a, target, rate), 2.0 * rate as real);
  }

  /** The step: frames read per second of output are the source's, sped up by the correction. */
  lemma StepLaw(srcRate: nat, dstRate: nat, adj: real)
    requires dstRate > 0
    ensures Step(srcRate, dstRate, adj) * dstRate as real == srcRate as real * (1.0 + adj)
  {
    var x, d := srcRate as real / dstRate as real, dstRate as real;
    assert x * d == srcRate as real;
    Commute(x, 1.0 + adj, d);
  }

  lemma Commute(x: real, y: real, d: real)
    ensures (x * y) * d == (x * d) * y
  {
  }

  // Fades

  /** The fade-in is over once 5 ms, and at least one frame, have been played. */
  lemma FadeInTime(dstRate: nat, n: nat)
    ensures GainAfter(0.0, GainStep(dstRate), n) == 1.0 <==> n >= 1 && dstRate < 200 * (n + 1)
  {
    var f := (dstRate as real * 0.005).Floor;
    var m := Max(1, f);
    assert f <= n <==> dstRate < 200 * (n + 1);
    assert GainStep(dstRate) * m as real == 1.0;
    Ramp(n, m, GainStep(dstRate));
  }

  lemma Ramp(n: nat, m: int, step: real)
    requires m >= 1 && step * m as real == 1.0
    ensures n as real * step >= 1.0 <==> n >= m
    ensures n == m ==> n as real * step == 1.0
  {
    RealMulPos(step, m as real);
    RealMulPos((n - m) as real, step);
    RealMulPos((m - n) as real, step);
    assert (n - m) as real * step == n as real * step - 1.0;
    assert (m - n) as real * step == 1.0 - n as real * step;
  }

  /** The fade-out is linear and reaches silence within 3 ms. */
  lemma FadeOutTime(dstRate: nat, n: nat)
    ensures var fade := FadeLength(dstRate);
            && (FadeGain(n, fade) == 0.0 <==> 3 * dstRate < 1000 * (n + 2))
            && (n + 1 < fade ==> FadeGain(n, fade) - FadeGain(n + 1, fade) == 1.0 / fade as real)
            && FadeGain(0, fade) == 1.0 - 1.0 / fade as real
  {
    var f, fade := (dstRate as real * 0.003).Floor, FadeLength(dstRate);
    assert f <= n + 1 <==> 3 * dstRate < 1000 * (n + 2);
    FadeShape(n, fade);
    var x := (n + 1) as real / fade as real;
    assert x * fade as real == (n + 1) as real;
    if n + 1 < fade {
      if x >= 1.0 {
        RealMulLe(1.0, x, fade as real);
      }
    }
    assert (n + 2) as real / fade as real == (n + 1) as real / fade as real + 1.0 / fade as real;
  }

  /** Scaling is linear in the gain, and full gain changes nothing. */
  lemma ScaleLinear(frame: seq<real>, a: real, b: real, c: nat)
    requires c < |frame|
    ensures ScaleFrame(frame, 1.0) == frame
    ensures ScaleFrame(frame, a + b)[c] == ScaleFrame(frame, a)[c] + ScaleFrame(frame, b)[c]
    ensures ScaleFrame(frame, a * b)[c] == ScaleFrame(ScaleFrame(frame, a), b)[c]
  {
    assert frame[c] * (a * b) == (frame[c] * a) * b;
  }

  // Levels and targets

  /** A duration is worth the whole frames that fit into it. */
  lemma FramesForWhole(rate: nat, d: nat)
    ensures FramesFor(rate, d) * SECOND <= rate * d < (FramesFor(rate, d) + 1) * SECOND
  {
    DivBounds(rate * d, SECOND);
  }

  /** The level counts frames: one more for each frame queued, one less for each frame read. */
  lemma LevelCounts(samples: nat, ch: nat, pos: real)
    requires ch > 0
    ensures pos.Floor < samples / ch ==> Level(samples + ch, ch, pos) == Level(samples, ch, pos) + 1
    ensures Level(samples, ch, pos + 1.0) == Max(0, Level(samples, ch, pos) - 1)
    ensures Level(samples, ch, (samples / ch - 2) as real) == 1
  {
    DivLess(samples, ch, -1);
    assert (pos + 1.0).Floor == pos.Floor + 1;
  }

  /** A format change and a reset start over at the profile's target, without correction and
      waiting for audio; a change of profile only moves the target. */
  lemma Restarted(s: State, rate: nat, ch: nat, cfg: Config)
    requires rate > 0 && s.srcRate > 0
    ensures var t := AfterSetSource(s, rate, ch);
            (rate != s.srcRate || ch != s.srcCh) ==>
              t.target == FramesFor(rate, s.cfg.target) && !t.primed && t.adj == 0.0 && t.pos == 1.0 && t.q == Silence(ch)
    ensures var t := AfterReset(s);
            t.target == FramesFor(s.srcRate, s.cfg.target) && !t.primed && t.adj == 0.0 && t.q == Silence(s.srcCh)
    ensures var t := AfterSetConfig(s, cfg);
            t.target == FramesFor(s.srcRate, cfg.target) && t.q == s.q && t.pos == s.pos && t.primed == s.primed
  {
  }

  /** Playing starts once the target level, and at least three frames, are buffered, and
      goes on at any level. */
  lemma PlaysWhen(s: State, dstRate: nat)
    requires s.srcRate > 0 && dstRate > 0
    ensures !Idle(s, dstRate) <==> s.primed || (Buffered(s) >= s.target && Buffered(s) >= 3)
  {
  }

  /** An underrun stops playing and raises the target by 10 ms, but not over its ceiling. */
  lemma UnderrunRaises(s: State, now: int)
    requires s.target <= FramesFor(s.srcRate, s.cfg.maxTarget)
    ensures var t, ceiling, more := Underrun(s, now), FramesFor(s.srcRate, s.cfg.maxTarget), FramesFor(s.srcRate, 10_000_000);
            && !t.primed && t.lastUnderrun == Some(now)
            && s.target <= t.target <= ceiling && t.target - s.target <= more
            && (t.target < ceiling ==> t.target - s.target == more)
  {
  }

  /** The target falls by 5 ms, never below the profile's, exactly when the last underrun and
      the last fall are more than ten seconds ago. */
  lemma RelaxFalls(s: State, now: int)
    requires s.target >= FramesFor(s.srcRate, s.cfg.target)
    ensures var t, base, less := Relaxed(s, now), FramesFor(s.srcRate, s.cfg.target), FramesFor(s.srcRate, 5_000_000);
            var quiet := (s.lastUnderrun.None? || now - s.lastUnderrun.value > 10_000_000_000)
                         && (s.lastRelax.None? || now - s.lastRelax.value > 10_000_000_000);
            && base <= t.target <= s.target && s.target - t.target <= less
            && (t.target > base && quiet && s.target > base ==> s.target - t.target == less)
            && (!quiet || s.target == base ==> t == s)
            && (quiet && s.target > base ==> t.lastRelax == Some(now))
            && t == s.(target := t.target, lastRelax := t.lastRelax)
  {
  }

  /** When a render runs dry it underruns; otherwise it stays primed and keeps its last frame
      for the next fade. */
  lemma DryMeansUnderrun(s: State, frames: nat, dstRate: nat, dstCh: nat, now: int)
    requires Healthy(s) && dstCh > 0 && !Idle(s, dstRate) && RenderInside(s, frames, dstRate, dstCh, now)
    ensures s.srcRate > 0 && dstRate > 0
    ensures var t, heard := RenderedState(s, frames, dstRate, dstCh, now),
                            Heard(Corrected(Resized(s, dstCh)), frames, dstRate, dstCh).frames;
            && (t.primed <==> |heard| == frames)
            && (|heard| < frames ==> t.lastUnderrun == Some(now) && t.lastOut == Silence(dstCh))
            && (0 < |heard| == frames ==> t.lastOut == heard[frames - 1] && t.lastUnderrun == s.lastUnderrun)
  {
    NotIdle(s, dstRate);
    hide Play;
    hide Drift;
    hide Trimmable;
  }

  /** Everything a render writes that it does not play fades out from the last frame heard. */
  lemma RestFades(s: State, frames: nat, dstRate: nat, dstCh: nat, i: nat)
    requires Healthy(s) && dstCh > 0 && i < frames
    ensures Idle(s, dstRate) ==>
              Rendered(s, frames, dstRate, dstCh)[i] == ScaleFrame(Resized(s, dstCh).lastOut, FadeGain(i, Fade(dstRate)))
    ensures !Idle(s, dstRate) ==>
              && s.srcRate > 0 && dstRate > 0
              && var heard := Heard(Corrected(Resized(s, dstCh)), frames, dstRate, dstCh).frames;
                 i >= |heard| ==>
                   Rendered(s, frames, dstRate, dstCh)[i]
                   == ScaleFrame(if heard == [] then Resized(s, dstCh).lastOut else heard[|heard| - 1],
                                 FadeGain(i - |heard|, Fade(dstRate)))
  {
    if !Idle(s, dstRate) {
      NotIdle(s, dstRate);
    }
    hide Play;
    hide Drift;
    hide FadeGain;
    hide ScaleFrame;
  }
}
