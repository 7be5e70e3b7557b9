/** Playout: the jitter buffer object and its loops (internal/audio/playout.go), each call
    tied to the state and the sound specified in JitterBuffer. */
module PlayoutBuffer {
  import opened Options
  import opened Arith
  import opened FrameMaps
  import opened Seqs
  import opened Resampler
  import opened Channels
  import opened Playout
  import opened JitterBuffer

  lemma FadeOneMore(last: seq<real>, n: nat, fade: nat)
    requires fade >= 1
    ensures FadeFrames(last, n + 1, fade) == FadeFrames(last, n, fade) + [ScaleFrame(last, FadeGain(n, fade))]
  {
  }

  /** Writes frame, scaled, at index `at`. */
  method WriteScaled(out: array<real>, at: nat, frame: seq<real>, k: real)
    requires at + |frame| <= out.Length
    modifies out
    ensures out[..at] == old(out[..at])
    ensures out[at..at + |frame|] == ScaleFrame(frame, k)
    ensures out[at + |frame|..] == old(out[at + |frame|..])
  {
    var c := 0;
    while c < |frame|
      invariant c <= |frame|
      invariant forall j :: 0 <= j < c ==> out[at + j] == frame[j] * k
      invariant forall j :: 0 <= j < at || at + c <= j < out.Length ==> out[j] == old(out[j])
    {
      out[at + c] := frame[c] * k;
      c := c + 1;
    }
    forall j | 0 <= j < |frame|
      ensures out[at..at + |frame|][j] == ScaleFrame(frame, k)[j]
    {
      assert out[at + j] == frame[j] * k;
    }
  }

  /** The frame at pos, in the device's channel layout. */
  method ReadMapped(q: seq<real>, ch: nat, pos: real, dstCh: nat) returns (frame: seq<real>)
    requires Readable(q, ch, pos) && dstCh > 0
    ensures frame == MapFrame(OutFrame(q, ch, pos), dstCh)
  {
    hide MapFrame;
    hide OutFrame;
    var frameIn := ReadFrame(q, ch, pos);
    frame := MapChannels([], frameIn, ch, dstCh);
    FrameMapOne(Mapper(ch, dstCh), ch, frameIn);
  }

  lemma Joined<T>(a: seq<T>, i: nat, j: nat)
    requires i <= j <= |a|
    ensures a[..i] + a[i..j] == a[..j] && a[i..j] + a[j..] == a[i..]
  {
  }

  class Buffer {
    var cfg: Config
    var srcRate: nat
    var srcCh: nat
    var q: seq<real>
    var pos: real
    var primed: bool
    var gain: real
    var adj: real
    var target: nat
    var lastUnderrun: Option<int>
    var lastRelax: Option<int>
    var lastOut: seq<real>
    var underruns: nat
    var overflows: nat

    ghost function View(): State
      reads this
    {
      State(cfg, srcRate, srcCh, q, pos, primed, gain, adj, target, lastUnderrun, lastRelax, lastOut)
    }

    constructor (cfg: Config)
      ensures View() == Initial(cfg)
    {
      this.cfg := cfg;
      srcRate, srcCh, q, pos, primed := 0, 0, [], 0.0, false;
      gain, adj, target, lastUnderrun, lastRelax, lastOut := 0.0, 0.0, 0, None, None, [];
      underruns, overflows := 0, 0;
    }

    method SetConfig(cfg: Config)
      modifies this
      ensures View() == AfterSetConfig(old(View()), cfg)
    {
      this.cfg := cfg;
      if srcRate > 0 {
        target := FramesFor(srcRate, cfg.target);
      }
    }

    method Reset()
      modifies this
      ensures View() == AfterReset(old(View()))
    {
      q := Silence(srcCh);
      pos := 1.0;
      primed := false;
      adj := 0.0;
      if srcRate > 0 {
        target := FramesFor(srcRate, cfg.target);
      }
    }

    method SetSource(rate: nat, channels: nat)
      modifies this
      ensures View() == AfterSetSource(old(View()), rate, channels)
    {
      if rate == srcRate && channels == srcCh {
        return;
      }
      srcRate, srcCh := rate, channels;
      Reset();
      target := FramesFor(srcRate, cfg.target);
    }

    method Push(samples: seq<real>)
      requires Healthy(View())
      modifies this
      ensures View() == AfterPush(old(View()), samples) && Healthy(View())
      ensures overflows == old(overflows)
                + (if old(srcCh > 0 && |samples| >= srcCh && Overflowing(Appended(View(), samples))) then 1 else 0)
    {
      PushBounds(View(), samples);
      if srcCh == 0 || |samples| < srcCh {
        return;
      }
      AppendedHealthy(View(), samples);
      q := q + samples[..WholePart(|samples|, srcCh)];
      var max := FramesFor(srcRate, cfg.max);
      if max > 0 && Level(|q|, srcCh, pos) > max {
        OverflowHasTarget(View());
        var frames := |q| / srcCh;
        var keep := target + 2;
        var start := frames - keep;
        WholeCut(|q|, srcCh, start);
        q := q[start * srcCh..];
        pos := 1.0;
        gain := 0.0;
        overflows := overflows + 1;
      }
    }

    method StartUnderrun(now: int)
      modifies this`underruns, this`primed, this`lastUnderrun, this`target
      ensures View() == Underrun(old(View()), now) && underruns == old(underruns) + 1
    {
      underruns := underruns + 1;
      primed := false;
      lastUnderrun := Some(now);
      var ceiling := FramesFor(srcRate, cfg.maxTarget);
      if target < ceiling {
        target := target + FramesFor(srcRate, TARGET_STEP);
        if target > ceiling {
          target := ceiling;
        }
      }
    }

    /** Ramps the last sample frame down from frame `from`, then writes silence. */
    method FadeTail(out: array<real>, from: nat, frames: nat, dstRate: nat, dstCh: nat)
      requires |lastOut| == dstCh && from <= frames && from * dstCh <= frames * dstCh <= out.Length
      modifies this`lastOut, out
      ensures View() == Quiet(old(View()))
      ensures out[..frames * dstCh] == old(out[..from * dstCh]) + Flatten(FadeFrames(old(lastOut), frames - from, Fade(dstRate)))
      ensures out[frames * dstCh..] == old(out[frames * dstCh..])
    {
      hide Flatten;
      hide ScaleFrame;
      var fade := Fade(dstRate);
      ghost var head, tail := out[..from * dstCh], out[frames * dstCh..];
      var f := from;
      assert Flatten(FadeFrames(lastOut, 0, fade)) == [] by {
        FlattenEmpty<real>();
      }
      while f < frames
        invariant from <= f <= frames && f * dstCh <= frames * dstCh
        invariant lastOut == old(lastOut)
        invariant out[..f * dstCh] == head + Flatten(FadeFrames(lastOut, f - from, fade))
        invariant out[frames * dstCh..] == tail
      {
        var n := f - from;
        var k := if n < fade then 1.0 - (n + 1) as real / fade as real else 0.0;
        NextFrame(f, frames, dstCh);
        WriteScaled(out, f * dstCh, lastOut, k);
        FadeOneMore(lastOut, n, fade);
        FlattenSnoc(FadeFrames(lastOut, n, fade), ScaleFrame(lastOut, k));
        Joined(out[..], f * dstCh, (f + 1) * dstCh);
        Rebracket(head, Flatten(FadeFrames(lastOut, n, fade)), ScaleFrame(lastOut, k));
        f := f + 1;
      }
      lastOut := Silence(|lastOut|);
    }

    /** One frame of the playing loop. */
    method PlayOne(out: array<real>, at: nat, step: real, gainStep: real, dstCh: nat)
      requires Readable(q, srcCh, pos) && dstCh > 0 && at + dstCh <= out.Length
      modifies this`pos, this`gain, this`lastOut, out
      ensures pos == old(pos) + step && gain == NextGain(old(gain), gainStep)
      ensures lastOut == ScaleFrame(MapFrame(OutFrame(q, srcCh, old(pos)), dstCh), gain)
      ensures out[..at + dstCh] == old(out[..at]) + lastOut
      ensures out[at + dstCh..] == old(out[at + dstCh..])
    {
      hide MapFrame;
      hide OutFrame;
      hide ScaleFrame;
      var frameOut := ReadMapped(q, srcCh, pos, dstCh);
      if gain < 1.0 {
        gain := gain + gainStep;
        if gain > 1.0 {
          gain := 1.0;
        }
      }
      WriteScaled(out, at, frameOut, gain);
      lastOut := ScaleFrame(frameOut, gain);
      Joined(out[..], at, at + dstCh);
      pos := pos + step;
    }

    /** The playing loop: writes frames until all are done or the queue cannot be read. */
    method PlayOut(out: array<real>, frames: nat, step: real, gainStep: real, dstCh: nat) returns (n: nat)
      requires srcCh > 0 && dstCh > 0 && pos >= 1.0 && step > 0.0 && frames * dstCh <= out.Length
      modifies this`pos, this`gain, this`lastOut, out
      ensures var p := old(Play(q, srcCh, dstCh, step, gainStep, pos, gain, frames));
              && n == |p.frames| && n * dstCh <= frames * dstCh
              && View() == Advanced(old(View()), p)
              && out[..n * dstCh] == Flatten(p.frames)
              && out[n * dstCh..] == old(out[n * dstCh..])
    {
      hide Flatten;
      hide ScaleFrame;
      hide OutFrame;
      hide MapFrame;
      var qFrames := |q| / srcCh;
      ghost var pos0, gain0, was := pos, gain, out[..];
      ghost var p := Play(q, srcCh, dstCh, step, gainStep, pos0, gain0, 0);
      FlattenEmpty<real>();
      n := 0;
      while n < frames
        invariant n <= frames && n * dstCh <= frames * dstCh && pos >= 1.0
        invariant p == Play(q, srcCh, dstCh, step, gainStep, pos0, gain0, n) && |p.frames| == n
        invariant p.pos == pos && p.gain == gain && lastOut == LastOf(p.frames, old(lastOut))
        invariant out[..n * dstCh] == Flatten(p.frames)
        invariant out[n * dstCh..] == was[n * dstCh..]
      {
        if pos.Floor + 2 >= qFrames {
          PlayStops(q, srcCh, dstCh, step, gainStep, pos0, gain0, n, frames);
          return;
        }
        NextFrame(n, frames, dstCh);
        PlayOne(out, n * dstCh, step, gainStep, dstCh);
        PlayGoesOn(q, srcCh, dstCh, step, gainStep, pos0, gain0, n, p);
        FlattenSnoc(p.frames, lastOut);
        
        p := Played(p.frames + [lastOut], pos, gain);
        n := n + 1;
      }
    }

    /** Drops consumed frames, keeping one frame of history. */
    method Trim()
      requires Trimmable(View())
      modifies this`q, this`pos
      ensures View() == Trimmed(old(View()))
    {
      var drop := pos.Floor - 1;
      if drop > LAZY_DROP || (drop > 0 && drop * srcCh * 2 > |q|) {
        WholeCut(|q|, srcCh, drop);
        q := q[drop * srcCh..];
        pos := pos - drop as real;
      }
    }

    /** Lowers the target again after ten seconds without an underrun. */
    method Relax(now: int)
      modifies this`target, this`lastRelax
      ensures View() == Relaxed(old(View()), now)
    {
      if target > FramesFor(srcRate, cfg.target) && Since(lastUnderrun, now, RELAX_AFTER) && Since(lastRelax, now, RELAX_AFTER) {
        var lowered := target - FramesFor(srcRate, RELAX_STEP);
        var base := FramesFor(srcRate, cfg.target);
        if lowered < base {
          lowered := base;
        }
        target := lowered;
        lastRelax := Some(now);
      }
    }

    /** Primes the buffer if it must, and nudges the ratio towards the target level. */
    method Correct(level: nat)
      requires srcRate > 0 && level == Buffered(View())
      modifies this`primed, this`gain, this`adj
      ensures View() == Corrected(old(View()))
    {
      if !primed {
        primed := true;
        gain := 0.0;
      }
      var errSeconds := (level as real - target as real) / srcRate as real;
      var want := errSeconds / 2.0;
      if want > MAX_DRIFT {
        want := MAX_DRIFT;
      } else if want < -MAX_DRIFT {
        want := -MAX_DRIFT;
      }
      adj := adj + (want - adj) * 0.05;
    }

    /** Plays, fades out where the queue ran dry: everything before the trim. */
    method PlayAndFade(out: array<real>, frames: nat, dstRate: nat, dstCh: nat, now: int)
      requires Healthy(View()) && srcRate > 0 && srcCh > 0 && |lastOut| == dstCh
      requires dstRate > 0 && dstCh > 0 && frames * dstCh <= out.Length
      modifies this`pos, this`gain, this`lastOut, this`underruns, this`primed, this`lastUnderrun, this`target, out
      ensures View() == Spent(old(View()), frames, dstRate, dstCh, now)
      ensures out[..frames * dstCh] == Flatten(Filled(old(View()), frames, dstRate, dstCh))
      ensures out[frames * dstCh..] == old(out[frames * dstCh..])
    {
      hide Flatten;
      hide Play;
      StepPositive(srcRate, dstRate, adj);
      ghost var p := Heard(View(), frames, dstRate, dstCh);
      ghost var was := out[..];
      FlattenConcat(p.frames, FadeFrames(LastOf(p.frames, lastOut), frames - |p.frames|, Fade(dstRate)));
      var n := PlayOut(out, frames, Step(srcRate, dstRate, adj), GainStep(dstRate), dstCh);
      assert out[frames * dstCh..] == was[frames * dstCh..] by {
        SameRest(was, out[..], n * dstCh, frames * dstCh);
      }
      if n < frames {
        StartUnderrun(now);
        FadeTail(out, n, frames, dstRate, dstCh);
      } else {
        FlattenEmpty<real>();
      }
    }

    /** Fills frames * dstCh samples, always all of them, and nothing else. The trim at the
        end has no clamp, so it must stay inside the queue: PlayoutRatios says when it does. */
    method Render(out: array<real>, frames: nat, dstRate: nat, dstCh: nat, now: int)
      requires Healthy(View()) && dstCh > 0 && RenderInside(View(), frames, dstRate, dstCh, now)
      requires frames * dstCh <= out.Length
      modifies this, out
      ensures View() == RenderedState(old(View()), frames, dstRate, dstCh, now) && Healthy(View())
      ensures out[..frames * dstCh] == Flatten(Rendered(old(View()), frames, dstRate, dstCh))
      ensures out[frames * dstCh..] == old(out[frames * dstCh..])
    {
      hide Flatten;
      hide Filled;
      hide Spent;
      InsideHealthy(View(), frames, dstRate, dstCh, now);
      ghost var s := View();
      if |lastOut| != dstCh {
        lastOut := Silence(dstCh);
      }
      if srcRate == 0 || dstRate == 0 {
        FadeTail(out, 0, frames, dstRate, dstCh);
        return;
      }
      var level := Level(|q|, srcCh, pos);
      if !primed && (level < target || level < 3) {
        FadeTail(out, 0, frames, dstRate, dstCh);
        return;
      }
      CorrectedHealthy(View());
      Correct(level);
      PlayAndFade(out, frames, dstRate, dstCh, now);
      Trim();
      Relax(now);
    }
  }

  lemma SameRest<T>(a: seq<T>, b: seq<T>, i: nat, j: nat)
    requires i <= j <= |a| == |b| && a[i..] == b[i..]
    ensures a[j..] == b[j..]
  {
    assert a[j..] == a[i..][j - i..];
    assert b[j..] == b[i..][j - i..];
  }

  lemma PlayGoesOn(q: seq<real>, ch: nat, dstCh: nat, step: real, gainStep: real, pos: real, gain: real, n: nat, p: Played)
    requires dstCh > 0 && p == Play(q, ch, dstCh, step, gainStep, pos, gain, n) && |p.frames| == n
    requires Readable(q, ch, p.pos)
    ensures Play(q, ch, dstCh, step, gainStep, pos, gain, n + 1)
         == Played(p.frames + [ScaleFrame(MapFrame(OutFrame(q, ch, p.pos), dstCh), NextGain(p.gain, gainStep))],
                   p.pos + step, NextGain(p.gain, gainStep))
  {
  }

  /** Once nothing can be read, asking for more frames changes nothing. */
  lemma {:induction false} PlayStops(q: seq<real>, ch: nat, dstCh: nat, step: real, gainStep: real,
                                     pos: real, gain: real, n: nat, frames: nat)
    requires dstCh > 0 && n <= frames
    requires !Readable(q, ch, Play(q, ch, dstCh, step, gainStep, pos, gain, n).pos)
    ensures Play(q, ch, dstCh, step, gainStep, pos, gain, frames) == Play(q, ch, dstCh, step, gainStep, pos, gain, n)
  {
    if frames > n {
      PlayStops(q, ch, dstCh, step, gainStep, pos, gain, n, frames - 1);
    }
  }

  lemma NextFrame(f: nat, frames: nat, ch: nat)
    requires f < frames
    ensures f * ch + ch == (f + 1) * ch <= frames * ch
  {
    MulLe(f + 1, frames, ch);
  }
}
