/** Which rates Render can follow (internal/audio/playout.go): with the source and device
    rates fixed, exactly when no run of the jitter buffer can make a trim leave the queue. */
module PlayoutRatios {
  import opened Bytes
  import opened Arith
  import opened Resampler
  import opened Playout
  import opened JitterBuffer
  import AudioFormats

  /** n strides. */
  function Mul(n: nat, x: real): real {
    n as real * x
  }

  lemma MulFacts(n: nat, x: real)
    ensures Mul(0, x) == 0.0 && Mul(1, x) == x && Mul(n + 1, x) == Mul(n, x) + x
    ensures x >= 0.0 ==> Mul(n, x) >= 0.0
  {
    assert (n + 1) as real == n as real + 1.0;
  }

  lemma {:induction false} MulSpread(n: nat, x: real)
    ensures Mul(n, 4.0 + x) == (4 * n) as real + Mul(n, x)
  {
    hide Mul;
    MulFacts(0, x);
    MulFacts(0, 4.0 + x);
    if n > 0 {
      MulSpread(n - 1, x);
      MulFacts(n - 1, x);
      MulFacts(n - 1, 4.0 + x);
    }
  }

  lemma {:induction false} MulRises(m: nat, n: nat, x: real)
    requires m <= n && x >= 0.0
    ensures Mul(m, x) <= Mul(n, x)
  {
    hide Mul;
    if m < n {
      MulRises(m, n - 1, x);
      MulFacts(n - 1, x);
    }
  }

  lemma {:induction false} MulDifference(m: nat, n: nat, x: real)
    requires m <= n
    ensures Mul(n - m, x) == Mul(n, x) - Mul(m, x)
  {
    hide Mul;
    MulFacts(0, x);
    if m < n {
      MulDifference(m, n - 1, x);
      MulFacts(n - 1, x);
      MulFacts(n - 1 - m, x);
    }
  }

  lemma {:induction false} MulUnder(n: nat, x: real)
    requires 0.0 <= x < 1.0
    ensures 0.0 <= Mul(n, x) <= n as real
  {
    hide Mul;
    MulFacts(0, x);
    if n > 0 {
      MulUnder(n - 1, x);
      MulFacts(n - 1, x);
    }
  }

  // Runs at fixed rates

  /** The rates of the source and of the device, and the profile the buffer starts with. */
  datatype Rates = Rates(profile: AudioFormats.Profile, src: nat, dst: nat)

  /** Calls a device of this rate and a source of this rate make; the profile may change. */
  predicate Permitted(r: Rates, e: Event) {
    match e
    case SettingConfig(cfg) => exists p :: cfg == ConfigFor(p)
    case SettingSource(rate, _) => rate == r.src
    case Rendering(_, dstRate, dstCh, _) => dstRate == r.dst && dstCh > 0
    case _ => true
  }

  /** The call's trim, if it makes one, stays inside the queue. */
  predicate Inside(s: State, e: Event) {
    e.Rendering? ==> e.dstCh > 0 && RenderInside(s, e.frames, e.dstRate, e.dstCh, e.now)
  }

  function After(s: State, e: Event): State
    requires Healthy(s) && Inside(s, e)
  {
    match e
    case SettingConfig(cfg) => AfterSetConfig(s, cfg)
    case SettingSource(rate, ch) => AfterSetSource(s, rate, ch)
    case Resetting => AfterReset(s)
    case Pushing(samples) => AfterPush(s, samples)
    case Rendering(frames, dstRate, dstCh, now) => RenderedState(s, frames, dstRate, dstCh, now)
  }

  ghost predicate Goes(r: Rates, s: State, e: Event, t: State) {
    Permitted(r, e) && Inside(s, e) && (Healthy(s) ==> t == After(s, e))
  }

  /** A run from a new buffer in which every trim so far has stayed inside. */
  ghost predicate IsRun(r: Rates, states: seq<State>, events: seq<Event>) {
    && |states| == |events| + 1 && states[0] == Initial(ConfigFor(r.profile))
    && forall i :: 0 <= i < |events| ==> Goes(r, states[i], events[i], states[i + 1])
  }

  lemma AfterHealthy(s: State, e: Event)
    requires Healthy(s) && Inside(s, e) && (e.SettingConfig? ==> Ordered(e.cfg))
    ensures Healthy(After(s, e))
  {
    match e
    case Rendering(frames, dstRate, dstCh, now) => InsideHealthy(s, frames, dstRate, dstCh, now);
    case _ => NextHealthy(s, e);
  }

  /** The rate of the source is the fixed one, once there is a source. */
  predicate AtRate(r: Rates, s: State) {
    s.srcRate == 0 || s.srcRate == r.src
  }

  lemma {:induction false} RunHealthy(r: Rates, states: seq<State>, events: seq<Event>, n: nat)
    requires IsRun(r, states, events) && n < |states|
    ensures Healthy(states[n]) && AtRate(r, states[n])
  {
    ProfilesOrdered(r.profile, 0);
    if n > 0 {
      RunHealthy(r, states, events, n - 1);
      var s, e := states[n - 1], events[n - 1];
      assert Goes(r, s, e, states[n]);
      if e.SettingConfig? {
        var p :| e.cfg == ConfigFor(p);
        ProfilesOrdered(p, 0);
      }
      AfterHealthy(s, e);
    }
  }

  lemma RunSnoc(r: Rates, states: seq<State>, events: seq<Event>, e: Event)
    returns (ss: seq<State>, es: seq<Event>)
    requires IsRun(r, states, events) && Permitted(r, e) && Inside(states[|events|], e)
    ensures IsRun(r, ss, es) && Healthy(states[|events|]) && |es| == |events| + 1
    ensures ss[|es|] == After(states[|events|], e)
  {
    RunHealthy(r, states, events, |events|);
    ss, es := states + [After(states[|events|], e)], events + [e];
    forall i | 0 <= i < |es|
      ensures Goes(r, ss[i], es[i], ss[i + 1])
    {
      if i < |events| {
        assert Goes(r, states[i], events[i], states[i + 1]);
      }
    }
  }

  // The rig: one channel, a full enough queue

  function Target(r: Rates): nat {
    FramesFor(r.src, ConfigFor(r.profile).target)
  }

  function Ceiling(r: Rates): nat {
    FramesFor(r.src, ConfigFor(r.profile).max)
  }

  /** A level from which the drift control wants the largest correction. */
  function Low(r: Rates): nat {
    Target(r) + r.src / 100
  }

  lemma Room(r: Rates)
    requires 8000 <= r.src
    ensures Low(r) >= 100 && 3 * Low(r) + 20 <= Ceiling(r) && 500 * (Low(r) - Target(r)) >= 3 * r.src
  {
    match r.profile
    case LowLatency =>
      assert Target(r) == r.src * 20_000_000 / 1_000_000_000 && Ceiling(r) == r.src * 160_000_000 / 1_000_000_000;
    case Balanced =>
      assert Target(r) == r.src * 40_000_000 / 1_000_000_000 && Ceiling(r) == r.src * 300_000_000 / 1_000_000_000;
    case Music =>
      assert Target(r) == r.src * 60_000_000 / 1_000_000_000 && Ceiling(r) == r.src * 400_000_000 / 1_000_000_000;
  }

  function Frac(x: real): real {
    x - x.Floor as real
  }

  /** Level, correction and fraction of the read position. */
  predicate At(r: Rates, s: State, level: nat, adj: real, frac: real) {
    && Healthy(s) && s.cfg == ConfigFor(r.profile) && s.srcRate == r.src && s.srcCh == 1
    && s.target == Target(r) && s.adj == adj
    && |s.q| == level + s.pos.Floor + 1 && Frac(s.pos) == frac
  }

  /** The correction after one more call at a level that wants the largest. */
  function Nudged(adj: real): real {
    adj + (MAX_DRIFT - adj) * 0.05
  }

  function Stride(r: Rates, adj: real): real
    requires r.dst > 0
  {
    Step(r.src, r.dst, adj)
  }

  lemma AtLevel(r: Rates, s: State, level: nat, adj: real, frac: real)
    requires At(r, s, level, adj, frac)
    ensures Buffered(s) == level
  {
    DivUnique(|s.q|, 1, |s.q|);
  }

  lemma LargeError(n: real, s: real)
    requires s > 0.0 && 0.006 * s <= n
    ensures n / s / 2.0 >= 0.003
  {
    var x := n / s;
    assert x * s == n;
    RealLeOfMul(0.006, x, s);
  }

  lemma DriftMost(adj: real, level: nat, target: nat, rate: nat)
    requires rate > 0 && 500 * (level - target) >= 3 * rate
    ensures Drift(adj, level, target, rate) == Nudged(adj)
  {
    LargeError(level as real - target as real, rate as real);
  }

  lemma WantsMost(r: Rates, s: State, level: nat, adj: real, frac: real)
    requires 8000 <= r.src && At(r, s, level, adj, frac) && level >= Low(r)
    ensures !Starving(s) && Corrected(Resized(s, 1)).adj == Nudged(adj)
  {
    AtLevel(r, s, level, adj, frac);
    Room(r);
    assert level >= s.target && 500 * (level - s.target) >= 3 * r.src;
    DriftMost(adj, level, s.target, s.srcRate);
  }

  lemma StridePositive(r: Rates, adj: real)
    requires r.src > 0 && r.dst > 0 && adj > -1.0
    ensures Stride(r, adj) > 0.0
  {
    var s, d := r.src as real, r.dst as real;
    var x := s / d;
    assert x * d == s;
    RealMulPos(x, d);
    RealMulPos(x, 1.0 + adj);
  }

  /** Frame k can be read while its position is within level - 2 of the front. */
  lemma EarlierReadable(q: seq<real>, pos: real, level: nat, stride: real, k: nat, n: nat)
    requires pos >= 1.0 && |q| == level + pos.Floor + 1 && stride > 0.0 && k < n
    requires (Frac(pos) + Mul(n - 1, stride)).Floor + 2 <= level
    ensures Readable(q, 1, pos + Mul(k, stride))
  {
    hide Mul;
    MulRises(k, n - 1, stride);
    MulFacts(k, stride);
    DivUnique(|q|, 1, |q|);
    assert pos + Mul(k, stride) == pos.Floor as real + (Frac(pos) + Mul(k, stride));
    FloorShift(Frac(pos) + Mul(k, stride), pos.Floor);
  }

  predicate ReadsAt(q: seq<real>, pos: real, stride: real, k: nat) {
    Readable(q, 1, pos + Mul(k, stride))
  }

  lemma PlayFull(q: seq<real>, pos: real, level: nat, stride: real, gainStep: real, gain: real, n: nat)
    requires pos >= 1.0 && |q| == level + pos.Floor + 1 && stride > 0.0
    requires 0.0 <= gain <= 1.0 && gainStep > 0.0
    requires n > 0 ==> (Frac(pos) + Mul(n - 1, stride)).Floor + 2 <= level
    ensures var p := Play(q, 1, 1, stride, gainStep, pos, gain, n);
            |p.frames| == n && p.pos == pos + Mul(n, stride)
  {
    hide Play;
    hide Readable;
    forall k: nat | k < n
      ensures ReadsAt(q, pos, stride, k)
    {
      EarlierReadable(q, pos, level, stride, k, n);
    }
    PlayEnds(q, pos, stride, gainStep, gain, n);
  }

  lemma PlayEnds(q: seq<real>, pos: real, stride: real, gainStep: real, gain: real, n: nat)
    requires 0.0 <= gain <= 1.0 && gainStep > 0.0
    ensures var p := Play(q, 1, 1, stride, gainStep, pos, gain, n);
            && |p.frames| <= n && p.pos == pos + Mul(|p.frames|, stride)
            && (|p.frames| == n || !ReadsAt(q, pos, stride, |p.frames|))
  {
    PlayPlaces(q, 1, 1, stride, gainStep, pos, gain, n);
  }

  /** The state after the playing loop of a call that found all its frames. */
  predicate PlayedOn(s: State, u: State, adj: real, pos: real) {
    && u.cfg == s.cfg && u.srcRate == s.srcRate && u.srcCh == s.srcCh && u.q == s.q && u.target == s.target
    && u.adj == adj && u.pos == pos
  }

  lemma HeardAll(c: State, dst: nat, level: nat, stride: real, n: nat)
    requires dst > 0 && c.srcCh == 1 && c.pos >= 1.0 && 0.0 <= c.gain <= 1.0 && |c.q| == level + c.pos.Floor + 1
    requires stride > 0.0 && Step(c.srcRate, dst, c.adj) == stride
    requires n > 0 ==> (Frac(c.pos) + Mul(n - 1, stride)).Floor + 2 <= level
    ensures |Heard(c, n, dst, 1).frames| == n && Heard(c, n, dst, 1).pos == c.pos + Mul(n, stride)
  {
    hide Play;
    hide GainStep;
    hide Step;
    GainStepPositive(dst);
    PlayFull(c.q, c.pos, level, stride, GainStep(dst), c.gain, n);
  }

  lemma CorrectedAt(r: Rates, s: State, level: nat, adj: real, frac: real)
    requires 8000 <= r.src && r.dst > 0 && At(r, s, level, adj, frac) && level >= Low(r)
    ensures !Idle(s, r.dst)
    ensures var c := Corrected(Resized(s, 1));
            && c.cfg == s.cfg && c.srcRate == s.srcRate && c.srcCh == 1 && c.q == s.q && c.target == s.target
            && c.pos == s.pos >= 1.0 && c.adj == Nudged(adj) && 0.0 <= c.gain <= 1.0
            && Step(c.srcRate, r.dst, c.adj) == Stride(r, Nudged(adj))
  {
    hide Drift;
    hide Step;
    hide Starving;
    WantsMost(r, s, level, adj, frac);
  }

  lemma SpentAll(c: State, dst: nat, level: nat, stride: real, n: nat, now: int)
    requires dst > 0 && c.srcCh == 1 && c.pos >= 1.0 && 0.0 <= c.gain <= 1.0 && |c.q| == level + c.pos.Floor + 1
    requires c.srcRate > 0 && stride > 0.0 && Step(c.srcRate, dst, c.adj) == stride
    requires n > 0 ==> (Frac(c.pos) + Mul(n - 1, stride)).Floor + 2 <= level
    ensures PlayedOn(c, Spent(c, n, dst, 1, now), c.adj, c.pos + Mul(n, stride))
  {
    HeardAll(c, dst, level, stride, n);
    hide Heard;
    hide Step;
  }

  /** A call that finds all its frames plays them all. */
  lemma PlaysAll(r: Rates, s: State, level: nat, adj: real, frac: real, n: nat, now: int, stride: real)
    requires 8000 <= r.src && r.dst > 0 && At(r, s, level, adj, frac) && level >= Low(r)
    requires stride == Stride(r, Nudged(adj)) && stride > 0.0
    requires n > 0 ==> (frac + Mul(n - 1, stride)).Floor + 2 <= level
    ensures !Idle(s, r.dst)
    ensures PlayedOn(s, Spent(Corrected(Resized(s, 1)), n, r.dst, 1, now), Nudged(adj), s.pos + Mul(n, stride))
  {
    CorrectedAt(r, s, level, adj, frac);
    hide Corrected;
    hide Resized;
    hide Stride;
    hide Idle;
    hide Low;
    hide Step;
    hide Healthy;
    hide Spent;
    hide Nudged;
    SpentAll(Corrected(Resized(s, 1)), r.dst, level, stride, n, now);
  }

  lemma FloorParts(pos: real, adv: real)
    ensures (pos + adv).Floor == pos.Floor + (Frac(pos) + adv).Floor
    ensures Frac(pos + adv) == Frac(Frac(pos) + adv)
  {
    FloorShift(Frac(pos) + adv, pos.Floor);
    assert pos + adv == (Frac(pos) + adv) + pos.Floor as real;
  }

  /** The trim leaves the queue exactly if the reads go three frames past the level. */
  lemma TrimTest(s: State, u: State, level: nat, adj: real, adv: real)
    requires s.srcCh == 1 && s.pos >= 1.0 && |s.q| == level + s.pos.Floor + 1 && adv >= 0.0
    requires PlayedOn(s, u, adj, s.pos + adv)
    ensures Trimmable(u) <==> (Frac(s.pos) + adv).Floor <= level + 2
  {
    FloorParts(s.pos, adv);
    DivUnique(|s.q|, 1, |s.q|);
  }

  lemma TrimmedAt(u: State)
    requires Trimmable(u) && u.srcCh == 1
    ensures var v := Trimmed(u);
            && |v.q| - v.pos.Floor == |u.q| - u.pos.Floor && Frac(v.pos) == Frac(u.pos)
            && v.cfg == u.cfg && v.srcRate == u.srcRate && v.srcCh == 1 && v.target == u.target && v.adj == u.adj
  {
    var drop := Drop(|u.q|, 1, u.pos);
    WholeCut(|u.q|, 1, drop);
    FloorShift(u.pos, -drop);
  }

  /** A call that stops within the level: the level falls by the frames passed. */
  lemma Steps(r: Rates, s: State, level: nat, adj: real, frac: real, n: nat, now: int, stride: real)
    requires 8000 <= r.src && r.dst > 0 && At(r, s, level, adj, frac) && level >= Low(r)
    requires stride == Stride(r, Nudged(adj)) && stride > 0.0
    requires n > 0 ==> (frac + Mul(n - 1, stride)).Floor + 2 <= level
    requires (frac + Mul(n, stride)).Floor <= level
    ensures RenderInside(s, n, r.dst, 1, now)
    ensures var x := frac + Mul(n, stride);
            x.Floor >= 0 && At(r, RenderedState(s, n, r.dst, 1, now), level - x.Floor, Nudged(adj), Frac(x))
  {
    var adv := Mul(n, stride);
    MulFacts(n, stride);
    PlaysAll(r, s, level, adj, frac, n, now, stride);
    var u := Spent(Corrected(Resized(s, 1)), n, r.dst, 1, now);
    TrimTest(s, u, level, Nudged(adj), adv);
    InsideHealthy(s, n, r.dst, 1, now);
    TrimmedAt(u);
    FloorParts(s.pos, adv);
    StepsEnd(r, s, u, level, adj, frac, adv, now);
  }

  lemma StepsEnd(r: Rates, s: State, u: State, level: nat, adj: real, frac: real, adv: real, now: int)
    requires At(r, s, level, adj, frac) && adv >= 0.0 && (frac + adv).Floor <= level
    requires PlayedOn(s, u, Nudged(adj), s.pos + adv) && Trimmable(u)
    requires Healthy(Relaxed(Trimmed(u), now))
    ensures At(r, Relaxed(Trimmed(u), now), level - (frac + adv).Floor, Nudged(adj), Frac(frac + adv))
  {
    TrimmedAt(u);
    FloorParts(s.pos, adv);
    hide Healthy;
    hide Trimmed;
  }

  /** A call whose last step goes three frames past the level leaves the queue. */
  lemma Overruns(r: Rates, s: State, level: nat, adj: real, frac: real, n: nat, now: int, stride: real)
    requires 8000 <= r.src && r.dst > 0 && At(r, s, level, adj, frac) && level >= Low(r)
    requires stride == Stride(r, Nudged(adj)) && stride > 0.0
    requires n > 0 ==> (frac + Mul(n - 1, stride)).Floor + 2 <= level
    requires (frac + Mul(n, stride)).Floor >= level + 3
    ensures !RenderInside(s, n, r.dst, 1, now)
  {
    var adv := Mul(n, stride);
    MulFacts(n, stride);
    PlaysAll(r, s, level, adj, frac, n, now, stride);
    TrimTest(s, Spent(Corrected(Resized(s, 1)), n, r.dst, 1, now), level, Nudged(adj), adv);
  }

  // Runs of the rig

  /** A run that ends in such a state. */
  ghost predicate Stands(r: Rates, states: seq<State>, events: seq<Event>, level: nat, adj: real, frac: real) {
    IsRun(r, states, events) && At(r, states[|events|], level, adj, frac)
  }

  function Zeros(n: nat): seq<real> {
    seq(n, _ => 0.0)
  }

  lemma PushedAt(r: Rates, s: State, level: nat, adj: real, frac: real, more: nat)
    requires At(r, s, level, adj, frac) && more > 0 && level + more <= Ceiling(r)
    ensures At(r, AfterPush(s, Zeros(more)), level + more, adj, frac)
  {
    PushBounds(s, Zeros(more));
    AppendedHealthy(s, Zeros(more));
    DivUnique(more, 1, more);
    DivUnique(|s.q| + more, 1, |s.q| + more);
    assert Zeros(more)[..more] == Zeros(more);
  }

  lemma PushTo(r: Rates, states: seq<State>, events: seq<Event>, level: nat, adj: real, frac: real, goal: nat)
    returns (ss: seq<State>, es: seq<Event>)
    requires Stands(r, states, events, level, adj, frac) && level <= goal <= Ceiling(r)
    ensures Stands(r, ss, es, goal, adj, frac)
  {
    hide At;
    if goal == level {
      ss, es := states, events;
    } else {
      PushedAt(r, states[|events|], level, adj, frac, goal - level);
      ss, es := RunSnoc(r, states, events, Pushing(Zeros(goal - level)));
    }
  }

  lemma RenderOn(r: Rates, states: seq<State>, events: seq<Event>, level: nat, adj: real, frac: real, n: nat, stride: real)
    returns (ss: seq<State>, es: seq<Event>)
    requires 8000 <= r.src && r.dst > 0 && Stands(r, states, events, level, adj, frac) && level >= Low(r)
    requires stride == Stride(r, Nudged(adj)) && stride > 0.0
    requires n > 0 ==> (frac + Mul(n - 1, stride)).Floor + 2 <= level
    requires (frac + Mul(n, stride)).Floor <= level
    ensures var x := frac + Mul(n, stride);
            x.Floor >= 0 && Stands(r, ss, es, level - x.Floor, Nudged(adj), Frac(x))
  {
    Steps(r, states[|events|], level, adj, frac, n, 0, stride);
    hide At;
    hide RenderInside;
    hide Low;
    hide Stride;
    ss, es := RunSnoc(r, states, events, Rendering(n, r.dst, 1, 0));
  }

  /** A new buffer with one channel, filled to the low level. */
  lemma Rigged(r: Rates) returns (ss: seq<State>, es: seq<Event>)
    requires 8000 <= r.src
    ensures Stands(r, ss, es, Low(r), 0.0, 0.0)
  {
    ss, es := [Initial(ConfigFor(r.profile))], [];
    ss, es := RunSnoc(r, ss, es, SettingSource(r.src, 1));
    var s := ss[|es|];
    assert s.q == Silence(1) && s.pos == 1.0;
    RunHealthy(r, ss, es, |es|);
    FilledAt(r, s);
    ss, es := RunSnoc(r, ss, es, Pushing(Zeros(Low(r) + 1)));
  }

  lemma FilledAt(r: Rates, s: State)
    requires 8000 <= r.src && Healthy(s) && s.cfg == ConfigFor(r.profile) && s.srcRate == r.src && s.srcCh == 1
    requires s.target == Target(r) && s.adj == 0.0 && |s.q| == 1 && s.pos == 1.0
    ensures At(r, AfterPush(s, Zeros(Low(r) + 1)), Low(r), 0.0, 0.0)
  {
    var n := Low(r) + 1;
    Room(r);
    PushBounds(s, Zeros(n));
    AppendedHealthy(s, Zeros(n));
    DivUnique(n, 1, n);
    DivUnique(n + 1, 1, n + 1);
    assert Zeros(n)[..n] == Zeros(n);
  }

  // Where a run lands

  /** Whole part after q strides of x. */
  function Whole(frac: real, x: real, q: nat): int {
    (frac + Mul(q, x)).Floor
  }

  /** A multiple of x that carries a whole number across between a and b. */
  lemma Crossing(frac: real, x: real, a: nat, b: nat) returns (q: nat)
    requires a < b && Whole(frac, x, b) > Whole(frac, x, a)
    ensures a <= q < b && Whole(frac, x, q + 1) > Whole(frac, x, q)
  {
    hide Whole;
    q := a;
    while Whole(frac, x, q + 1) <= Whole(frac, x, q)
      invariant a <= q < b && Whole(frac, x, q) <= Whole(frac, x, a)
      decreases b - q
    {
      q := q + 1;
    }
  }

  /** After q strides the reads stand within the levels allowed, and one stride more goes
      five frames further. */
  ghost predicate Lands(low: nat, ceiling: nat, frac: real, stride: real, q: nat) {
    var n := Whole(frac, stride, q);
    low <= n + 2 <= ceiling && Whole(frac, stride, q + 1) >= n + 5
  }

  lemma LongStride(low: nat, ceiling: nat, frac: real, stride: real) returns (q: nat)
    requires 0.0 <= frac < 1.0 && 5.0 <= stride && low >= 100 && 3 * low + 20 <= ceiling
    requires stride <= 1.01 * (low + 3) as real
    ensures Lands(low, ceiling, frac, stride, q)
  {
    hide Mul;
    q := 0;
    MulFacts(0, stride);
    while frac + Mul(q, stride) < low as real
      invariant frac + Mul(q, stride) < low as real + stride
      decreases low as real - Mul(q, stride)
    {
      MulFacts(q, stride);
      q := q + 1;
    }
    MulFacts(q, stride);
  }

  function First(low: nat): nat {
    (low + 3) / 4
  }

  function Last(ceiling: nat): nat
    requires ceiling >= 3
  {
    (ceiling - 3) / 5
  }

  lemma Split(frac: real, x: real, q: nat)
    requires 0.0 <= frac < 1.0 && 0.0 < x < 1.0
    ensures Whole(frac, 4.0 + x, q) == 4 * q + Whole(frac, x, q)
    ensures 0 <= Whole(frac, x, q) <= q
  {
    hide Mul;
    MulSpread(q, x);
    MulUnder(q, x);
    FloorShift(frac + Mul(q, x), 4 * q);
  }

  lemma Carries(frac: real, ax: real, bx: real)
    requires 0.0 <= frac && 0.0 <= ax && frac + bx >= 1.0
    requires frac + ax < 1.0 || bx - ax >= 1.0
    ensures (frac + bx).Floor > (frac + ax).Floor
  {
  }

  lemma ShortStride(low: nat, ceiling: nat, frac: real, x: real) returns (q: nat)
    requires 0.0 <= frac < 1.0 && 0.0 < x < 1.0 && low >= 100 && 3 * low + 20 <= ceiling
    requires frac + Mul(Last(ceiling) + 1, x) >= 1.0
    requires frac + Mul(First(low), x) < 1.0 || Mul(Last(ceiling) + 1 - First(low), x) >= 1.0
    ensures Lands(low, ceiling, frac, 4.0 + x, q)
  {
    hide Mul;
    var a, b := First(low), Last(ceiling) + 1;
    MulDifference(a, b, x);
    MulUnder(a, x);
    Carries(frac, Mul(a, x), Mul(b, x));
    q := Crossing(frac, x, a, b);
    Split(frac, x, q);
    Split(frac, x, q + 1);
  }

  // The failing run

  function Excess(r: Rates, adj: real): real
    requires r.dst > 0
  {
    Stride(r, adj) - 4.0
  }

  /** What is left of the excess when the correction is at its largest. */
  function Most(r: Rates): real
    requires r.dst > 0
  {
    Excess(r, MAX_DRIFT)
  }

  lemma MostPositive(r: Rates)
    requires r.dst > 0
    ensures Most(r) > 0.0 <==> !RatioOk(r.src, r.dst)
  {
    RatioTimes(r.src as real, r.dst as real, 1.0 + MAX_DRIFT, 4.0);
  }

  predicate Late(r: Rates, adj: real)
    requires r.dst > 0
  {
    0.0 <= adj <= MAX_DRIFT && Excess(r, adj) * 2.0 >= Most(r)
  }

  lemma StrideRises(r: Rates, a: real, b: real)
    requires r.src > 0 && r.dst > 0 && a <= b
    ensures Stride(r, a) <= Stride(r, b)
  {
    var x := r.src as real / r.dst as real;
    StridePositive(r, 0.0);
    RealMulLe(1.0 + a, 1.0 + b, x);
    Commute(r, a);
    Commute(r, b);
  }

  lemma Commute(r: Rates, adj: real)
    requires r.dst > 0
    ensures Stride(r, adj) == (1.0 + adj) * (r.src as real / r.dst as real)
  {
  }

  /** Once half of the largest excess is there, it stays, and never grows beyond it. */
  lemma LateStays(r: Rates, adj: real)
    requires r.src > 0 && r.dst > 0 && Late(r, adj)
    ensures Late(r, Nudged(adj)) && Excess(r, adj) <= Excess(r, Nudged(adj)) <= Most(r)
  {
    StrideRises(r, adj, Nudged(adj));
    StrideRises(r, Nudged(adj), MAX_DRIFT);
    hide Stride;
  }

  lemma Nudge(r: Rates, states: seq<State>, events: seq<Event>, adj: real) returns (ss: seq<State>, es: seq<Event>)
    requires 8000 <= r.src && r.dst > 0 && Stands(r, states, events, Low(r), adj, 0.0) && 0.0 <= adj <= MAX_DRIFT
    ensures Stands(r, ss, es, Low(r), Nudged(adj), 0.0)
  {
    StridePositive(r, Nudged(adj));
    ss, es := RenderOn(r, states, events, Low(r), adj, 0.0, 0, Stride(r, Nudged(adj)));
  }

  function Times(a: real, b: real): real {
    a * b
  }

  /** Calls for no frames at the low level bring the correction as close to its largest
      value as one likes. */
  lemma Settle(r: Rates, near: real) returns (ss: seq<State>, es: seq<Event>, adj: real)
    requires 8000 <= r.src && r.dst > 0 && near > 0.0
    ensures Stands(r, ss, es, Low(r), adj, 0.0) && 0.0 <= adj <= MAX_DRIFT && MAX_DRIFT - adj <= near
  {
    hide Times;
    hide Stands;
    hide Low;
    ss, es := Rigged(r);
    adj := 0.0;
    while MAX_DRIFT - adj > near
      invariant Stands(r, ss, es, Low(r), adj, 0.0) && 0.0 <= adj <= MAX_DRIFT
      decreases Times(20.0 / near, MAX_DRIFT - adj)
    {
      Shrinks(20.0 / near, MAX_DRIFT - adj, near);
      assert MAX_DRIFT - Nudged(adj) == 0.95 * (MAX_DRIFT - adj);
      ss, es := Nudge(r, ss, es, adj);
      adj := Nudged(adj);
    }
  }

  lemma Shrinks(k: real, gap: real, near: real)
    requires gap > near > 0.0 && k == 20.0 / near
    ensures 0.0 <= Times(k, 0.95 * gap) <= Times(k, gap) - 1.0
  {
    assert k * near == 20.0;
    RealMulPos(k, near);
    Rises(k, near, gap);
    Shrunk(k, gap);
  }

  lemma Shrunk(k: real, gap: real)
    ensures k * (0.95 * gap) == 0.95 * (k * gap)
  {
  }

  lemma Rises(x: real, a: real, b: real)
    requires x > 0.0 && a <= b
    ensures x * a <= x * b
  {
    RealMulLe(a, b, x);
  }

  lemma SettleLate(r: Rates) returns (ss: seq<State>, es: seq<Event>, adj: real)
    requires 8000 <= r.src && r.dst > 0 && !RatioOk(r.src, r.dst)
    ensures Stands(r, ss, es, Low(r), adj, 0.0) && Late(r, adj)
  {
    MostPositive(r);
    var x := r.src as real / r.dst as real;
    StridePositive(r, 0.0);
    var near := Most(r) / (2.0 * x);
    assert near * (2.0 * x) == Most(r);
    RealMulPos(near, 2.0 * x);
    ss, es, adj := Settle(r, near);
    RealMulLe(MAX_DRIFT - adj, near, 2.0 * x);
    assert Most(r) - Excess(r, adj) == (MAX_DRIFT - adj) * x;
  }

  /** The excess of the next call's stride over four frames. */
  function Next(r: Rates, adj: real): real
    requires r.dst > 0
  {
    Excess(r, Nudged(adj))
  }

  /** A call for one frame, then as many samples as it consumed: the fraction grows by the
      excess. */
  lemma TuneStep(r: Rates, states: seq<State>, events: seq<Event>, adj: real, frac: real)
    returns (ss: seq<State>, es: seq<Event>)
    requires 8000 <= r.src && r.dst > 0 && Stands(r, states, events, Low(r), adj, frac)
    requires 0.0 <= frac && 0.0 < Next(r, adj) && frac + Next(r, adj) < 1.0
    ensures Stands(r, ss, es, Low(r), Nudged(adj), frac + Next(r, adj))
  {
    Room(r);
    var stride := Stride(r, Nudged(adj));
    hide Stride;
    hide At;
    MulFacts(0, stride);
    hide Mul;
    assert frac + stride == frac + Next(r, adj) + 4.0;
    FloorShift(frac + Next(r, adj), 4);
    ss, es := RenderOn(r, states, events, Low(r), adj, frac, 1, stride);
    ss, es := PushTo(r, ss, es, Low(r) - 4, Nudged(adj), frac + Next(r, adj), Low(r));
  }

  lemma MulDouble(n: nat, x: real, y: real)
    requires 0.0 <= y <= 2.0 * x
    ensures Mul(n, y) <= Mul(2 * n, x)
  {
    if n > 0 {
      Rises(n as real, y, 2.0 * x);
    }
    assert (2 * n) as real == 2.0 * n as real;
  }

  /** Either the strides are five frames or more, or a whole number is carried across
      within the reads that the levels allow. */
  ghost predicate Tuned(r: Rates, frac: real, x: real)
    requires Ceiling(r) >= 3
  {
    x < 1.0 ==>
      || frac + Mul(First(Low(r)), x) < 1.0
      || (Last(Ceiling(r)) + 1 >= First(Low(r)) && Mul(Last(Ceiling(r)) + 1 - First(Low(r)), x) >= 1.0)
  }

  lemma TunedAtStart(r: Rates, x: real)
    requires 8000 <= r.src && x > 0.0 && Ceiling(r) >= 3
    ensures Tuned(r, 0.0, x)
  {
    Room(r);
    var a, b := First(Low(r)), Last(Ceiling(r)) + 1;
    assert 2 * a <= b;
    MulRises(a, b - a, x);
  }

  lemma TunedAfter(r: Rates, frac: real, x: real, y: real)
    requires 8000 <= r.src && 0.0 < x && 0.0 < y <= 2.0 * x && Ceiling(r) >= 3
    requires frac + Mul(Last(Ceiling(r)) + 1, x) < 1.0
    ensures Tuned(r, frac + x, y) && frac + x < 1.0
  {
    Room(r);
    var a, b := First(Low(r)), Last(Ceiling(r));
    assert 2 * a <= b;
    hide Mul;
    MulDouble(a, x, y);
    MulRises(2 * a, b, x);
    MulFacts(b, x);
  }

  lemma TuneEnds(k: real, most: real, frac: real, x: real)
    requires most > 0.0 && k == 2.0 / most && 2.0 * x >= most && frac + x < 1.0
    ensures 0.0 <= Times(k, 1.0 - (frac + x)) <= Times(k, 1.0 - frac) - 1.0
  {
    assert k * most == 2.0;
    RealMulPos(k, most);
    Rises(k, most, 2.0 * x);
    RealMulPos(1.0 - (frac + x), k);
    assert k * (1.0 - (frac + x)) == k * (1.0 - frac) - k * x;
  }

  lemma Tune(r: Rates) returns (ss: seq<State>, es: seq<Event>, adj: real, frac: real)
    requires 8000 <= r.src && r.dst > 0 && !RatioOk(r.src, r.dst)
    ensures Stands(r, ss, es, Low(r), adj, frac) && 0.0 <= frac < 1.0 && Next(r, adj) > 0.0 && Ceiling(r) >= 3
    ensures Tuned(r, frac, Next(r, adj)) && 0.0 <= adj <= MAX_DRIFT
    ensures Next(r, adj) >= 1.0 || frac + Mul(Last(Ceiling(r)) + 1, Next(r, adj)) >= 1.0
  {
    Room(r);
    MostPositive(r);
    ss, es, adj := SettleLate(r);
    hide Times;
    hide Stands;
    hide Mul;
    hide Stride;
    hide Low;
    hide Ceiling;
    hide Tuned;
    hide RatioOk;
    frac := 0.0;
    LateStays(r, adj);
    TunedAtStart(r, Next(r, adj));
    while Next(r, adj) < 1.0 && frac + Mul(Last(Ceiling(r)) + 1, Next(r, adj)) < 1.0
      invariant Stands(r, ss, es, Low(r), adj, frac) && Late(r, adj) && 0.0 <= frac < 1.0
      invariant Tuned(r, frac, Next(r, adj)) && Next(r, adj) > 0.0 && Late(r, Nudged(adj))
      decreases Times(2.0 / Most(r), 1.0 - frac)
    {
      var x := Next(r, adj);
      LateStays(r, Nudged(adj));
      TunedAfter(r, frac, x, Next(r, Nudged(adj)));
      TuneEnds(2.0 / Most(r), Most(r), frac, x);
      ss, es := TuneStep(r, ss, es, adj, frac);
      adj, frac := Nudged(adj), frac + x;
    }
  }

  /** With rates outside the bound, every profile has a run whose last call leaves the
      queue, although no call before it did. */
  lemma FailingRun(r: Rates) returns (ss: seq<State>, es: seq<Event>, frames: nat)
    requires 8000 <= r.src && r.dst > 0 && !RatioOk(r.src, r.dst)
    ensures IsRun(r, ss, es) && !RenderInside(ss[|es|], frames, r.dst, 1, 0)
  {
    Room(r);
    var first := Stride(r, Nudged(0.0));
    StridePositive(r, Nudged(0.0));
    if first >= (Low(r) + 3) as real {
      ss, es := Rigged(r);
      frames := 1;
      MulFacts(0, first);
      Overruns(r, ss[|es|], Low(r), 0.0, 0.0, 1, 0, first);
    } else {
      ss, es, frames := TunedRun(r);
    }
  }

  lemma NotTooLong(r: Rates, adj: real)
    requires r.src > 0 && r.dst > 0 && 0.0 <= adj <= MAX_DRIFT && Stride(r, Nudged(0.0)) < (Low(r) + 3) as real
    ensures Stride(r, Nudged(adj)) <= 1.01 * (Low(r) + 3) as real
  {
    StrideRises(r, Nudged(adj), MAX_DRIFT);
    Commute(r, MAX_DRIFT);
    Commute(r, Nudged(0.0));
    StridePositive(r, 0.0);
  }

  lemma Landing(r: Rates, adj: real, frac: real) returns (q: nat)
    requires 8000 <= r.src && r.dst > 0 && 0.0 <= frac < 1.0 && Next(r, adj) > 0.0 && 0.0 <= adj <= MAX_DRIFT
    requires Stride(r, Nudged(0.0)) < (Low(r) + 3) as real && Ceiling(r) >= 3
    requires Tuned(r, frac, Next(r, adj))
    requires Next(r, adj) >= 1.0 || frac + Mul(Last(Ceiling(r)) + 1, Next(r, adj)) >= 1.0
    ensures Lands(Low(r), Ceiling(r), frac, Stride(r, Nudged(adj)), q)
  {
    Room(r);
    NotTooLong(r, adj);
    hide Stride;
    hide Mul;
    if Next(r, adj) >= 1.0 {
      q := LongStride(Low(r), Ceiling(r), frac, Stride(r, Nudged(adj)));
    } else {
      q := ShortStride(Low(r), Ceiling(r), frac, Next(r, adj));
      assert 4.0 + Next(r, adj) == Stride(r, Nudged(adj));
    }
  }

  lemma TunedRun(r: Rates) returns (ss: seq<State>, es: seq<Event>, frames: nat)
    requires 8000 <= r.src && r.dst > 0 && !RatioOk(r.src, r.dst)
    requires Stride(r, Nudged(0.0)) < (Low(r) + 3) as real
    ensures IsRun(r, ss, es) && !RenderInside(ss[|es|], frames, r.dst, 1, 0)
  {
    var adj, frac;
    ss, es, adj, frac := Tune(r);
    var q := Landing(r, adj, frac);
    var stride := Stride(r, Nudged(adj));
    hide Stride;
    hide RatioOk;
    hide RenderInside;
    hide Mul;
    hide At;
    var level := Whole(frac, stride, q) + 2;
    ss, es := PushTo(r, ss, es, Low(r), adj, frac, level);
    frames := q + 1;
    Overruns(r, ss[|es|], level, adj, frac, frames, 0, stride);
  }

  /** Exactly which rates are safe, for every profile: no run at these rates makes a trim
      leave the queue if and only if the ratio, adjusted upwards by the largest drift
      correction, is at most four. */
  lemma SafeRates(r: Rates)
    requires 8000 <= r.src && r.dst > 0
    ensures RatioOk(r.src, r.dst) <==>
            forall states: seq<State>, events: seq<Event>, frames: nat, dstCh: nat, now: int ::
              IsRun(r, states, events) && dstCh > 0 ==> RenderInside(states[|events|], frames, r.dst, dstCh, now)
  {
    if RatioOk(r.src, r.dst) {
      forall states: seq<State>, events: seq<Event>, frames: nat, dstCh: nat, now: int
        | IsRun(r, states, events) && dstCh > 0
        ensures RenderInside(states[|events|], frames, r.dst, dstCh, now)
      {
        RunHealthy(r, states, events, |events|);
        var s: State := states[|events|];
        if s.srcRate == r.src {
          RatioKeepsInside(s, frames, r.dst, dstCh, now);
        }
      }
    } else {
      var states, events, frames := FailingRun(r);
      assert !RenderInside(states[|events|], frames, r.dst, 1, 0);
    }
  }
}
