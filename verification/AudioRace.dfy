/** The finer interleaving of one audio stream (internal/app/app_audio_runtime.go): the
    capture thread and the threads that change or repeat the transport each enqueue, frame
    by frame, what their own call of the sender returned. */
module AudioRace {
  import opened Bytes
  import opened Options
  import opened Frames
  import opened Pcm
  import opened AudioFormats
  import opened AudioLane
  import opened AudioSession

  /** `pend[tid]` is what thread tid still has to enqueue; thread 0 captures. `ideal` is
      what the receiver would be if no decoder had ever been refused. */
  datatype Race = Race(
    out: Out,
    dev: Option<Spec>,
    pend: seq<seq<Item>>,
    lane: seq<Item>,
    wire: seq<Item>,
    inq: seq<Item>,
    receiver: In,
    ideal: In)

  datatype Act =
    | Configures(dev: Spec, opus: bool)      // OnCaptureFormat
    | Processes(payloads: seq<seq<Byte>>)    // OnCaptureData
    | Reconfigures(tid: nat, opus: bool)     // Reconfigure, or Reannounce with the same transport
    | Resets
    | Pushes(tid: nat)                       // one frame of a thread's list enters the lane
    | OthersPush(item: Item)                 // a frame of the other stream does
    | Writes
    | Arrives(full: bool)
    | Receives(decoderOk: bool)

  function News(k: Kind, m: Made): seq<Item>
    requires ValidMade(m)
  {
    [TransportItem(k, m), FormatItem(k, m)]
  }

  ghost predicate Able(k: Kind, s: Race, a: Act) {
    match a
    case Configures(dev, _) => s.pend != [] && s.pend[0] == [] && ValidSpec(dev)
    case Processes(_) => s.pend != [] && s.pend[0] == [] && s.out.Live?
    case Reconfigures(tid, _) => 0 < tid < |s.pend| && s.pend[tid] == [] && s.dev.Some? && ValidSpec(s.dev.value)
    case Resets => true
    case Pushes(tid) => tid < |s.pend| && s.pend[tid] != []
    case OthersPush(x) => x.kind != k
    case Writes => s.lane != []
    case Arrives(_) => s.wire != []
    case Receives(_) => s.inq != []
  }

  function Seen(k: Kind, r: In, x: Item, decoderOk: bool): In {
    if x.kind == k then Handle(k, r, x, decoderOk) else r
  }

  ghost function Then(k: Kind, s: Race, a: Act): Race
    requires Able(k, s, a)
  {
    match a
    case Configures(dev, opus) =>
      var m := Choose(k, dev, opus);
      ChoiceIsValid(k, dev, opus);
      s.(out := Live(m), dev := Some(dev), pend := s.pend[0 := News(k, m)])
    case Processes(payloads) => s.(pend := s.pend[0 := DataItems(k, s.out.made, payloads)])
    case Reconfigures(tid, opus) =>
      var m := Choose(k, s.dev.value, opus);
      ChoiceIsValid(k, s.dev.value, opus);
      s.(out := Live(m), pend := s.pend[tid := News(k, m)])
    case Resets => s.(out := Unconfigured, dev := None)
    case Pushes(tid) =>
      s.(lane := AfterPush(IsDataItem(), s.lane, s.pend[tid][0]), pend := s.pend[tid := s.pend[tid][1..]])
    case OthersPush(x) => s.(lane := AfterPush(IsDataItem(), s.lane, x))
    case Writes => s.(wire := s.wire + [s.lane[0]], lane := s.lane[1..])
    case Arrives(full) =>
      var x := s.wire[0];
      s.(wire := s.wire[1..], inq := if full && IsDataItem()(x) then s.inq else s.inq + [x])
    case Receives(decoderOk) =>
      var x := s.inq[0];
      s.(inq := s.inq[1..], receiver := Seen(k, s.receiver, x, decoderOk), ideal := Seen(k, s.ideal, x, true))
  }

  /** A new session: nothing announced, nothing under way. */
  predicate Start(s: Race) {
    && s.out == Unconfigured && s.dev == None && s.lane == [] && s.wire == [] && s.inq == []
    && (forall i :: 0 <= i < |s.pend| ==> s.pend[i] == [])
    && s.receiver == IN_START && s.ideal == IN_START
  }

  ghost predicate Goes(k: Kind, s: Race, a: Act, t: Race) {
    Able(k, s, a) && t == Then(k, s, a)
  }

  ghost predicate Runs(k: Kind, states: seq<Race>, acts: seq<Act>) {
    && |states| == |acts| + 1 && Start(states[0])
    && forall i :: 0 <= i < |acts| ==> Goes(k, states[i], acts[i], states[i + 1])
  }

  // What is on its way

  function Flow(s: Race): seq<Item> {
    s.inq + s.wire + s.lane
  }

  /** The ideal receiver after these frames. */
  function Heard(k: Kind, r: In, xs: seq<Item>): In {
    if xs == [] then r else Seen(k, Heard(k, r, xs[..|xs| - 1]), xs[|xs| - 1], true)
  }

  /** What the frames pushed so far have told an ideal receiver. */
  function Announced(k: Kind, s: Race): In {
    Heard(k, s.ideal, Flow(s))
  }

  /** A data frame that this receiver decodes, if at all, as it was made. */
  ghost predicate Right(k: Kind, r: In, x: Item) {
    x.kind == k && x.frame.kind == DataMsg(k) ==>
      InOk(r) && forall packetOk :: PlayedAsMade(OnData(r, x.frame.payload, packetOk), x.made)
  }

  ghost predicate AllRight(k: Kind, r: In, xs: seq<Item>) {
    xs == [] || (AllRight(k, r, xs[..|xs| - 1]) && Right(k, Heard(k, r, xs[..|xs| - 1]), xs[|xs| - 1]))
  }

  /** Careful: what this thread is about to push agrees with what has been announced. */
  ghost predicate Careful(k: Kind, s: Race, tid: nat) {
    tid < |s.pend| && s.pend[tid] != [] ==> Right(k, Announced(k, s), s.pend[tid][0])
  }

  lemma HeardSnoc(k: Kind, r: In, xs: seq<Item>, x: Item)
    ensures Heard(k, r, xs + [x]) == Seen(k, Heard(k, r, xs), x, true)
    ensures AllRight(k, r, xs + [x]) <==> AllRight(k, r, xs) && Right(k, Heard(k, r, xs), x)
  {
    assert (xs + [x])[..|xs|] == xs;
  }

  lemma {:induction false} HeardHead(k: Kind, r: In, x: Item, xs: seq<Item>)
    ensures Heard(k, r, [x] + xs) == Heard(k, Seen(k, r, x, true), xs)
    ensures AllRight(k, r, [x] + xs) <==> Right(k, r, x) && AllRight(k, Seen(k, r, x, true), xs)
  {
    if xs == [] {
      assert [x] + xs == [] + [x];
      HeardSnoc(k, r, [], x);
    } else {
      hide Right;
      hide Seen;
      var n := |xs| - 1;
      HeardHead(k, r, x, xs[..n]);
      assert [x] + xs == ([x] + xs[..n]) + [xs[n]];
      HeardSnoc(k, r, [x] + xs[..n], xs[n]);
      assert xs == xs[..n] + [xs[n]];
    }
  }

  /** Losing a data frame changes nothing for the others. */
  lemma {:induction false} HeardWithout(k: Kind, r: In, a: seq<Item>, x: Item, b: seq<Item>)
    requires IsDataItem()(x)
    ensures Heard(k, r, (a + [x]) + b) == Heard(k, r, a + b)
    ensures AllRight(k, r, (a + [x]) + b) ==> AllRight(k, r, a + b)
  {
    if b == [] {
      assert (a + [x]) + b == a + [x] && a + b == a;
      HeardSnoc(k, r, a, x);
    } else {
      hide Right;
      hide Seen;
      hide Heard;
      hide AllRight;
      var n := |b| - 1;
      HeardWithout(k, r, a, x, b[..n]);
      assert b == b[..n] + [b[n]];
      assert (a + [x]) + b == ((a + [x]) + b[..n]) + [b[n]] && a + b == (a + b[..n]) + [b[n]];
      HeardSnoc(k, r, (a + [x]) + b[..n], b[n]);
      HeardSnoc(k, r, a + b[..n], b[n]);
    }
  }

  // One push

  lemma PushCut(before: seq<Item>, lane: seq<Item>, f: Item, i: nat)
    requires i < |lane|
    ensures before + lane == ((before + lane[..i]) + [lane[i]]) + lane[i + 1..]
    ensures before + (lane[..i] + lane[i + 1..] + [f]) == ((before + lane[..i]) + lane[i + 1..]) + [f]
  {
  }

  /** A push in front of which nothing is misread, and whose frame is not, leaves it so. */
  lemma PushFlow(k: Kind, r: In, before: seq<Item>, lane: seq<Item>, f: Item)
    ensures Heard(k, r, before + AfterPush(IsDataItem(), lane, f)) == Seen(k, Heard(k, r, before + lane), f, true)
    ensures AllRight(k, r, before + lane) && Right(k, Heard(k, r, before + lane), f)
            ==> AllRight(k, r, before + AfterPush(IsDataItem(), lane, f))
  {
    hide Right;
    hide Heard;
    hide AllRight;
    var i := FirstData(IsDataItem(), lane);
    HeardSnoc(k, r, before + lane, f);
    if |lane| < AUDIO_CAP || (i == |lane| && !IsDataItem()(f)) {
      assert before + (lane + [f]) == (before + lane) + [f];
    } else if i < |lane| {
      PushCut(before, lane, f, i);
      HeardWithout(k, r, before + lane[..i], lane[i], lane[i + 1..]);
      HeardSnoc(k, r, (before + lane[..i]) + lane[i + 1..], f);
    }
  }

  // The invariant

  /** The receiver is the ideal one, or plays nothing. */
  predicate Below(r: In, ideal: In) {
    r.mode == ideal.mode && (r.ready ==> r == ideal)
  }

  ghost predicate Safe(k: Kind, s: Race) {
    AllRight(k, s.ideal, Flow(s)) && Below(s.receiver, s.ideal) && InOk(s.receiver) && InOk(s.ideal)
  }

  lemma SeenBelow(k: Kind, r: In, ideal: In, x: Item, decoderOk: bool)
    requires Below(r, ideal) && InOk(r) && InOk(ideal)
    ensures Below(Seen(k, r, x, decoderOk), Seen(k, ideal, x, true))
    ensures InOk(Seen(k, r, x, decoderOk)) && InOk(Seen(k, ideal, x, true))
  {
  }

  lemma FlowMoves(q: seq<Item>, w: seq<Item>, l: seq<Item>)
    ensures l != [] ==> q + w + l == q + (w + [l[0]]) + l[1..]
    ensures w != [] ==> q + w + l == (q + [w[0]]) + w[1..] + l && q + w + l == (q + [w[0]]) + (w[1..] + l)
    ensures w != [] ==> q + w[1..] + l == q + (w[1..] + l)
    ensures q != [] ==> q + w + l == [q[0]] + (q[1..] + w + l)
  {
  }

  ghost predicate Heeded(k: Kind, s: Race, a: Act) {
    a.Pushes? ==> Careful(k, s, a.tid)
  }

  lemma StepSafe(k: Kind, s: Race, a: Act)
    requires Safe(k, s) && Able(k, s, a) && Heeded(k, s, a)
    ensures Safe(k, Then(k, s, a))
  {
    hide Right;
    hide Heard;
    hide AllRight;
    hide AfterPush;
    hide InOk;
    FlowMoves(s.inq, s.wire, s.lane);
    match a
    case Pushes(tid) => PushFlow(k, s.ideal, s.inq + s.wire, s.lane, s.pend[tid][0]);
    case OthersPush(x) =>
      OthersRight(k, Announced(k, s), x);
      PushFlow(k, s.ideal, s.inq + s.wire, s.lane, x);
    case Arrives(full) => HeardWithoutFirst(k, s, full);
    case Receives(decoderOk) =>
      HeardHead(k, s.ideal, s.inq[0], s.inq[1..] + s.wire + s.lane);
      SeenBelow(k, s.receiver, s.ideal, s.inq[0], decoderOk);
    case _ =>
  }

  lemma OthersRight(k: Kind, r: In, x: Item)
    requires x.kind != k
    ensures Right(k, r, x)
  {
  }

  lemma HeardWithoutFirst(k: Kind, s: Race, full: bool)
    requires AllRight(k, s.ideal, Flow(s)) && s.wire != []
    ensures AllRight(k, s.ideal, Flow(Then(k, s, Arrives(full))))
  {
    hide Right;
    hide Heard;
    hide AllRight;
    FlowMoves(s.inq, s.wire, s.lane);
    if IsDataItem()(s.wire[0]) {
      HeardWithout(k, s.ideal, s.inq, s.wire[0], s.wire[1..] + s.lane);
    }
  }

  lemma {:induction false} RunSafe(k: Kind, states: seq<Race>, acts: seq<Act>, n: nat)
    requires Runs(k, states, acts) && n < |states|
    requires forall i :: 0 <= i < n ==> Heeded(k, states[i], acts[i])
    ensures Safe(k, states[n])
  {
    if n > 0 {
      RunSafe(k, states, acts, n - 1);
      assert Goes(k, states[n - 1], acts[n - 1], states[n]);
      StepSafe(k, states[n - 1], acts[n - 1]);
    }
  }

  /** The receiver is about to decode a data frame of this stream otherwise than it was made. */
  ghost predicate Misreads(k: Kind, s: Race) {
    && s.inq != [] && s.inq[0].kind == k && s.inq[0].frame.kind == DataMsg(k) && InOk(s.receiver)
    && exists packetOk :: !PlayedAsMade(OnData(s.receiver, s.inq[0].frame.payload, packetOk), s.inq[0].made)
  }

  lemma {:induction false} FirstRight(k: Kind, r: In, xs: seq<Item>)
    requires xs != [] && AllRight(k, r, xs)
    ensures Right(k, r, xs[0])
  {
    assert xs == [xs[0]] + xs[1..];
    HeardHead(k, r, xs[0], xs[1..]);
  }

  lemma BelowRight(k: Kind, s: Race)
    requires Below(s.receiver, s.ideal) && s.inq != [] && Right(k, s.ideal, s.inq[0])
    ensures !Misreads(k, s)
  {
  }

  /** Enough: if every push agrees with what the lane has been told by then, no frame is
      ever misread, however the threads interleave and whatever is dropped. */
  lemma CarefulRunsAgree(k: Kind, states: seq<Race>, acts: seq<Act>, n: nat)
    requires Runs(k, states, acts) && n < |states|
    requires forall i :: 0 <= i < n ==> Heeded(k, states[i], acts[i])
    ensures !Misreads(k, states[n])
  {
    RunSafe(k, states, acts, n);
    var s := states[n];
    if s.inq != [] {
      FlowMoves(s.inq, s.wire, s.lane);
      FirstRight(k, s.ideal, Flow(s));
      BelowRight(k, s);
    }
  }

  // Necessary

  lemma RunsSnoc(k: Kind, states: seq<Race>, acts: seq<Act>, a: Act)
    requires Runs(k, states, acts) && Able(k, states[|acts|], a)
    ensures Runs(k, states + [Then(k, states[|acts|], a)], acts + [a])
  {
    hide Start;
    var ss, aa := states + [Then(k, states[|acts|], a)], acts + [a];
    forall i | 0 <= i < |aa|
      ensures Goes(k, ss[i], aa[i], ss[i + 1])
    {
      if i < |acts| {
        assert Goes(k, states[i], acts[i], states[i + 1]);
      }
    }
    assert ss[0] == states[0];
  }

  /** The act that brings the last frame under way closer to the receiver. */
  function Onward(s: Race): Act {
    if s.lane != [] then Writes else if s.wire != [] then Arrives(false) else Receives(true)
  }

  lemma OnwardStep(k: Kind, s: Race)
    requires Flow(s) != [] && s.receiver == s.ideal
    ensures var t := Then(k, s, Onward(s));
            && t.receiver == t.ideal
            && (if Onward(s) == Receives(true) then
                  [s.inq[0]] + Flow(t) == Flow(s) && t.ideal == Seen(k, s.ideal, s.inq[0], true)
                else Flow(t) == Flow(s) && t.ideal == s.ideal)
  {
    FlowMoves(s.inq, s.wire, s.lane);
    hide Seen;
  }

  /** Everything under way gets through, up to the last frame. */
  lemma {:induction false} Drain(k: Kind, states: seq<Race>, acts: seq<Act>, xs: seq<Item>, x: Item)
    returns (ss: seq<Race>, aa: seq<Act>)
    requires Runs(k, states, acts)
    requires var s := states[|acts|]; Flow(s) == xs + [x] && s.receiver == s.ideal
    ensures Runs(k, ss, aa) && states <= ss && acts <= aa
    ensures var s := ss[|aa|];
            s.inq == [x] && s.receiver == s.ideal == Heard(k, states[|acts|].ideal, xs)
    decreases var s := states[|acts|]; 3 * |s.lane| + 2 * |s.wire| + |s.inq|
  {
    hide Heard;
    hide Seen;
    var s := states[|acts|];
    if s.lane == [] && s.wire == [] && xs == [] {
      assert Flow(s) == s.inq;
      ss, aa := states, acts;
      HeardNothing(k, s.ideal);
    } else {
      OnwardStep(k, s);
      RunsSnoc(k, states, acts, Onward(s));
      var t := Then(k, s, Onward(s));
      hide Runs;
      if Onward(s) == Receives(true) {
        assert Flow(s) == s.inq;
        assert Flow(t) == xs[1..] + [x];
        ss, aa := Drain(k, states + [t], acts + [Onward(s)], xs[1..], x);
        HeardHead(k, s.ideal, s.inq[0], xs[1..]);
        assert xs == [xs[0]] + xs[1..];
      } else {
        ss, aa := Drain(k, states + [t], acts + [Onward(s)], xs, x);
      }
    }
  }

  lemma HeardNothing(k: Kind, r: In)
    ensures Heard(k, r, []) == r
  {
  }

  /** After a push that is not refused, the frame is the last one under way. */
  lemma PushedLast(k: Kind, r: In, before: seq<Item>, lane: seq<Item>, f: Item) returns (xs: seq<Item>)
    requires !Refused(IsDataItem(), lane, f)
    ensures before + AfterPush(IsDataItem(), lane, f) == xs + [f] && Heard(k, r, xs) == Heard(k, r, before + lane)
  {
    hide Heard;
    var i := FirstData(IsDataItem(), lane);
    if |lane| < AUDIO_CAP || i == |lane| {
      xs := before + lane;
    } else {
      PushCut(before, lane, f, i);
      HeardWithout(k, r, before + lane[..i], lane[i], lane[i + 1..]);
      xs := (before + lane[..i]) + lane[i + 1..];
    }
  }

  /** Necessary: a push that does not agree with what has been announced is misread in some
      continuation, unless a full lane refuses the frame or the receiver has no decoder. */
  lemma CarelessPushMisread(k: Kind, states: seq<Race>, acts: seq<Act>, tid: nat)
    returns (ss: seq<Race>, aa: seq<Act>)
    requires Runs(k, states, acts) && Able(k, states[|acts|], Pushes(tid)) && !Careful(k, states[|acts|], tid)
    requires var s := states[|acts|];
             s.receiver == s.ideal && !Refused(IsDataItem(), s.lane, s.pend[tid][0])
    ensures Runs(k, ss, aa) && states < ss && acts + [Pushes(tid)] <= aa && Misreads(k, ss[|aa|])
  {
    var s := states[|acts|];
    var x := s.pend[tid][0];
    var t := Then(k, s, Pushes(tid));
    hide Heard;
    hide AfterPush;
    var xs := PushedLast(k, s.ideal, s.inq + s.wire, s.lane, x);
    RunsSnoc(k, states, acts, Pushes(tid));
    RunsOk(k, states, acts, |acts|);
    HeardOk(k, s.ideal, Flow(s));
    ss, aa := Drain(k, states + [t], acts + [Pushes(tid)], xs, x);
    hide Runs;
    NotRight(k, ss[|aa|]);
  }

  lemma NotRight(k: Kind, s: Race)
    requires |s.inq| == 1 && !Right(k, s.receiver, s.inq[0]) && InOk(s.receiver)
    ensures Misreads(k, s)
  {
  }

  lemma {:induction false} HeardOk(k: Kind, r: In, xs: seq<Item>)
    requires InOk(r)
    ensures InOk(Heard(k, r, xs))
  {
    if xs != [] {
      HeardOk(k, r, xs[..|xs| - 1]);
    }
  }

  lemma {:induction false} RunsOk(k: Kind, states: seq<Race>, acts: seq<Act>, n: nat)
    requires Runs(k, states, acts) && n < |states|
    ensures InOk(states[n].ideal)
  {
    if n > 0 {
      RunsOk(k, states, acts, n - 1);
      assert Goes(k, states[n - 1], acts[n - 1], states[n]);
    }
  }

  // Which pushes agree

  /** The settled receiver of a stream made this way. */
  function Settled(m: Made): In {
    In(Some(m.mode), true, Some(WireSpec(m)))
  }

  /** A receiver set up this way takes the payload. */
  predicate Takes(m: Made, payload: seq<Byte>)
    requires m.channels > 0
  {
    payload != [] && (m.mode == PcmMode ==> |payload| % (2 * m.channels) == 0)
  }

  /** Data that meets another transport or format is misread exactly when it is taken. */
  lemma ForeignData(k: Kind, heard: Made, made: Made, payload: seq<Byte>)
    requires ValidMade(heard) && ValidMade(made)
    ensures Right(k, Settled(heard), DataItem(k, made, payload)) <==> heard == made || !Takes(heard, payload)
  {
    var p, q := OnData(Settled(heard), payload, true), OnData(Settled(heard), payload, false);
    assert heard != made ==> heard.mode != made.mode || WireSpec(heard) != WireSpec(made);
    assert PlayedAsMade(q, made) || !PlayedAsMade(p, made) || heard.mode == PcmMode;
  }

  /** Exactly which pushes must not fall between which, when a stream made as `before` is
      announced anew as `after`: no old data after the new format frame, and no new data
      before the new transport frame. In between everything is dropped, so nothing can be
      misread. */
  lemma Window(k: Kind, before: Made, after: Made, payload: seq<Byte>)
    requires ValidMade(before) && ValidMade(after)
    ensures var r0 := Settled(before);
            var r1 := Heard(k, r0, News(k, after)[..1]);
            var r2 := Heard(k, r0, News(k, after));
            var (was, next) := (DataItem(k, before, payload), DataItem(k, after, payload));
            && Right(k, r0, was) && Right(k, r1, was)
            && (Right(k, r2, was) <==> before == after || !Takes(after, payload))
            && (Right(k, r0, next) <==> before == after || !Takes(before, payload))
            && Right(k, r1, next) && Right(k, r2, next)
  {
    var r0 := Settled(before);
    var x, y := TransportItem(k, after), FormatItem(k, after);
    assert News(k, after)[..1] == [x] && [x][..0] == [];
    HeardSnoc(k, r0, [], x);
    HeardSnoc(k, r0, [x], y);
    assert News(k, after) == [x] + [y] && [x] == [] + [x];
    AnnouncedFormatUnderstood(after.rate, after.channels);
    assert Heard(k, r0, News(k, after)) == Settled(after);
    ForeignData(k, before, before, payload);
    ForeignData(k, before, after, payload);
    ForeignData(k, after, before, payload);
    ForeignData(k, after, after, payload);
  }

  // Both happen

  lemma NewsHeard(k: Kind, r: In, xs: seq<Item>, m: Made)
    requires ValidMade(m)
    ensures Heard(k, r, xs + [TransportItem(k, m)] + [FormatItem(k, m)]) == Settled(m)
  {
    HeardSnoc(k, r, xs, TransportItem(k, m));
    HeardSnoc(k, r, xs + [TransportItem(k, m)], FormatItem(k, m));
    AnnouncedFormatUnderstood(m.rate, m.channels);
  }

  /** So much has been pushed, and no frame has been written yet. */
  ghost predicate At(k: Kind, states: seq<Race>, acts: seq<Act>, dev: Spec, out: Made, pend: seq<seq<Item>>,
                     lane: seq<Item>)
  {
    Runs(k, states, acts) && states[|acts|] == Race(Live(out), Some(dev), pend, lane, [], [], IN_START, IN_START)
  }

  lemma Push(k: Kind, states: seq<Race>, acts: seq<Act>, dev: Spec, out: Made, pend: seq<seq<Item>>,
             lane: seq<Item>, tid: nat)
    returns (ss: seq<Race>, aa: seq<Act>)
    requires At(k, states, acts, dev, out, pend, lane) && |lane| < AUDIO_CAP && tid < |pend| && pend[tid] != []
    ensures At(k, ss, aa, dev, out, pend[tid := pend[tid][1..]], lane + [pend[tid][0]])
  {
    RunsSnoc(k, states, acts, Pushes(tid));
    ss, aa := states + [Then(k, states[|acts|], Pushes(tid))], acts + [Pushes(tid)];
  }

  /** Announcing new settings for the same device, frame by frame. */
  lemma PushNews(k: Kind, states: seq<Race>, acts: seq<Act>, dev: Spec, m: Made, pend: seq<seq<Item>>,
                 lane: seq<Item>, tid: nat)
    returns (ss: seq<Race>, aa: seq<Act>)
    requires ValidMade(m) && tid < |pend| && pend[tid] == News(k, m)
    requires At(k, states, acts, dev, m, pend, lane) && |lane| <= 4
    ensures At(k, ss, aa, dev, m, pend[tid := []], lane + [TransportItem(k, m)] + [FormatItem(k, m)])
  {
    ss, aa := Push(k, states, acts, dev, m, pend, lane, tid);
    var rest := pend[tid := pend[tid][1..]];
    assert rest[tid] == [FormatItem(k, m)];
    ss, aa := Push(k, ss, aa, dev, m, rest, lane + [TransportItem(k, m)], tid);
    assert rest[tid][1..] == [];
    assert rest[tid := rest[tid][1..]] == pend[tid := []];
  }

  /** The capture thread has announced PCM for this device. */
  lemma Opening(k: Kind, dev: Spec) returns (ss: seq<Race>, aa: seq<Act>)
    requires ValidSpec(dev)
    ensures var m := Choose(k, dev, false);
            ValidMade(m) && At(k, ss, aa, dev, m, [[], []], [] + [TransportItem(k, m)] + [FormatItem(k, m)])
  {
    var m := Choose(k, dev, false);
    ChoiceIsValid(k, dev, false);
    var s := Race(Unconfigured, None, [[], []], [], [], [], IN_START, IN_START);
    assert Runs(k, [s], []);
    RunsSnoc(k, [s], [], Configures(dev, false));
    ss, aa := [s] + [Then(k, s, Configures(dev, false))], [] + [Configures(dev, false)];
    assert s.pend[0 := News(k, m)] == [News(k, m), []];
    ss, aa := PushNews(k, ss, aa, dev, m, [News(k, m), []], [], 0);
    assert [News(k, m), []][0 := []] == [[], []];
  }

  lemma OneItem(k: Kind, m: Made, payload: seq<Byte>)
    ensures DataItems(k, m, [payload]) == [DataItem(k, m, payload)]
  {
    assert [payload][..0] == [];
  }

  /** Another thread switches to Opus and has yet to push the announcement. */
  lemma Switched(k: Kind, states: seq<Race>, acts: seq<Act>, dev: Spec, pend: seq<seq<Item>>, lane: seq<Item>)
    returns (ss: seq<Race>, aa: seq<Act>)
    requires ValidSpec(dev) && ValidMade(Choose(k, dev, true)) && |pend| == 2 && pend[1] == []
    requires At(k, states, acts, dev, Choose(k, dev, false), pend, lane)
    ensures At(k, ss, aa, dev, Choose(k, dev, true), pend[1 := News(k, Choose(k, dev, true))], lane)
  {
    RunsSnoc(k, states, acts, Reconfigures(1, true));
    ss, aa := states + [Then(k, states[|acts|], Reconfigures(1, true))], acts + [Reconfigures(1, true)];
  }

  /** The capture thread's sender returns one data frame. */
  lemma Captured(k: Kind, states: seq<Race>, acts: seq<Act>, dev: Spec, m: Made, pend: seq<seq<Item>>,
                 lane: seq<Item>, payload: seq<Byte>)
    returns (ss: seq<Race>, aa: seq<Act>)
    requires |pend| == 2 && pend[0] == [] && At(k, states, acts, dev, m, pend, lane)
    ensures At(k, ss, aa, dev, m, [[DataItem(k, m, payload)], pend[1]], lane)
  {
    OneItem(k, m, payload);
    RunsSnoc(k, states, acts, Processes([payload]));
    ss, aa := states + [Then(k, states[|acts|], Processes([payload]))], acts + [Processes([payload])];
    assert pend[0 := [DataItem(k, m, payload)]] == [[DataItem(k, m, payload)], pend[1]];
  }

  /** It then meets a receiver that was told something else. */
  lemma Meets(k: Kind, states: seq<Race>, acts: seq<Act>, dev: Spec, out: Made, pend: seq<seq<Item>>, lane: seq<Item>,
              heard: Made, made: Made, payload: seq<Byte>)
    returns (ss: seq<Race>, aa: seq<Act>)
    requires At(k, states, acts, dev, out, pend, lane) && |pend| == 2 && pend[0] == [DataItem(k, made, payload)]
    requires ValidMade(heard) && ValidMade(made) && heard != made && Takes(heard, payload)
    requires Heard(k, IN_START, lane) == Settled(heard) && |lane| <= 4
    ensures Runs(k, ss, aa) && Misreads(k, ss[|aa|])
  {
    ForeignData(k, heard, made, payload);
    hide Right;
    hide Settled;
    hide Heard;
    hide Runs;
    hide Takes;
    assert Flow(states[|acts|]) == lane;
    ss, aa := CarelessPushMisread(k, states, acts, 0);
  }

  /** The encoder is switched to Opus while the capture thread is between two buffers: the
      next packet overtakes the announcement and is played as raw samples. */
  lemma EarlyDataMisread(k: Kind, dev: Spec, packet: seq<Byte>) returns (ss: seq<Race>, aa: seq<Act>)
    requires ValidSpec(dev) && packet != [] && |packet| % (2 * Choose(k, dev, false).channels) == 0
    ensures Runs(k, ss, aa) && Misreads(k, ss[|aa|])
  {
    var m, n := Choose(k, dev, false), Choose(k, dev, true);
    ChoiceIsValid(k, dev, true);
    ss, aa := Opening(k, dev);
    var lane := [] + [TransportItem(k, m)] + [FormatItem(k, m)];
    NewsHeard(k, IN_START, [], m);
    hide Heard;
    hide At;
    hide Settled;
    hide Runs;
    ss, aa := Switched(k, ss, aa, dev, [[], []], lane);
    ss, aa := Captured(k, ss, aa, dev, n, [[], []][1 := News(k, n)], lane, packet);
    ss, aa := Meets(k, ss, aa, dev, n, [[DataItem(k, n, packet)], News(k, n)], lane, m, n, packet);
  }

  /** The same switch while the capture thread holds samples that it has yet to push: they
      come after the announcement and go to the Opus decoder. */
  lemma LateDataMisread(k: Kind, dev: Spec, samples: seq<Byte>) returns (ss: seq<Race>, aa: seq<Act>)
    requires ValidSpec(dev) && samples != []
    ensures Runs(k, ss, aa) && Misreads(k, ss[|aa|])
  {
    var m, n := Choose(k, dev, false), Choose(k, dev, true);
    ChoiceIsValid(k, dev, true);
    ss, aa := Opening(k, dev);
    var lane, data := [] + [TransportItem(k, m)] + [FormatItem(k, m)], DataItem(k, m, samples);
    hide Heard;
    hide At;
    hide Settled;
    hide Runs;
    NewsHeard(k, IN_START, lane, n);
    ss, aa := Captured(k, ss, aa, dev, m, [[], []], lane, samples);
    ss, aa := Switched(k, ss, aa, dev, [[data], []], lane);
    ss, aa := PushNews(k, ss, aa, dev, n, [[data], []][1 := News(k, n)], lane, 1);
    ss, aa := Meets(k, ss, aa, dev, n, [[data], []][1 := News(k, n)][1 := []],
                    lane + [TransportItem(k, n)] + [FormatItem(k, n)], n, m, samples);
  }
}
