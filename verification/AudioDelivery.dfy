/** What arrives of an audio stream (internal/app/app_audio_runtime.go, internal/audio/stream.go):
    every frame in order, data missing only where a queue was full, and the samples that
    went in. */
module AudioDelivery {
  import opened Bytes
  import opened Options
  import opened Frames
  import opened Arith
  import opened FrameMaps
  import opened Pcm
  import opened PcmEncode
  import opened AudioFormats
  import opened AudioLane
  import opened AudioSession

  // Samples

  lemma WirePayload(made: seq<real>, m: Made, bits: real -> U32, n: nat)
    requires ValidMade(m) && n >= 1 && |made| == n * m.channels
    ensures |Encoded(made, WireSpec(m), bits)| == n * (m.channels * 2) > 0
  {
    var spec := WireSpec(m);
    hide Samples;
    FrameMapLength(Encoder(spec, bits), m.channels, m.channels * 2, made);
    MulDiv(n, m.channels);
    MulLe(1, n, m.channels * 2);
  }

  /** A PCM receiver set up as announced plays what was made, to within the tolerance of the
      wire, and never drops it. */
  lemma PcmReceived(r: In, made: seq<real>, m: Made, bits: real -> U32, n: nat, packetOk: bool)
    requires InOk(r) && ValidMade(m) && n >= 1 && |made| == n * m.channels
    requires r.ready && r.mode == Some(PcmMode) && r.spec == Some(WireSpec(m))
    ensures var p := OnData(r, Encoded(made, WireSpec(m), bits), packetOk);
            p.Pcm? && p.spec == WireSpec(m) && |p.samples| == |made| && Near(p.samples, made, 1.5 / 32768.0)
  {
    hide Encoded;
    hide Decoded;
    WirePayload(made, m, bits, n);
    WholeMultiple(n, m.channels * 2);
    StreamFidelity(made, WireSpec(m), bits, n);
    assert made[..n * m.channels] == made;
  }

  lemma WholeMultiple(n: nat, g: nat)
    requires g > 0
    ensures (n * g) % g == 0
  {
    MulDiv(n, g);
  }

  /** End to end, in every run: a PCM data frame that carries samples, as those of a capture
      do, is played by the receiver that gets to it, all of its samples, to within one and a
      half steps of 16-bit quantization; an Opus packet is handed on whole, or dropped. */
  lemma AudioHeard(k: Kind, states: seq<Session>, events: seq<Event>, made: seq<real>, bits: real -> U32, n: nat,
                   packetOk: bool)
    requires IsRun(k, states, events)
    requires var s := states[|events|];
             s.inq != [] && s.inq[0].kind == k && s.inq[0].frame.kind == DataMsg(k) && n >= 1
             && |made| == n * s.inq[0].made.channels
             && (s.inq[0].made.mode == PcmMode && ValidMade(s.inq[0].made) ==>
                   s.inq[0].frame.payload == Encoded(made, WireSpec(s.inq[0].made), bits))
    ensures var s, x := states[|events|], states[|events|].inq[0];
            && InOk(s.receiver) && ValidMade(x.made)
            && (x.made.mode == PcmMode ==>
                  var p := OnData(s.receiver, x.frame.payload, packetOk);
                  p.Pcm? && p.spec == WireSpec(x.made) && |p.samples| == |made| && Near(p.samples, made, 1.5 / 32768.0))
            && (x.made.mode == OpusMode ==>
                  var p := OnData(s.receiver, x.frame.payload, packetOk);
                  p == Dropped || p == Opus(WireSpec(x.made), x.frame.payload))
  {
    var s := states[|events|];
    var x := s.inq[0];
    HeadAgrees(k, states, events);
    hide Encoded;
    hide OnData;
    hide IsRun;
    hide PlayedAsMade;
    if x.made.mode == PcmMode {
      PcmReceived(s.receiver, made, x.made, bits, n, packetOk);
    } else {
      OpusReceived(s.receiver, x.frame.payload, x.made, packetOk);
    }
  }

  /** The receiver that gets to a data frame is set up for it, or plays nothing. */
  lemma HeadAgrees(k: Kind, states: seq<Session>, events: seq<Event>)
    requires IsRun(k, states, events)
    requires var s := states[|events|]; s.inq != [] && s.inq[0].kind == k && s.inq[0].frame.kind == DataMsg(k)
    ensures var r, m := states[|events|].receiver, states[|events|].inq[0].made;
            && InOk(r) && ValidMade(m) && r.mode == Some(m.mode)
            && (m.mode == PcmMode ==> r.ready) && (r.ready ==> r.spec == Some(WireSpec(m)))
  {
    RunSound(k, states, events);
    var s := states[|events|];
    MineHead(k, s.inq);
    assert Pipe(k, s)[0] == s.inq[0];
  }

  lemma OpusReceived(r: In, payload: seq<Byte>, m: Made, packetOk: bool)
    requires InOk(r) && r.mode == Some(OpusMode) && (r.ready ==> r.spec == Some(WireSpec(m)))
    ensures var p := OnData(r, payload, packetOk); p == Dropped || p == Opus(WireSpec(m), payload)
  {
  }

  // Delivery

  /** What a sender call returns. */
  ghost function Returned(k: Kind, s: Session, e: Event): seq<Item>
    requires Enabled(k, s, e)
  {
    match e
    case Announce(dev, opus) =>
      ChoiceIsValid(k, dev, opus);
      [TransportItem(k, Choose(k, dev, opus)), FormatItem(k, Choose(k, dev, opus))]
    case Produce(payloads) => DataItems(k, s.out.made, payloads)
    case _ => []
  }

  /** What the dispatcher hands to this stream's receiver. */
  ghost function HandedOver(k: Kind, s: Session, e: Event): seq<Item>
    requires Enabled(k, s, e)
  {
    if e.Receive? && s.inq[0].kind == k then [s.inq[0]] else []
  }

  ghost predicate Ran(k: Kind, states: seq<Session>, events: seq<Event>) {
    |states| == |events| + 1 && forall i :: 0 <= i < |events| ==> Enabled(k, states[i], events[i])
  }

  ghost function Produced(k: Kind, states: seq<Session>, events: seq<Event>): seq<Item>
    requires Ran(k, states, events)
  {
    if events == [] then []
    else
      var n := |events| - 1;
      Produced(k, states[..n + 1], events[..n]) + Returned(k, states[n], events[n])
  }

  ghost function Handled(k: Kind, states: seq<Session>, events: seq<Event>): seq<Item>
    requires Ran(k, states, events)
  {
    if events == [] then []
    else
      var n := |events| - 1;
      Handled(k, states[..n + 1], events[..n]) + HandedOver(k, states[n], events[n])
  }

  /** The same, or without one data item. */
  ghost predicate Loses(xs: seq<Item>, ys: seq<Item>) {
    ys == xs || exists a: seq<Item>, x: Item, b: seq<Item> ::
                  IsDataItem()(x) && Around(xs, a, x, b) && ys == a + b
  }

  predicate Around(xs: seq<Item>, a: seq<Item>, x: Item, b: seq<Item>) {
    xs == (a + [x]) + b
  }

  /** No queue is full. */
  predicate Roomy(s: Session, e: Event) {
    match e
    case PushOne => |s.lane| < AUDIO_CAP
    case OtherPush(_) => |s.lane| < AUDIO_CAP
    case Arrive(full) => !full
    case _ => true
  }

  lemma LosesInside(a: seq<Item>, xs: seq<Item>, ys: seq<Item>, b: seq<Item>)
    requires Loses(xs, ys)
    ensures Loses((a + xs) + b, (a + ys) + b)
  {
    if ys != xs {
      var l, x, r :| IsDataItem()(x) && Around(xs, l, x, r) && ys == l + r;
      assert (a + ((l + [x]) + r)) + b == ((a + l) + [x]) + (r + b);
      assert (a + (l + r)) + b == (a + l) + (r + b);
      assert Around((a + xs) + b, a + l, x, r + b);
    }
  }

  lemma LosesOne(k: Kind, a: seq<Item>, x: Item, b: seq<Item>)
    requires IsDataItem()(x)
    ensures Loses((a + If(IsKind(k), x)) + b, a + b)
  {
    if x.kind == k {
      assert Around((a + [x]) + b, a, x, b);
    } else {
      assert a + [] == a;
    }
  }

  /** What a push does to the stream's items in the lane. */
  lemma PushLoses(k: Kind, lane: seq<Item>, f: Item)
    ensures var lane' := AfterPush(IsDataItem(), lane, f);
            && Loses(Mine(k, lane) + If(IsKind(k), f), Mine(k, lane'))
            && (|lane| < AUDIO_CAP ==> Mine(k, lane') == Mine(k, lane) + If(IsKind(k), f))
  {
    var i := FirstData(IsDataItem(), lane);
    SelectAppend(IsKind(k), lane, f);
    if |lane| < AUDIO_CAP || (i == |lane| && !IsDataItem()(f)) {
    } else if i < |lane| {
      var l, x, r := lane[..i], lane[i], lane[i + 1..];
      assert lane == (l + [x]) + r;
      SelectAround(IsKind(k), l, x, r);
      SelectConcat(IsKind(k), l, r);
      SelectAppend(IsKind(k), l + r, f);
      hide Loses;
      hide Select;
      LosesOne(k, Mine(k, l), x, Mine(k, r) + If(IsKind(k), f));
      Rejoin(Mine(k, l), If(IsKind(k), x), Mine(k, r), If(IsKind(k), f));
    } else {
      LosesOne(k, Mine(k, lane), f, []);
      assert Mine(k, lane) + [] == Mine(k, lane) && (Mine(k, lane) + If(IsKind(k), f)) + [] == Mine(k, lane) + If(IsKind(k), f);
    }
  }

  lemma Rejoin(a: seq<Item>, x: seq<Item>, b: seq<Item>, f: seq<Item>)
    ensures ((a + x) + b) + f == (a + x) + (b + f) && (a + b) + f == a + (b + f)
  {
  }

  /** One step: what was under way and what is returned go on in order, or less one data item
      if a queue was full. */
  lemma StepDelivers(k: Kind, s: Session, e: Event)
    requires Enabled(k, s, e) && OwnPending(k, s)
    ensures var xs, ys := Pipe(k, s) + Returned(k, s, e), HandedOver(k, s, e) + Pipe(k, Next(k, s, e));
            Loses(xs, ys) && (Roomy(s, e) ==> xs == ys)
  {
    hide Select;
    hide AfterPush;
    hide Loses;
    match e
    case Announce(_, _) => Same(Pipe(k, s) + Returned(k, s, e), [] + Pipe(k, Next(k, s, e)));
    case Produce(_) => Same(Pipe(k, s) + Returned(k, s, e), [] + Pipe(k, Next(k, s, e)));
    case Forget => Same(Pipe(k, s) + [], [] + Pipe(k, Next(k, s, e)));
    case PushOne => PushDelivers(k, s);
    case OtherPush(x) => OtherDelivers(k, s, x);
    case Write => WriteDelivers(k, s);
    case Arrive(full) => ArriveDelivers(k, s, full);
    case Receive(d, p) => ReceiveDelivers(k, s, d, p);
  }

  lemma Same(xs: seq<Item>, ys: seq<Item>)
    requires xs == ys
    ensures Loses(xs, ys)
  {
  }

  lemma PushDelivers(k: Kind, s: Session)
    requires s.pend != [] && OwnPending(k, s)
    ensures Loses(Pipe(k, s) + [], [] + Pipe(k, Next(k, s, PushOne)))
    ensures |s.lane| < AUDIO_CAP ==> Pipe(k, s) + [] == [] + Pipe(k, Next(k, s, PushOne))
  {
    hide Select;
    hide AfterPush;
    hide Loses;
    var a := Mine(k, s.inq) + Mine(k, s.wire);
    PushLoses(k, s.lane, s.pend[0]);
    LosesInside(a, Mine(k, s.lane) + [s.pend[0]], Mine(k, Next(k, s, PushOne).lane), s.pend[1..]);
    PendingNext(a, Mine(k, s.lane), s.pend);
    assert Pipe(k, s) + [] == Pipe(k, s) && [] + Pipe(k, Next(k, s, PushOne)) == Pipe(k, Next(k, s, PushOne));
  }

  lemma OtherDelivers(k: Kind, s: Session, x: Item)
    requires x.kind != k
    ensures Loses(Pipe(k, s) + [], [] + Pipe(k, Next(k, s, OtherPush(x))))
    ensures |s.lane| < AUDIO_CAP ==> Pipe(k, s) + [] == [] + Pipe(k, Next(k, s, OtherPush(x)))
  {
    hide Select;
    hide AfterPush;
    hide Loses;
    var a := Mine(k, s.inq) + Mine(k, s.wire);
    PushLoses(k, s.lane, x);
    assert Mine(k, s.lane) + [] == Mine(k, s.lane);
    LosesInside(a, Mine(k, s.lane), Mine(k, Next(k, s, OtherPush(x)).lane), s.pend);
    assert Pipe(k, s) + [] == Pipe(k, s) && [] + Pipe(k, Next(k, s, OtherPush(x))) == Pipe(k, Next(k, s, OtherPush(x)));
  }

  lemma WriteDelivers(k: Kind, s: Session)
    requires s.lane != []
    ensures Loses(Pipe(k, s) + [], [] + Pipe(k, Next(k, s, Write))) && Pipe(k, s) + [] == [] + Pipe(k, Next(k, s, Write))
  {
    hide Select;
    MineHead(k, s.lane);
    SelectAppend(IsKind(k), s.wire, s.lane[0]);
    Moved(Mine(k, s.inq), Mine(k, s.wire), If(IsKind(k), s.lane[0]), Mine(k, s.lane[1..]), s.pend);
  }

  lemma ArriveDelivers(k: Kind, s: Session, full: bool)
    requires s.wire != []
    ensures Loses(Pipe(k, s) + [], [] + Pipe(k, Next(k, s, Arrive(full))))
    ensures !full ==> Pipe(k, s) + [] == [] + Pipe(k, Next(k, s, Arrive(full)))
  {
    hide Select;
    hide Loses;
    var x := s.wire[0];
    var q, w, l := Mine(k, s.inq), Mine(k, s.wire[1..]), Mine(k, s.lane);
    MineHead(k, s.wire);
    SelectAppend(IsKind(k), s.inq, x);
    Arrived(q, If(IsKind(k), x), w, l, s.pend);
    Arrived(q, [], w, l, s.pend);
    assert [] + w == w && q + [] == q;
    var u := Next(k, s, Arrive(full));
    assert Pipe(k, s) + [] == Pipe(k, s) && [] + Pipe(k, u) == Pipe(k, u);
    if full && IsDataItem()(x) {
      LosesOne(k, q, x, w + (l + s.pend));
    } else {
      Same(Pipe(k, s), Pipe(k, u));
    }
  }

  lemma ReceiveDelivers(k: Kind, s: Session, decoderOk: bool, packetOk: bool)
    requires s.inq != []
    ensures var e := Receive(decoderOk, packetOk);
            Loses(Pipe(k, s) + [], HandedOver(k, s, e) + Pipe(k, Next(k, s, e)))
            && Pipe(k, s) + [] == HandedOver(k, s, e) + Pipe(k, Next(k, s, e))
  {
    hide Select;
    MineHead(k, s.inq);
    var q := Mine(k, s.inq[1..]);
    Arrived(If(IsKind(k), s.inq[0]), [], q + Mine(k, s.wire), Mine(k, s.lane), s.pend);
    assert (If(IsKind(k), s.inq[0]) + q) + Mine(k, s.wire) == If(IsKind(k), s.inq[0]) + (q + Mine(k, s.wire));
    Ahead(If(IsKind(k), s.inq[0]), q, Mine(k, s.wire), Mine(k, s.lane), s.pend);
  }

  lemma Ahead(x: seq<Item>, q: seq<Item>, w: seq<Item>, l: seq<Item>, b: seq<Item>)
    ensures (((x + q) + w) + l) + b == x + (((q + w) + l) + b)
  {
  }

  // Runs

  lemma {:induction false} ThinnedAppend(sent: seq<Item>, got: seq<Item>, more: seq<Item>)
    requires Thinned(IsDataItem(), sent, got)
    ensures Thinned(IsDataItem(), sent + more, got + more)
  {
    if more == [] {
      assert sent + more == sent && got + more == got;
    } else {
      var n := |more| - 1;
      ThinnedAppend(sent, got, more[..n]);
      ThinnedKeep(IsDataItem(), sent + more[..n], got + more[..n], more[n]);
      assert (sent + more[..n]) + [more[n]] == sent + more && (got + more[..n]) + [more[n]] == got + more;
    }
  }

  lemma ThinnedLoses(sent: seq<Item>, head: seq<Item>, xs: seq<Item>, ys: seq<Item>)
    requires Thinned(IsDataItem(), sent, head + xs) && Loses(xs, ys)
    ensures Thinned(IsDataItem(), sent, head + ys)
  {
    if ys != xs {
      var a, x, b :| IsDataItem()(x) && Around(xs, a, x, b) && ys == a + b;
      assert head + ((a + [x]) + b) == ((head + a) + [x]) + b && head + (a + b) == (head + a) + b;
      ThinnedRemove(IsDataItem(), sent, head + a, x, b);
    }
  }

  lemma RunsRun(k: Kind, states: seq<Session>, events: seq<Event>)
    requires IsRun(k, states, events)
    ensures Ran(k, states, events)
  {
  }

  lemma Onward(sent: seq<Item>, head: seq<Item>, pipe: seq<Item>, more: seq<Item>, next: seq<Item>, pipe': seq<Item>)
    requires Thinned(IsDataItem(), sent, head + pipe) && Loses(pipe + more, next + pipe')
    ensures Thinned(IsDataItem(), sent + more, (head + next) + pipe')
    ensures sent == head + pipe && pipe + more == next + pipe' ==> sent + more == (head + next) + pipe'
  {
    hide Thinned;
    hide Loses;
    ThinnedAppend(sent, head + pipe, more);
    assert (head + pipe) + more == head + (pipe + more);
    ThinnedLoses(sent + more, head, pipe + more, next + pipe');
    assert head + (next + pipe') == (head + next) + pipe';
  }

  ghost predicate AllRoomy(states: seq<Session>, events: seq<Event>)
    requires |states| >= |events|
  {
    forall i :: 0 <= i < |events| ==> Roomy(states[i], events[i])
  }

  ghost predicate Delivers(k: Kind, states: seq<Session>, events: seq<Event>)
    requires Ran(k, states, events)
  {
    var sent, got := Produced(k, states, events), Handled(k, states, events) + Pipe(k, states[|events|]);
    Thinned(IsDataItem(), sent, got) && (AllRoomy(states, events) ==> sent == got)
  }

  lemma RunStep(k: Kind, states: seq<Session>, events: seq<Event>, n: nat)
    requires n + 1 == |events| && Ran(k, states, events) && states[n + 1] == Next(k, states[n], events[n])
    requires OwnPending(k, states[n]) && Ran(k, states[..n + 1], events[..n])
    requires Delivers(k, states[..n + 1], events[..n])
    ensures Delivers(k, states, events)
  {
    hide Thinned;
    hide Next;
    hide Loses;
    hide Roomy;
    hide Pipe;
    hide OwnPending;
    var s, e := states[n], events[n];
    StepDelivers(k, s, e);
    hide Enabled;
    hide Returned;
    hide HandedOver;
    Onward(Produced(k, states[..n + 1], events[..n]), Handled(k, states[..n + 1], events[..n]), Pipe(k, s),
           Returned(k, s, e), HandedOver(k, s, e), Pipe(k, states[n + 1]));
    RoomyBefore(states, events, n);
  }

  lemma RoomyBefore(states: seq<Session>, events: seq<Event>, n: nat)
    requires n + 1 == |events| && |states| > |events|
    ensures AllRoomy(states, events) ==> AllRoomy(states[..n + 1], events[..n]) && Roomy(states[n], events[n])
  {
    hide Roomy;
  }

  /** In every run, what has been handed to the receiver and what is still under way is what
      the sender's calls returned, in order, with only data frames left out; and with nothing
      left out at all if no queue was full. */
  lemma {:induction false} RunDelivers(k: Kind, states: seq<Session>, events: seq<Event>)
    requires IsRun(k, states, events)
    ensures Ran(k, states, events) && Delivers(k, states, events)
    decreases |events|
  {
    RunsRun(k, states, events);
    if events == [] {
      assert Pipe(k, START) == [];
    } else {
      var n := |events| - 1;
      hide Delivers;
      RunDelivers(k, states[..n + 1], events[..n]);
      RunSound(k, states[..n + 1], events[..n]);
      RunStep(k, states, events, n);
    }
  }
}
