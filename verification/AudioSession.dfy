/** One audio stream from capture to playback within a session: sender, audio lane,
    wire, inbound queue and receiver. The other stream shares the lane and may push
    into it at any time.

    A sender call and the enqueueing of its frames form one step of this stream, as on
    the capture thread; the frames are still pushed one at a time, and everything else
    may happen between two pushes. AudioRace lets several threads push. */
module AudioSession {
  import opened Bytes
  import opened Options
  import opened Frames
  import opened Pcm
  import opened AudioFormats
  import opened AudioLane

  /** A frame on its way, with the settings it was made under. */
  datatype Item = Item(kind: Kind, frame: Frame, made: Made)

  /** What the receiver has been told so far. */
  datatype Told = Told(mode: Option<Mode>, full: Option<Made>)

  datatype Out = Unconfigured | Live(made: Made)

  datatype Session = Session(
    out: Out,               // the sender's settings
    pend: seq<Item>,        // returned by the sender, not pushed yet
    lane: seq<Item>,        // queued in the send mux
    wire: seq<Item>,        // written, not read yet
    inq: seq<Item>,         // queued for the audio dispatcher
    told: Told,
    receiver: In)

  const START := Session(Unconfigured, [], [], [], [], Told(None, None), IN_START)

  function IsDataItem(): Item -> bool {
    (x: Item) => IsAudioData(x.frame.kind)
  }

  function IsKind(k: Kind): Item -> bool {
    (x: Item) => x.kind == k
  }

  function TransportItem(k: Kind, m: Made): Item
    requires ValidMade(m)
  {
    Item(k, Announcement(k, m)[0], m)
  }

  function FormatItem(k: Kind, m: Made): Item
    requires ValidMade(m)
  {
    Item(k, Announcement(k, m)[1], m)
  }

  function DataItem(k: Kind, m: Made, payload: seq<Byte>): Item {
    Item(k, Frame(DataMsg(k), payload), m)
  }

  ghost predicate IsTransport(k: Kind, x: Item) {
    ValidMade(x.made) && x == TransportItem(k, x.made)
  }

  ghost predicate IsFormat(k: Kind, x: Item) {
    ValidMade(x.made) && x == FormatItem(k, x.made)
  }

  ghost predicate IsData(k: Kind, x: Item) {
    x == DataItem(k, x.made, x.frame.payload)
  }

  // Steps

  datatype Event =
    | Announce(dev: Spec, opus: bool)                  // Configure, Reconfigure or Reannounce succeeds
    | Produce(payloads: seq<seq<Byte>>)                // Process returns data frames
    | Forget                                           // the sender is reset
    | PushOne                                          // one pending frame enters the lane
    | OtherPush(item: Item)                            // a frame of the other stream does
    | Write                                            // the writer sends the head of the lane
    | Arrive(full: bool)                               // the read loop queues it, or drops data when full
    | Receive(decoderOk: bool, packetOk: bool)         // the dispatcher handles the head of the queue

  function DataItems(k: Kind, m: Made, payloads: seq<seq<Byte>>): seq<Item> {
    if payloads == [] then [] else DataItems(k, m, payloads[..|payloads| - 1]) + [DataItem(k, m, payloads[|payloads| - 1])]
  }

  function Tell(k: Kind, t: Told, x: Item): Told {
    if x.frame.kind == TransportMsg(k) then Told(Some(x.made.mode), None)
    else if x.frame.kind == FormatMsg(k) then Told(t.mode, Some(x.made))
    else t
  }

  function Handle(k: Kind, r: In, x: Item, decoderOk: bool): In {
    if x.frame.kind == TransportMsg(k) then OnTransport(r, x.frame.payload)
    else if x.frame.kind == FormatMsg(k) then OnFormat(r, x.frame.payload, decoderOk)
    else r
  }

  ghost predicate Enabled(k: Kind, s: Session, e: Event) {
    match e
    case Announce(dev, _) => s.pend == [] && ValidSpec(dev)
    case Produce(_) => s.pend == [] && s.out.Live?
    case Forget => s.pend == []
    case PushOne => s.pend != []
    case OtherPush(x) => x.kind != k
    case Write => s.lane != []
    case Arrive(_) => s.wire != []
    case Receive(_, _) => s.inq != []
  }

  ghost function Next(k: Kind, s: Session, e: Event): Session
    requires Enabled(k, s, e)
  {
    match e
    case Announce(dev, opus) =>
      var m := Choose(k, dev, opus);
      ChoiceIsValid(k, dev, opus);
      s.(out := Live(m), pend := [TransportItem(k, m), FormatItem(k, m)])
    case Produce(payloads) => s.(pend := DataItems(k, s.out.made, payloads))
    case Forget => s.(out := Unconfigured)
    case PushOne => s.(lane := AfterPush(IsDataItem(), s.lane, s.pend[0]), pend := s.pend[1..])
    case OtherPush(x) => s.(lane := AfterPush(IsDataItem(), s.lane, x))
    case Write => s.(wire := s.wire + [s.lane[0]], lane := s.lane[1..])
    case Arrive(full) =>
      var x := s.wire[0];
      s.(wire := s.wire[1..], inq := if full && IsDataItem()(x) then s.inq else s.inq + [x])
    case Receive(decoderOk, _) =>
      var x := s.inq[0];
      if x.kind != k then s.(inq := s.inq[1..])
      else s.(inq := s.inq[1..], told := Tell(k, s.told, x), receiver := Handle(k, s.receiver, x, decoderOk))
  }

  // The invariant: whatever is still on its way will be understood

  /** From `t` on, every item is an announcement in order or data of what is
      announced by then. */
  ghost predicate Understood(k: Kind, t: Told, xs: seq<Item>)
    decreases |xs|
  {
    xs == [] ||
    var x := xs[0];
    && (IsTransport(k, x)
        || (IsFormat(k, x) && t.mode == Some(x.made.mode))
        || (IsData(k, x) && t.full == Some(x.made)))
    && Understood(k, Tell(k, t, x), xs[1..])
  }

  ghost function ToldAfter(k: Kind, t: Told, xs: seq<Item>): Told
    decreases |xs|
  {
    if xs == [] then t else ToldAfter(k, Tell(k, t, xs[0]), xs[1..])
  }

  lemma {:induction false} UnderstoodConcat(k: Kind, t: Told, a: seq<Item>, b: seq<Item>)
    ensures Understood(k, t, a + b) <==> Understood(k, t, a) && Understood(k, ToldAfter(k, t, a), b)
    ensures ToldAfter(k, t, a + b) == ToldAfter(k, ToldAfter(k, t, a), b)
    decreases |a|
  {
    if a == [] {
      assert a + b == b;
    } else {
      assert (a + b)[1..] == a[1..] + b;
      UnderstoodConcat(k, Tell(k, t, a[0]), a[1..], b);
    }
  }

  /** Losing data never confuses the receiver. */
  lemma UnderstoodWithout(k: Kind, t: Told, a: seq<Item>, x: Item, b: seq<Item>)
    requires Understood(k, t, (a + [x]) + b) && IsAudioData(x.frame.kind)
    ensures Understood(k, t, a + b) && ToldAfter(k, t, a + b) == ToldAfter(k, t, (a + [x]) + b)
  {
    UnderstoodConcat(k, t, a + [x], b);
    UnderstoodConcat(k, t, a, [x]);
    UnderstoodConcat(k, t, a, b);
    assert ToldAfter(k, ToldAfter(k, t, a), [x]) == ToldAfter(k, ToldAfter(k, t, a), []);
  }

  function Mine(k: Kind, xs: seq<Item>): seq<Item> {
    Select(IsKind(k), xs)
  }

  /** Everything of this stream that is still on its way, next item first. */
  function Pipe(k: Kind, s: Session): seq<Item> {
    ((Mine(k, s.inq) + Mine(k, s.wire)) + Mine(k, s.lane)) + s.pend
  }

  /** The receiver is set up as announced; with PCM it is ready as soon as it may be. */
  ghost predicate Agrees(r: In, t: Told) {
    && r.mode == t.mode && InOk(r)
    && (t.full.Some? ==> ValidMade(t.full.value) && t.mode == Some(t.full.value.mode))
    && (r.ready ==> t.full.Some? && r.spec == Some(WireSpec(t.full.value)))
    && (t.full.Some? && t.mode == Some(PcmMode) ==> r.ready)
  }

  ghost predicate Sound(k: Kind, s: Session) {
    && Understood(k, s.told, Pipe(k, s))
    && (s.out.Live? ==> ValidMade(s.out.made) && ToldAfter(k, s.told, Pipe(k, s)).full == Some(s.out.made))
    && Agrees(s.receiver, s.told)
  }

  /** A push into the lane between `a` (further along) and `b` (still to come). */
  lemma PushUnderstood(k: Kind, t: Told, a: seq<Item>, lane: seq<Item>, f: Item, b: seq<Item>)
    requires Understood(k, t, (a + Mine(k, lane + [f])) + b)
    ensures var lane' := AfterPush(IsDataItem(), lane, f);
            && Understood(k, t, (a + Mine(k, lane')) + b)
            && ToldAfter(k, t, (a + Mine(k, lane')) + b) == ToldAfter(k, t, (a + Mine(k, lane + [f])) + b)
  {
    hide Understood;
    hide ToldAfter;
    hide Select;
    var i := FirstData(IsDataItem(), lane);
    SelectAppend(IsKind(k), lane, f);
    if |lane| < AUDIO_CAP || (i == |lane| && !IsDataItem()(f)) {
    } else if i < |lane| {
      CutPush(lane, f, i);
      CutUnderstood(k, t, a, lane[..i], lane[i], lane[i + 1..] + [f], b);
    } else if f.kind == k {
      assert a + Mine(k, lane + [f]) == (a + Mine(k, lane)) + [f];
      UnderstoodWithout(k, t, a + Mine(k, lane), f, b);
    } else {
      assert Mine(k, lane) + [] == Mine(k, lane);
    }
  }

  lemma CutPush(lane: seq<Item>, f: Item, i: nat)
    requires i < |lane|
    ensures lane + [f] == (lane[..i] + [lane[i]]) + (lane[i + 1..] + [f])
    ensures lane[..i] + lane[i + 1..] + [f] == lane[..i] + (lane[i + 1..] + [f])
  {
  }

  lemma CutUnderstood(k: Kind, t: Told, a: seq<Item>, l: seq<Item>, x: Item, r: seq<Item>, b: seq<Item>)
    requires IsAudioData(x.frame.kind) && Understood(k, t, (a + Mine(k, (l + [x]) + r)) + b)
    ensures Understood(k, t, (a + Mine(k, l + r)) + b)
    ensures ToldAfter(k, t, (a + Mine(k, l + r)) + b) == ToldAfter(k, t, (a + Mine(k, (l + [x]) + r)) + b)
  {
    hide Understood;
    hide ToldAfter;
    var ml, mr := Mine(k, l), Mine(k, r);
    SelectAround(IsKind(k), l, x, r);
    SelectConcat(IsKind(k), l, r);
    Regroup(a, ml, If(IsKind(k), x), mr, b);
    if x.kind == k {
      UnderstoodWithout(k, t, a + ml, x, mr + b);
    }
  }

  lemma Regroup(a: seq<Item>, l: seq<Item>, x: seq<Item>, r: seq<Item>, b: seq<Item>)
    ensures (a + ((l + x) + r)) + b == ((a + l) + x) + (r + b)
    ensures (a + (l + r)) + b == (a + l) + (r + b)
    ensures x == [] ==> ((a + l) + x) + (r + b) == (a + l) + (r + b)
  {
  }

  lemma {:induction false} DataUnderstood(k: Kind, t: Told, m: Made, payloads: seq<seq<Byte>>)
    requires t.full == Some(m)
    ensures Understood(k, t, DataItems(k, m, payloads)) && ToldAfter(k, t, DataItems(k, m, payloads)) == t
  {
    if payloads != [] {
      var n := |payloads| - 1;
      DataUnderstood(k, t, m, payloads[..n]);
      var x := DataItem(k, m, payloads[n]);
      UnderstoodConcat(k, t, DataItems(k, m, payloads[..n]), [x]);
      assert Understood(k, t, [x]) by {
        assert [x][1..] == [];
      }
    }
  }

  // Every step keeps it

  lemma NewsUnderstood(k: Kind, t: Told, m: Made)
    requires ValidMade(m)
    ensures Understood(k, t, [TransportItem(k, m), FormatItem(k, m)])
    ensures ToldAfter(k, t, [TransportItem(k, m), FormatItem(k, m)]).full == Some(m)
  {
    var x, y := TransportItem(k, m), FormatItem(k, m);
    assert [x, y][1..] == [y] && [y][1..] == [];
    var u := Tell(k, t, x);
    assert u == Told(Some(m.mode), None);
    assert Tell(k, u, y) == Told(Some(m.mode), Some(m));
    assert Understood(k, u, [y]);
    assert ToldAfter(k, u, [y]) == ToldAfter(k, Tell(k, u, y), []);
  }

  lemma AnnounceSound(k: Kind, s: Session, dev: Spec, opus: bool)
    requires Sound(k, s) && Enabled(k, s, Announce(dev, opus))
    ensures Sound(k, Next(k, s, Announce(dev, opus)))
  {
    hide Understood;
    hide ToldAfter;
    hide Select;
    ChoiceIsValid(k, dev, opus);
    var m := Choose(k, dev, opus);
    var news := [TransportItem(k, m), FormatItem(k, m)];
    NewsUnderstood(k, ToldAfter(k, s.told, Pipe(k, s)), m);
    UnderstoodConcat(k, s.told, Pipe(k, s), news);
    assert Pipe(k, Next(k, s, Announce(dev, opus))) == Pipe(k, s) + news;
  }

  lemma ProduceSound(k: Kind, s: Session, payloads: seq<seq<Byte>>)
    requires Sound(k, s) && Enabled(k, s, Produce(payloads))
    ensures Sound(k, Next(k, s, Produce(payloads)))
  {
    hide Understood;
    hide ToldAfter;
    hide Select;
    hide DataItems;
    var items := DataItems(k, s.out.made, payloads);
    DataUnderstood(k, ToldAfter(k, s.told, Pipe(k, s)), s.out.made, payloads);
    UnderstoodConcat(k, s.told, Pipe(k, s), items);
    assert Pipe(k, Next(k, s, Produce(payloads))) == Pipe(k, s) + items;
  }

  /** Everything pending belongs to this stream. */
  ghost predicate OwnPending(k: Kind, s: Session) {
    forall i :: 0 <= i < |s.pend| ==> s.pend[i].kind == k
  }

  lemma PushSound(k: Kind, s: Session)
    requires Sound(k, s) && OwnPending(k, s) && s.pend != []
    ensures Sound(k, Next(k, s, PushOne))
  {
    hide Understood;
    hide ToldAfter;
    var a, f, rest := Mine(k, s.inq) + Mine(k, s.wire), s.pend[0], s.pend[1..];
    SelectAppend(IsKind(k), s.lane, f);
    PendingNext(a, Mine(k, s.lane), s.pend);
    PushUnderstood(k, s.told, a, s.lane, f, rest);
  }

  lemma PendingNext(a: seq<Item>, l: seq<Item>, pend: seq<Item>)
    requires pend != []
    ensures (a + l) + pend == (a + (l + [pend[0]])) + pend[1..]
  {
  }

  lemma OtherPushSound(k: Kind, s: Session, x: Item)
    requires Sound(k, s) && x.kind != k
    ensures Sound(k, Next(k, s, OtherPush(x)))
  {
    hide Understood;
    hide ToldAfter;
    SelectAppend(IsKind(k), s.lane, x);
    assert Mine(k, s.lane) + [] == Mine(k, s.lane);
    PushUnderstood(k, s.told, Mine(k, s.inq) + Mine(k, s.wire), s.lane, x, s.pend);
  }

  lemma MineHead(k: Kind, xs: seq<Item>)
    requires xs != []
    ensures Mine(k, xs) == If(IsKind(k), xs[0]) + Mine(k, xs[1..])
  {
    assert xs == [xs[0]] + xs[1..];
    SelectConcat(IsKind(k), [xs[0]], xs[1..]);
    SelectAppend(IsKind(k), [], xs[0]);
    assert [] + [xs[0]] == [xs[0]];
  }

  lemma WriteSound(k: Kind, s: Session)
    requires Sound(k, s) && s.lane != []
    ensures Sound(k, Next(k, s, Write))
  {
    hide Understood;
    hide ToldAfter;
    hide Select;
    MineHead(k, s.lane);
    SelectAppend(IsKind(k), s.wire, s.lane[0]);
    Moved(Mine(k, s.inq), Mine(k, s.wire), If(IsKind(k), s.lane[0]), Mine(k, s.lane[1..]), s.pend);
  }

  lemma Moved(a: seq<Item>, w: seq<Item>, x: seq<Item>, l: seq<Item>, b: seq<Item>)
    ensures ((a + (w + x)) + l) + b == ((a + w) + (x + l)) + b
  {
  }

  lemma ArriveSound(k: Kind, s: Session, full: bool)
    requires Sound(k, s) && s.wire != []
    ensures Sound(k, Next(k, s, Arrive(full)))
  {
    hide Understood;
    hide ToldAfter;
    hide Select;
    var x := s.wire[0];
    var q, w, rest := Mine(k, s.inq), Mine(k, s.wire[1..]), Mine(k, s.lane) + s.pend;
    MineHead(k, s.wire);
    SelectAppend(IsKind(k), s.inq, x);
    Arrived(q, If(IsKind(k), x), w, Mine(k, s.lane), s.pend);
    assert q + [] == q && [] + w == w;
    if full && IsDataItem()(x) && x.kind == k {
      assert Pipe(k, s) == (q + [x]) + (w + rest);
      UnderstoodWithout(k, s.told, q, x, w + rest);
      assert Pipe(k, Next(k, s, Arrive(full))) == q + (w + rest) by {
        Arrived(q, [], w, Mine(k, s.lane), s.pend);
      }
    }
  }

  lemma Arrived(q: seq<Item>, x: seq<Item>, w: seq<Item>, l: seq<Item>, b: seq<Item>)
    ensures ((q + (x + w)) + l) + b == (((q + x) + w) + l) + b
    ensures ((q + (x + w)) + l) + b == (q + x) + (w + (l + b))
    ensures x == [] ==> ((q + w) + l) + b == q + (w + (l + b))
  {
  }

  lemma HandleAgrees(k: Kind, r: In, t: Told, x: Item, decoderOk: bool)
    requires Agrees(r, t)
    requires IsTransport(k, x) || (IsFormat(k, x) && t.mode == Some(x.made.mode)) || IsData(k, x)
    ensures Agrees(Handle(k, r, x, decoderOk), Tell(k, t, x))
  {
    if ValidMade(x.made) {
      AnnouncedFormatUnderstood(x.made.rate, x.made.channels);
    }
  }

  lemma ReceiveSound(k: Kind, s: Session, decoderOk: bool, packetOk: bool)
    requires Sound(k, s) && s.inq != []
    ensures Sound(k, Next(k, s, Receive(decoderOk, packetOk)))
  {
    hide Select;
    var x := s.inq[0];
    MineHead(k, s.inq);
    var rest := ((Mine(k, s.inq[1..]) + Mine(k, s.wire)) + Mine(k, s.lane)) + s.pend;
    assert Pipe(k, s) == If(IsKind(k), x) + rest by {
      Arrived(If(IsKind(k), x), [], Mine(k, s.inq[1..]) + Mine(k, s.wire), Mine(k, s.lane), s.pend);
    }
    if x.kind == k {
      assert Pipe(k, s)[0] == x && Pipe(k, s)[1..] == rest;
      HandleAgrees(k, s.receiver, s.told, x, decoderOk);
    } else {
      assert [] + rest == rest;
    }
  }

  lemma {:induction false} DataItemsOwn(k: Kind, m: Made, payloads: seq<seq<Byte>>)
    ensures forall i :: 0 <= i < |DataItems(k, m, payloads)| ==> DataItems(k, m, payloads)[i].kind == k
  {
    if payloads != [] {
      DataItemsOwn(k, m, payloads[..|payloads| - 1]);
    }
  }

  lemma StepSound(k: Kind, s: Session, e: Event)
    requires Sound(k, s) && OwnPending(k, s) && Enabled(k, s, e)
    ensures Sound(k, Next(k, s, e)) && OwnPending(k, Next(k, s, e))
  {
    hide Sound;
    match e
    case Announce(dev, opus) => AnnounceSound(k, s, dev, opus);
    case Produce(payloads) => ProduceSound(k, s, payloads); DataItemsOwn(k, s.out.made, payloads);
    case Forget => ForgetSound(k, s);
    case PushOne => PushSound(k, s);
    case OtherPush(x) => OtherPushSound(k, s, x);
    case Write => WriteSound(k, s);
    case Arrive(full) => ArriveSound(k, s, full);
    case Receive(decoderOk, packetOk) => ReceiveSound(k, s, decoderOk, packetOk);
  }

  lemma ForgetSound(k: Kind, s: Session)
    requires Sound(k, s) && s.pend == []
    ensures Sound(k, Next(k, s, Forget))
  {
    assert Pipe(k, Next(k, s, Forget)) == Pipe(k, s);
  }

  ghost predicate IsRun(k: Kind, states: seq<Session>, events: seq<Event>) {
    && |states| == |events| + 1
    && states[0] == START
    && forall i :: 0 <= i < |events| ==> Enabled(k, states[i], events[i]) && states[i + 1] == Next(k, states[i], events[i])
  }

  lemma {:induction false} RunSound(k: Kind, states: seq<Session>, events: seq<Event>)
    requires IsRun(k, states, events)
    ensures Sound(k, states[|events|]) && OwnPending(k, states[|events|])
    decreases |events|
  {
    if events == [] {
      assert Pipe(k, START) == [];
    } else {
      var n := |events| - 1;
      RunSound(k, states[..n + 1], events[..n]);
      StepSound(k, states[n], events[n]);
    }
  }

  /** Decoded with the transport and format it was made with. */
  ghost predicate PlayedAsMade(p: Played, m: Made) {
    match p
    case Dropped => true
    case Pcm(spec, _) => m.mode == PcmMode && spec == WireSpec(m)
    case Opus(spec, _) => m.mode == OpusMode && spec == WireSpec(m)
  }

  /** Agreement, in every run: whatever was dropped on the way, each data frame the
      receiver decodes is decoded under exactly the settings it was made under. */
  lemma AudioAgreement(k: Kind, states: seq<Session>, events: seq<Event>, decoderOk: bool, packetOk: bool)
    requires IsRun(k, states, events)
    requires var s := states[|events|];
             Enabled(k, s, Receive(decoderOk, packetOk)) && s.inq[0].kind == k && s.inq[0].frame.kind == DataMsg(k)
    ensures var s := states[|events|];
            InOk(s.receiver) && PlayedAsMade(OnData(s.receiver, s.inq[0].frame.payload, packetOk), s.inq[0].made)
  {
    RunSound(k, states, events);
    var s := states[|events|];
    MineHead(k, s.inq);
    assert Pipe(k, s)[0] == s.inq[0];
  }
}
