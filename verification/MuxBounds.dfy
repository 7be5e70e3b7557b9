/** The waiting bounds of SendMux are exact: for every lane there is a run, from the empty
    mux and with producers that only enqueue, in which a frame waits behind as many other
    sends as the bound allows. And exactly when one drain sends a frame too many. */
module MuxBounds {
  import opened Bytes
  import opened Options
  import opened Frames
  import opened SendMux
  import AudioLane
  import MouseLane
  import EnqueueSend

  // Producers that enqueue

  predicate Extends(q: seq<Frame>, r: seq<Frame>, cap: nat) {
    q <= r && |r| <= cap
  }

  /** Between two writer steps frames are enqueued, as far as the lanes have room, and
      audio sets the wake-up signal. */
  ghost predicate Adds(s: Mux, t: Mux) {
    && t.pc == s.pc
    && Extends(s.mouse, t.mouse, MouseLane.MOUSE_CAP) && Extends(s.high, t.high, EnqueueSend.HIGH_CAP)
    && Extends(s.audio, t.audio, AudioLane.AUDIO_CAP) && Extends(s.file, t.file, EnqueueSend.FILE_CAP)
    && (t.sig <==> s.sig || s.audio != t.audio)
  }

  ghost predicate RealStep(s: Mux, t: Mux, l: Label) {
    Step(s, t, l) && (l.Others? ==> Adds(s, t))
  }

  ghost predicate Real(states: seq<Mux>, labels: seq<Label>) {
    |states| == |labels| + 1 && forall k :: 0 <= k < |labels| ==> RealStep(states[k], states[k + 1], labels[k])
  }

  /** How many frames are queued in each lane. */
  datatype Load = Load(mouse: nat, high: nat, audio: nat, file: nat)

  predicate Fits(l: Load) {
    && l.mouse <= MouseLane.MOUSE_CAP && l.high <= EnqueueSend.HIGH_CAP
    && l.audio <= AudioLane.AUDIO_CAP && l.file <= EnqueueSend.FILE_CAP
  }

  function Same(kind: Byte, n: nat): (q: seq<Frame>)
    ensures |q| == n
  {
    if n == 0 then [] else Same(kind, n - 1) + [Frame(kind, [])]
  }

  lemma {:induction false} SomeTail(kind: Byte, n: nat)
    ensures n > 0 ==> Same(kind, n)[1..] == Same(kind, n - 1)
  {
    if n > 1 {
      SomeTail(kind, n - 1);
    }
  }

  lemma {:induction false} SomeMore(kind: Byte, n: nat, m: nat)
    requires n <= m
    ensures Same(kind, n) <= Same(kind, m)
  {
    if n < m {
      SomeMore(kind, n, m - 1);
    }
  }

  function Now(pc: Pc, l: Load, sig: bool): Mux {
    Mux(pc, Same(MSG_MOUSE_MOVE, l.mouse), Same(MSG_KEY_DOWN, l.high),
        Same(MSG_AUDIO_DATA, l.audio), Same(MSG_FILE_CHUNK, l.file), sig)
  }

  /** The lane the writer serves next, where it does not have a choice. */
  function Serves(pc: Pc, l: Load): Option<Lane> {
    match pc
    case Mouse(_) => if l.mouse > 0 then Some(MouseLane) else None
    case High(_) => if l.high > 0 then Some(HighLane) else None
    case Audio(i, _) => if i < AUDIO_BURST && l.audio > 0 then Some(AudioQueue) else None
    case FileSlot(_) => if l.file > 0 then Some(FileLane) else None
    case Idle => if l.mouse > 0 then Some(MouseLane) else None
    case _ => None
  }

  function Served(l: Load, lane: Option<Lane>): Load {
    match lane
    case Some(MouseLane) => if l.mouse > 0 then l.(mouse := l.mouse - 1) else l
    case Some(HighLane) => if l.high > 0 then l.(high := l.high - 1) else l
    case Some(AudioQueue) => if l.audio > 0 then l.(audio := l.audio - 1) else l
    case Some(FileLane) => if l.file > 0 then l.(file := l.file - 1) else l
    case _ => l
  }

  function PcAfter(pc: Pc, l: Load): Pc {
    match pc
    case Mouse(n) => High(if l.mouse > 0 then n + 1 else n)
    case High(n) => if l.high == 0 then Audio(0, n > 0) else if n + 1 < BURST then Mouse(n + 1) else Audio(0, true)
    case Audio(i, progressed) => if i < AUDIO_BURST && l.audio > 0 then PeekMouse(i + 1) else FileSlot(progressed)
    case PeekMouse(i) => if l.mouse > 0 then FileSlot(true) else PeekHigh(i)
    case PeekHigh(i) => if l.high > 0 then FileSlot(true) else Audio(i, true)
    case FileSlot(progressed) => if l.file > 0 || progressed then Mouse(0) else Idle
    case Idle => Mouse(0)
  }

  lemma WriterGoes(pc: Pc, l: Load, sig: bool)
    ensures WriterStep(Now(pc, l, sig), Now(PcAfter(pc, l), Served(l, Serves(pc, l)), sig), Serves(pc, l))
  {
    hide Same;
    SomeTail(MSG_MOUSE_MOVE, l.mouse);
    SomeTail(MSG_KEY_DOWN, l.high);
    SomeTail(MSG_AUDIO_DATA, l.audio);
    SomeTail(MSG_FILE_CHUNK, l.file);
  }

  predicate Grows(l: Load, m: Load) {
    l.mouse <= m.mouse && l.high <= m.high && l.audio <= m.audio && l.file <= m.file && Fits(m)
  }

  lemma ProducersAdd(pc: Pc, l: Load, m: Load, sig: bool)
    requires Grows(l, m)
    ensures Adds(Now(pc, l, sig), Now(pc, m, sig || m.audio > l.audio))
  {
    SomeMore(MSG_MOUSE_MOVE, l.mouse, m.mouse);
    SomeMore(MSG_KEY_DOWN, l.high, m.high);
    SomeMore(MSG_AUDIO_DATA, l.audio, m.audio);
    SomeMore(MSG_FILE_CHUNK, l.file, m.file);
    hide Same;
  }

  // Traces

  datatype Trace = Trace(states: seq<Mux>, labels: seq<Label>)

  /** A real run from `first` that has come to this position, load and number of sends;
      all through it `waiting` has something queued and is not served. */
  ghost predicate At(first: Mux, waiting: Option<Lane>, r: Trace, pc: Pc, l: Load, sig: bool, sends: nat) {
    && Real(r.states, r.labels) && r.states[0] == first && r.states[|r.labels|] == Now(pc, l, sig)
    && Sends(r.labels) == sends
    && (waiting.Some? ==>
          && (forall k :: 0 <= k < |r.states| ==> Queued(r.states[k], waiting.value))
          && forall k :: 0 <= k < |r.labels| ==> r.labels[k] != Writer(waiting))
  }

  predicate Loaded(l: Load, lane: Lane) {
    match lane
    case MouseLane => l.mouse > 0
    case HighLane => l.high > 0
    case AudioQueue => l.audio > 0
    case FileLane => l.file > 0
    case Heartbeat => false
  }

  lemma SendsSnoc(labels: seq<Label>, l: Label)
    ensures Sends(labels + [l]) == Sends(labels) + (if l.Writer? then Cost(l.sent) else 0)
  {
    assert (labels + [l])[..|labels|] == labels;
  }

  lemma RealSnoc(r: Trace, l: Label, t: Mux)
    requires Real(r.states, r.labels) && RealStep(r.states[|r.labels|], t, l)
    ensures Real(r.states + [t], r.labels + [l])
  {
    hide RealStep;
    var states, labels := r.states + [t], r.labels + [l];
    forall k | 0 <= k < |labels|
      ensures RealStep(states[k], states[k + 1], labels[k])
    {
      if k < |r.labels| {
        assert RealStep(r.states[k], r.states[k + 1], r.labels[k]);
      }
    }
  }

  lemma Snoc(first: Mux, waiting: Option<Lane>, r: Trace, pc: Pc, l: Load, sig: bool, sends: nat,
             step: Label, pc': Pc, l': Load, sig': bool)
    requires At(first, waiting, r, pc, l, sig, sends)
    requires RealStep(Now(pc, l, sig), Now(pc', l', sig'), step)
    requires waiting.Some? ==> Loaded(l', waiting.value) && step != Writer(waiting)
    ensures At(first, waiting, Trace(r.states + [Now(pc', l', sig')], r.labels + [step]), pc', l', sig',
               sends + (if step.Writer? then Cost(step.sent) else 0))
  {
    RealSnoc(r, step, Now(pc', l', sig'));
    SendsSnoc(r.labels, step);
    hide RealStep;
    hide Real;
    hide Sends;
  }

  /** The writer takes one step. */
  lemma Go(first: Mux, waiting: Option<Lane>, r: Trace, pc: Pc, l: Load, sig: bool, sends: nat) returns (t: Trace)
    requires At(first, waiting, r, pc, l, sig, sends)
    requires waiting.Some? ==> Loaded(l, waiting.value) && Serves(pc, l) != waiting
    ensures At(first, waiting, t, PcAfter(pc, l), Served(l, Serves(pc, l)), sig, sends + Cost(Serves(pc, l)))
  {
    hide At;
    hide Now;
    WriterGoes(pc, l, sig);
    var l', step := Served(l, Serves(pc, l)), Writer(Serves(pc, l));
    Snoc(first, waiting, r, pc, l, sig, sends, step, PcAfter(pc, l), l', sig);
    t := Trace(r.states + [Now(PcAfter(pc, l), l', sig)], r.labels + [step]);
  }

  /** The producers enqueue what is missing to this load. */
  lemma Fill(first: Mux, waiting: Option<Lane>, r: Trace, pc: Pc, l: Load, sig: bool, sends: nat, m: Load)
    returns (t: Trace, sig': bool)
    requires At(first, waiting, r, pc, l, sig, sends) && Grows(l, m)
    requires waiting.Some? ==> Loaded(m, waiting.value)
    ensures At(first, waiting, t, pc, m, sig', sends)
  {
    hide At;
    ProducersAdd(pc, l, m, sig);
    sig' := sig || m.audio > l.audio;
    Snoc(first, waiting, r, pc, l, sig, sends, Others, pc, m, sig');
    t := Trace(r.states + [Now(pc, m, sig')], r.labels + [Others]);
  }

  const EMPTY := Load(0, 0, 0, 0)

  const START := Mux(Mouse(0), [], [], [], [], false)

  lemma Begin(pc: Pc, l: Load, sig: bool, waiting: Option<Lane>) returns (r: Trace)
    requires waiting.Some? ==> Loaded(l, waiting.value)
    ensures At(Now(pc, l, sig), waiting, r, pc, l, sig, 0)
  {
    r := Trace([Now(pc, l, sig)], []);
  }

  /** The lane gets its first frame here, in a run from the empty mux, and then waits
      behind that many other sends. */
  ghost predicate WaitsBehind(lane: Lane, before: Trace, during: Trace, sends: nat) {
    && Real(before.states, before.labels) && before.states[0] == START
    && |before.labels| > 0 && !Queued(before.states[|before.labels| - 1], lane)
    && Real(during.states, during.labels) && during.states[0] == before.states[|before.labels|]
    && (forall k :: 0 <= k < |during.states| ==> Queued(during.states[k], lane))
    && (forall k :: 0 <= k < |during.labels| ==> during.labels[k] != Writer(Some(lane)))
    && Sends(during.labels) == sends
  }

  /** Up to here the lane is empty; then the producers bring the load to m. */
  lemma Arrive(lane: Lane, r: Trace, pc: Pc, l: Load, sig: bool, sends: nat, m: Load)
    returns (before: Trace, during: Trace, sig': bool)
    requires At(START, None, r, pc, l, sig, sends) && !Loaded(l, lane) && Loaded(m, lane) && Grows(l, m)
    ensures At(Now(pc, m, sig'), Some(lane), during, pc, m, sig', 0)
    ensures Real(before.states, before.labels) && before.states[0] == START
    ensures |before.labels| > 0 && !Queued(before.states[|before.labels| - 1], lane)
    ensures before.states[|before.labels|] == Now(pc, m, sig')
  {
    ProducersAdd(pc, l, m, sig);
    sig' := sig || m.audio > l.audio;
    hide Adds;
    Snoc(START, None, r, pc, l, sig, sends, Others, pc, m, sig');
    before := Trace(r.states + [Now(pc, m, sig')], r.labels + [Others]);
    assert before.states[|r.labels|] == Now(pc, l, sig);
    during := Begin(pc, m, sig', Some(lane));
  }

  lemma FromStart() returns (r: Trace)
    ensures At(START, None, r, Mouse(0), EMPTY, false, 0)
  {
    r := Begin(Mouse(0), EMPTY, false, None);
  }

  // The four witnesses

  /** One mouse move and one control frame in the drain, audio and files waiting. */
  lemma Pair(first: Mux, lane: Lane, r: Trace, n: nat, l: Load, sig: bool, sends: nat) returns (t: Trace, sig': bool)
    requires (lane == AudioQueue || lane == FileLane) && Loaded(l, lane) && Fits(l)
    requires n + 1 < BURST + 1 && l.mouse == 0 && l.high > 0 && At(first, Some(lane), r, Mouse(n), l, sig, sends)
    ensures At(first, Some(lane), t, if n + 2 < BURST then Mouse(n + 2) else Audio(0, true),
               l.(high := l.high - 1), sig', sends + 2)
  {
    hide At;
    t, sig' := Fill(first, Some(lane), r, Mouse(n), l, sig, sends, l.(mouse := 1));
    t := Go(first, Some(lane), t, Mouse(n), l.(mouse := 1), sig', sends);
    t := Go(first, Some(lane), t, High(n + 1), l, sig', sends + 1);
  }

  /** A drain that sends 17 frames: a control frame alone, then eight pairs. */
  lemma DrainOverruns(first: Mux, lane: Lane, r: Trace, l: Load, sig: bool, sends: nat) returns (t: Trace, sig': bool)
    requires (lane == AudioQueue || lane == FileLane) && Loaded(l, lane) && Fits(l)
    requires l.mouse == 0 && l.high == 9 && At(first, Some(lane), r, Mouse(0), l, sig, sends)
    ensures At(first, Some(lane), t, Audio(0, true), l.(high := 0), sig', sends + 17)
  {
    hide At;
    t := Go(first, Some(lane), r, Mouse(0), l, sig, sends);
    t := Go(first, Some(lane), t, High(0), l, sig, sends);
    var n: nat := 0;
    sig' := sig;
    while n < 8
      invariant n <= 8
      invariant At(first, Some(lane), t, if n < 8 then Mouse(2 * n + 1) else Audio(0, true),
                   l.(high := 8 - n), sig', sends + 1 + 2 * n)
    {
      t, sig' := Pair(first, lane, t, 2 * n + 1, l.(high := 8 - n), sig', sends + 1 + 2 * n);
      n := n + 1;
    }
  }

  lemma MouseWaits() returns (before: Trace, during: Trace)
    ensures WaitsBehind(MouseLane, before, during, WaitBound(MouseLane))
  {
    hide At;
    var sig := false;
    var r := FromStart();
    r, sig := Fill(START, None, r, Mouse(0), EMPTY, sig, 0, Load(0, 16, 1, 1));
    var n: nat := 0;
    while n < 15
      invariant n <= 15 && At(START, None, r, Mouse(n), Load(0, 16 - n, 1, 1), sig, n)
    {
      r := Go(START, None, r, Mouse(n), Load(0, 16 - n, 1, 1), sig, n);
      r := Go(START, None, r, High(n), Load(0, 16 - n, 1, 1), sig, n);
      n := n + 1;
    }
    r := Go(START, None, r, Mouse(15), Load(0, 1, 1, 1), sig, 15);
    before, during, sig := Arrive(MouseLane, r, High(15), Load(0, 1, 1, 1), sig, 15, Load(1, 1, 1, 1));
    var first, w := Now(High(15), Load(1, 1, 1, 1), sig), Some(MouseLane);
    during := Go(first, w, during, High(15), Load(1, 1, 1, 1), sig, 0);
    during := Go(first, w, during, Audio(0, true), Load(1, 0, 1, 1), sig, 1);
    during := Go(first, w, during, PeekMouse(1), Load(1, 0, 0, 1), sig, 2);
    during := Go(first, w, during, FileSlot(true), Load(1, 0, 0, 1), sig, 2);
    Reached(MouseLane, before, during, first, Mouse(0), Load(1, 0, 0, 0), sig, 3);
  }

  lemma Reached(lane: Lane, before: Trace, during: Trace, first: Mux, pc: Pc, l: Load, sig: bool, sends: nat)
    requires Real(before.states, before.labels) && before.states[0] == START
    requires |before.labels| > 0 && !Queued(before.states[|before.labels| - 1], lane)
    requires before.states[|before.labels|] == first && At(first, Some(lane), during, pc, l, sig, sends)
    ensures WaitsBehind(lane, before, during, sends)
  {
  }

  lemma HighWaits() returns (before: Trace, during: Trace)
    ensures WaitsBehind(HighLane, before, during, WaitBound(HighLane))
  {
    hide At;
    var sig := false;
    var r := FromStart();
    r := Go(START, None, r, Mouse(0), EMPTY, sig, 0);
    r := Go(START, None, r, High(0), EMPTY, sig, 0);
    var all := Load(1, 1, 1, 1);
    before, during, sig := Arrive(HighLane, r, Audio(0, false), EMPTY, sig, 0, all);
    var first, w := Now(Audio(0, false), all, sig), Some(HighLane);
    during := Go(first, w, during, Audio(0, false), all, sig, 0);
    during := Go(first, w, during, PeekMouse(1), Load(1, 1, 0, 1), sig, 1);
    during := Go(first, w, during, FileSlot(true), Load(1, 1, 0, 1), sig, 1);
    during := Go(first, w, during, Mouse(0), Load(1, 1, 0, 0), sig, 2);
    Reached(HighLane, before, during, first, High(1), Load(0, 1, 0, 0), sig, 3);
  }

  /** The writer looks at every lane and finds nothing, up to the file slot. */
  lemma NothingFound() returns (r: Trace)
    ensures At(START, None, r, FileSlot(false), EMPTY, false, 0)
  {
    hide At;
    r := FromStart();
    r := Go(START, None, r, Mouse(0), EMPTY, false, 0);
    r := Go(START, None, r, High(0), EMPTY, false, 0);
    r := Go(START, None, r, Audio(0, false), EMPTY, false, 0);
  }

  lemma AudioWaits() returns (before: Trace, during: Trace)
    ensures WaitsBehind(AudioQueue, before, during, WaitBound(AudioQueue))
  {
    hide At;
    var sig := false;
    var r := NothingFound();
    var l := Load(0, 9, 1, 1);
    before, during, sig := Arrive(AudioQueue, r, FileSlot(false), EMPTY, sig, 0, l);
    var first, w := Now(FileSlot(false), l, sig), Some(AudioQueue);
    during := Go(first, w, during, FileSlot(false), l, sig, 0);
    during, sig := DrainOverruns(first, AudioQueue, during, l.(file := 0), sig, 1);
    Reached(AudioQueue, before, during, first, Audio(0, true), Load(0, 0, 1, 0), sig, 18);
  }

  /** One audio frame with no input waiting after it. */
  lemma AudioTurn(first: Mux, r: Trace, i: nat, queued: nat, sig: bool, sends: nat) returns (t: Trace)
    requires i < AUDIO_BURST && queued > 0
    requires At(first, Some(FileLane), r, Audio(i, true), Load(0, 0, queued, 1), sig, sends)
    ensures At(first, Some(FileLane), t, Audio(i + 1, true), Load(0, 0, queued - 1, 1), sig, sends + 1)
  {
    hide At;
    var left := Load(0, 0, queued - 1, 1);
    t := Go(first, Some(FileLane), r, Audio(i, true), Load(0, 0, queued, 1), sig, sends);
    t := Go(first, Some(FileLane), t, PeekMouse(i + 1), left, sig, sends + 1);
    t := Go(first, Some(FileLane), t, PeekHigh(i + 1), left, sig, sends + 1);
  }

  lemma FileWaits() returns (before: Trace, during: Trace)
    ensures WaitsBehind(FileLane, before, during, WaitBound(FileLane))
  {
    hide At;
    var sig := false;
    var r := NothingFound();
    r := Go(START, None, r, FileSlot(false), EMPTY, sig, 0);
    var l := Load(1, 9, 4, 1);
    before, during, sig := Arrive(FileLane, r, Idle, EMPTY, sig, 0, l);
    var first, w := Now(Idle, l, sig), Some(FileLane);
    during := Go(first, w, during, Idle, l, sig, 0);
    during, sig := DrainOverruns(first, FileLane, during, l.(mouse := 0), sig, 1);
    var i: nat := 0;
    while i < AUDIO_BURST
      invariant i <= AUDIO_BURST && At(first, w, during, Audio(i, true), Load(0, 0, 4 - i, 1), sig, 18 + i)
    {
      during := AudioTurn(first, during, i, 4 - i, sig, 18 + i);
      i := i + 1;
    }
    Reached(FileLane, before, during, first, Audio(4, true), Load(0, 0, 0, 1), sig, 22);
  }

  /** For every lane the bound is reached, by producers that only enqueue, from the empty
      mux on, counted from the moment the lane gets its first frame. */
  lemma BoundsAttained(lane: Lane) returns (before: Trace, during: Trace)
    requires lane != Heartbeat
    ensures WaitsBehind(lane, before, during, WaitBound(lane))
  {
    match lane
    case MouseLane => before, during := MouseWaits();
    case HighLane => before, during := HighWaits();
    case AudioQueue => before, during := AudioWaits();
    case FileLane => before, during := FileWaits();
  }

  // One drain

  predicate Draining(pc: Pc) {
    pc.Mouse? || pc.High?
  }

  /** Before step n, some step at this position served this lane. */
  ghost predicate ServedAt(states: seq<Mux>, labels: seq<Label>, n: nat, pc: Pc, lane: Lane)
    requires n <= |labels| < |states|
  {
    exists k :: 0 <= k < n && states[k].pc == pc && labels[k] == Writer(Some(lane))
  }

  /** One call of drainHighPriority, up to some step. */
  ghost predicate Drains(states: seq<Mux>, labels: seq<Label>) {
    && IsRun(states, labels) && states[0].pc == Mouse(0)
    && forall k :: 0 <= k < |labels| ==> Draining(states[k].pc)
  }

  lemma {:induction false} DrainCounts(states: seq<Mux>, labels: seq<Label>, n: nat)
    requires Drains(states, labels) && n < |states| && Draining(states[n].pc)
    ensures PcOk(states[n].pc) && states[n].pc.sent == Sends(labels[..n])
    ensures states[n].pc == High(BURST) ==> ServedAt(states, labels, n, Mouse(BURST - 1), MouseLane)
    ensures !ServedAt(states, labels, n, High(BURST), HighLane)
  {
    if n > 0 {
      var m := n - 1;
      assert Step(states[m], states[n], labels[m]);
      assert labels[..n] == labels[..m] + [labels[m]];
      SendsSnoc(labels[..m], labels[m]);
      DrainCounts(states, labels, m);
      DrainStep(states[m], states[n], labels[m]);
    }
  }

  lemma DrainStep(s: Mux, t: Mux, l: Label)
    requires Step(s, t, l) && PcOk(s.pc) && Draining(s.pc)
    ensures Draining(t.pc) ==> PcOk(t.pc) && t.pc.sent == s.pc.sent + (if l.Writer? then Cost(l.sent) else 0)
    ensures t.pc == High(BURST) ==> s.pc == High(BURST) || (s.pc == Mouse(BURST - 1) && l == Writer(Some(MouseLane)))
    ensures s.pc == High(BURST) && l == Writer(Some(HighLane)) ==> !Draining(t.pc)
    ensures !Draining(t.pc) ==> s.pc.High? && l.Writer? && (l.sent.Some? ==> l.sent == Some(HighLane))
  {
  }

  /** One drain sends at most 17 frames, and 17 exactly when it finds a mouse move after 15
      sends and then a control frame as well. */
  lemma DrainSends17(states: seq<Mux>, labels: seq<Label>)
    requires Drains(states, labels) && !Draining(states[|labels|].pc)
    ensures Sends(labels) <= BURST + 1
    ensures Sends(labels) == BURST + 1 <==>
            && ServedAt(states, labels, |labels|, Mouse(BURST - 1), MouseLane)
            && ServedAt(states, labels, |labels|, High(BURST), HighLane)
  {
    var n := |labels| - 1;
    DrainCounts(states, labels, n);
    assert Step(states[n], states[n + 1], labels[n]);
    DrainStep(states[n], states[n + 1], labels[n]);
    assert labels == labels[..n] + [labels[n]];
    SendsSnoc(labels[..n], labels[n]);
  }
}
