/** The single writer of the send mux and its four lanes (internal/app/send_mux.go).

    The writer is a state machine: one step is one channel or lane operation,
    together with the send it leads to. Producers act between any two steps. */
module SendMux {
  import opened Options
  import opened Frames
  import AudioLane

  const BURST := 16
  const AUDIO_BURST := 4

  datatype Lane = MouseLane | HighLane | AudioQueue | FileLane | Heartbeat

  /** Where the writer stands in muxLoop. */
  datatype Pc =
    | Mouse(sent: nat)                   // drain: about to try the mouse lane
    | High(sent: nat)                    // drain: about to try the high lane
    | Audio(i: nat, progressed: bool)    // audio burst: about to pop
    | PeekMouse(i: nat)                  // after an audio frame: is a mouse move waiting?
    | PeekHigh(i: nat)                   // ... or a control frame?
    | FileSlot(progressed: bool)         // one file chunk per cycle
    | Idle                               // blocked in the idle select

  datatype Mux = Mux(pc: Pc, mouse: seq<Frame>, high: seq<Frame>, audio: seq<Frame>, file: seq<Frame>, sig: bool)

  /** Counters stay where the loops of the source keep them. */
  predicate PcOk(pc: Pc) {
    match pc
    case Mouse(n) => n < BURST
    case High(n) => n <= BURST
    case Audio(i, progressed) => i <= AUDIO_BURST && (!progressed ==> i == 0)
    case PeekMouse(i) => 1 <= i <= AUDIO_BURST
    case PeekHigh(i) => 1 <= i <= AUDIO_BURST
    case FileSlot(_) => true
    case Idle => true
  }

  /** One writer step; `sent` is the lane whose frame was sent, if any. */
  ghost predicate WriterStep(s: Mux, t: Mux, sent: Option<Lane>) {
    match s.pc
    case Mouse(n) =>
      if s.mouse != [] then t == s.(pc := High(n + 1), mouse := s.mouse[1..]) && sent == Some(MouseLane)
      else t == s.(pc := High(n)) && sent == None
    case High(n) =>
      if s.high != [] then
        && t == s.(pc := if n + 1 < BURST then Mouse(n + 1) else Audio(0, true), high := s.high[1..])
        && sent == Some(HighLane)
      else t == s.(pc := Audio(0, n > 0)) && sent == None
    case Audio(i, progressed) =>
      if i < AUDIO_BURST && s.audio != [] then
        t == s.(pc := PeekMouse(i + 1), audio := s.audio[1..]) && sent == Some(AudioQueue)
      else t == s.(pc := FileSlot(progressed)) && sent == None
    case PeekMouse(i) =>
      t == s.(pc := if s.mouse != [] then FileSlot(true) else PeekHigh(i)) && sent == None
    case PeekHigh(i) =>
      t == s.(pc := if s.high != [] then FileSlot(true) else Audio(i, true)) && sent == None
    case FileSlot(progressed) =>
      if s.file != [] then t == s.(pc := Mouse(0), file := s.file[1..]) && sent == Some(FileLane)
      else t == s.(pc := if progressed then Mouse(0) else Idle) && sent == None
    case Idle =>
      || (s.mouse != [] && t == s.(pc := Mouse(0), mouse := s.mouse[1..]) && sent == Some(MouseLane))
      || (s.high != [] && t == s.(pc := Mouse(0), high := s.high[1..]) && sent == Some(HighLane))
      || (s.sig && t == s.(pc := Mouse(0), sig := false) && sent == None)
      || (s.file != [] && t == s.(pc := Mouse(0), file := s.file[1..]) && sent == Some(FileLane))
      || (t == s.(pc := Mouse(0)) && (sent == None || sent == Some(Heartbeat)))
  }

  /** Anything the producers may have done between two writer steps. */
  ghost predicate OthersStep(s: Mux, t: Mux) {
    t.pc == s.pc
  }

  datatype Label = Writer(sent: Option<Lane>) | Others

  ghost predicate Step(s: Mux, t: Mux, l: Label) {
    match l
    case Writer(sent) => WriterStep(s, t, sent)
    case Others => OthersStep(s, t)
  }

  /** states[k] --labels[k]--> states[k + 1] for every k. */
  ghost predicate IsRun(states: seq<Mux>, labels: seq<Label>) {
    && |states| == |labels| + 1
    && forall k :: 0 <= k < |labels| ==> Step(states[k], states[k + 1], labels[k])
  }

  function First(q: seq<Frame>): seq<Frame> {
    if q == [] then [] else [q[0]]
  }

  /** The frame a step puts on the wire: the head of the lane it serves. */
  function Outgoing(s: Mux, l: Label): seq<Frame> {
    if l.Others? || l.sent.None? then []
    else match l.sent.value
      case MouseLane => First(s.mouse)
      case HighLane => First(s.high)
      case AudioQueue => First(s.audio)
      case FileLane => First(s.file)
      case Heartbeat => [Frame(MSG_HEARTBEAT, [])]
  }

  function SentOver(states: seq<Mux>, labels: seq<Label>): seq<Frame>
    requires |states| >= |labels|
  {
    if labels == [] then []
    else
      var n := |labels| - 1;
      SentOver(states[..n], labels[..n]) + Outgoing(states[n], labels[n])
  }

  function Sends(labels: seq<Label>): nat {
    if labels == [] then 0
    else Sends(labels[..|labels| - 1]) + (if labels[|labels| - 1].Writer? && labels[|labels| - 1].sent.Some? then 1 else 0)
  }

  function WriterSteps(labels: seq<Label>): nat {
    if labels == [] then 0
    else WriterSteps(labels[..|labels| - 1]) + (if labels[|labels| - 1].Writer? then 1 else 0)
  }

  lemma {:induction false} CountersStay(states: seq<Mux>, labels: seq<Label>, k: nat)
    requires IsRun(states, labels) && PcOk(states[0].pc) && k <= |labels|
    ensures PcOk(states[k].pc)
  {
    if k > 0 {
      CountersStay(states, labels, k - 1);
      assert Step(states[k - 1], states[k], labels[k - 1]);
    }
  }

  // Bounded waiting

  predicate Queued(s: Mux, lane: Lane) {
    match lane
    case MouseLane => s.mouse != []
    case HighLane => s.high != []
    case AudioQueue => s.audio != []
    case FileLane => s.file != []
    case Heartbeat => false
  }

  /** How many other frames can still go out before `lane` is served. */
  function Ahead(pc: Pc, lane: Lane): int {
    match lane
    case MouseLane =>
      (match pc
       case Mouse(_) => 0
       case High(n) => if n + 1 < BURST then 2 else 3
       case Audio(_, _) => 2
       case PeekMouse(_) => 1
       case PeekHigh(_) => 2
       case FileSlot(_) => 1
       case Idle => 1)
    case HighLane =>
      (match pc
       case Mouse(_) => 1
       case High(_) => 0
       case Audio(_, _) => 3
       case PeekMouse(_) => 2
       case PeekHigh(_) => 2
       case FileSlot(_) => 2
       case Idle => 2)
    case AudioQueue =>
      (match pc
       case Mouse(n) => 17 - n
       case High(n) => 17 - n
       case Audio(i, _) => if i < AUDIO_BURST then 0 else 18
       case PeekMouse(_) => 18
       case PeekHigh(_) => 18
       case FileSlot(_) => 18
       case Idle => 18)
    case FileLane =>
      (match pc
       case Mouse(n) => 21 - n
       case High(n) => 21 - n
       case Audio(i, _) => 4 - i
       case PeekMouse(i) => 4 - i
       case PeekHigh(i) => 4 - i
       case FileSlot(_) => 0
       case Idle => 22)
    case Heartbeat => 0
  }

  /** How many steps the writer can still take before `lane` is served. */
  function StepsAhead(pc: Pc, lane: Lane): int {
    match lane
    case MouseLane =>
      (match pc
       case Mouse(_) => 1
       case High(_) => 7
       case Audio(_, _) => 5
       case PeekMouse(_) => 4
       case PeekHigh(i) => 6
       case FileSlot(_) => 3
       case Idle => 2)
    case HighLane =>
      (match pc
       case Mouse(_) => 2
       case High(_) => 1
       case Audio(_, _) => 7
       case PeekMouse(_) => 6
       case PeekHigh(_) => 5
       case FileSlot(_) => 4
       case Idle => 3)
    case AudioQueue =>
      (match pc
       case Mouse(n) => 2 * (BURST - n) + 3
       case High(n) => 2 * (BURST - n) + 2
       case Audio(i, _) => if i < AUDIO_BURST then 1 else 38
       case PeekMouse(_) => 40
       case PeekHigh(_) => 39
       case FileSlot(_) => 37
       case Idle => 36)
    case FileLane =>
      (match pc
       case Mouse(n) => 2 * (BURST - n) + 16
       case High(n) => 2 * (BURST - n) + 15
       case Audio(i, _) => 3 * (AUDIO_BURST - i) + 2
       case PeekMouse(i) => 3 * (AUDIO_BURST - i) + 4
       case PeekHigh(i) => 3 * (AUDIO_BURST - i) + 3
       case FileSlot(_) => 1
       case Idle => 49)
    case Heartbeat => 0
  }

  function WaitBound(lane: Lane): int {
    match lane
    case MouseLane => 3
    case HighLane => 3
    case AudioQueue => 18
    case FileLane => 22
    case Heartbeat => 0
  }

  function StepBound(lane: Lane): int {
    match lane
    case MouseLane => 7
    case HighLane => 7
    case AudioQueue => 40
    case FileLane => 49
    case Heartbeat => 0
  }

  lemma AheadBounds(pc: Pc, lane: Lane)
    requires PcOk(pc) && lane != Heartbeat
    ensures 0 <= Ahead(pc, lane) <= WaitBound(lane)
    ensures 1 <= StepsAhead(pc, lane) <= StepBound(lane)
  {
  }

  function Cost(sent: Option<Lane>): nat {
    if sent.Some? then 1 else 0
  }

  lemma AdvanceMouse(s: Mux, t: Mux, sent: Option<Lane>)
    requires PcOk(s.pc) && Queued(s, MouseLane) && WriterStep(s, t, sent) && sent != Some(MouseLane)
    ensures PcOk(t.pc)
    ensures Ahead(t.pc, MouseLane) + Cost(sent) <= Ahead(s.pc, MouseLane)
    ensures StepsAhead(t.pc, MouseLane) + 1 <= StepsAhead(s.pc, MouseLane)
  {
    match s.pc
    case Mouse(_) =>
    case High(_) =>
    case Audio(_, _) =>
    case PeekMouse(_) =>
    case PeekHigh(_) =>
    case FileSlot(_) =>
    case Idle => assert t.pc == Mouse(0);
  }

  lemma AdvanceHigh(s: Mux, t: Mux, sent: Option<Lane>)
    requires PcOk(s.pc) && Queued(s, HighLane) && WriterStep(s, t, sent) && sent != Some(HighLane)
    ensures PcOk(t.pc)
    ensures Ahead(t.pc, HighLane) + Cost(sent) <= Ahead(s.pc, HighLane)
    ensures StepsAhead(t.pc, HighLane) + 1 <= StepsAhead(s.pc, HighLane)
  {
    match s.pc
    case Mouse(_) =>
    case High(_) =>
    case Audio(_, _) =>
    case PeekMouse(_) =>
    case PeekHigh(_) =>
    case FileSlot(_) =>
    case Idle => assert t.pc == Mouse(0);
  }

  lemma AdvanceAudio(s: Mux, t: Mux, sent: Option<Lane>)
    requires PcOk(s.pc) && Queued(s, AudioQueue) && WriterStep(s, t, sent) && sent != Some(AudioQueue)
    ensures PcOk(t.pc)
    ensures Ahead(t.pc, AudioQueue) + Cost(sent) <= Ahead(s.pc, AudioQueue)
    ensures StepsAhead(t.pc, AudioQueue) + 1 <= StepsAhead(s.pc, AudioQueue)
  {
    match s.pc
    case Mouse(_) =>
    case High(_) =>
    case Audio(_, _) =>
    case PeekMouse(_) =>
    case PeekHigh(_) =>
    case FileSlot(_) =>
    case Idle => assert t.pc == Mouse(0);
  }

  lemma AdvanceFile(s: Mux, t: Mux, sent: Option<Lane>)
    requires PcOk(s.pc) && Queued(s, FileLane) && WriterStep(s, t, sent) && sent != Some(FileLane)
    ensures PcOk(t.pc)
    ensures Ahead(t.pc, FileLane) + Cost(sent) <= Ahead(s.pc, FileLane)
    ensures StepsAhead(t.pc, FileLane) + 1 <= StepsAhead(s.pc, FileLane)
  {
    match s.pc
    case Mouse(_) =>
    case High(_) =>
    case Audio(_, _) =>
    case PeekMouse(_) =>
    case PeekHigh(_) =>
    case FileSlot(_) =>
    case Idle => assert t.pc == Mouse(0);
  }

  /** Every writer step that does not serve a waiting lane uses up one step and,
      if it sends something else, one of the sends it may still have to wait for. */
  lemma WriterAdvances(s: Mux, t: Mux, sent: Option<Lane>, lane: Lane)
    requires PcOk(s.pc) && lane != Heartbeat && Queued(s, lane)
    requires WriterStep(s, t, sent) && sent != Some(lane)
    ensures PcOk(t.pc)
    ensures Ahead(t.pc, lane) + Cost(sent) <= Ahead(s.pc, lane)
    ensures StepsAhead(t.pc, lane) + 1 <= StepsAhead(s.pc, lane)
  {
    match lane
    case MouseLane => AdvanceMouse(s, t, sent);
    case HighLane => AdvanceHigh(s, t, sent);
    case AudioQueue => AdvanceAudio(s, t, sent);
    case FileLane => AdvanceFile(s, t, sent);
  }

  lemma {:induction false} WaitingCosts(states: seq<Mux>, labels: seq<Label>, lane: Lane)
    requires IsRun(states, labels) && PcOk(states[0].pc) && lane != Heartbeat
    requires forall k :: 0 <= k < |states| ==> Queued(states[k], lane)
    requires forall k :: 0 <= k < |labels| ==> labels[k] != Writer(Some(lane))
    ensures PcOk(states[|states| - 1].pc)
    ensures Ahead(states[|labels|].pc, lane) + Sends(labels) <= Ahead(states[0].pc, lane)
    ensures StepsAhead(states[|labels|].pc, lane) + WriterSteps(labels) <= StepsAhead(states[0].pc, lane)
    decreases |labels|
  {
    if labels != [] {
      var n := |labels| - 1;
      WaitingCosts(states[..n + 1], labels[..n], lane);
      assert Step(states[n], states[n + 1], labels[n]);
      if labels[n].Writer? {
        WriterAdvances(states[n], states[n + 1], labels[n].sent, lane);
      }
    }
  }

  /** Bounded waiting, over every run and every behaviour of the producers:
      while a lane has something queued and is not served, at most WaitBound
      other frames are sent, and the writer takes fewer than StepBound steps. */
  lemma BoundedWaiting(states: seq<Mux>, labels: seq<Label>, lane: Lane)
    requires IsRun(states, labels) && PcOk(states[0].pc) && lane != Heartbeat
    requires forall k :: 0 <= k < |states| ==> Queued(states[k], lane)
    requires forall k :: 0 <= k < |labels| ==> labels[k] != Writer(Some(lane))
    ensures Sends(labels) <= WaitBound(lane)
    ensures WriterSteps(labels) < StepBound(lane)
  {
    WaitingCosts(states, labels, lane);
    AheadBounds(states[0].pc, lane);
    AheadBounds(states[|labels|].pc, lane);
  }

  // Order

  function QueueOf(s: Mux, lane: Lane): seq<Frame> {
    match lane
    case MouseLane => s.mouse
    case HighLane => s.high
    case AudioQueue => s.audio
    case FileLane => s.file
    case Heartbeat => []
  }

  /** What the run has sent from this lane. */
  function SentOn(states: seq<Mux>, labels: seq<Label>, lane: Lane): seq<Frame>
    requires |states| >= |labels|
  {
    if labels == [] then []
    else
      var n := |labels| - 1;
      SentOn(states[..n], labels[..n], lane) + (if labels[n] == Writer(Some(lane)) then Outgoing(states[n], labels[n]) else [])
  }

  /** What producers have put at the end of this lane. */
  ghost function AddedTo(states: seq<Mux>, labels: seq<Label>, lane: Lane): seq<Frame>
    requires |states| == |labels| + 1 && Appending(states, labels, lane)
  {
    if labels == [] then []
    else
      var n := |labels| - 1;
      AddedTo(states[..n + 1], labels[..n], lane)
      + (if labels[n].Others? then QueueOf(states[n + 1], lane)[|QueueOf(states[n], lane)|..] else [])
  }

  ghost predicate Appending(states: seq<Mux>, labels: seq<Label>, lane: Lane)
    requires |states| == |labels| + 1
  {
    forall k :: 0 <= k < |labels| && labels[k].Others? ==> QueueOf(states[k], lane) <= QueueOf(states[k + 1], lane)
  }

  /** A writer step takes nothing from a lane but the frame it sends, which stood first. */
  lemma StepConserves(s: Mux, t: Mux, sent: Option<Lane>, lane: Lane)
    requires WriterStep(s, t, sent) && lane != Heartbeat
    ensures QueueOf(s, lane) == (if sent == Some(lane) then Outgoing(s, Writer(sent)) else []) + QueueOf(t, lane)
  {
  }

  /** First in, first out: while producers only add at the end of a lane, what has been sent
      from it and what still waits is what it held and what was added, in that order. */
  lemma {:induction false} LaneOrder(states: seq<Mux>, labels: seq<Label>, lane: Lane)
    requires IsRun(states, labels) && Appending(states, labels, lane) && lane != Heartbeat
    ensures SentOn(states, labels, lane) + QueueOf(states[|labels|], lane)
            == QueueOf(states[0], lane) + AddedTo(states, labels, lane)
    decreases |labels|
  {
    if labels == [] {
      assert [] + QueueOf(states[0], lane) == QueueOf(states[0], lane) + [];
    } else {
      var n := |labels| - 1;
      LaneOrder(states[..n + 1], labels[..n], lane);
      assert Step(states[n], states[n + 1], labels[n]);
      LastOrder(states, labels, lane);
    }
  }

  /** One more step at the end of a run. */
  lemma LastOrder(states: seq<Mux>, labels: seq<Label>, lane: Lane)
    requires |states| == |labels| + 1 && Appending(states, labels, lane) && lane != Heartbeat && labels != []
    requires var n := |labels| - 1;
             && Step(states[n], states[n + 1], labels[n])
             && SentOn(states[..n + 1], labels[..n], lane) + QueueOf(states[n], lane)
                == QueueOf(states[0], lane) + AddedTo(states[..n + 1], labels[..n], lane)
    ensures SentOn(states, labels, lane) + QueueOf(states[|labels|], lane)
            == QueueOf(states[0], lane) + AddedTo(states, labels, lane)
  {
    var n := |labels| - 1;
    assert states[..n + 1][..n] == states[..n];
    SentIgnoresLane(states[..n + 1], labels[..n], lane);
    var before, after := QueueOf(states[n], lane), QueueOf(states[n + 1], lane);
    var sent, added := SentOn(states[..n], labels[..n], lane), AddedTo(states[..n + 1], labels[..n], lane);
    hide WriterStep;
    hide QueueOf;
    hide Outgoing;
    if labels[n].Writer? {
      StepConserves(states[n], states[n + 1], labels[n].sent, lane);
      var out := if labels[n] == Writer(Some(lane)) then Outgoing(states[n], labels[n]) else [];
      TakenOff(sent, out, after);
      assert added + [] == added;
    } else {
      PutOn(sent, before, after, QueueOf(states[0], lane), added);
      assert sent + [] == sent;
    }
  }

  lemma TakenOff(sent: seq<Frame>, out: seq<Frame>, after: seq<Frame>)
    ensures (sent + out) + after == sent + (out + after)
  {
  }

  lemma PutOn(sent: seq<Frame>, before: seq<Frame>, after: seq<Frame>, first: seq<Frame>, added: seq<Frame>)
    requires before <= after && sent + before == first + added
    ensures sent + after == first + (added + after[|before|..])
  {
    var more := after[|before|..];
    assert after == before + more;
    TakenOff(sent, before, more);
    TakenOff(first, added, more);
  }

  lemma {:induction false} SentIgnoresLane(states: seq<Mux>, labels: seq<Label>, lane: Lane)
    requires |states| >= |labels|
    ensures SentOn(states, labels, lane) == SentOn(states[..|labels|], labels, lane)
  {
    if labels != [] {
      var n := |labels| - 1;
      assert states[..|labels|][..n] == states[..n];
    }
  }

  // No lost wake-up

  type PusherId = nat

  /** The writer together with the audio producers that have appended a frame
      and have yet to signal. */
  datatype System = System(mux: Mux, pushing: set<PusherId>)

  datatype Event =
    | WriterMoves(sent: Option<Lane>)
    | Append(p: PusherId, frame: Frame)  // audioLane.push up to the unlock
    | Signal(p: PusherId)                // ... and its non-blocking signal
    | ClearAudio                         // drainSendMux
    | OtherLanes                         // enqueues, coalescing or draining elsewhere

  ghost predicate SystemStep(s: System, t: System, e: Event) {
    match e
    case WriterMoves(sent) => t.pushing == s.pushing && WriterStep(s.mux, t.mux, sent)
    case Append(p, f) =>
      && p !in s.pushing
      && t.mux == s.mux.(audio := AudioLane.AfterPush(AudioLane.IsDataFrame(), s.mux.audio, f))
      && t.pushing == (if AudioLane.Refused(AudioLane.IsDataFrame(), s.mux.audio, f) then s.pushing else s.pushing + {p})
    case Signal(p) => p in s.pushing && t == System(s.mux.(sig := true), s.pushing - {p})
    case ClearAudio => t == s.(mux := s.mux.(audio := []))
    case OtherLanes =>
      && t.pushing == s.pushing
      && t.mux == s.mux.(mouse := t.mux.mouse, high := t.mux.high, file := t.mux.file)
  }

  ghost predicate SystemRun(states: seq<System>, events: seq<Event>) {
    && |states| == |events| + 1
    && states[0] == System(Mux(Mouse(0), [], [], [], [], false), {})
    && forall k :: 0 <= k < |events| ==> SystemStep(states[k], states[k + 1], events[k])
  }

  /** Queued audio is never forgotten while the writer is heading for, or in, the
      idle select: its wake-up is delivered or still on its way. */
  ghost predicate Awake(s: System) {
    && PcOk(s.mux.pc)
    && ((s.mux.pc == Idle || s.mux.pc == FileSlot(false)) && s.mux.audio != [] ==> s.mux.sig || s.pushing != {})
  }

  lemma AwakeStep(s: System, t: System, e: Event)
    requires Awake(s) && SystemStep(s, t, e)
    ensures Awake(t)
  {
    match e
    case WriterMoves(_) =>
    case Append(p, f) => assert t.pushing == s.pushing || p in t.pushing;
    case Signal(_) =>
    case ClearAudio =>
    case OtherLanes =>
  }

  /** No lost wake-up, in every interleaving of producers and the writer. */
  lemma {:induction false} NoLostWakeup(states: seq<System>, events: seq<Event>)
    requires SystemRun(states, events)
    ensures Awake(states[|events|])
    decreases |events|
  {
    if events != [] {
      var n := |events| - 1;
      NoLostWakeup(states[..n + 1], events[..n]);
      AwakeStep(states[n], states[n + 1], events[n]);
    }
  }

  // The idle select

  /** The ticker fires: nothing is taken, and at most a heartbeat is sent. */
  predicate Tick(s: Mux, t: Mux, sent: Option<Lane>) {
    s.pc == Idle && t == s.(pc := Mouse(0)) && (sent == None || sent == Some(Heartbeat))
  }

  /** The step takes exactly one thing that was there: the token, or the head of the mouse,
      high or file lane, which it sends. */
  predicate Serves(s: Mux, t: Mux, sent: Option<Lane>) {
    match sent
    case None => s.sig && t == s.(pc := t.pc, sig := false)
    case Some(MouseLane) => s.mouse != [] && t == s.(pc := t.pc, mouse := s.mouse[1..])
    case Some(HighLane) => s.high != [] && t == s.(pc := t.pc, high := s.high[1..])
    case Some(FileLane) => s.file != [] && t == s.(pc := t.pc, file := s.file[1..])
    case Some(_) => false
  }

  /** A case of the idle select other than the ticker can fire. */
  predicate Ready(s: Mux) {
    s.sig || s.mouse != [] || s.high != [] || s.file != []
  }

  /** Whatever is ready at the idle select, a step of the writer takes it. */
  lemma IdleServesAny(s: Mux, lane: Lane)
    requires s.pc == Idle
    ensures s.sig ==> exists t :: WriterStep(s, t, None) && Serves(s, t, None)
    ensures lane != AudioQueue && Queued(s, lane) ==> exists t :: WriterStep(s, t, Some(lane)) && Serves(s, t, Some(lane))
  {
    var back := s.(pc := Mouse(0));
    if s.sig {
      assert WriterStep(s, back.(sig := false), None) && Serves(s, back.(sig := false), None);
    }
    if lane != AudioQueue && Queued(s, lane) {
      var t := match lane
        case MouseLane => back.(mouse := s.mouse[1..])
        case HighLane => back.(high := s.high[1..])
        case FileLane => back.(file := s.file[1..])
        case _ => back;
      assert WriterStep(s, t, Some(lane)) && Serves(s, t, Some(lane));
    }
  }

  /** Every step from the idle select goes back to the start of a cycle, and either the
      ticker fired or exactly one ready case was served. */
  lemma IdleServesOne(s: Mux, t: Mux, sent: Option<Lane>)
    requires s.pc == Idle && WriterStep(s, t, sent)
    ensures t.pc == Mouse(0) && (Serves(s, t, sent) <==> !Tick(s, t, sent))
  {
    if Tick(s, t, sent) {
      assert t.sig == s.sig;
    }
  }

  /** The writer has a step other than the ticker's. */
  ghost predicate Runnable(m: Mux) {
    exists t, sent :: WriterStep(m, t, sent) && !Tick(m, t, sent)
  }

  /** The writer waits for the ticker only in the idle select with nothing ready there. */
  lemma RunnableIff(m: Mux)
    ensures Runnable(m) <==> m.pc == Idle ==> Ready(m)
  {
    if m.pc == Idle {
      if Ready(m) {
        var lane := if m.mouse != [] then MouseLane else if m.high != [] then HighLane else FileLane;
        IdleServesAny(m, lane);
        var sent := if m.sig then None else Some(lane);
        var t :| WriterStep(m, t, sent) && Serves(m, t, sent);
        IdleServesOne(m, t, sent);
      } else {
        forall t, sent | WriterStep(m, t, sent)
          ensures Tick(m, t, sent)
        {
        }
      }
    } else {
      var t, sent := Onward(m);
      assert !Tick(m, t, sent);
    }
  }

  /** Outside the idle select the writer never waits. */
  lemma Onward(m: Mux) returns (t: Mux, sent: Option<Lane>)
    requires m.pc != Idle
    ensures WriterStep(m, t, sent)
  {
    match m.pc
    case Mouse(n) =>
      if m.mouse != [] { t, sent := m.(pc := High(n + 1), mouse := m.mouse[1..]), Some(MouseLane); }
      else { t, sent := m.(pc := High(n)), None; }
    case High(n) =>
      if m.high != [] {
        t, sent := m.(pc := if n + 1 < BURST then Mouse(n + 1) else Audio(0, true), high := m.high[1..]), Some(HighLane);
      } else { t, sent := m.(pc := Audio(0, n > 0)), None; }
    case Audio(i, progressed) =>
      if i < AUDIO_BURST && m.audio != [] { t, sent := m.(pc := PeekMouse(i + 1), audio := m.audio[1..]), Some(AudioQueue); }
      else { t, sent := m.(pc := FileSlot(progressed)), None; }
    case PeekMouse(i) => t, sent := m.(pc := if m.mouse != [] then FileSlot(true) else PeekHigh(i)), None;
    case PeekHigh(i) => t, sent := m.(pc := if m.high != [] then FileSlot(true) else Audio(i, true)), None;
    case FileSlot(progressed) =>
      if m.file != [] { t, sent := m.(pc := Mouse(0), file := m.file[1..]), Some(FileLane); }
      else { t, sent := m.(pc := if progressed then Mouse(0) else Idle), None; }
  }

  /** Whenever anything is queued, the writer can move without the ticker, or an audio
      producer is about to wake it. */
  lemma QueuedMeansRunnable(states: seq<System>, events: seq<Event>, lane: Lane)
    requires SystemRun(states, events) && Queued(states[|events|].mux, lane)
    ensures Runnable(states[|events|].mux) || states[|events|].pushing != {}
  {
    NoLostWakeup(states, events);
    RunnableIff(states[|events|].mux);
  }

  ghost predicate Unticked(states: seq<Mux>, labels: seq<Label>)
    requires |states| == |labels| + 1
  {
    forall k :: 0 <= k < |labels| ==> labels[k].Writer? && !Tick(states[k], states[k + 1], labels[k].sent)
  }

  /** A step of the writer that needs no tick and serves the lane or brings it nearer. */
  lemma Nearer(s: Mux, lane: Lane) returns (t: Mux, sent: Option<Lane>)
    requires Awake(System(s, {})) && Queued(s, lane)
    ensures WriterStep(s, t, sent) && !Tick(s, t, sent) && 1 <= StepsAhead(s.pc, lane) <= StepBound(lane)
    ensures sent == Some(lane) ||
            (Awake(System(t, {})) && Queued(t, lane) && 1 <= StepsAhead(t.pc, lane) < StepsAhead(s.pc, lane))
  {
    AheadBounds(s.pc, lane);
    RunnableIff(s);
    t, sent :| WriterStep(s, t, sent) && !Tick(s, t, sent);
    if sent != Some(lane) {
      WriterAdvances(s, t, sent, lane);
      AheadBounds(t.pc, lane);
      AwakeStep(System(s, {}), System(t, {}), WriterMoves(sent));
    }
  }

  lemma Prepend(s: Mux, states: seq<Mux>, sent: Option<Lane>, labels: seq<Label>)
    requires IsRun(states, labels) && Unticked(states, labels)
    requires WriterStep(s, states[0], sent) && !Tick(s, states[0], sent)
    ensures IsRun([s] + states, [Writer(sent)] + labels) && Unticked([s] + states, [Writer(sent)] + labels)
  {
    hide WriterStep;
    hide Tick;
    var states1, labels1 := [s] + states, [Writer(sent)] + labels;
    forall k | 0 <= k < |labels1|
      ensures Step(states1[k], states1[k + 1], labels1[k])
      ensures labels1[k].Writer? && !Tick(states1[k], states1[k + 1], labels1[k].sent)
    {
      if k > 0 {
        assert Step(states[k - 1], states[k], labels[k - 1]);
      }
    }
  }

  /** From a state where queued audio has its token, the writer by itself, without the
      ticker, gets to any lane that has something queued, and sends its head. */
  lemma {:induction false} ServedUnaided(s: Mux, lane: Lane) returns (states: seq<Mux>, labels: seq<Label>)
    requires Awake(System(s, {})) && Queued(s, lane)
    ensures IsRun(states, labels) && Unticked(states, labels) && states[0] == s
    ensures 1 <= |labels| <= StepsAhead(s.pc, lane) && labels[|labels| - 1] == Writer(Some(lane))
    decreases StepsAhead(s.pc, lane)
  {
    hide WriterStep;
    hide Tick;
    hide Awake;
    hide StepsAhead;
    var t, sent := Nearer(s, lane);
    if sent == Some(lane) {
      states, labels := [t], [];
    } else {
      states, labels := ServedUnaided(t, lane);
    }
    Prepend(s, states, sent, labels);
    states, labels := [s] + states, [Writer(sent)] + labels;
  }

  /** In every state of every run in which no producer is half-way through a push, whatever
      lane has something queued, the writer can serve it by itself, within the step bound,
      and needs no tick for it. */
  lemma EveryLaneServed(states: seq<System>, events: seq<Event>, lane: Lane) returns (next: seq<Mux>, labels: seq<Label>)
    requires SystemRun(states, events) && states[|events|].pushing == {} && Queued(states[|events|].mux, lane)
    ensures IsRun(next, labels) && Unticked(next, labels) && next[0] == states[|events|].mux
    ensures 1 <= |labels| <= StepBound(lane) && labels[|labels| - 1] == Writer(Some(lane))
  {
    NoLostWakeup(states, events);
    var s := states[|events|];
    assert s == System(s.mux, {});
    AheadBounds(s.mux.pc, lane);
    next, labels := ServedUnaided(s.mux, lane);
  }
}
