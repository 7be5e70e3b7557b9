/** Outgoing transfers and the handlers that accept, cancel and clear them, in any
    interleaving (internal/filetransfer/filetransfer_windows.go, ..._send.go, ..._receive.go). */
module FileSenders {
  import opened Bytes

  /** Where the goroutine of a send stands. */
  datatype Stage =
    | Waiting    // for acceptance, cancellation or the time limit
    | Streaming  // about to look whether it is cancelled
    | Reading    // ... was not: about to read and send one chunk
    | Clearing   // about to remove itself from the map
    | Ended

  /** How a send stands with the map of outgoing transfers. */
  datatype Place =
    | InMap
    | Overwritten         // a later send took its id
    | Dropped(tid: nat)   // taken out by this thread, which is to cancel it
    | Cancelled           // ... and has done so
    | Cleared             // removed by its own goroutine

  datatype Send = Send(id: U32, stage: Stage, place: Place, accepts: nat, cancels: nat, chunks: nat, late: nat)

  datatype Pc =
    | Idle
    | Accepting(x: nat)          // handleAccept: past the lookup
    | Cancelling(xs: set<nat>)   // handleCancel or CancelAll: past the deletion

  datatype State = State(outbound: map<U32, nat>, sends: seq<Send>, pcs: seq<Pc>)

  datatype Event =
    | Starts(tid: nat, id: U32)
    | AcceptArrives(tid: nat, id: U32)
    | Accepts(tid: nat)
    | CancelArrives(tid: nat, id: U32)
    | CancelsAll(tid: nat)
    | Cancels(tid: nat, x: nat)
    | Returns(tid: nat)
    | Goes(x: nat)          // an accepted send starts streaming
    | GivesUp(x: nat)       // cancelled, timed out, failed or finished: leaves its loop
    | Checks(x: nat)        // the test of the cancelled channel finds it open
    | SendsChunk(x: nat)
    | Clears(x: nat)

  /** sync.Once: a channel is closed by the first call only. */
  function Once(closes: nat): nat {
    if closes == 0 then 1 else closes
  }

  predicate Enabled(s: State, e: Event) {
    match e
    case Starts(tid, _) => tid < |s.pcs| && s.pcs[tid].Idle?
    case AcceptArrives(tid, _) => tid < |s.pcs| && s.pcs[tid].Idle?
    case Accepts(tid) => tid < |s.pcs| && s.pcs[tid].Accepting? && s.pcs[tid].x < |s.sends|
    case CancelArrives(tid, _) => tid < |s.pcs| && s.pcs[tid].Idle?
    case CancelsAll(tid) => tid < |s.pcs| && s.pcs[tid].Idle?
    case Cancels(tid, x) => tid < |s.pcs| && s.pcs[tid].Cancelling? && x in s.pcs[tid].xs && x < |s.sends|
    case Returns(tid) => tid < |s.pcs| && s.pcs[tid] == Cancelling({})
    case Goes(x) => x < |s.sends| && s.sends[x].stage == Waiting && s.sends[x].accepts > 0
    case GivesUp(x) => x < |s.sends| && s.sends[x].stage in {Waiting, Streaming, Reading}
    case Checks(x) => x < |s.sends| && s.sends[x].stage == Streaming && s.sends[x].cancels == 0
    case SendsChunk(x) => x < |s.sends| && s.sends[x].stage == Reading
    case Clears(x) => x < |s.sends| && s.sends[x].stage == Clearing
  }

  function Put(s: State, x: nat, v: Send): State
    requires x < |s.sends|
  {
    s.(sends := s.sends[x := v])
  }

  function Goto(s: State, tid: nat, pc: Pc): State
    requires tid < |s.pcs|
  {
    s.(pcs := s.pcs[tid := pc])
  }

  predicate Known(s: State, id: U32) {
    id in s.outbound && s.outbound[id] < |s.sends|
  }

  function Start(s: State, id: U32): State {
    var base := if Known(s, id) then Put(s, s.outbound[id], s.sends[s.outbound[id]].(place := Overwritten)) else s;
    State(s.outbound[id := |s.sends|], base.sends + [Send(id, Waiting, InMap, 0, 0, 0, 0)], s.pcs)
  }

  function Drop(v: Send, tid: nat): Send {
    if v.place == InMap then v.(place := Dropped(tid)) else v
  }

  function DropAll(s: State, tid: nat): State
    requires tid < |s.pcs|
  {
    var xs := set x | 0 <= x < |s.sends| && s.sends[x].place == InMap;
    State(map[], seq(|s.sends|, x requires 0 <= x < |s.sends| => Drop(s.sends[x], tid)), s.pcs[tid := Cancelling(xs)])
  }

  function Next(s: State, e: Event): State
    requires Enabled(s, e)
  {
    match e
    case Starts(tid, id) => Start(s, id)
    case AcceptArrives(tid, id) => if Known(s, id) then Goto(s, tid, Accepting(s.outbound[id])) else s
    case Accepts(tid) =>
      var x := s.pcs[tid].x;
      Goto(Put(s, x, s.sends[x].(accepts := Once(s.sends[x].accepts))), tid, Idle)
    case CancelArrives(tid, id) =>
      if !Known(s, id) then s
      else
        var x := s.outbound[id];
        Goto(Put(s.(outbound := s.outbound - {id}), x, Drop(s.sends[x], tid)), tid, Cancelling({x}))
    case CancelsAll(tid) => DropAll(s, tid)
    case Cancels(tid, x) =>
      Goto(Put(s, x, s.sends[x].(cancels := Once(s.sends[x].cancels), place := Cancelled)), tid, Cancelling(s.pcs[tid].xs - {x}))
    case Returns(tid) => Goto(s, tid, Idle)
    case Goes(x) => Put(s, x, s.sends[x].(stage := Streaming))
    case GivesUp(x) => Put(s, x, s.sends[x].(stage := Clearing))
    case Checks(x) => Put(s, x, s.sends[x].(stage := Reading))
    case SendsChunk(x) =>
      var v := s.sends[x];
      Put(s, x, v.(stage := Streaming, chunks := v.chunks + 1, late := v.late + (if v.cancels > 0 then 1 else 0)))
    case Clears(x) =>
      var v := s.sends[x];
      if Known(s, v.id) && s.outbound[v.id] == x
      then Put(s.(outbound := s.outbound - {v.id}), x, v.(stage := Ended, place := Cleared))
      else Put(s, x, v.(stage := Ended))
  }

  // The invariant

  predicate SendOk(s: State, x: nat)
    requires x < |s.sends|
  {
    var v := s.sends[x];
    && v.accepts <= 1 && v.cancels <= 1
    && (v.cancels == 1 <==> v.place == Cancelled)
    && (v.place == InMap <==> v.id in s.outbound && s.outbound[v.id] == x)
    && (v.place.Dropped? ==> v.place.tid < |s.pcs| && s.pcs[v.place.tid].Cancelling? && x in s.pcs[v.place.tid].xs)
    && (v.place == Cleared ==> v.stage == Ended)
    && (v.stage == Ended ==> v.place != InMap)
    && (v.stage in {Streaming, Reading} || v.chunks > 0 ==> v.accepts == 1)
    && v.late <= v.chunks
    && (v.stage == Reading ==> v.late == 0)
    && v.late <= 1 && (v.late == 1 ==> v.cancels == 1)
  }

  predicate PcOk(s: State, tid: nat)
    requires tid < |s.pcs|
  {
    match s.pcs[tid]
    case Idle => true
    case Accepting(x) => x < |s.sends|
    case Cancelling(xs) => forall x :: x in xs ==> x < |s.sends| && s.sends[x].place == Dropped(tid)
  }

  predicate EntryOk(s: State, id: U32) {
    id in s.outbound ==> s.outbound[id] < |s.sends| && s.sends[s.outbound[id]].id == id
  }

  ghost predicate Inv(s: State) {
    && (forall x :: 0 <= x < |s.sends| ==> SendOk(s, x))
    && (forall tid :: 0 <= tid < |s.pcs| ==> PcOk(s, tid))
    && (forall id :: EntryOk(s, id))
  }

  /** A step that changes one send and perhaps takes it out of the map. */
  lemma OneSendStep(s: State, u: State, x: nat)
    requires Inv(s) && x < |s.sends| == |u.sends| && |u.pcs| == |s.pcs|
    requires u.sends[x].id == s.sends[x].id && u.sends == s.sends[x := u.sends[x]]
    requires u.outbound == s.outbound
          || (s.sends[x].place == InMap && u.sends[x].place != InMap && u.outbound == s.outbound - {s.sends[x].id})
    requires u.outbound == s.outbound && s.sends[x].place == InMap ==> u.sends[x].place == InMap
    requires forall y :: 0 <= y < |s.sends| && y != x && s.sends[y].place.Dropped? ==> StillHeld(s, u, s.sends[y].place.tid, y)
    requires SendOk(u, x)
    requires forall tid :: 0 <= tid < |u.pcs| ==> PcOk(u, tid)
    ensures Inv(u)
  {
    assert SendOk(s, x);
    forall y | 0 <= y < |u.sends|
      ensures SendOk(u, y)
    {
      assert SendOk(s, y);
    }
    forall id
      ensures EntryOk(u, id)
    {
      assert EntryOk(s, id);
      assert id in s.outbound ==> SendOk(s, s.outbound[id]);
    }
  }

  /** The thread that is to cancel y still has it on its list. */
  predicate StillHeld(s: State, u: State, tid: nat, y: nat) {
    tid < |s.pcs| && s.pcs[tid].Cancelling? && y in s.pcs[tid].xs
    ==> tid < |u.pcs| && u.pcs[tid].Cancelling? && y in u.pcs[tid].xs
  }

  lemma GoroutineStep(s: State, e: Event)
    requires Inv(s) && Enabled(s, e) && (e.Goes? || e.GivesUp? || e.Checks? || e.SendsChunk? || e.Clears?)
    ensures Inv(Next(s, e))
  {
    var u := Next(s, e);
    assert SendOk(s, e.x) && EntryOk(s, s.sends[e.x].id);
    forall tid | 0 <= tid < |u.pcs|
      ensures PcOk(u, tid)
    {
      assert PcOk(s, tid);
    }
    OneSendStep(s, u, e.x);
  }

  lemma HandlerStep(s: State, tid: nat, x: nat, e: Event)
    requires Inv(s) && Enabled(s, e) && x < |s.sends| && tid < |s.pcs|
    requires (e == Accepts(tid) && s.pcs[tid].x == x) || e == Cancels(tid, x)
          || (e.CancelArrives? && e.tid == tid && Known(s, e.id) && s.outbound[e.id] == x)
    ensures Inv(Next(s, e))
  {
    var u := Next(s, e);
    assert SendOk(s, x) && PcOk(s, tid);
    if e.CancelArrives? {
      assert EntryOk(s, e.id);
    }
    forall t | 0 <= t < |u.pcs|
      ensures PcOk(u, t)
    {
      assert PcOk(s, t);
    }
    OneSendStep(s, u, x);
  }

  lemma IdleStep(s: State, e: Event)
    requires Inv(s) && Enabled(s, e) && ((e.AcceptArrives? && Known(s, e.id)) || e.Returns?)
    ensures Inv(Next(s, e))
  {
    var u := Next(s, e);
    forall x | 0 <= x < |u.sends|
      ensures SendOk(u, x)
    {
      assert SendOk(s, x);
    }
    forall t | 0 <= t < |u.pcs|
      ensures PcOk(u, t)
    {
      assert PcOk(s, t);
    }
    forall id
      ensures EntryOk(u, id)
    {
      assert EntryOk(s, id);
    }
  }

  lemma StartStep(s: State, tid: nat, id: U32)
    requires Inv(s) && Enabled(s, Starts(tid, id))
    ensures Inv(Next(s, Starts(tid, id)))
  {
    var u := Next(s, Starts(tid, id));
    assert EntryOk(s, id);
    forall x | 0 <= x < |u.sends|
      ensures SendOk(u, x)
    {
      if x < |s.sends| {
        assert SendOk(s, x);
      }
    }
    forall t | 0 <= t < |u.pcs|
      ensures PcOk(u, t)
    {
      assert PcOk(s, t);
      if id in s.outbound {
        assert SendOk(s, s.outbound[id]);
      }
    }
    forall i
      ensures EntryOk(u, i)
    {
      assert EntryOk(s, i);
    }
  }

  lemma DropAllStep(s: State, tid: nat)
    requires Inv(s) && tid < |s.pcs| && s.pcs[tid].Idle?
    ensures Inv(DropAll(s, tid))
  {
    var u := DropAll(s, tid);
    forall x | 0 <= x < |u.sends|
      ensures SendOk(u, x)
    {
      assert SendOk(s, x);
    }
    forall t | 0 <= t < |u.pcs|
      ensures PcOk(u, t)
    {
      assert PcOk(s, t);
    }
  }

  lemma StepKeeps(s: State, e: Event)
    requires Inv(s) && Enabled(s, e)
    ensures Inv(Next(s, e))
  {
    match e
    case Starts(tid, id) => StartStep(s, tid, id);
    case AcceptArrives(tid, id) =>
      if Known(s, id) {
        IdleStep(s, e);
      }
    case Accepts(tid) => HandlerStep(s, tid, s.pcs[tid].x, e);
    case CancelArrives(tid, id) =>
      if Known(s, id) {
        HandlerStep(s, tid, s.outbound[id], e);
      }
    case CancelsAll(tid) => DropAllStep(s, tid);
    case Cancels(tid, x) => HandlerStep(s, tid, x, e);
    case Returns(_) => IdleStep(s, e);
    case _ => GoroutineStep(s, e);
  }

  // Runs

  predicate Initial(s: State) {
    s.outbound == map[] && s.sends == [] && forall tid :: 0 <= tid < |s.pcs| ==> s.pcs[tid] == Idle
  }

  predicate IsStep(s: State, e: Event, u: State) {
    Enabled(s, e) && u == Next(s, e)
  }

  predicate IsRun(states: seq<State>, events: seq<Event>) {
    && |states| == |events| + 1 && Initial(states[0])
    && forall k :: 0 <= k < |events| ==> IsStep(states[k], events[k], states[k + 1])
  }

  lemma {:induction false} RunKeeps(states: seq<State>, events: seq<Event>, k: nat)
    requires IsRun(states, events) && k < |states|
    ensures Inv(states[k])
  {
    if k > 0 {
      RunKeeps(states, events, k - 1);
      assert IsStep(states[k - 1], events[k - 1], states[k]);
      StepKeeps(states[k - 1], events[k - 1]);
    }
  }

  /** In every run: each channel of a send is closed at most once; chunks go out only
      after acceptance; and at most one chunk goes out after the cancellation. */
  lemma SendingIsBounded(states: seq<State>, events: seq<Event>, k: nat, x: nat)
    requires IsRun(states, events) && k < |states| && x < |states[k].sends|
    ensures var v := states[k].sends[x];
            && v.accepts <= 1 && v.cancels <= 1
            && (v.chunks > 0 ==> v.accepts == 1)
            && v.late <= 1 && (v.cancels == 0 ==> v.late == 0)
  {
    RunKeeps(states, events, k);
    assert SendOk(states[k], x);
  }

  /** No send is forgotten: it is in the map, or a later send took its id, or its own
      goroutine has removed it, or it is cancelled, or the thread that took it out is
      about to cancel it. A send whose goroutine has ended is not in the map. */
  lemma EverySendAccountedFor(states: seq<State>, events: seq<Event>, k: nat, x: nat)
    requires IsRun(states, events) && k < |states| && x < |states[k].sends|
    ensures var s, v := states[k], states[k].sends[x];
            && (v.place == InMap <==> v.id in s.outbound && s.outbound[v.id] == x)
            && (v.place == Cancelled <==> v.cancels == 1)
            && (v.place.Dropped? ==> v.place.tid < |s.pcs| && s.pcs[v.place.tid].Cancelling? && x in s.pcs[v.place.tid].xs)
            && (v.stage == Ended ==> v.place != InMap) && (v.place == Cleared ==> v.stage == Ended)
  {
    RunKeeps(states, events, k);
    assert SendOk(states[k], x);
  }

  /** An ending goroutine removes at most its own entry: a newer send with the same id
      stays in the map. */
  lemma ClearsOnlyItself(states: seq<State>, events: seq<Event>, k: nat, x: nat, id: U32)
    requires IsRun(states, events) && k < |events| && events[k] == Clears(x)
    requires id in states[k].outbound && states[k].outbound[id] != x
    ensures id in states[k + 1].outbound && states[k + 1].outbound[id] == states[k].outbound[id]
  {
    RunKeeps(states, events, k);
    assert IsStep(states[k], events[k], states[k + 1]);
    assert EntryOk(states[k], id);
  }

  // One handler at a time

  ghost predicate Ready(s: State, tid: nat) {
    Inv(s) && tid < |s.pcs| && s.pcs[tid] == Idle
  }

  /** A new send is entered under its id, waiting; one that had the id keeps all but its entry. */
  lemma StartAlone(s: State, tid: nat, id: U32)
    requires Ready(s, tid)
    ensures var u, n := Next(s, Starts(tid, id)), |s.sends|;
            && |u.sends| == n + 1 && u.sends[n] == Send(id, Waiting, InMap, 0, 0, 0, 0) && u.outbound == s.outbound[id := n]
            && forall x :: 0 <= x < n ==> u.sends[x] == s.sends[x]
                                          || (id in s.outbound && s.outbound[id] == x && u.sends[x] == s.sends[x].(place := Overwritten))
  {
    assert EntryOk(s, id);
  }

  /** An acceptance under a known id reaches that send, and its goroutine may go on. */
  lemma AcceptAlone(s: State, tid: nat, id: U32) returns (s1: State, u: State)
    requires Ready(s, tid) && id in s.outbound
    ensures IsStep(s, AcceptArrives(tid, id), s1) && IsStep(s1, Accepts(tid), u)
    ensures var x := s.outbound[id];
            && x < |s.sends| && u == s.(sends := s.sends[x := s.sends[x].(accepts := 1)])
            && (s.sends[x].stage == Waiting ==> Enabled(u, Goes(x)) && Next(u, Goes(x)).sends[x].stage == Streaming)
  {
    assert EntryOk(s, id);
    var x := s.outbound[id];
    assert SendOk(s, x);
    s1 := Next(s, AcceptArrives(tid, id));
    u := Next(s1, Accepts(tid));
    assert u.pcs == s.pcs;
  }

  /** A cancel under a known id takes that send out of the map and cancels it. */
  lemma CancelAlone(s: State, tid: nat, id: U32) returns (s1: State, s2: State, u: State)
    requires Ready(s, tid) && id in s.outbound
    ensures var x := s.outbound[id];
            && IsStep(s, CancelArrives(tid, id), s1) && IsStep(s1, Cancels(tid, x), s2) && IsStep(s2, Returns(tid), u)
            && x < |s.sends|
            && u == State(s.outbound - {id}, s.sends[x := s.sends[x].(place := Cancelled, cancels := 1)], s.pcs)
  {
    assert EntryOk(s, id);
    var x := s.outbound[id];
    assert SendOk(s, x);
    s1 := Next(s, CancelArrives(tid, id));
    assert s1.pcs[tid] == Cancelling({x});
    s2 := Next(s1, Cancels(tid, x));
    assert {x} - {x} == {};
    u := Next(s2, Returns(tid));
    assert u.pcs == s.pcs;
  }

  /** CancelAll empties the map in one lock section, and every send that was in it is on the
      list of the thread, to be cancelled one by one. */
  lemma CancelAllTakes(s: State, tid: nat)
    requires Ready(s, tid)
    ensures var u := Next(s, CancelsAll(tid));
            && u.outbound == map[] && |u.sends| == |s.sends| && u.pcs[tid].Cancelling?
            && forall x :: 0 <= x < |s.sends| ==>
                 if s.sends[x].place == InMap then x in u.pcs[tid].xs && u.sends[x] == s.sends[x].(place := Dropped(tid))
                 else x !in u.pcs[tid].xs && u.sends[x] == s.sends[x]
  {
  }

  /** Each of them can be cancelled, in any order, and leaves the list when it is. */
  lemma CancelsOne(s: State, tid: nat, x: nat)
    requires Inv(s) && tid < |s.pcs| && s.pcs[tid].Cancelling? && x in s.pcs[tid].xs
    ensures Enabled(s, Cancels(tid, x))
    ensures var u := Next(s, Cancels(tid, x));
            u.sends == s.sends[x := s.sends[x].(cancels := 1, place := Cancelled)] && u.pcs[tid] == Cancelling(s.pcs[tid].xs - {x})
  {
    assert PcOk(s, tid) && SendOk(s, x);
  }

  /** While it is not cancelled an accepted send goes on from chunk to chunk. */
  lemma SendsOn(s: State, x: nat) returns (s1: State, u: State)
    requires Inv(s) && x < |s.sends| && s.sends[x].stage == Streaming && s.sends[x].cancels == 0
    ensures IsStep(s, Checks(x), s1) && IsStep(s1, SendsChunk(x), u)
    ensures u == s.(sends := s.sends[x := s.sends[x].(chunks := s.sends[x].chunks + 1)])
  {
    s1 := Next(s, Checks(x));
    u := Next(s1, SendsChunk(x));
  }

  /** A cancelled send never starts another chunk. */
  lemma CancelledStops(s: State, x: nat)
    requires Inv(s) && x < |s.sends| && s.sends[x].cancels > 0
    ensures !Enabled(s, Checks(x)) && (s.sends[x].stage == Streaming ==> Enabled(s, GivesUp(x)))
  {
  }
}
