/** What connecting, a read loop, Disconnect and Stop each do to the session slot when nothing
    cuts in, and that the loop of the active session is always there to free it
    (internal/transport/transport_lifecycle.go, transport_session.go). */
module SessionHandling {
  import opened Options
  import opened SessionSlot

  /** The active session is looked after by the thread that made it. */
  predicate Attended(s: State, x: nat)
    requires x < |s.sessions|
  {
    s.sessions[x].status == Active ==>
      s.sessions[x].maker < |s.pcs| && s.pcs[s.sessions[x].maker] in {Won(x), Reading(x), Exiting(x)}
  }

  lemma StepAttends(s: State, l: Label, u: State, x: nat)
    requires Inv(s) && IsStep(s, l, u) && x < |u.sessions| && (x < |s.sessions| ==> Attended(s, x))
    ensures Attended(u, x)
  {
    assert PcOk(s, l.tid);
    if x < |s.sessions| {
      assert SessOk(s, x);
    }
    if s.slot.Some? {
      assert SessOk(s, s.slot.value);
    }
  }

  /** In every run the session in the slot has a thread that announces it, reads for it, or is
      about to take it out: an exiting loop never leaves its own session behind in the slot. */
  lemma {:induction false} AlwaysAttended(states: seq<State>, labels: seq<Label>, k: nat, x: nat)
    requires IsRun(states, labels) && k < |states| && x < |states[k].sessions|
    ensures Attended(states[k], x)
  {
    if k > 0 {
      if x < |states[k - 1].sessions| {
        AlwaysAttended(states, labels, k - 1, x);
      }
      RunKeeps(states, labels, k - 1);
      assert IsStep(states[k - 1], labels[k - 1], states[k]);
      StepAttends(states[k - 1], labels[k - 1], states[k], x);
    }
  }

  /** A session in the slot whose loop has ended does not stay there: the next step of its
      own thread takes it out, and nothing else keeps a newcomer out. */
  lemma ExitFrees(states: seq<State>, labels: seq<Label>, k: nat, tid: nat, x: nat)
    requires IsRun(states, labels) && k < |states| && tid < |states[k].pcs| && states[k].pcs[tid] == Exiting(x)
    ensures Enabled(states[k], tid, LoopClears)
    ensures var u := Next(states[k], tid, LoopClears);
            && u.slot == (if states[k].slot == Some(x) then None else states[k].slot)
            && (u.slot != states[k].slot ==> u.pcs[tid] == Took(x))
  {
    RunKeeps(states, labels, k);
    assert PcOk(states[k], tid);
  }

  predicate Ready(s: State, tid: nat) {
    Inv(s) && tid < |s.pcs| && s.pcs[tid] == Idle
  }

  /** states[0] is taken to the last one by these events of thread tid, one after the other. */
  predicate Path(tid: nat, states: seq<State>, events: seq<Event>) {
    && |states| == |events| + 1
    && forall k :: 0 <= k < |events| ==> IsStep(states[k], Label(tid, events[k]), states[k + 1])
  }

  /** A connection that finds the slot free gets it and its OnConnect, and nothing else. */
  lemma ConnectAlone(s: State, tid: nat) returns (states: seq<State>)
    requires Ready(s, tid) && s.slot == None
    ensures Path(tid, states, [Begins, HandshakeDone, Installs, CallsConnect]) && states[0] == s
    ensures var x := |s.sessions|;
            states[4] == State(Some(x), s.sessions + [Sess(tid, Active, false, 0, 1, 0)], s.pcs[tid := Reading(x)])
  {
    var x := |s.sessions|;
    var s1 := Next(s, tid, Begins);
    var s2 := Next(s1, tid, HandshakeDone);
    var s3 := Next(s2, tid, Installs);
    var s4 := Next(s3, tid, CallsConnect);
    states := [s, s1, s2, s3, s4];
    assert s4.sessions == s.sessions + [Sess(tid, Active, false, 0, 1, 0)];
    assert s4.pcs == s.pcs[tid := Reading(x)];
    assert IsStep(s, Label(tid, Begins), s1) && IsStep(s1, Label(tid, HandshakeDone), s2)
        && IsStep(s2, Label(tid, Installs), s3) && IsStep(s3, Label(tid, CallsConnect), s4);
  }

  /** With the slot taken, a connection is turned away before its handshake. */
  lemma TurnedAway(s: State, tid: nat)
    requires Ready(s, tid) && s.slot.Some?
    ensures IsStep(s, Label(tid, Begins), s)
  {
    assert s.pcs[tid := Idle] == s.pcs;
  }

  /** A connection that loses the slot during its handshake is closed without a callback. */
  lemma LoserAlone(s: State, tid: nat) returns (states: seq<State>)
    requires Inv(s) && tid < |s.pcs| && s.pcs[tid] == Shaking && s.slot.Some?
    ensures Path(tid, states, [HandshakeDone, Installs, ClosesLoser]) && states[0] == s
    ensures states[3] == State(s.slot, s.sessions + [Sess(tid, Refused, true, 0, 0, 0)], s.pcs[tid := Idle])
  {
    var s1 := Next(s, tid, HandshakeDone);
    var s2 := Next(s1, tid, Installs);
    var s3 := Next(s2, tid, ClosesLoser);
    states := [s, s1, s2, s3];
    assert s3.sessions == s.sessions + [Sess(tid, Refused, true, 0, 0, 0)];
    assert IsStep(s, Label(tid, HandshakeDone), s1) && IsStep(s1, Label(tid, Installs), s2)
        && IsStep(s2, Label(tid, ClosesLoser), s3);
  }

  /** A read loop that ends while its session is in the slot frees the slot, closes the
      session and announces it, once. */
  lemma LoopAlone(s: State, tid: nat, x: nat) returns (states: seq<State>)
    requires Inv(s) && tid < |s.pcs| && s.pcs[tid] == Reading(x) && s.slot == Some(x)
    ensures Path(tid, states, [LoopEnds, LoopClears, Closes, Notifies]) && states[0] == s
    ensures x < |s.sessions| && states[4] == State(None, s.sessions[x := Over(s.sessions[x], tid)], s.pcs[tid := Idle])
  {
    assert PcOk(s, tid) && SessOk(s, x);
    var s1 := Next(s, tid, LoopEnds);
    var s2 := Next(s1, tid, LoopClears);
    var s3 := Next(s2, tid, Closes);
    var s4 := Next(s3, tid, Notifies);
    states := [s, s1, s2, s3, s4];
    assert IsStep(s, Label(tid, LoopEnds), s1) && IsStep(s1, Label(tid, LoopClears), s2)
        && IsStep(s2, Label(tid, Closes), s3) && IsStep(s3, Label(tid, Notifies), s4);
  }

  /** A session taken out by this thread, closed and announced. */
  function Over(v: Sess, tid: nat): Sess {
    v.(status := Cleared(tid), closed := true, closes := if v.closed then v.closes else v.closes + 1,
       disconnects := v.disconnects + 1)
  }

  /** A loop that ends after its session was taken out only closes it: a newer session stays
      in the slot, and there is no second announcement. */
  lemma LateLoopAlone(s: State, tid: nat, x: nat) returns (states: seq<State>)
    requires Inv(s) && tid < |s.pcs| && s.pcs[tid] == Reading(x) && s.slot != Some(x)
    ensures Path(tid, states, [LoopEnds, LoopClears, Closes]) && states[0] == s
    ensures x < |s.sessions|
            && states[3] == State(s.slot, s.sessions[x := s.sessions[x].(closed := true,
                 closes := if s.sessions[x].closed then s.sessions[x].closes else s.sessions[x].closes + 1)], s.pcs[tid := Idle])
  {
    assert PcOk(s, tid);
    var s1 := Next(s, tid, LoopEnds);
    var s2 := Next(s1, tid, LoopClears);
    var s3 := Next(s2, tid, Closes);
    states := [s, s1, s2, s3];
    assert IsStep(s, Label(tid, LoopEnds), s1) && IsStep(s1, Label(tid, LoopClears), s2) && IsStep(s2, Label(tid, Closes), s3);
  }

  /** Disconnect takes the session out, closes it and announces it; Stop closes it and leaves
      the rest to its read loop. */
  lemma DisconnectAlone(s: State, tid: nat) returns (states: seq<State>)
    requires Ready(s, tid) && s.slot.Some?
    ensures Path(tid, states, [Disconnects, Closes, Notifies]) && states[0] == s
    ensures var x := s.slot.value;
            x < |s.sessions| && states[3] == State(None, s.sessions[x := Over(s.sessions[x], tid)], s.pcs)
  {
    var s1 := Next(s, tid, Disconnects);
    var s2 := Next(s1, tid, Closes);
    var s3 := Next(s2, tid, Notifies);
    states := [s, s1, s2, s3];
    assert SessOk(s, s.slot.value);
    assert s3.pcs == s.pcs;
    assert IsStep(s, Label(tid, Disconnects), s1) && IsStep(s1, Label(tid, Closes), s2) && IsStep(s2, Label(tid, Notifies), s3);
  }

  lemma StopAlone(s: State, tid: nat) returns (states: seq<State>)
    requires Ready(s, tid) && s.slot.Some?
    ensures Path(tid, states, [StopReads, Closes]) && states[0] == s
    ensures var x := s.slot.value;
            && x < |s.sessions| == |states[2].sessions| && states[2].slot == s.slot && states[2].pcs == s.pcs
            && states[2].sessions == s.sessions[x := states[2].sessions[x]] && states[2].sessions[x].closed
            && states[2].sessions[x].status == Active && states[2].sessions[x].disconnects == 0
  {
    var s1 := Next(s, tid, StopReads);
    var s2 := Next(s1, tid, Closes);
    states := [s, s1, s2];
    assert SessOk(s, s.slot.value);
    assert s2.pcs == s.pcs;
    assert IsStep(s, Label(tid, StopReads), s1) && IsStep(s1, Label(tid, Closes), s2);
  }
}
