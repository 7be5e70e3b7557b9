/** The transport's session slot: installs, disconnects, Stop and read-loop exits in any
    interleaving (internal/transport/transport_lifecycle.go, transport_session.go). */
module SessionSlot {
  import opened Options

  // The lock sections

  /** installSession: the slot is taken only if it was free. */
  function Installed<T>(slot: Option<T>, x: T): Option<T> {
    if slot.None? then Some(x) else slot
  }

  /** readLoop's exit: the slot is freed only if it still holds that session. */
  function Released<T(==)>(slot: Option<T>, x: T): Option<T> {
    if slot == Some(x) then None else slot
  }

  class Session {
    var closed: bool   // closeCh closed and conn closed
    ghost var closes: nat

    constructor ()
      ensures !closed && closes == 0
    {
      closed, closes := false, 0;
    }

    /** Close does its work once, however often it is called. */
    method Close()
      modifies this
      ensures closed && closes == old(closes) + (if old(closed) then 0 else 1)
    {
      if !closed {
        closed := true;
        closes := closes + 1;
      }
    }
  }

  class Transport {
    var session: Session?
    ghost var onDisconnects: nat

    ghost function Slot(): Option<Session>
      reads this`session
    {
      if session == null then None else Some(session)
    }

    constructor ()
      ensures Slot() == None && onDisconnects == 0
    {
      session, onDisconnects := null, 0;
    }

    method InstallSession(s: Session) returns (ok: bool)
      modifies this`session
      ensures ok == old(Slot()).None? && Slot() == Installed(old(Slot()), s)
    {
      if session != null {
        return false;
      }
      session := s;
      return true;
    }

    /** The deferred part of readLoop. */
    method LeaveLoop(s: Session)
      modifies this, s
      ensures Slot() == Released(old(Slot()), s) && s.closed
      ensures onDisconnects == old(onDisconnects) + (if old(Slot()) == Some(s) then 1 else 0)
    {
      var wasActive := session == s;
      if wasActive {
        session := null;
      }
      s.Close();
      if wasActive {
        onDisconnects := onDisconnects + 1;
      }
    }

    method Disconnect()
      modifies this, session
      ensures Slot() == None
      ensures old(session) != null ==> old(session).closed
      ensures onDisconnects == old(onDisconnects) + (if old(session) == null then 0 else 1)
    {
      var s := session;
      session := null;
      if s != null {
        s.Close();
        onDisconnects := onDisconnects + 1;
      }
    }

    /** Stop closes the session but leaves the slot to its read loop. */
    method Stop()
      modifies session
      ensures Slot() == old(Slot()) && onDisconnects == old(onDisconnects)
      ensures session != null ==> session.closed
    {
      if session != null {
        session.Close();
      }
    }
  }

  // The machine

  datatype Status =
    | Fresh             // made, not offered to the slot yet
    | Refused           // lost the race for the slot
    | Active
    | Cleared(who: nat)  // taken out of the slot by this thread

  datatype Sess = Sess(maker: nat, status: Status, closed: bool, closes: nat, connects: nat, disconnects: nat)

  datatype Pc =
    | Idle
    | Shaking            // past the early check, handshake under way
    | Made(x: nat)       // about to install
    | Losing(x: nat)     // about to close the losing connection
    | Won(x: nat)        // about to call OnConnect
    | Reading(x: nat)
    | Exiting(x: nat)    // about to run the deferred clear
    | Leaving(x: nat)    // not active any more: about to close only
    | Took(x: nat)       // has cleared the slot: about to close
    | Notifying(x: nat)  // about to call OnDisconnect
    | Stopping(x: nat)   // Stop: about to close

  datatype State = State(slot: Option<nat>, sessions: seq<Sess>, pcs: seq<Pc>)

  datatype Event =
    | Begins | HandshakeFails | HandshakeDone | Installs | ClosesLoser | CallsConnect
    | LoopEnds | LoopClears | Closes | Notifies | Disconnects | StopReads

  predicate Names(pc: Pc, x: nat) {
    !pc.Idle? && !pc.Shaking? && pc.x == x
  }

  predicate InRange(s: State, tid: nat) {
    && tid < |s.pcs| && (s.pcs[tid].Idle? || s.pcs[tid].Shaking? || s.pcs[tid].x < |s.sessions|)
    && (s.slot.Some? ==> s.slot.value < |s.sessions|)
  }

  predicate Enabled(s: State, tid: nat, e: Event) {
    InRange(s, tid)
    && match e
       case Begins => s.pcs[tid].Idle?
       case Disconnects => s.pcs[tid].Idle?
       case StopReads => s.pcs[tid].Idle?
       case HandshakeFails => s.pcs[tid].Shaking?
       case HandshakeDone => s.pcs[tid].Shaking?
       case Installs => s.pcs[tid].Made?
       case ClosesLoser => s.pcs[tid].Losing?
       case CallsConnect => s.pcs[tid].Won?
       case LoopEnds => s.pcs[tid].Reading?
       case LoopClears => s.pcs[tid].Exiting?
       case Closes => s.pcs[tid].Took? || s.pcs[tid].Leaving? || s.pcs[tid].Stopping?
       case Notifies => s.pcs[tid].Notifying?
  }

  function CloseOnce(v: Sess): Sess {
    if v.closed then v else v.(closed := true, closes := v.closes + 1)
  }

  /** The state with a new slot, one session replaced and the thread moved on. */
  function Move(s: State, tid: nat, slot: Option<nat>, x: nat, v: Sess, pc: Pc): State
    requires tid < |s.pcs| && x < |s.sessions|
  {
    State(slot, s.sessions[x := v], s.pcs[tid := pc])
  }

  function Goto(s: State, tid: nat, pc: Pc): State
    requires tid < |s.pcs|
  {
    s.(pcs := s.pcs[tid := pc])
  }

  function Next(s: State, tid: nat, e: Event): State
    requires Enabled(s, tid, e)
  {
    var pc := s.pcs[tid];
    match e
    case Begins => Goto(s, tid, if s.slot.Some? then Idle else Shaking)
    case HandshakeFails => Goto(s, tid, Idle)
    case HandshakeDone =>
      Goto(s.(sessions := s.sessions + [Sess(tid, Fresh, false, 0, 0, 0)]), tid, Made(|s.sessions|))
    case Installs =>
      var won := s.slot.None?;
      Move(s, tid, Installed(s.slot, pc.x), pc.x, s.sessions[pc.x].(status := if won then Active else Refused),
           if won then Won(pc.x) else Losing(pc.x))
    case ClosesLoser => Move(s, tid, s.slot, pc.x, s.sessions[pc.x].(closed := true), Idle)
    case CallsConnect =>
      Move(s, tid, s.slot, pc.x, s.sessions[pc.x].(connects := s.sessions[pc.x].connects + 1), Reading(pc.x))
    case LoopEnds => Goto(s, tid, Exiting(pc.x))
    case LoopClears =>
      if s.slot == Some(pc.x) then
        Move(s, tid, Released(s.slot, pc.x), pc.x, s.sessions[pc.x].(status := Cleared(tid)), Took(pc.x))
      else Goto(s, tid, Leaving(pc.x))
    case Closes =>
      Move(s, tid, s.slot, pc.x, CloseOnce(s.sessions[pc.x]), if pc.Took? then Notifying(pc.x) else Idle)
    case Notifies =>
      Move(s, tid, s.slot, pc.x, s.sessions[pc.x].(disconnects := s.sessions[pc.x].disconnects + 1), Idle)
    case Disconnects =>
      if s.slot.None? then s
      else
        var x := s.slot.value;
        Move(s, tid, None, x, s.sessions[x].(status := Cleared(tid)), Took(x))
    case StopReads => if s.slot.None? then s else Goto(s, tid, Stopping(s.slot.value))
  }

  // The invariant

  predicate SessOk(s: State, x: nat)
    requires x < |s.sessions|
  {
    var v := s.sessions[x];
    && v.maker < |s.pcs| && v.closes <= 1 && (v.closes == 1 ==> v.closed)
    && (s.slot == Some(x) <==> v.status == Active)
    && match v.status
       case Fresh => s.pcs[v.maker] == Made(x) && v.connects == 0 && v.disconnects == 0 && !v.closed
       case Refused => v.connects == 0 && v.disconnects == 0 && (v.closed || s.pcs[v.maker] == Losing(x))
       case Active => v.disconnects == 0 && ConnectsOk(s, x)
       case Cleared(who) => ConnectsOk(s, x) && who < |s.pcs| && ClearedOk(v, s.pcs[who], x)
  }

  predicate ConnectsOk(s: State, x: nat)
    requires x < |s.sessions| && s.sessions[x].maker < |s.pcs|
  {
    var v := s.sessions[x];
    v.connects == (if s.pcs[v.maker] == Won(x) then 0 else 1)
  }

  predicate ClearedOk(v: Sess, pc: Pc, x: nat) {
    && v.disconnects == (if pc == Took(x) || pc == Notifying(x) then 0 else 1)
    && (v.closed || pc == Took(x))
  }

  predicate PcOk(s: State, tid: nat)
    requires tid < |s.pcs|
  {
    match s.pcs[tid]
    case Idle => true
    case Shaking => true
    case Made(x) => x < |s.sessions| && s.sessions[x].maker == tid && s.sessions[x].status == Fresh
    case Losing(x) => x < |s.sessions| && s.sessions[x].maker == tid && s.sessions[x].status == Refused
    case Won(x) => x < |s.sessions| && s.sessions[x].maker == tid && WasActive(s.sessions[x])
    case Reading(x) => x < |s.sessions| && s.sessions[x].maker == tid && WasActive(s.sessions[x])
    case Exiting(x) => x < |s.sessions| && s.sessions[x].maker == tid && WasActive(s.sessions[x])
    case Leaving(x) => x < |s.sessions| && WasActive(s.sessions[x])
    case Took(x) => x < |s.sessions| && s.sessions[x].status == Cleared(tid)
    case Notifying(x) => x < |s.sessions| && s.sessions[x].status == Cleared(tid)
    case Stopping(x) => x < |s.sessions| && WasActive(s.sessions[x])
  }

  predicate WasActive(v: Sess) {
    v.status.Active? || v.status.Cleared?
  }

  predicate Inv(s: State) {
    && (forall x :: 0 <= x < |s.sessions| ==> SessOk(s, x))
    && (forall tid :: 0 <= tid < |s.pcs| ==> PcOk(s, tid))
    && (s.slot.Some? ==> s.slot.value < |s.sessions|)
  }

  /** How a status may change. */
  predicate Follows(a: Status, b: Status) {
    b == a || (a.Fresh? && (b.Active? || b.Refused?)) || (a.Active? && b.Cleared?)
  }

  /** A step in which the slot and one session change. */
  lemma MoveStep(s: State, tid: nat, slot: Option<nat>, x: nat, v: Sess, pc: Pc)
    requires Inv(s) && tid < |s.pcs| && x < |s.sessions|
    requires v.maker == s.sessions[x].maker && Follows(s.sessions[x].status, v.status)
    requires forall y: nat :: y != x ==> !Names(pc, y) && !Names(s.pcs[tid], y)
    requires slot == s.slot || (s.slot == None && slot == Some(x)) || (s.slot == Some(x) && slot == None)
    requires v.status == s.sessions[x].status || s.sessions[x].status == Active || s.sessions[x].maker == tid
    requires SessOk(Move(s, tid, slot, x, v, pc), x) && PcOk(Move(s, tid, slot, x, v, pc), tid)
    ensures Inv(Move(s, tid, slot, x, v, pc))
  {
    var u := Move(s, tid, slot, x, v, pc);
    assert SessOk(s, x);
    forall y | 0 <= y < |u.sessions|
      ensures SessOk(u, y)
    {
      assert SessOk(s, y);
      if y != x {
        assert !Names(pc, y) && !Names(s.pcs[tid], y);
      }
    }
    forall other | 0 <= other < |u.pcs|
      ensures PcOk(u, other)
    {
      assert PcOk(s, other);
    }
  }

  lemma StepKeeps(s: State, tid: nat, e: Event)
    requires Inv(s) && Enabled(s, tid, e)
    ensures Inv(Next(s, tid, e))
  {
    var pc := s.pcs[tid];
    assert PcOk(s, tid);
    var u := Next(s, tid, e);
    if s.slot.Some? {
      assert SessOk(s, s.slot.value);
    }
    if e.HandshakeDone? {
      MadeStep(s, tid);
    } else if e.Disconnects? || e.StopReads? {
      if s.slot.Some? {
        var x := s.slot.value;
        assert s.sessions[x := s.sessions[x]] == s.sessions;
        MoveStep(s, tid, u.slot, x, u.sessions[x], u.pcs[tid]);
      }
    } else if e.Begins? || e.HandshakeFails? {
      PlainStep(s, tid, u.pcs[tid]);
    } else {
      assert SessOk(s, pc.x);
      assert s.sessions[pc.x := s.sessions[pc.x]] == s.sessions;
      MoveStep(s, tid, u.slot, pc.x, u.sessions[pc.x], u.pcs[tid]);
    }
  }

  lemma PlainStep(s: State, tid: nat, pc: Pc)
    requires Inv(s) && tid < |s.pcs| && (s.pcs[tid].Idle? || s.pcs[tid].Shaking?) && (pc.Idle? || pc.Shaking?)
    ensures Inv(Goto(s, tid, pc))
  {
    var u := Goto(s, tid, pc);
    forall y | 0 <= y < |u.sessions|
      ensures SessOk(u, y)
    {
      assert SessOk(s, y);
    }
    forall other | 0 <= other < |u.pcs|
      ensures PcOk(u, other)
    {
      assert PcOk(s, other);
    }
  }

  lemma MadeStep(s: State, tid: nat)
    requires Inv(s) && Enabled(s, tid, HandshakeDone)
    ensures Inv(Next(s, tid, HandshakeDone))
  {
    var u := Next(s, tid, HandshakeDone);
    forall y | 0 <= y < |u.sessions|
      ensures SessOk(u, y)
    {
      if y < |s.sessions| {
        assert SessOk(s, y);
      }
    }
    forall other | 0 <= other < |u.pcs|
      ensures PcOk(u, other)
    {
      assert PcOk(s, other);
    }
  }

  // Runs

  datatype Label = Label(tid: nat, e: Event)

  predicate Initial(s: State) {
    s.slot == None && s.sessions == [] && forall tid :: 0 <= tid < |s.pcs| ==> s.pcs[tid] == Idle
  }

  predicate IsStep(s: State, l: Label, u: State) {
    Enabled(s, l.tid, l.e) && u == Next(s, l.tid, l.e)
  }

  predicate IsRun(states: seq<State>, labels: seq<Label>) {
    && |states| == |labels| + 1 && Initial(states[0])
    && forall k :: 0 <= k < |labels| ==> IsStep(states[k], labels[k], states[k + 1])
  }

  lemma {:induction false} RunKeeps(states: seq<State>, labels: seq<Label>, k: nat)
    requires IsRun(states, labels) && k < |states|
    ensures Inv(states[k])
  {
    if k > 0 {
      RunKeeps(states, labels, k - 1);
      assert IsStep(states[k - 1], labels[k - 1], states[k]);
      StepKeeps(states[k - 1], labels[k - 1].tid, labels[k - 1].e);
    }
  }

  /** At most one session is active, and it is the one in the slot. */
  lemma AtMostOneActive(states: seq<State>, labels: seq<Label>, k: nat, x: nat)
    requires IsRun(states, labels) && k < |states| && x < |states[k].sessions|
    ensures states[k].sessions[x].status == Active <==> states[k].slot == Some(x)
  {
    RunKeeps(states, labels, k);
    assert SessOk(states[k], x);
  }

  /** Callbacks. A session that lost the slot gets none. One that was installed gets
      OnConnect once, and OnDisconnect once if and only if it was cleared, by the thread
      that cleared it: until then exactly that thread is on its way to the call. The
      session is closed, once, before OnDisconnect. */
  lemma CallbacksMatch(states: seq<State>, labels: seq<Label>, k: nat, x: nat)
    requires IsRun(states, labels) && k < |states| && x < |states[k].sessions|
    ensures var s, v := states[k], states[k].sessions[x];
            && (v.status.Fresh? || v.status.Refused? ==> v.connects == 0 && v.disconnects == 0)
            && (WasActive(v) ==> v.connects <= 1 && (v.connects == 0 ==> v.maker < |s.pcs| && s.pcs[v.maker] == Won(x)))
            && (v.status.Active? ==> v.disconnects == 0)
            && (v.status.Cleared? ==>
                  && v.status.who < |s.pcs| && v.disconnects <= 1
                  && (v.disconnects == 0 <==> s.pcs[v.status.who] == Took(x) || s.pcs[v.status.who] == Notifying(x)))
            && (v.disconnects == 1 ==> v.closed) && v.closes <= 1
  {
    RunKeeps(states, labels, k);
    assert SessOk(states[k], x);
  }

  /** No other thread is about to announce the same disconnection. */
  lemma OneNotifier(states: seq<State>, labels: seq<Label>, k: nat, a: nat, b: nat, x: nat)
    requires IsRun(states, labels) && k < |states| && a < |states[k].pcs| && b < |states[k].pcs|
    requires states[k].pcs[a] in {Took(x), Notifying(x)} && states[k].pcs[b] in {Took(x), Notifying(x)}
    ensures a == b
  {
    RunKeeps(states, labels, k);
    assert PcOk(states[k], a) && PcOk(states[k], b);
  }

  lemma StatusFollows(s: State, l: Label, u: State, x: nat)
    requires Inv(s) && IsStep(s, l, u) && x < |s.sessions|
    ensures x < |u.sessions| && Follows(s.sessions[x].status, u.sessions[x].status)
  {
    assert PcOk(s, l.tid) && SessOk(s, x);
    if s.slot.Some? {
      assert SessOk(s, s.slot.value);
    }
  }

  /** A session that was cleared, or lost the slot, never enters it again. */
  lemma {:induction false} NeverReenters(states: seq<State>, labels: seq<Label>, i: nat, j: nat, x: nat)
    requires IsRun(states, labels) && i <= j < |states| && x < |states[i].sessions|
    requires states[i].sessions[x].status.Cleared? || states[i].sessions[x].status.Refused?
    ensures x < |states[j].sessions| && states[j].sessions[x].status == states[i].sessions[x].status
    ensures states[j].slot != Some(x)
    decreases j
  {
    RunKeeps(states, labels, j);
    if i < j {
      NeverReenters(states, labels, i, j - 1, x);
      RunKeeps(states, labels, j - 1);
      assert IsStep(states[j - 1], labels[j - 1], states[j]);
      StatusFollows(states[j - 1], labels[j - 1], states[j], x);
    }
    assert SessOk(states[j], x);
  }

  /** Who empties the slot: only Disconnect, or the read loop of the very session that is
      in it. An exiting loop never clears a newer session. */
  lemma OnlyItsOwnLoopClears(states: seq<State>, labels: seq<Label>, k: nat, y: nat)
    requires IsRun(states, labels) && k < |labels|
    requires states[k].slot == Some(y) && states[k + 1].slot != Some(y)
    ensures states[k + 1].slot == None
    ensures || labels[k].e.Disconnects?
            || (labels[k].e.LoopClears? && labels[k].tid < |states[k].pcs| && states[k].pcs[labels[k].tid] == Exiting(y))
  {
    assert IsStep(states[k], labels[k], states[k + 1]);
  }

  // The order of the two callbacks

  /** A Disconnect call takes x out of the slot. */
  predicate TakesOut(s: State, l: Label, x: nat) {
    l.e.Disconnects? && s.slot == Some(x)
  }

  /** OnConnect and OnDisconnect are called for x. */
  predicate Connects(s: State, l: Label, x: nat) {
    l.e.CallsConnect? && l.tid < |s.pcs| && s.pcs[l.tid] == Won(x)
  }

  predicate Announces(s: State, l: Label, x: nat) {
    l.e.Notifies? && l.tid < |s.pcs| && s.pcs[l.tid] == Notifying(x)
  }

  function ConnectsOf(s: State, x: nat): nat {
    if x < |s.sessions| then s.sessions[x].connects else 0
  }

  function DisconnectsOf(s: State, x: nat): nat {
    if x < |s.sessions| then s.sessions[x].disconnects else 0
  }

  lemma CallbackSteps(s: State, l: Label, u: State, x: nat)
    requires Inv(s) && IsStep(s, l, u)
    ensures ConnectsOf(u, x) == ConnectsOf(s, x) + (if Connects(s, l, x) then 1 else 0)
    ensures DisconnectsOf(u, x) == DisconnectsOf(s, x) + (if Announces(s, l, x) then 1 else 0)
  {
    assert PcOk(s, l.tid);
  }

  lemma {:induction false} ConnectedBefore(states: seq<State>, labels: seq<Label>, k: nat, x: nat)
    requires IsRun(states, labels) && k < |states|
    ensures ConnectsOf(states[k], x) == 0 <==> forall c :: 0 <= c < k ==> !Connects(states[c], labels[c], x)
  {
    if k > 0 {
      ConnectedBefore(states, labels, k - 1, x);
      RunKeeps(states, labels, k - 1);
      assert IsStep(states[k - 1], labels[k - 1], states[k]);
      CallbackSteps(states[k - 1], labels[k - 1], states[k], x);
    }
  }

  lemma {:induction false} AnnouncedBefore(states: seq<State>, labels: seq<Label>, k: nat, x: nat)
    requires IsRun(states, labels) && k < |states|
    ensures DisconnectsOf(states[k], x) > 0 <==> exists j :: 0 <= j < k && Announces(states[j], labels[j], x)
  {
    if k > 0 {
      AnnouncedBefore(states, labels, k - 1, x);
      RunKeeps(states, labels, k - 1);
      assert IsStep(states[k - 1], labels[k - 1], states[k]);
      CallbackSteps(states[k - 1], labels[k - 1], states[k], x);
    }
  }

  predicate ClearedBy(s: State, x: nat, who: nat) {
    x < |s.sessions| && s.sessions[x].status == Cleared(who)
  }

  /** How x came to be cleared by this thread. */
  predicate Clears(s: State, l: Label, x: nat, who: nat) {
    && l.tid == who
    && (TakesOut(s, l, x) || (l.e.LoopClears? && who < |s.pcs| && s.pcs[who] == Exiting(x) && s.slot == Some(x)))
  }

  lemma ClearStep(s: State, l: Label, u: State, x: nat, who: nat)
    requires Inv(s) && IsStep(s, l, u) && ClearedBy(u, x, who)
    ensures ClearedBy(s, x, who) || Clears(s, l, x, who)
  {
    assert PcOk(s, l.tid);
  }

  lemma {:induction false} ClearedBefore(states: seq<State>, labels: seq<Label>, k: nat, x: nat, who: nat) returns (i: nat)
    requires IsRun(states, labels) && k < |states| && ClearedBy(states[k], x, who)
    ensures i < k && Clears(states[i], labels[i], x, who)
  {
    assert k > 0;
    RunKeeps(states, labels, k - 1);
    assert IsStep(states[k - 1], labels[k - 1], states[k]);
    ClearStep(states[k - 1], labels[k - 1], states[k], x, who);
    if ClearedBy(states[k - 1], x, who) {
      i := ClearedBefore(states, labels, k - 1, x, who);
    } else {
      i := k - 1;
    }
  }

  /** By step k a Disconnect call has taken x out and announced it, and OnConnect has not
      been called for x. */
  ghost predicate Overtaken(states: seq<State>, labels: seq<Label>, k: nat, x: nat)
    requires |states| > |labels| >= k
  {
    && (exists i, j :: 0 <= i < j < k && TakenAndAnnounced(states, labels, i, j, x))
    && forall c :: 0 <= c < k ==> !Connects(states[c], labels[c], x)
  }

  predicate TakenAndAnnounced(states: seq<State>, labels: seq<Label>, i: nat, j: nat, x: nat)
    requires |states| > |labels| && i < j < |labels|
  {
    TakesOut(states[i], labels[i], x) && labels[j].tid == labels[i].tid && Announces(states[j], labels[j], x)
  }

  lemma LoopHasConnected(s: State, x: nat, who: nat)
    requires Inv(s)
    ensures who < |s.pcs| && s.pcs[who] == Exiting(x) ==> ConnectsOf(s, x) == 1
  {
    if who < |s.pcs| && s.pcs[who] == Exiting(x) {
      assert PcOk(s, who) && SessOk(s, x);
    }
  }

  /** A read loop runs after the OnConnect call of its session. */
  lemma LoopAfterConnect(states: seq<State>, labels: seq<Label>, i: nat, k: nat, x: nat, who: nat)
    requires IsRun(states, labels) && i < k < |states|
    requires forall c :: 0 <= c < k ==> !Connects(states[c], labels[c], x)
    requires Clears(states[i], labels[i], x, who)
    ensures TakesOut(states[i], labels[i], x)
  {
    RunKeeps(states, labels, i);
    ConnectedBefore(states, labels, i, x);
    LoopHasConnected(states[i], x, who);
  }

  /** Exactly when OnDisconnect has been called for a session and OnConnect has not: a
      Disconnect call took it out and announced it before the thread that installed it
      came to its OnConnect call. */
  lemma DisconnectBeforeConnect(states: seq<State>, labels: seq<Label>, k: nat, x: nat)
    requires IsRun(states, labels) && k < |states|
    ensures DisconnectsOf(states[k], x) > ConnectsOf(states[k], x) <==> Overtaken(states, labels, k, x)
  {
    ConnectedBefore(states, labels, k, x);
    AnnouncedBefore(states, labels, k, x);
    RunKeeps(states, labels, k);
    if DisconnectsOf(states[k], x) > ConnectsOf(states[k], x) {
      assert SessOk(states[k], x);
      var j :| 0 <= j < k && Announces(states[j], labels[j], x);
      RunKeeps(states, labels, j);
      assert PcOk(states[j], labels[j].tid);
      var i := ClearedBefore(states, labels, j, x, labels[j].tid);
      LoopAfterConnect(states, labels, i, k, x, labels[j].tid);
      assert TakenAndAnnounced(states, labels, i, j, x);
    }
  }

  /** A session that no Disconnect call takes out always has its OnConnect first. */
  lemma ConnectFirst(states: seq<State>, labels: seq<Label>, k: nat, x: nat)
    requires IsRun(states, labels) && k < |states|
    requires forall i :: 0 <= i < k ==> !TakesOut(states[i], labels[i], x)
    ensures DisconnectsOf(states[k], x) <= ConnectsOf(states[k], x) <= 1
  {
    DisconnectBeforeConnect(states, labels, k, x);
    RunKeeps(states, labels, k);
    if x < |states[k].sessions| {
      assert SessOk(states[k], x);
    }
  }

  /** It happens: Disconnect runs between the install and the OnConnect call. */
  lemma DisconnectCanOvertake() returns (states: seq<State>, labels: seq<Label>)
    ensures IsRun(states, labels) && |states[|labels|].sessions| == 1
    ensures DisconnectsOf(states[|labels|], 0) > ConnectsOf(states[|labels|], 0)
  {
    var s0 := State(None, [], [Idle, Idle]);
    var s1 := Next(s0, 0, Begins);
    var s2 := Next(s1, 0, HandshakeDone);
    var s3 := Next(s2, 0, Installs);
    var s4 := Next(s3, 1, Disconnects);
    var s5 := Next(s4, 1, Closes);
    var s6 := Next(s5, 1, Notifies);
    states := [s0, s1, s2, s3, s4, s5, s6];
    labels := [Label(0, Begins), Label(0, HandshakeDone), Label(0, Installs),
               Label(1, Disconnects), Label(1, Closes), Label(1, Notifies)];
    forall k | 0 <= k < |labels|
      ensures IsStep(states[k], labels[k], states[k + 1])
    {
      if k < 3 {
        assert k == 0 || k == 1 || k == 2;
      } else {
        assert k == 3 || k == 4 || k == 5;
      }
    }
  }
}
