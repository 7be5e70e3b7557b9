/** Incoming transfers under any interleaving of the handlers
    (internal/filetransfer/filetransfer_windows_receive.go). A step is one lock section or
    one action between two of them; any number of threads run handlers at once. */
module FileTransfers {
  import opened Bytes
  import opened Options
  import opened FileChunks
  import opened FileReceive
  import opened Seqs
  import FileSend

  datatype Outcome = Completes | Fails

  /** Where a thread is. */
  datatype Pc =
    | Idle
    | Offered(id: U32, sizes: seq<U64>, total: U64)  // handleOffer: past the duplicate check
    | Found(id: U32, r: nat, c: Chunk)               // handleChunk: past the lookup
    | Checked(id: U32, r: nat, c: Chunk)             // ... past the test of the done channel
    | Aborting(id: U32, r: nat)                      // ... about to call abortReceive
    | Validating(r: nat)                             // handleDone: has taken the transfer
    | Closing(r: nat, o: Outcome)                    // about to close the handles
    | Removing(r: nat)                               // about to remove the directory
    | Finishing(r: nat, o: Outcome)                  // about to close the done channel
    | Calling(r: nat)                                // about to call onComplete

  datatype Owner = InMap | Taken(tid: nat) | Completed | Aborted | Overwritten

  datatype Recv = Recv(id: U32, t: Transfer, owner: Owner, done: bool, kept: bool, callbacks: nat)

  datatype State = State(active: map<U32, nat>, recvs: seq<Recv>, pcs: seq<Pc>)

  datatype Event =
    | OfferArrives(id: U32, sizes: seq<U64>, total: U64)
    | Installs
    | ChunkArrives(c: Chunk)
    | ChecksDone
    | Writing(disk: Disk)
    | AbortTakes
    | DoneArrives(id: U32)
    | Validates
    | CancelArrives(id: U32)  // from the peer, or one round of CancelAll
    | Closes
    | Removes
    | Finishes
    | Calls

  predicate InRange(s: State, tid: nat) {
    tid < |s.pcs| && (s.pcs[tid].Idle? || s.pcs[tid].Offered? || s.pcs[tid].r < |s.recvs|)
  }

  /** InRange and WellFormed hold in every reachable state (RunKeeps); they are asked for
      here only so that a step is defined on every state. */
  predicate Enabled(s: State, tid: nat, e: Event) {
    InRange(s, tid)
    && match e
       case OfferArrives(_, _, _) => s.pcs[tid].Idle?
       case ChunkArrives(_) => s.pcs[tid].Idle?
       case DoneArrives(_) => s.pcs[tid].Idle?
       case CancelArrives(_) => s.pcs[tid].Idle?
       case Installs => s.pcs[tid].Offered?
       case ChecksDone => s.pcs[tid].Found?
       case Writing(_) => s.pcs[tid].Checked? && WellFormed(s.recvs[s.pcs[tid].r].t)
       case AbortTakes => s.pcs[tid].Aborting?
       case Validates => s.pcs[tid].Validating?
       case Closes => s.pcs[tid].Closing?
       case Removes => s.pcs[tid].Removing?
       case Finishes => s.pcs[tid].Finishing?
       case Calls => s.pcs[tid].Calling?
  }

  function Goto(s: State, tid: nat, pc: Pc): State
    requires tid < |s.pcs|
  {
    s.(pcs := s.pcs[tid := pc])
  }

  function Put(s: State, r: nat, v: Recv): State
    requires r < |s.recvs|
  {
    s.(recvs := s.recvs[r := v])
  }

  /** Deletes the entry from the active map; the thread now owns the transfer. */
  function Take(s: State, tid: nat, id: U32, pc: Pc): State
    requires tid < |s.pcs| && id in s.active && s.active[id] < |s.recvs|
  {
    var r := s.active[id];
    Goto(Put(s.(active := s.active - {id}), r, s.recvs[r].(owner := Taken(tid))), tid, pc)
  }

  function Install(s: State, tid: nat): State
    requires tid < |s.pcs| && s.pcs[tid].Offered?
  {
    var pc := s.pcs[tid];
    var base := if pc.id in s.active && s.active[pc.id] < |s.recvs|
      then Put(s, s.active[pc.id], s.recvs[s.active[pc.id]].(owner := Overwritten)) else s;
    var recv := Recv(pc.id, New(pc.sizes, pc.total), InMap, false, true, 0);
    Goto(State(s.active[pc.id := |s.recvs|], base.recvs + [recv], s.pcs), tid, Idle)
  }

  function Known(s: State, id: U32): Option<nat> {
    if id in s.active && s.active[id] < |s.recvs| then Some(s.active[id]) else None
  }

  function Next(s: State, tid: nat, e: Event): State
    requires Enabled(s, tid, e)
  {
    var pc := s.pcs[tid];
    match e
    case OfferArrives(id, sizes, total) =>
      if id in s.active then s else Goto(s, tid, Offered(id, sizes, total))
    case Installs => Install(s, tid)
    case ChunkArrives(c) =>
      if Known(s, c.id).None? then s else Goto(s, tid, Found(c.id, s.active[c.id], c))
    case ChecksDone => Goto(s, tid, if s.recvs[pc.r].done then Idle else Checked(pc.id, pc.r, pc.c))
    case Writing(disk) =>
      var recv := s.recvs[pc.r];
      var v := Judge(recv.t, pc.c, disk);
      Goto(Put(s, pc.r, recv.(t := AfterChunk(recv.t, pc.c, disk))), tid,
           if v == Invalid || v == WriteError then Aborting(pc.id, pc.r) else Idle)
    case AbortTakes =>
      if Known(s, pc.id) == Some(pc.r) then Take(s, tid, pc.id, Closing(pc.r, Fails)) else Goto(s, tid, Idle)
    case DoneArrives(id) =>
      if Known(s, id).None? then s else Take(s, tid, id, Validating(s.active[id]))
    case Validates => Goto(s, tid, Closing(pc.r, if Finished(s.recvs[pc.r].t) then Completes else Fails))
    case CancelArrives(id) =>
      if Known(s, id).None? then s else Take(s, tid, id, Closing(s.active[id], Fails))
    case Closes =>
      Goto(Put(s, pc.r, s.recvs[pc.r].(t := Closed(s.recvs[pc.r].t))), tid,
           if pc.o == Completes then Finishing(pc.r, Completes) else Removing(pc.r))
    case Removes => Goto(Put(s, pc.r, s.recvs[pc.r].(kept := false)), tid, Finishing(pc.r, Fails))
    case Finishes =>
      if pc.o == Completes then Goto(Put(s, pc.r, s.recvs[pc.r].(done := true)), tid, Calling(pc.r))
      else Goto(Put(s, pc.r, s.recvs[pc.r].(done := true, owner := Aborted)), tid, Idle)
    case Calls =>
      var recv := s.recvs[pc.r];
      Goto(Put(s, pc.r, recv.(callbacks := recv.callbacks + 1, owner := Completed)), tid, Idle)
  }

  // The invariant

  predicate AllOpen(t: Transfer) {
    forall i :: 0 <= i < |t.handles| ==> t.handles[i]
  }

  predicate AllClosed(t: Transfer) {
    forall i :: 0 <= i < |t.handles| ==> !t.handles[i]
  }

  predicate Untouched(v: Recv) {
    AllOpen(v.t) && !v.done && v.kept && v.callbacks == 0
  }

  predicate Holds(pc: Pc, r: nat) {
    (pc.Validating? || pc.Closing? || pc.Removing? || pc.Finishing? || pc.Calling?) && pc.r == r
  }

  /** A transfer in the hands of a thread at pc. */
  predicate HeldOk(pc: Pc, r: nat, v: Recv) {
    && Holds(pc, r) && v.callbacks == 0
    && (pc.Validating? || pc.Closing? ==> Untouched(v))
    && (((pc.Closing? || pc.Finishing?) && pc.o == Completes) || pc.Calling? ==> Finished(v.t))
    && (pc.Removing? || pc.Finishing? || pc.Calling? ==> AllClosed(v.t) && v.done == pc.Calling?)
    && (pc.Removing? || pc.Calling? ==> v.kept)
    && (pc.Finishing? ==> (v.kept <==> pc.o == Completes))
  }

  predicate RecvOk(s: State, r: nat)
    requires r < |s.recvs|
  {
    var v := s.recvs[r];
    && WellFormed(v.t)
    && match v.owner
       case InMap => Untouched(v) && v.id in s.active && s.active[v.id] == r
       case Overwritten => Untouched(v)
       case Taken(tid) => tid < |s.pcs| && HeldOk(s.pcs[tid], r, v)
       case Completed => Finished(v.t) && AllClosed(v.t) && v.done && v.kept && v.callbacks == 1
       case Aborted => AllClosed(v.t) && v.done && !v.kept && v.callbacks == 0
  }

  predicate PcOk(s: State, tid: nat)
    requires tid < |s.pcs|
  {
    var pc := s.pcs[tid];
    match pc
    case Idle => true
    case Offered(_, _, _) => true
    case Found(id, r, _) => r < |s.recvs| && s.recvs[r].id == id
    case Checked(id, r, _) => r < |s.recvs| && s.recvs[r].id == id
    case Aborting(id, r) => r < |s.recvs| && s.recvs[r].id == id
    case _ => pc.r < |s.recvs| && s.recvs[pc.r].owner == Taken(tid)
  }

  predicate EntryOk(s: State, id: U32)
    requires id in s.active
  {
    var r := s.active[id];
    r < |s.recvs| && s.recvs[r].id == id && s.recvs[r].owner == InMap
  }

  predicate Inv(s: State) {
    && (forall r :: 0 <= r < |s.recvs| ==> RecvOk(s, r))
    && (forall tid :: 0 <= tid < |s.pcs| ==> PcOk(s, tid))
    && (forall id :: id in s.active ==> EntryOk(s, id))
  }

  lemma InvInRange(s: State, tid: nat)
    requires Inv(s) && tid < |s.pcs|
    ensures InRange(s, tid)
  {
    assert PcOk(s, tid);
  }

  function Moved(s: State, tid: nat, pc: Pc, r: nat, v: Recv, take: bool): State
    requires tid < |s.pcs| && r < |s.recvs|
  {
    State(if take then s.active - {s.recvs[r].id} else s.active, s.recvs[r := v], s.pcs[tid := pc])
  }

  /** A step in which only the thread's own position and one transfer change. */
  lemma OneRecvStep(s: State, tid: nat, pc: Pc, r: nat, v: Recv, take: bool)
    requires Inv(s) && tid < |s.pcs| && r < |s.recvs| && v.id == s.recvs[r].id
    requires Holds(s.pcs[tid], r) || forall q :: !Holds(s.pcs[tid], q)
    requires s.recvs[r].owner.Taken? ==> s.recvs[r].owner == Taken(tid) || v.owner == s.recvs[r].owner
    requires take <==> s.recvs[r].owner == InMap && v.owner != InMap
    requires v.owner == InMap ==> s.recvs[r].owner == InMap
    requires RecvOk(Moved(s, tid, pc, r, v, take), r) && PcOk(Moved(s, tid, pc, r, v, take), tid)
    ensures Inv(Moved(s, tid, pc, r, v, take))
  {
    var u := Moved(s, tid, pc, r, v, take);
    assert RecvOk(s, r);
    forall q | 0 <= q < |u.recvs|
      ensures RecvOk(u, q)
    {
      assert RecvOk(s, q);
    }
    forall other | 0 <= other < |u.pcs|
      ensures PcOk(u, other)
    {
      assert PcOk(s, other);
    }
    forall id | id in u.active
      ensures EntryOk(u, id)
    {
      assert EntryOk(s, id);
    }
  }

  /** A step in which only the thread's own position changes. */
  lemma GotoStep(s: State, tid: nat, pc: Pc)
    requires Inv(s) && tid < |s.pcs| && forall q :: !Holds(s.pcs[tid], q) && !Holds(pc, q)
    requires PcOk(Goto(s, tid, pc), tid)
    ensures Inv(Goto(s, tid, pc))
  {
    var u := Goto(s, tid, pc);
    forall q | 0 <= q < |u.recvs|
      ensures RecvOk(u, q)
    {
      assert RecvOk(s, q);
    }
    forall other | 0 <= other < |u.pcs|
      ensures PcOk(u, other)
    {
      assert PcOk(s, other);
    }
    forall id | id in u.active
      ensures EntryOk(u, id)
    {
      assert EntryOk(s, id);
    }
  }

  lemma TakeStep(s: State, tid: nat, id: U32, pc: Pc)
    requires Inv(s) && tid < |s.pcs| && id in s.active && s.active[id] < |s.recvs|
    requires forall q :: !Holds(s.pcs[tid], q)
    requires pc == Validating(s.active[id]) || pc == Closing(s.active[id], Fails)
    ensures Inv(Take(s, tid, id, pc))
  {
    assert EntryOk(s, id) && RecvOk(s, s.active[id]);
    OneRecvStep(s, tid, pc, s.active[id], s.recvs[s.active[id]].(owner := Taken(tid)), true);
  }

  lemma WritingStep(s: State, tid: nat, disk: Disk)
    requires Inv(s) && Enabled(s, tid, Writing(disk))
    ensures Inv(Next(s, tid, Writing(disk)))
  {
    var pc := s.pcs[tid];
    var v := s.recvs[pc.r];
    var t' := AfterChunk(v.t, pc.c, disk);
    assert PcOk(s, tid) && RecvOk(s, pc.r);
    ChunkKeeps(v.t, pc.c, disk);
    if Finished(v.t) {
      FinishedIsFrozen(v.t, pc.c, disk);
    }
    assert AllClosed(v.t) ==> t' == v.t;
    assert t'.handles == v.t.handles;
    var j := Judge(v.t, pc.c, disk);
    OneRecvStep(s, tid, if j == Invalid || j == WriteError then Aborting(pc.id, pc.r) else Idle, pc.r, v.(t := t'), false);
  }

  /** The owner of a transfer takes it one stage further. */
  lemma OwnerStep(s: State, tid: nat, e: Event)
    requires Inv(s) && Enabled(s, tid, e) && (e.Validates? || e.Closes? || e.Removes? || e.Finishes? || e.Calls?)
    ensures Inv(Next(s, tid, e))
  {
    var pc := s.pcs[tid];
    var v := s.recvs[pc.r];
    assert PcOk(s, tid) && RecvOk(s, pc.r);
    var u := Next(s, tid, e);
    if e.Closes? {
      ClosedIsFrozen(v.t, Chunk(0, 0, 0, []), Writes);
    }
    assert s.recvs[pc.r := v] == s.recvs;
    OneRecvStep(s, tid, u.pcs[tid], pc.r, u.recvs[pc.r], false);
  }

  lemma InstallStep(s: State, tid: nat)
    requires Inv(s) && Enabled(s, tid, Installs)
    ensures Inv(Next(s, tid, Installs))
  {
    var pc := s.pcs[tid];
    var u := Next(s, tid, Installs);
    NewWellFormed(pc.sizes, pc.total);
    assert pc.id in s.active ==> EntryOk(s, pc.id);
    forall q | 0 <= q < |u.recvs|
      ensures RecvOk(u, q)
    {
      if q < |s.recvs| {
        assert RecvOk(s, q);
      }
    }
    forall other | 0 <= other < |u.pcs|
      ensures PcOk(u, other)
    {
      assert PcOk(s, other);
    }
    forall id | id in u.active
      ensures EntryOk(u, id)
    {
      assert id in s.active ==> EntryOk(s, id);
    }
  }

  lemma StepKeeps(s: State, tid: nat, e: Event)
    requires Inv(s) && Enabled(s, tid, e)
    ensures Inv(Next(s, tid, e))
  {
    var pc := s.pcs[tid];
    assert PcOk(s, tid);
    match e
    case OfferArrives(id, sizes, total) =>
      if id !in s.active {
        GotoStep(s, tid, Offered(id, sizes, total));
      }
    case Installs => InstallStep(s, tid);
    case ChunkArrives(c) =>
      if c.id in s.active {
        assert EntryOk(s, c.id);
        GotoStep(s, tid, Found(c.id, s.active[c.id], c));
      }
    case ChecksDone => GotoStep(s, tid, if s.recvs[pc.r].done then Idle else Checked(pc.id, pc.r, pc.c));
    case Writing(disk) => WritingStep(s, tid, disk);
    case AbortTakes =>
      if Known(s, pc.id) == Some(pc.r) {
        TakeStep(s, tid, pc.id, Closing(pc.r, Fails));
      } else {
        GotoStep(s, tid, Idle);
      }
    case DoneArrives(id) =>
      if Known(s, id).Some? {
        TakeStep(s, tid, id, Validating(s.active[id]));
      }
    case CancelArrives(id) =>
      if Known(s, id).Some? {
        TakeStep(s, tid, id, Closing(s.active[id], Fails));
      }
    case _ => OwnerStep(s, tid, e);
  }

  // Runs

  datatype Label = Label(tid: nat, e: Event)

  predicate Initial(s: State) {
    s.active == map[] && s.recvs == [] && forall tid :: 0 <= tid < |s.pcs| ==> s.pcs[tid] == Idle
  }

  predicate IsStep(s: State, l: Label, u: State) {
    Enabled(s, l.tid, l.e) && u == Next(s, l.tid, l.e)
  }

  predicate IsRun(states: seq<State>, labels: seq<Label>) {
    && |states| == |labels| + 1 && Initial(states[0])
    && forall k :: 0 <= k < |labels| ==> IsStep(states[k], labels[k], states[k + 1])
  }

  lemma {:induction false} RunKeeps(states: seq<State>, labels: seq<Label>, k: nat)
    requires IsRun(states, labels) && k < |states|
    ensures Inv(states[k])
  {
    if k > 0 {
      RunKeeps(states, labels, k - 1);
      assert IsStep(states[k - 1], labels[k - 1], states[k]);
      StepKeeps(states[k - 1], labels[k - 1].tid, labels[k - 1].e);
    }
  }

  /** When the completion callback has fired, in any run of any handlers: it fired once,
      the directory is there, the handles are closed, and every file on disk is exactly
      the accepted data, of exactly the offered size, with the sizes adding up. */
  lemma ContentSafety(states: seq<State>, labels: seq<Label>, k: nat, r: nat)
    requires IsRun(states, labels) && k < |states| && r < |states[k].recvs|
    ensures var v := states[k].recvs[r];
            v.callbacks > 0 ==> v.callbacks == 1 && v.kept && v.done && AllClosed(v.t) && Intact(v.t)
  {
    RunKeeps(states, labels, k);
    assert RecvOk(states[k], r);
    if states[k].recvs[r].callbacks > 0 {
      FinishedIsIntact(states[k].recvs[r].t);
    }
  }

  predicate Settled(v: Recv) {
    v.owner == Completed || v.owner == Aborted
  }

  lemma SettledStays(s: State, l: Label, u: State, r: nat)
    requires Inv(s) && IsStep(s, l, u) && r < |s.recvs| && Settled(s.recvs[r])
    ensures r < |u.recvs| && u.recvs[r] == s.recvs[r]
  {
    assert PcOk(s, l.tid) && RecvOk(s, r);
    var pc := s.pcs[l.tid];
    match l.e
    case Writing(disk) =>
      if pc.r == r {
        assert AfterChunk(s.recvs[r].t, pc.c, disk) == s.recvs[r].t;
      }
    case Installs => assert pc.id in s.active ==> EntryOk(s, pc.id);
    case DoneArrives(id) => assert id in s.active ==> EntryOk(s, id);
    case CancelArrives(id) => assert id in s.active ==> EntryOk(s, id);
    case AbortTakes => assert pc.id in s.active ==> EntryOk(s, pc.id);
    case _ =>
  }

  /** One outcome per transfer: completed, with its one callback and its directory, or
      aborted, with neither; and whichever it is, nothing about the transfer ever changes
      again. */
  lemma {:induction false} SingleOutcome(states: seq<State>, labels: seq<Label>, i: nat, j: nat, r: nat)
    requires IsRun(states, labels) && i <= j < |states|
    requires r < |states[i].recvs| && Settled(states[i].recvs[r])
    ensures var v := states[i].recvs[r];
            && (v.owner == Completed ==> v.callbacks == 1 && v.kept)
            && (v.owner == Aborted ==> v.callbacks == 0 && !v.kept)
            && v.done && AllClosed(v.t)
            && r < |states[j].recvs| && states[j].recvs[r] == v
    decreases j
  {
    RunKeeps(states, labels, i);
    assert RecvOk(states[i], r);
    if i < j {
      SingleOutcome(states, labels, i, j - 1, r);
      RunKeeps(states, labels, j - 1);
      assert IsStep(states[j - 1], labels[j - 1], states[j]);
      SettledStays(states[j - 1], labels[j - 1], states[j], r);
    }
  }

  /** Nothing reaches the disk through a closed handle. */
  lemma NoWriteAfterClose(states: seq<State>, labels: seq<Label>, k: nat, r: nat)
    requires IsRun(states, labels) && k < |labels| && r < |states[k].recvs| && AllClosed(states[k].recvs[r].t)
    ensures r < |states[k + 1].recvs| && states[k + 1].recvs[r].t == states[k].recvs[r].t
  {
    var s, l := states[k], labels[k];
    RunKeeps(states, labels, k);
    assert IsStep(s, l, states[k + 1]) && PcOk(s, l.tid) && RecvOk(s, r);
    if l.e.Writing? && s.pcs[l.tid].r == r {
      ClosedIsFrozen(s.recvs[r].t, s.pcs[l.tid].c, l.e.disk);
      assert s.recvs[r].t == Closed(s.recvs[r].t);
    } else if l.e.Closes? && s.pcs[l.tid].r == r {
      assert Closed(s.recvs[r].t) == s.recvs[r].t;
    }
  }

  /** No two threads own the same transfer, and an owned one is not in the map. */
  lemma OneOwner(states: seq<State>, labels: seq<Label>, k: nat, a: nat, b: nat, r: nat)
    requires IsRun(states, labels) && k < |states| && a < |states[k].pcs| && b < |states[k].pcs|
    requires Holds(states[k].pcs[a], r) && Holds(states[k].pcs[b], r)
    ensures a == b && forall id :: id in states[k].active ==> states[k].active[id] != r
  {
    var s := states[k];
    RunKeeps(states, labels, k);
    assert PcOk(s, a) && PcOk(s, b);
    forall id | id in s.active
      ensures s.active[id] != r
    {
      assert EntryOk(s, id);
    }
  }

  /** Steps its owner still has to take before a transfer is settled. */
  function Left(pc: Pc): nat {
    match pc
    case Validating(_) => 4
    case Closing(_, Fails) => 3
    case Closing(_, Completes) => 3
    case Removing(_) => 2
    case Finishing(_, Completes) => 2
    case Finishing(_, Fails) => 1
    case Calling(_) => 1
    case _ => 0
  }

  /** A taken transfer gets settled: every step of its owner is enabled, brings it closer,
      and the last one settles it; no other thread's step sets it back. */
  lemma OwnerSettles(states: seq<State>, labels: seq<Label>, k: nat, r: nat)
    requires IsRun(states, labels) && k < |labels| && r < |states[k].recvs| && states[k].recvs[r].owner.Taken?
    ensures var s, u, tid := states[k], states[k + 1], states[k].recvs[r].owner.tid;
            && tid < |s.pcs| && 0 < Left(s.pcs[tid]) <= 4
            && (exists e :: Enabled(s, tid, e))
            && r < |u.recvs| && |u.pcs| == |s.pcs|
            && (labels[k].tid == tid ==> Left(u.pcs[tid]) < Left(s.pcs[tid]))
            && (labels[k].tid != tid ==> u.pcs[tid] == s.pcs[tid])
            && (if labels[k].tid == tid && Left(u.pcs[tid]) == 0 then Settled(u.recvs[r]) else u.recvs[r].owner == Taken(tid))
  {
    var s, l, u := states[k], labels[k], states[k + 1];
    var tid := s.recvs[r].owner.tid;
    RunKeeps(states, labels, k);
    assert IsStep(s, l, u) && RecvOk(s, r) && PcOk(s, l.tid);
    var pc := s.pcs[tid];
    assert Enabled(s, tid, if pc.Validating? then Validates else if pc.Closing? then Closes
                           else if pc.Removing? then Removes else if pc.Finishing? then Finishes else Calls);
    if l.tid != tid {
      OthersLeaveIt(s, l, u, r);
    }
  }

  /** No thread is ever stuck: in every state of every run each of them has a step to take. */
  lemma NeverStuck(states: seq<State>, labels: seq<Label>, k: nat, tid: nat)
    requires IsRun(states, labels) && k < |states| && tid < |states[k].pcs|
    ensures exists e :: Enabled(states[k], tid, e)
  {
    RunKeeps(states, labels, k);
    InvInRange(states[k], tid);
    var s, pc := states[k], states[k].pcs[tid];
    if pc.Checked? {
      assert RecvOk(s, pc.r);
    }
    assert Enabled(s, tid, match pc
                           case Idle => DoneArrives(0)
                           case Offered(_, _, _) => Installs
                           case Found(_, _, _) => ChecksDone
                           case Checked(_, _, _) => Writing(Writes)
                           case Aborting(_, _) => AbortTakes
                           case Validating(_) => Validates
                           case Closing(_, _) => Closes
                           case Removing(_) => Removes
                           case Finishing(_, _) => Finishes
                           case Calling(_) => Calls);
  }

  lemma OthersLeaveIt(s: State, l: Label, u: State, r: nat)
    requires Inv(s) && IsStep(s, l, u) && r < |s.recvs| && s.recvs[r].owner.Taken? && s.recvs[r].owner.tid != l.tid
    ensures r < |u.recvs| && u.recvs[r].owner == s.recvs[r].owner
  {
    assert PcOk(s, l.tid) && RecvOk(s, r);
    var pc := s.pcs[l.tid];
    match l.e
    case Installs => assert pc.id in s.active ==> EntryOk(s, pc.id);
    case DoneArrives(id) => assert id in s.active ==> EntryOk(s, id);
    case CancelArrives(id) => assert id in s.active ==> EntryOk(s, id);
    case AbortTakes => assert pc.id in s.active ==> EntryOk(s, pc.id);
    case _ =>
  }

  // Offers

  /** Offers are handled one at a time, as a single inbound goroutine does. */
  predicate OneOffer(s: State) {
    forall a, b :: 0 <= a < |s.pcs| && 0 <= b < |s.pcs| && s.pcs[a].Offered? && s.pcs[b].Offered? ==> a == b
  }

  predicate NothingLost(s: State) {
    && (forall r :: 0 <= r < |s.recvs| ==> s.recvs[r].owner != Overwritten)
    && (forall tid :: 0 <= tid < |s.pcs| && s.pcs[tid].Offered? ==> s.pcs[tid].id !in s.active)
  }

  lemma NothingLostStep(s: State, l: Label, u: State)
    requires Inv(s) && OneOffer(s) && NothingLost(s) && IsStep(s, l, u)
    ensures NothingLost(u)
  {
    hide AfterChunk;
    hide Closed;
    hide RecvOk;
    hide Judge;
    hide New;
    assert PcOk(s, l.tid);
    var pc := s.pcs[l.tid];
    if l.e.Installs? {
      InstallLosesNothing(s, l, u);
    }
  }

  lemma InstallLosesNothing(s: State, l: Label, u: State)
    requires OneOffer(s) && NothingLost(s) && IsStep(s, l, u) && l.e.Installs?
    ensures NothingLost(u)
  {
    assert s.pcs[l.tid].id !in s.active;
    forall tid | 0 <= tid < |u.pcs|
      ensures !u.pcs[tid].Offered?
    {
      assert s.pcs[tid].Offered? ==> tid == l.tid;
    }
  }

  /** With offers handled one at a time, no transfer is ever overwritten in the map: each
      one is in the map, in one thread's hands, or settled. */
  lemma {:induction false} EveryOfferOwned(states: seq<State>, labels: seq<Label>, k: nat)
    requires IsRun(states, labels) && k < |states|
    requires forall i :: 0 <= i < |states| ==> OneOffer(states[i])
    ensures NothingLost(states[k])
  {
    if k > 0 {
      EveryOfferOwned(states, labels, k - 1);
      RunKeeps(states, labels, k - 1);
      assert OneOffer(states[k - 1]) && IsStep(states[k - 1], labels[k - 1], states[k]);
      NothingLostStep(states[k - 1], labels[k - 1], states[k]);
    }
  }

  // End to end

  /** Every chunk that arrives for transfer r holds the sender's bytes. */
  predicate GenuineArrival(s: State, l: Label, r: nat, files: seq<seq<Byte>>) {
    l.e.ChunkArrives? && Known(s, l.e.c.id) == Some(r) ==> Genuine(files, l.e.c)
  }

  predicate GenuineSoFar(s: State, r: nat, files: seq<seq<Byte>>) {
    && (r < |s.recvs| ==> FromSender(files, s.recvs[r].t))
    && forall tid :: 0 <= tid < |s.pcs| ==> GenuineHeld(s.pcs[tid], r, files)
  }

  predicate GenuineHeld(pc: Pc, r: nat, files: seq<seq<Byte>>) {
    (pc.Found? || pc.Checked?) && pc.r == r ==> Genuine(files, pc.c)
  }

  lemma GenuineStep(s: State, l: Label, u: State, r: nat, files: seq<seq<Byte>>)
    requires Inv(s) && IsStep(s, l, u) && GenuineSoFar(s, r, files) && GenuineArrival(s, l, r, files)
    ensures GenuineSoFar(u, r, files)
  {
    hide FromSender;
    hide Genuine;
    assert PcOk(s, l.tid);
    var pc := s.pcs[l.tid];
    assert GenuineHeld(pc, r, files);
    assert GenuineHeld(u.pcs[l.tid], r, files);
    forall tid | 0 <= tid < |u.pcs|
      ensures GenuineHeld(u.pcs[tid], r, files)
    {
      assert GenuineHeld(s.pcs[tid], r, files);
    }
    if r < |u.recvs| {
      if r >= |s.recvs| {
        NewFromSender(files, u.recvs[r].t.sizes, u.recvs[r].t.total);
      } else if l.e.Writing? && pc.r == r {
        GenuineKeeps(files, s.recvs[r].t, pc.c, l.e.disk);
      } else if l.e.Closes? && pc.r == r {
        ClosingKeeps(files, s.recvs[r].t);
      }
    }
  }

  lemma NewFromSender(files: seq<seq<Byte>>, sizes: seq<U64>, total: U64)
    ensures FromSender(files, New(sizes, total))
  {
  }

  lemma ClosingKeeps(files: seq<seq<Byte>>, t: Transfer)
    requires FromSender(files, t)
    ensures FromSender(files, Closed(t))
  {
  }

  lemma {:induction false} GenuineRun(states: seq<State>, labels: seq<Label>, k: nat, r: nat, files: seq<seq<Byte>>)
    requires IsRun(states, labels) && k < |states|
    requires forall i :: 0 <= i < |labels| ==> GenuineArrival(states[i], labels[i], r, files)
    ensures GenuineSoFar(states[k], r, files)
  {
    if k > 0 {
      GenuineRun(states, labels, k - 1, r, files);
      RunKeeps(states, labels, k - 1);
      assert IsStep(states[k - 1], labels[k - 1], states[k]) && GenuineArrival(states[k - 1], labels[k - 1], r, files);
      GenuineStep(states[k - 1], labels[k - 1], states[k], r, files);
    }
  }

  /** A chunk from the send with these groups. */
  predicate FromSend(s: State, l: Label, r: nat, groups: seq<seq<Chunk>>) {
    l.e.ChunkArrives? && Known(s, l.e.c.id) == Some(r) ==> l.e.c in Flatten(groups)
  }

  /** End to end: if the chunks that reach a transfer come from one send, in whatever
      order, however often and with whatever missing, then a completed transfer holds, of
      each file, exactly the first `size` bytes that the sender read. */
  lemma FilesArrive(states: seq<State>, labels: seq<Label>, k: nat, r: nat, id: U32,
                    sources: seq<FileSend.Source>, groups: seq<seq<Chunk>>, whole: bool, i: nat)
    requires IsRun(states, labels) && k < |states| && r < |states[k].recvs|
    requires |sources| <= TWO32 && FileSend.SentFiles(id, sources, groups, whole)
    requires forall j :: 0 <= j < |labels| ==> FromSend(states[j], labels[j], r, groups)
    requires states[k].recvs[r].callbacks > 0 && i < |states[k].recvs[r].t.sizes|
    ensures var t := states[k].recvs[r].t; var file := FileAt(FileSend.Files(sources), i);
            |t.content| == |t.sizes| && t.sizes[i] <= |file| && t.content[i] == file[..t.sizes[i]]
  {
    var files := FileSend.Files(sources);
    forall j | 0 <= j < |labels|
      ensures GenuineArrival(states[j], labels[j], r, files)
    {
      assert FromSend(states[j], labels[j], r, groups);
      if labels[j].e.ChunkArrives? && Known(states[j], labels[j].e.c.id) == Some(r) {
        FileSend.SentIsGenuine(id, sources, groups, whole, labels[j].e.c);
      }
    }
    GenuineRun(states, labels, k, r, files);
    ContentSafety(states, labels, k, r);
    IntactFromSender(files, states[k].recvs[r].t, i);
  }
}
