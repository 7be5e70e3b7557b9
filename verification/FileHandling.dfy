/** What each handler does when nothing cuts in (internal/filetransfer/filetransfer_windows_receive.go):
    from any reachable state its steps can be taken one after the other, and where they lead. */
module FileHandling {
  import opened Bytes
  import opened Options
  import opened Seqs
  import opened FileChunks
  import opened FileReceive
  import opened FileTransfers
  import opened FileDelivery
  import FileSend

  /** The steps with these labels can be taken from s, and end in u. */
  predicate Leads(s: State, labels: seq<Label>, u: State)
    decreases |labels|
  {
    if labels == [] then u == s
    else Enabled(s, labels[0].tid, labels[0].e) && Leads(Next(s, labels[0].tid, labels[0].e), labels[1..], u)
  }

  lemma {:induction false} LeadsConcat(s: State, a: seq<Label>, u: State, b: seq<Label>, v: State)
    requires Leads(s, a, u) && Leads(u, b, v)
    ensures Leads(s, a + b, v)
    decreases |a|
  {
    hide Next;
    if a == [] {
      assert a + b == b;
    } else {
      LeadsConcat(Next(s, a[0].tid, a[0].e), a[1..], u, b, v);
      assert (a + b)[1..] == a[1..] + b;
    }
  }

  /** Any run that ends in s can be continued by these steps. */
  lemma {:induction false} Continued(states: seq<State>, labels: seq<Label>, more: seq<Label>, u: State) returns (longer: seq<State>)
    requires IsRun(states, labels) && Leads(states[|labels|], more, u)
    ensures IsRun(longer, labels + more) && longer[|labels + more|] == u && longer[..|states|] == states
    decreases |more|
  {
    if more == [] {
      assert labels + more == labels && states[..|states|] == states;
      longer := states;
    } else {
      var n := |labels|;
      var next := Next(states[n], more[0].tid, more[0].e);
      OneMore(states, labels, more[0], next);
      longer := Continued(states + [next], labels + [more[0]], more[1..], u);
      assert (labels + [more[0]]) + more[1..] == labels + more;
      assert longer[..|states|] == longer[..|states| + 1][..|states|] == states;
    }
  }

  lemma OneMore(states: seq<State>, labels: seq<Label>, l: Label, next: State)
    requires IsRun(states, labels) && IsStep(states[|labels|], l, next)
    ensures IsRun(states + [next], labels + [l])
  {
    hide IsStep;
    hide Initial;
    var states1, labels1, n := states + [next], labels + [l], |labels|;
    forall k | 0 <= k < |labels1|
      ensures IsStep(states1[k], labels1[k], states1[k + 1])
    {
      assert k < n ==> IsStep(states[k], labels[k], states[k + 1]);
    }
  }

  function By(tid: nat, events: seq<Event>): seq<Label> {
    if events == [] then [] else [Label(tid, events[0])] + By(tid, events[1..])
  }

  /** The first step of a thread, and the rest. */
  lemma Onwards(s: State, tid: nat, e: Event, rest: seq<Event>, u: State)
    requires Enabled(s, tid, e) && Leads(Next(s, tid, e), By(tid, rest), u)
    ensures Leads(s, By(tid, [e] + rest), u)
  {
    assert ([e] + rest)[1..] == rest;
    assert By(tid, [e] + rest)[1..] == By(tid, rest);
  }

  lemma ThreeSteps(s: State, tid: nat, e1: Event, s1: State, e2: Event, s2: State, e3: Event, u: State)
    requires Enabled(s, tid, e1) && s1 == Next(s, tid, e1)
    requires Enabled(s1, tid, e2) && s2 == Next(s1, tid, e2)
    requires Enabled(s2, tid, e3) && u == Next(s2, tid, e3)
    ensures Leads(s, By(tid, [e1, e2, e3]), u)
  {
    hide Next;
    hide Enabled;
    Onwards(s2, tid, e3, [], u);
    Onwards(s1, tid, e2, [e3], u);
    assert [e2] + [e3] == [e2, e3];
    Onwards(s, tid, e1, [e2, e3], u);
    assert [e1] + [e2, e3] == [e1, e2, e3];
  }

  predicate Ready(s: State, tid: nat) {
    Inv(s) && tid < |s.pcs| && s.pcs[tid] == Idle
  }

  /** The transfer the map holds for this id. */
  predicate Live(s: State, id: U32, r: nat) {
    id in s.active && s.active[id] == r && r < |s.recvs| && s.recvs[r].owner == InMap && s.recvs[r].id == id
  }

  lemma LiveIsOpen(s: State, tid: nat, id: U32, r: nat)
    requires Ready(s, tid) && Live(s, id, r)
    ensures WellFormed(s.recvs[r].t) && Untouched(s.recvs[r]) && InRange(s, tid)
  {
    assert RecvOk(s, r) && PcOk(s, tid);
  }

  // An offer

  function Installed(s: State, id: U32, sizes: seq<U64>, total: U64): State {
    State(s.active[id := |s.recvs|], s.recvs + [Recv(id, New(sizes, total), InMap, false, true, 0)], s.pcs)
  }

  /** An offer under a new id is installed with its sizes, and nothing else changes. */
  lemma OfferInstalls(s: State, tid: nat, id: U32, sizes: seq<U64>, total: U64)
    requires Ready(s, tid) && id !in s.active
    ensures var u := Installed(s, id, sizes, total);
            Leads(s, By(tid, [OfferArrives(id, sizes, total), Installs]), u) && Ready(u, tid) && Live(u, id, |s.recvs|)
  {
    var s1 := Next(s, tid, OfferArrives(id, sizes, total));
    StepKeeps(s, tid, OfferArrives(id, sizes, total));
    var u := Next(s1, tid, Installs);
    StepKeeps(s1, tid, Installs);
    assert u.pcs == s.pcs && u == Installed(s, id, sizes, total);
    Onwards(s1, tid, Installs, [], u);
    Onwards(s, tid, OfferArrives(id, sizes, total), [Installs], u);
  }

  /** An offer under an id that is in use is dropped. */
  lemma DuplicateOfferDropped(s: State, tid: nat, id: U32, sizes: seq<U64>, total: U64)
    requires Ready(s, tid) && id in s.active
    ensures Leads(s, By(tid, [OfferArrives(id, sizes, total)]), s)
  {
    assert PcOk(s, tid);
    Onwards(s, tid, OfferArrives(id, sizes, total), [], s);
  }

  // A chunk

  function Arrives(c: Chunk, disk: Disk): seq<Event> {
    [ChunkArrives(c), ChecksDone, Writing(disk)]
  }

  function Judged(s: State, tid: nat, r: nat, c: Chunk, disk: Disk): State
    requires tid < |s.pcs| && r < |s.recvs| && WellFormed(s.recvs[r].t)
  {
    var t := s.recvs[r].t;
    Goto(Put(s, r, s.recvs[r].(t := AfterChunk(t, c, disk))), tid,
         if Judge(t, c, disk) in {Invalid, WriteError} then Aborting(c.id, r) else Idle)
  }

  /** A chunk for a live transfer reaches it. */
  lemma ChunkReaches(s: State, tid: nat, r: nat, c: Chunk, disk: Disk)
    requires Ready(s, tid) && Live(s, c.id, r)
    ensures WellFormed(s.recvs[r].t) && Inv(Judged(s, tid, r, c, disk))
    ensures Leads(s, By(tid, Arrives(c, disk)), Judged(s, tid, r, c, disk))
  {
    LiveIsOpen(s, tid, c.id, r);
    var s1 := Next(s, tid, ChunkArrives(c));
    assert s1 == Goto(s, tid, Found(c.id, r, c));
    StepKeeps(s, tid, ChunkArrives(c));
    var s2 := Next(s1, tid, ChecksDone);
    assert s2 == Goto(s, tid, Checked(c.id, r, c));
    StepKeeps(s1, tid, ChecksDone);
    hide AfterChunk;
    hide Judge;
    var u := Next(s2, tid, Writing(disk));
    StepKeeps(s2, tid, Writing(disk));
    assert u == Judged(s, tid, r, c, disk);
    ThreeSteps(s, tid, ChunkArrives(c), s1, ChecksDone, s2, Writing(disk), u);
  }

  /** A chunk that goes on where its file ends so far is stored, and the thread is free. */
  lemma ChunkStored(s: State, tid: nat, id: U32, r: nat, sizes: seq<U64>, before: seq<Chunk>, c: Chunk)
    requires Ready(s, tid) && Live(s, id, r) && c.id == id
    requires Holding(s.recvs[r].t, sizes, before) && Follows(sizes, before, c)
    ensures var u := Put(s, r, s.recvs[r].(t := AfterChunk(s.recvs[r].t, c, Writes)));
            && Leads(s, By(tid, Arrives(c, Writes)), u) && Ready(u, tid) && Live(u, id, r)
            && Holding(u.recvs[r].t, sizes, before + [c]) && u.recvs[r].t.total == s.recvs[r].t.total
  {
    LiveIsOpen(s, tid, id, r);
    ChunkHolds(s.recvs[r].t, sizes, before, c);
    ChunkReaches(s, tid, r, c, Writes);
    var u := Judged(s, tid, r, c, Writes);
    assert u.pcs == s.pcs;
  }

  /** A chunk for an id the map does not hold is dropped. */
  lemma StrayChunkDropped(s: State, tid: nat, c: Chunk)
    requires Ready(s, tid) && c.id !in s.active
    ensures Leads(s, By(tid, [ChunkArrives(c)]), s)
  {
    assert PcOk(s, tid);
    Onwards(s, tid, ChunkArrives(c), [], s);
  }

  /** A chunk that was looked up before its transfer ended is dropped. */
  lemma LateChunkDropped(s: State, tid: nat, c: Chunk, r: nat)
    requires Inv(s) && tid < |s.pcs| && s.pcs[tid] == Found(c.id, r, c) && r < |s.recvs| && s.recvs[r].done
    ensures Leads(s, By(tid, [ChecksDone]), Goto(s, tid, Idle))
  {
    Onwards(s, tid, ChecksDone, [], Goto(s, tid, Idle));
  }

  // The end of a transfer

  function Ended(s: State, id: U32, r: nat, o: Outcome): State
    requires r < |s.recvs|
  {
    var v := s.recvs[r];
    State(s.active - {id}, s.recvs[r := if o == Completes
      then v.(t := Closed(v.t), owner := Completed, done := true, callbacks := v.callbacks + 1)
      else v.(t := Closed(v.t), owner := Aborted, done := true, kept := false)], s.pcs)
  }

  function LastSteps(o: Outcome): seq<Event> {
    if o == Completes then [Closes, Finishes, Calls] else [Closes, Removes, Finishes]
  }

  predicate Held(s: State, tid: nat, id: U32, r: nat, o: Outcome) {
    && Inv(s) && tid < |s.pcs| && r < |s.recvs| && s.pcs[tid] == Closing(r, o)
    && id !in s.active && s.recvs[r].id == id && s.recvs[r].owner == Taken(tid)
  }

  /** Whoever has taken a transfer and is about to close it brings it to its end. */
  lemma Concludes(s: State, tid: nat, id: U32, r: nat, o: Outcome)
    requires Held(s, tid, id, r, o)
    ensures Leads(s, By(tid, LastSteps(o)), Goto(Ended(s, id, r, o), tid, Idle)) && Inv(Goto(Ended(s, id, r, o), tid, Idle))
  {
    assert PcOk(s, tid) && RecvOk(s, r);
    var s1 := Next(s, tid, Closes);
    StepKeeps(s, tid, Closes);
    hide Closed;
    var second := if o == Completes then Finishes else Removes;
    var third := if o == Completes then Calls else Finishes;
    var s2 := Next(s1, tid, second);
    StepKeeps(s1, tid, second);
    var u := Next(s2, tid, third);
    StepKeeps(s2, tid, third);
    assert s.active - {id} == s.active;
    assert u == Goto(Ended(s, id, r, o), tid, Idle);
    ThreeSteps(s, tid, Closes, s1, second, s2, third, u);
  }

  // Done, Cancel and Abort

  /** Done for a live transfer: completed with one callback if it is finished, aborted and its
      directory removed if not. */
  lemma DoneEnds(s: State, tid: nat, id: U32, r: nat) returns (o: Outcome)
    requires Ready(s, tid) && Live(s, id, r)
    ensures WellFormed(s.recvs[r].t) && (o == Completes <==> Finished(s.recvs[r].t))
    ensures Leads(s, By(tid, [DoneArrives(id), Validates] + LastSteps(o)), Ended(s, id, r, o)) && Ready(Ended(s, id, r, o), tid)
  {
    LiveIsOpen(s, tid, id, r);
    o := if Finished(s.recvs[r].t) then Completes else Fails;
    var s1 := Next(s, tid, DoneArrives(id));
    StepKeeps(s, tid, DoneArrives(id));
    assert s1 == Take(s, tid, id, Validating(r));
    var s2 := Next(s1, tid, Validates);
    StepKeeps(s1, tid, Validates);
    assert s2 == Take(s, tid, id, Closing(r, o));
    TakenEnds(s, tid, id, r, o);
    hide Next;
    Onwards(s1, tid, Validates, LastSteps(o), Ended(s, id, r, o));
    Onwards(s, tid, DoneArrives(id), [Validates] + LastSteps(o), Ended(s, id, r, o));
    assert [DoneArrives(id)] + ([Validates] + LastSteps(o)) == [DoneArrives(id), Validates] + LastSteps(o);
  }

  /** From the moment a thread has taken a live transfer and decided how it ends. */
  lemma TakenEnds(s: State, tid: nat, id: U32, r: nat, o: Outcome)
    requires tid < |s.pcs| && s.pcs[tid] == Idle && Live(s, id, r) && Inv(Take(s, tid, id, Closing(r, o)))
    ensures Leads(Take(s, tid, id, Closing(r, o)), By(tid, LastSteps(o)), Ended(s, id, r, o)) && Inv(Ended(s, id, r, o))
  {
    var s1 := Take(s, tid, id, Closing(r, o));
    Concludes(s1, tid, id, r, o);
    assert Goto(Ended(s1, id, r, o), tid, Idle) == Ended(s, id, r, o);
  }

  /** A cancel of a live transfer aborts it. */
  lemma CancelEnds(s: State, tid: nat, id: U32, r: nat)
    requires Ready(s, tid) && Live(s, id, r)
    ensures Leads(s, By(tid, [CancelArrives(id)] + LastSteps(Fails)), Ended(s, id, r, Fails)) && Ready(Ended(s, id, r, Fails), tid)
  {
    LiveIsOpen(s, tid, id, r);
    var s1 := Next(s, tid, CancelArrives(id));
    StepKeeps(s, tid, CancelArrives(id));
    assert s1 == Take(s, tid, id, Closing(r, Fails));
    TakenEnds(s, tid, id, r, Fails);
    hide Next;
    Onwards(s, tid, CancelArrives(id), LastSteps(Fails), Ended(s, id, r, Fails));
  }

  lemma {:induction false} ByConcat(tid: nat, a: seq<Event>, b: seq<Event>)
    ensures By(tid, a + b) == By(tid, a) + By(tid, b)
  {
    if a == [] {
      assert a + b == b;
    } else {
      ByConcat(tid, a[1..], b);
      assert (a + b)[1..] == a[1..] + b;
    }
  }

  lemma After(s: State, tid: nat, a: seq<Event>, u: State, b: seq<Event>, v: State)
    requires Leads(s, By(tid, a), u) && Leads(u, By(tid, b), v)
    ensures Leads(s, By(tid, a + b), v)
  {
    ByConcat(tid, a, b);
    LeadsConcat(s, By(tid, a), u, By(tid, b), v);
  }

  /** A chunk of an offered file that does not fit, or whose write fails, aborts its transfer. */
  lemma BadChunkEnds(s: State, tid: nat, r: nat, c: Chunk, disk: Disk) returns (t: Transfer)
    requires Ready(s, tid) && Live(s, c.id, r) && c.file < |s.recvs[r].t.sizes|
    requires WellFormed(s.recvs[r].t)
    requires disk.FailsAfter? || c.offset != s.recvs[r].t.received[c.file] || c.offset + |c.data| > s.recvs[r].t.sizes[c.file]
    ensures Leads(s, By(tid, Arrives(c, disk) + ([AbortTakes] + LastSteps(Fails))),
                  Ended(Put(s, r, s.recvs[r].(t := t)), c.id, r, Fails))
    ensures Ready(Ended(Put(s, r, s.recvs[r].(t := t)), c.id, r, Fails), tid)
  {
    LiveIsOpen(s, tid, c.id, r);
    ChunkReaches(s, tid, r, c, disk);
    var u := Judged(s, tid, r, c, disk);
    assert Judge(s.recvs[r].t, c, disk) in {Invalid, WriteError};
    t := AfterChunk(s.recvs[r].t, c, disk);
    var s0 := Put(s, r, s.recvs[r].(t := t));
    hide AfterChunk;
    hide Judge;
    Aborts(u, s0, tid, c.id, r);
    hide Next;
    hide Enabled;
    After(s, tid, Arrives(c, disk), u, [AbortTakes] + LastSteps(Fails), Ended(s0, c.id, r, Fails));
  }

  lemma Aborts(u: State, s0: State, tid: nat, id: U32, r: nat)
    requires Inv(u) && tid < |u.pcs| && u.pcs[tid].Aborting? && u.pcs[tid].id == id && u.pcs[tid].r == r
    requires s0 == Goto(u, tid, Idle) && Live(s0, id, r)
    ensures Leads(u, By(tid, [AbortTakes] + LastSteps(Fails)), Ended(s0, id, r, Fails)) && Inv(Ended(s0, id, r, Fails))
  {
    assert PcOk(u, tid);
    var s1 := Next(u, tid, AbortTakes);
    StepKeeps(u, tid, AbortTakes);
    assert s1 == Take(s0, tid, id, Closing(r, Fails));
    TakenEnds(s0, tid, id, r, Fails);
    hide Next;
    Onwards(u, tid, AbortTakes, LastSteps(Fails), Ended(s0, id, r, Fails));
  }

  // A whole send

  function ChunkSteps(chunks: seq<Chunk>): seq<Event> {
    if chunks == [] then [] else ChunkSteps(chunks[..|chunks| - 1]) + Arrives(chunks[|chunks| - 1], Writes)
  }

  /** The chunks of a send in order, one after the other: all are stored. */
  lemma {:induction false} ChunksStored(s: State, tid: nat, id: U32, r: nat, sizes: seq<U64>, chunks: seq<Chunk>) returns (t: Transfer)
    requires Ready(s, tid) && Live(s, id, r) && Holding(s.recvs[r].t, sizes, [])
    requires InOrder(sizes, chunks) && forall c :: c in chunks ==> c.id == id
    ensures var u := Put(s, r, s.recvs[r].(t := t));
            && Leads(s, By(tid, ChunkSteps(chunks)), u) && Ready(u, tid) && Live(u, id, r)
            && Holding(t, sizes, chunks) && t.total == s.recvs[r].t.total
    decreases |chunks|
  {
    if chunks == [] {
      t := s.recvs[r].t;
      assert s.recvs[r := s.recvs[r]] == s.recvs;
    } else {
      var n := |chunks| - 1;
      Earlier(sizes, chunks, id);
      hide Next;
      hide Enabled;
      hide Holding;
      hide Inv;
      hide InOrder;
      var t1 := ChunksStored(s, tid, id, r, sizes, chunks[..n]);
      t := LastStored(s, tid, id, r, sizes, chunks, t1);
    }
  }

  lemma Earlier(sizes: seq<U64>, chunks: seq<Chunk>, id: U32)
    requires InOrder(sizes, chunks) && chunks != [] && forall c :: c in chunks ==> c.id == id
    ensures var n := |chunks| - 1;
            && InOrder(sizes, chunks[..n]) && Follows(sizes, chunks[..n], chunks[n]) && chunks[n].id == id
            && forall c :: c in chunks[..n] ==> c.id == id
  {
    hide Follows;
    var n := |chunks| - 1;
    forall k | 0 <= k < n
      ensures Follows(sizes, chunks[..n][..k], chunks[..n][k])
    {
      assert Follows(sizes, chunks[..k], chunks[k]);
      assert chunks[..n][..k] == chunks[..k];
    }
    assert Follows(sizes, chunks[..n], chunks[n]);
    assert chunks[n] in chunks;
  }

  lemma LastStored(s: State, tid: nat, id: U32, r: nat, sizes: seq<U64>, chunks: seq<Chunk>, t1: Transfer) returns (t: Transfer)
    requires Live(s, id, r) && chunks != [] && t1.total == s.recvs[r].t.total
    requires var s1, n := Put(s, r, s.recvs[r].(t := t1)), |chunks| - 1;
             && Leads(s, By(tid, ChunkSteps(chunks[..n])), s1) && Ready(s1, tid) && Live(s1, id, r)
             && Holding(t1, sizes, chunks[..n]) && Follows(sizes, chunks[..n], chunks[n]) && chunks[n].id == id
    ensures var u := Put(s, r, s.recvs[r].(t := t));
            && Leads(s, By(tid, ChunkSteps(chunks)), u) && Ready(u, tid) && Live(u, id, r)
            && Holding(t, sizes, chunks) && t.total == s.recvs[r].t.total
  {
    var s1, n := Put(s, r, s.recvs[r].(t := t1)), |chunks| - 1;
    LiveIsOpen(s1, tid, id, r);
    hide Next;
    hide Enabled;
    hide Holding;
    hide Inv;
    ChunkStored(s1, tid, id, r, sizes, chunks[..n], chunks[n]);
    t := AfterChunk(t1, chunks[n], Writes);
    hide AfterChunk;
    assert chunks[..n] + [chunks[n]] == chunks;
    var u := Put(s1, r, s1.recvs[r].(t := t));
    assert u == Put(s, r, s.recvs[r].(t := t));
    After(s, tid, ChunkSteps(chunks[..n]), s1, Arrives(chunks[n], Writes), u);
  }

  function SendSteps(id: U32, sizes: seq<U64>, chunks: seq<Chunk>): seq<Event> {
    ([OfferArrives(id, sizes, Sum64(sizes)), Installs] + ChunkSteps(chunks)) + ([DoneArrives(id), Validates] + LastSteps(Completes))
  }

  /** What is left of a send when all its chunks are stored. */
  lemma StoredCompletes(s: State, tid: nat, id: U32, r: nat, sizes: seq<U64>, chunks: seq<Chunk>) returns (v: Recv)
    requires Ready(s, tid) && Live(s, id, r) && Holding(s.recvs[r].t, sizes, chunks) && Whole(sizes, chunks)
    requires s.recvs[r].t.total == Sum64(sizes) && s.recvs[r].callbacks == 0
    ensures var u := State(s.active - {id}, s.recvs[r := v], s.pcs);
            Leads(s, By(tid, [DoneArrives(id), Validates] + LastSteps(Completes)), u) && Ready(u, tid)
    ensures v.id == id && v.owner == Completed && v.callbacks == 1 && v.kept && v.done && v.t.content == s.recvs[r].t.content
  {
    WholeFinished(s.recvs[r].t, sizes, chunks);
    LiveIsOpen(s, tid, id, r);
    hide Next;
    hide Enabled;
    hide Inv;
    hide Leads;
    var o := DoneEnds(s, tid, id, r);
    v := Ended(s, id, r, o).recvs[r];
    assert Ended(s, id, r, o) == State(s.active - {id}, s.recvs[r := v], s.pcs);
  }

  /** The offer and the chunks. */
  lemma SendStored(s: State, tid: nat, id: U32, sizes: seq<U64>, chunks: seq<Chunk>) returns (v: Recv)
    requires Ready(s, tid) && id !in s.active && InOrder(sizes, chunks) && forall c :: c in chunks ==> c.id == id
    ensures var u := State(s.active[id := |s.recvs|], s.recvs + [v], s.pcs);
            && Leads(s, By(tid, [OfferArrives(id, sizes, Sum64(sizes)), Installs] + ChunkSteps(chunks)), u)
            && Ready(u, tid) && Live(u, id, |s.recvs|)
    ensures Holding(v.t, sizes, chunks) && v.t.total == Sum64(sizes) && v.callbacks == 0
  {
    var r := |s.recvs|;
    hide Next;
    hide Enabled;
    hide Inv;
    hide InOrder;
    OfferInstalls(s, tid, id, sizes, Sum64(sizes));
    var s1 := Installed(s, id, sizes, Sum64(sizes));
    NewHolds(sizes, Sum64(sizes));
    hide Holding;
    var t := ChunksStored(s1, tid, id, r, sizes, chunks);
    v := s1.recvs[r].(t := t);
    var u := Put(s1, r, v);
    assert u == State(s.active[id := r], s.recvs + [v], s.pcs);
    After(s, tid, [OfferArrives(id, sizes, Sum64(sizes)), Installs], s1, ChunkSteps(chunks), u);
  }

  /** From any reachable state: the offer of a send, all its chunks, and Done, handled one
      after the other, end in a completed transfer whose files are the sender's, with one
      callback, its directory kept; every other transfer, the map and the other threads
      are as before. */
  lemma SendArrives(s: State, tid: nat, id: U32, sources: seq<FileSend.Source>, groups: seq<seq<Chunk>>, sizes: seq<U64>)
      returns (u: State, v: Recv)
    requires Ready(s, tid) && id !in s.active
    requires |sources| <= TWO32 && FileSend.SentFiles(id, sources, groups, true) && |groups| == |sources| && SizesOf(sources, sizes)
    ensures Leads(s, By(tid, SendSteps(id, sizes, Flatten(groups))), u)
    ensures Ready(u, tid) && u == State(s.active, s.recvs + [v], s.pcs)
    ensures v.id == id && v.owner == Completed && v.callbacks == 1 && v.kept && v.done && |v.t.content| == |sources|
    ensures forall i :: 0 <= i < |sources| ==> v.t.content[i] == FileSend.BytesOf(sources[i])
  {
    var chunks, r := Flatten(groups), |s.recvs|;
    SendInOrder(id, sources, groups, sizes);
    var w := SendStored(s, tid, id, sizes, chunks);
    forall i | 0 <= i < |sources|
      ensures w.t.content[i] == FileSend.BytesOf(sources[i])
    {
      assert FileHolds(w.t, chunks, i);
    }
    hide Next;
    hide Enabled;
    hide Inv;
    hide Leads;
    var s1 := State(s.active[id := r], s.recvs + [w], s.pcs);
    v := StoredCompletes(s1, tid, id, r, sizes, chunks);
    u := State(s1.active - {id}, s1.recvs[r := v], s1.pcs);
    assert u == State(s.active, s.recvs + [v], s.pcs);
    After(s, tid, [OfferArrives(id, sizes, Sum64(sizes)), Installs] + ChunkSteps(chunks), s1,
          [DoneArrives(id), Validates] + LastSteps(Completes), u);
  }
}
