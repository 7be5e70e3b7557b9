/** Files that arrive (internal/filetransfer/filetransfer_windows_receive.go): when all chunks
    of a complete send come in order and nothing interferes, Done completes the transfer, and
    the files on disk are the files that were sent. */
module FileDelivery {
  import opened Bytes
  import opened Options
  import opened Seqs
  import opened FileChunks
  import opened FileReceive
  import opened FileTransfers
  import FileSend

  // The chunks of a complete send

  /** What a list of chunks holds of file i. */
  function Got(chunks: seq<Chunk>, i: nat): seq<Byte> {
    if chunks == [] then []
    else
      var c := chunks[|chunks| - 1];
      Got(chunks[..|chunks| - 1], i) + (if c.file == i then c.data else [])
  }

  lemma GotSnoc(chunks: seq<Chunk>, c: Chunk, i: nat)
    ensures Got(chunks + [c], i) == Got(chunks, i) + (if c.file == i then c.data else [])
  {
    assert (chunks + [c])[..|chunks|] == chunks;
  }

  lemma {:induction false} GotConcat(a: seq<Chunk>, b: seq<Chunk>, i: nat)
    ensures Got(a + b, i) == Got(a, i) + Got(b, i)
  {
    if b == [] {
      assert a + b == a && Got(a, i) + [] == Got(a, i);
    } else {
      var n, c := |b| - 1, b[|b| - 1];
      GotConcat(a, b[..n], i);
      assert a + b == (a + b[..n]) + [c] && b == b[..n] + [c];
      GotSnoc(a + b[..n], c, i);
      Rebracket(Got(a, i), Got(b[..n], i), if c.file == i then c.data else []);
    }
  }

  /** Each chunk goes on where its file ends so far, and fits. */
  predicate InOrder(sizes: seq<U64>, chunks: seq<Chunk>) {
    forall k :: 0 <= k < |chunks| ==> Follows(sizes, chunks[..k], chunks[k])
  }

  predicate Follows(sizes: seq<U64>, before: seq<Chunk>, c: Chunk) {
    c.file < |sizes| && c.offset == |Got(before, c.file)| && c.offset + |c.data| <= sizes[c.file]
  }

  /** Nothing is missing. */
  predicate Whole(sizes: seq<U64>, chunks: seq<Chunk>) {
    forall i :: 0 <= i < |sizes| ==> |Got(chunks, i)| == sizes[i]
  }

  lemma {:induction false} GroupGot(id: U32, file: U32, group: seq<Chunk>, i: nat)
    requires Contiguous(id, file, group)
    ensures Got(group, i) == if i == file then Payload(group) else []
  {
    if group == [] {
      FlattenEmpty<Byte>();
    } else {
      var n := |group| - 1;
      forall k | 0 <= k < n
        ensures InPlace(id, file, group[..n], k)
      {
        assert InPlace(id, file, group, k);
        assert group[..n][..k] == group[..k];
      }
      GroupGot(id, file, group[..n], i);
      assert InPlace(id, file, group, n);
      assert group == group[..n] + [group[n]];
      PayloadSnoc(group[..n], group[n]);
    }
  }

  predicate SizesOf(sources: seq<FileSend.Source>, sizes: seq<U64>) {
    |sizes| == |sources| && forall i :: 0 <= i < |sizes| ==> sizes[i] == |FileSend.BytesOf(sources[i])|
  }

  lemma OneGroup(id: U32, groups: seq<seq<Chunk>>, n: nat, i: nat)
    requires n < |groups| && n < TWO32 && Contiguous(id, n, groups[n])
    ensures Got(Flatten(groups[..n + 1]), i) == Got(Flatten(groups[..n]), i) + (if i == n then Payload(groups[n]) else [])
  {
    hide Payload;
    hide Contiguous;
    hide Got;
    hide Flatten;
    assert groups[..n + 1] == groups[..n] + [groups[n]];
    FlattenSnoc(groups[..n], groups[n]);
    GotConcat(Flatten(groups[..n]), groups[n], i);
    GroupGot(id, n, groups[n], i);
  }

  /** What the first n groups hold of each file. */
  lemma {:induction false} GroupsGot(id: U32, sources: seq<FileSend.Source>, groups: seq<seq<Chunk>>, n: nat, i: nat)
    requires |sources| <= TWO32 && FileSend.SentFiles(id, sources, groups, true) && n <= |groups| && i < |sources|
    ensures Got(Flatten(groups[..n]), i) == if i < n then FileSend.BytesOf(sources[i]) else []
  {
    if n == 0 {
      assert groups[..0] == [];
    } else {
      GroupsGot(id, sources, groups, n - 1, i);
      assert FileSend.SentFile(id, sources, n - 1, groups[n - 1], true);
      hide Payload;
      hide Contiguous;
      hide Flatten;
      hide Got;
      hide FileSend.BytesOf;
      OneGroup(id, groups, n - 1, i);
    }
  }

  lemma {:induction false} PlaceOf(groups: seq<seq<Chunk>>, k: nat) returns (n: nat, j: nat)
    requires k < |Flatten(groups)|
    ensures n < |groups| && j < |groups[n]| && Flatten(groups)[k] == groups[n][j]
    ensures Flatten(groups)[..k] == Flatten(groups[..n]) + groups[n][..j]
  {
    var m := |groups| - 1;
    var head := Flatten(groups[..m]);
    if k < |head| {
      n, j := PlaceOf(groups[..m], k);
      assert groups[..m][..n] == groups[..n];
      assert Flatten(groups)[..k] == head[..k];
    } else {
      n, j := m, k - |head|;
      assert Flatten(groups)[..k] == head + groups[m][..j];
    }
  }

  /** The chunks of a complete send are in order, and with them nothing is missing. */
  lemma SendInOrder(id: U32, sources: seq<FileSend.Source>, groups: seq<seq<Chunk>>, sizes: seq<U64>)
    requires |sources| <= TWO32 && FileSend.SentFiles(id, sources, groups, true) && |groups| == |sources|
    requires SizesOf(sources, sizes)
    ensures InOrder(sizes, Flatten(groups)) && Whole(sizes, Flatten(groups))
    ensures forall i :: 0 <= i < |sources| ==> Got(Flatten(groups), i) == FileSend.BytesOf(sources[i])
    ensures forall c :: c in Flatten(groups) ==> c.id == id
  {
    var chunks := Flatten(groups);
    forall k | 0 <= k < |chunks|
      ensures Follows(sizes, chunks[..k], chunks[k]) && chunks[k].id == id
    {
      ChunkInOrder(id, sources, groups, sizes, k);
    }
    forall i | 0 <= i < |sources|
      ensures Got(chunks, i) == FileSend.BytesOf(sources[i])
    {
      GroupsGot(id, sources, groups, |groups|, i);
      assert groups[..|groups|] == groups;
    }
  }

  lemma ChunkInOrder(id: U32, sources: seq<FileSend.Source>, groups: seq<seq<Chunk>>, sizes: seq<U64>, k: nat)
    requires |sources| <= TWO32 && FileSend.SentFiles(id, sources, groups, true) && |groups| == |sources|
    requires SizesOf(sources, sizes) && k < |Flatten(groups)|
    ensures Follows(sizes, Flatten(groups)[..k], Flatten(groups)[k]) && Flatten(groups)[k].id == id
  {
    var n, j := PlaceOf(groups, k);
    hide Payload;
    hide Got;
    hide Flatten;
    assert FileSend.SentFile(id, sources, n, groups[n], true);
    GroupsGot(id, sources, groups, n, n);
    hide FileSend.SentFiles;
    GotConcat(Flatten(groups[..n]), groups[n][..j], n);
    GroupPrefix(id, n, groups[n], j);
    hide Contiguous;
    assert [] + Payload(groups[n][..j]) == Payload(groups[n][..j]);
  }

  /** Chunk j of a gapless group comes after the bytes of the chunks before it. */
  lemma GroupPrefix(id: U32, file: U32, group: seq<Chunk>, j: nat)
    requires Contiguous(id, file, group) && j < |group|
    ensures group[j].id == id && group[j].file == file && group[j].offset == |Payload(group[..j])|
    ensures Got(group[..j], file) == Payload(group[..j])
    ensures |Payload(group[..j])| + |group[j].data| <= |Payload(group)|
  {
    hide Payload;
    hide Got;
    assert InPlace(id, file, group, j);
    forall m | 0 <= m < j
      ensures InPlace(id, file, group[..j], m)
    {
      assert InPlace(id, file, group, m);
      assert group[..j][..m] == group[..m];
    }
    GroupGot(id, file, group[..j], file);
    PayloadPrefix(group, j + 1);
    PayloadSnoc(group[..j], group[j]);
    assert group[..j + 1] == group[..j] + [group[j]];
  }

  // One transfer, chunk by chunk

  /** The transfer after these chunks: every file holds what they hold of it. */
  predicate Holding(t: Transfer, sizes: seq<U64>, chunks: seq<Chunk>) {
    && WellFormed(t) && t.sizes == sizes
    && forall i :: 0 <= i < |sizes| ==> FileHolds(t, chunks, i)
  }

  predicate FileHolds(t: Transfer, chunks: seq<Chunk>, i: nat)
    requires WellFormed(t) && i < |t.sizes|
  {
    t.content[i] == t.accepted[i] == Got(chunks, i) && t.received[i] == |Got(chunks, i)|
  }

  lemma NewHolds(sizes: seq<U64>, total: U64)
    ensures Holding(New(sizes, total), sizes, [])
  {
    NewWellFormed(sizes, total);
  }

  lemma ChunkHolds(t: Transfer, sizes: seq<U64>, chunks: seq<Chunk>, c: Chunk)
    requires Holding(t, sizes, chunks) && AllOpen(t) && Follows(sizes, chunks, c)
    ensures Judge(t, c, Writes) == Stored && AllOpen(AfterChunk(t, c, Writes))
    ensures AfterChunk(t, c, Writes).total == t.total && Holding(AfterChunk(t, c, Writes), sizes, chunks + [c])
  {
    assert FileHolds(t, chunks, c.file);
    GoodChunkStored(t, c);
    ChunkKeeps(t, c, Writes);
    var u := AfterChunk(t, c, Writes);
    forall i | 0 <= i < |sizes|
      ensures FileHolds(u, chunks + [c], i)
    {
      assert FileHolds(t, chunks, i);
      GotSnoc(chunks, c, i);
      assert Got(chunks, i) + [] == Got(chunks, i);
    }
  }

  lemma WholeFinished(t: Transfer, sizes: seq<U64>, chunks: seq<Chunk>)
    requires Holding(t, sizes, chunks) && Whole(sizes, chunks) && t.total == Sum64(sizes)
    ensures Finished(t)
  {
    forall i | 0 <= i < |sizes|
      ensures t.received[i] == sizes[i]
    {
      assert FileHolds(t, chunks, i);
    }
  }

  // Runs

  /** Transfer r is to receive these chunks, of files of these sizes. */
  datatype Plan = Plan(r: nat, sizes: seq<U64>, chunks: seq<Chunk>)

  predicate Complete(plan: Plan) {
    InOrder(plan.sizes, plan.chunks) && Whole(plan.sizes, plan.chunks)
  }

  predicate WritesTo(s: State, l: Label, r: nat) {
    l.e.Writing? && l.tid < |s.pcs| && s.pcs[l.tid].Checked? && s.pcs[l.tid].r == r
  }

  function NewChunk(s: State, l: Label, r: nat): seq<Chunk> {
    if WritesTo(s, l, r) then [s.pcs[l.tid].c] else []
  }

  /** The chunks that have been written for transfer r, in order. */
  function Arrivals(states: seq<State>, labels: seq<Label>, r: nat): seq<Chunk>
    requires |states| >= |labels|
  {
    if labels == [] then []
    else
      var n := |labels| - 1;
      Arrivals(states[..n], labels[..n], r) + NewChunk(states[n], labels[n], r)
  }

  /** Nothing interferes with the plan in this step: chunks come in its order and are written
      without a disk error, the transfer was offered with the plan's sizes, and it leaves the
      map only by Done, after all chunks. */
  predicate Undisturbed(plan: Plan, before: seq<Chunk>, s: State, l: Label, u: State) {
    && (WritesTo(s, l, plan.r) ==> l.e.disk == Writes && before + NewChunk(s, l, plan.r) <= plan.chunks)
    && (plan.r < |u.recvs| ==> u.recvs[plan.r].t.sizes == plan.sizes && u.recvs[plan.r].t.total == Sum64(plan.sizes))
    && (plan.r < |s.recvs| && plan.r < |u.recvs| && s.recvs[plan.r].owner == InMap && u.recvs[plan.r].owner != InMap ==>
          l.e.DoneArrives? && before == plan.chunks)
  }

  predicate OnItsWay(pc: Pc, r: nat) {
    pc == Validating(r) || pc == Closing(r, Completes) || pc == Finishing(r, Completes) || pc == Calling(r)
  }

  predicate OnCourse(plan: Plan, before: seq<Chunk>, s: State) {
    && before <= plan.chunks
    && (plan.r >= |s.recvs| ==> before == [])
    && (plan.r < |s.recvs| ==>
          var v := s.recvs[plan.r];
          && Holding(v.t, plan.sizes, before) && v.t.total == Sum64(plan.sizes)
          && match v.owner
             case InMap => true
             case Taken(tid) => before == plan.chunks && tid < |s.pcs| && OnItsWay(s.pcs[tid], plan.r)
             case Completed => before == plan.chunks
             case _ => false)
  }

  lemma ClosedHolds(t: Transfer, sizes: seq<U64>, chunks: seq<Chunk>)
    requires Holding(t, sizes, chunks)
    ensures Holding(Closed(t), sizes, chunks)
  {
    ClosedIsFrozen(t, Chunk(0, 0, 0, []), Writes);
    forall i | 0 <= i < |sizes|
      ensures FileHolds(Closed(t), chunks, i)
    {
      assert FileHolds(t, chunks, i);
    }
  }

  /** A step that leaves transfer r and the position of its owner alone. */
  lemma Elsewhere(plan: Plan, before: seq<Chunk>, s: State, u: State)
    requires OnCourse(plan, before, s)
    requires plan.r < |s.recvs| ==> plan.r < |u.recvs| && u.recvs[plan.r] == s.recvs[plan.r]
    requires plan.r >= |s.recvs| ==> plan.r >= |u.recvs|
    requires plan.r < |s.recvs| && s.recvs[plan.r].owner.Taken? ==>
               s.recvs[plan.r].owner.tid < |u.pcs| && s.recvs[plan.r].owner.tid < |s.pcs|
               && u.pcs[s.recvs[plan.r].owner.tid] == s.pcs[s.recvs[plan.r].owner.tid]
    ensures OnCourse(plan, before, u)
  {
  }

  lemma WriteOnCourse(plan: Plan, before: seq<Chunk>, s: State, l: Label)
    requires Complete(plan) && Inv(s) && Enabled(s, l.tid, l.e) && OnCourse(plan, before, s)
    requires l.e.Writing? && s.pcs[l.tid].r == plan.r && Undisturbed(plan, before, s, l, Next(s, l.tid, l.e))
    ensures OnCourse(plan, before + NewChunk(s, l, plan.r), Next(s, l.tid, l.e))
  {
    var c, k := s.pcs[l.tid].c, |before|;
    assert PcOk(s, l.tid) && RecvOk(s, plan.r);
    assert before + [c] <= plan.chunks;
    assert plan.chunks[..k] == before && plan.chunks[k] == c;
    assert Follows(plan.sizes, plan.chunks[..k], plan.chunks[k]);
    ChunkHolds(s.recvs[plan.r].t, plan.sizes, before, c);
  }

  lemma InstallOnCourse(plan: Plan, before: seq<Chunk>, s: State, l: Label)
    requires Inv(s) && Enabled(s, l.tid, l.e) && OnCourse(plan, before, s)
    requires l.e.Installs? && Undisturbed(plan, before, s, l, Next(s, l.tid, l.e))
    ensures OnCourse(plan, before, Next(s, l.tid, l.e))
  {
    var pc, u := s.pcs[l.tid], Next(s, l.tid, l.e);
    assert pc.id in s.active ==> EntryOk(s, pc.id);
    if plan.r < |s.recvs| {
      assert RecvOk(s, plan.r);
      Elsewhere(plan, before, s, u);
    } else if plan.r < |u.recvs| {
      NewHolds(pc.sizes, pc.total);
    }
  }

  predicate OwnersStep(e: Event) {
    e.Validates? || e.Closes? || e.Removes? || e.Finishes? || e.Calls?
  }

  lemma OwnerOnCourse(plan: Plan, before: seq<Chunk>, s: State, l: Label)
    requires Complete(plan) && Inv(s) && Enabled(s, l.tid, l.e) && OnCourse(plan, before, s)
    requires OwnersStep(l.e) && s.pcs[l.tid].r == plan.r
    ensures OnCourse(plan, before, Next(s, l.tid, l.e))
  {
    assert PcOk(s, l.tid) && RecvOk(s, plan.r);
    var t := s.recvs[plan.r].t;
    hide Holding;
    WholeFinished(t, plan.sizes, plan.chunks);
    ClosedHolds(t, plan.sizes, plan.chunks);
    hide Closed;
    hide Finished;
  }

  lemma OtherOnCourse(plan: Plan, before: seq<Chunk>, s: State, l: Label)
    requires Inv(s) && Enabled(s, l.tid, l.e) && OnCourse(plan, before, s)
    requires OwnersStep(l.e) && s.pcs[l.tid].r != plan.r
    ensures OnCourse(plan, before, Next(s, l.tid, l.e))
  {
    assert PcOk(s, l.tid);
    hide Closed;
    if plan.r < |s.recvs| {
      assert RecvOk(s, plan.r);
    }
    Elsewhere(plan, before, s, Next(s, l.tid, l.e));
  }

  lemma TakeOnCourse(plan: Plan, before: seq<Chunk>, s: State, l: Label)
    requires Inv(s) && Enabled(s, l.tid, l.e) && OnCourse(plan, before, s)
    requires l.e.DoneArrives? || l.e.CancelArrives? || l.e.AbortTakes?
    requires Undisturbed(plan, before, s, l, Next(s, l.tid, l.e))
    ensures OnCourse(plan, before, Next(s, l.tid, l.e))
  {
    var u := Next(s, l.tid, l.e);
    assert PcOk(s, l.tid);
    var id := if l.e.AbortTakes? then s.pcs[l.tid].id else l.e.id;
    assert id in s.active ==> EntryOk(s, id);
    if plan.r < |s.recvs| {
      assert RecvOk(s, plan.r);
    }
    if !(plan.r < |s.recvs| && u.recvs[plan.r] != s.recvs[plan.r]) {
      Elsewhere(plan, before, s, u);
    }
  }

  lemma PlainOnCourse(plan: Plan, before: seq<Chunk>, s: State, l: Label)
    requires Inv(s) && Enabled(s, l.tid, l.e) && OnCourse(plan, before, s)
    requires l.e.OfferArrives? || l.e.ChunkArrives? || l.e.ChecksDone? || (l.e.Writing? && s.pcs[l.tid].r != plan.r)
    ensures OnCourse(plan, before, Next(s, l.tid, l.e))
  {
    assert PcOk(s, l.tid);
    if plan.r < |s.recvs| {
      assert RecvOk(s, plan.r);
    }
    hide AfterChunk;
    Elsewhere(plan, before, s, Next(s, l.tid, l.e));
  }

  lemma CourseStep(plan: Plan, before: seq<Chunk>, s: State, l: Label, u: State)
    requires Complete(plan) && Inv(s) && IsStep(s, l, u) && OnCourse(plan, before, s)
    requires Undisturbed(plan, before, s, l, u)
    ensures OnCourse(plan, before + NewChunk(s, l, plan.r), u)
  {
    hide OnCourse;
    hide Undisturbed;
    hide Inv;
    hide Next;
    assert before + [] == before;
    match l.e
    case Writing(_) =>
      if s.pcs[l.tid].r == plan.r {
        WriteOnCourse(plan, before, s, l);
      } else {
        PlainOnCourse(plan, before, s, l);
      }
    case Installs => InstallOnCourse(plan, before, s, l);
    case DoneArrives(_) => TakeOnCourse(plan, before, s, l);
    case CancelArrives(_) => TakeOnCourse(plan, before, s, l);
    case AbortTakes => TakeOnCourse(plan, before, s, l);
    case OfferArrives(_, _, _) => PlainOnCourse(plan, before, s, l);
    case ChunkArrives(_) => PlainOnCourse(plan, before, s, l);
    case ChecksDone => PlainOnCourse(plan, before, s, l);
    case _ =>
      if s.pcs[l.tid].r == plan.r {
        OwnerOnCourse(plan, before, s, l);
      } else {
        OtherOnCourse(plan, before, s, l);
      }
  }

  predicate AllUndisturbed(plan: Plan, states: seq<State>, labels: seq<Label>)
    requires |states| == |labels| + 1
  {
    forall k :: 0 <= k < |labels| ==>
      Undisturbed(plan, Arrivals(states[..k], labels[..k], plan.r), states[k], labels[k], states[k + 1])
  }

  lemma {:induction false} RunOnCourse(plan: Plan, states: seq<State>, labels: seq<Label>, k: nat)
    requires Complete(plan) && IsRun(states, labels) && AllUndisturbed(plan, states, labels) && k <= |labels|
    ensures OnCourse(plan, Arrivals(states[..k], labels[..k], plan.r), states[k])
  {
    if k > 0 {
      var n := k - 1;
      RunOnCourse(plan, states, labels, n);
      RunKeeps(states, labels, n);
      assert IsStep(states[n], labels[n], states[k]);
      hide OnCourse;
      hide Complete;
      hide Inv;
      hide IsStep;
      hide Undisturbed;
      assert Undisturbed(plan, Arrivals(states[..n], labels[..n], plan.r), states[n], labels[n], states[n + 1]);
      CourseStep(plan, Arrivals(states[..n], labels[..n], plan.r), states[n], labels[n], states[k]);
      ArrivalsSnoc(states, labels, plan.r, n);
    } else {
      assert states[..0] == [] && labels[..0] == [];
    }
  }

  lemma ArrivalsSnoc(states: seq<State>, labels: seq<Label>, r: nat, n: nat)
    requires |states| >= |labels| > n
    ensures Arrivals(states[..n + 1], labels[..n + 1], r)
            == Arrivals(states[..n], labels[..n], r) + NewChunk(states[n], labels[n], r)
  {
    hide NewChunk;
    assert states[..n + 1][..n] == states[..n] && labels[..n + 1][..n] == labels[..n];
  }

  /** End to end: all chunks of a complete send, in order, for a transfer offered with the
      sizes of its files, no disk error, and nothing but Done to take it: when the transfer is
      settled, it is completed, the callback has fired once, and each file on disk is the file
      that was sent. */
  lemma SendCompletes(id: U32, sources: seq<FileSend.Source>, groups: seq<seq<Chunk>>, r: nat, sizes: seq<U64>,
                      states: seq<State>, labels: seq<Label>)
    requires |sources| <= TWO32 && FileSend.SentFiles(id, sources, groups, true) && |groups| == |sources|
    requires SizesOf(sources, sizes) && IsRun(states, labels)
    requires AllUndisturbed(Plan(r, sizes, Flatten(groups)), states, labels)
    requires r < |states[|labels|].recvs|
    ensures var v := states[|labels|].recvs[r];
            && v.owner != Aborted && v.owner != Overwritten
            && (Settled(v) ==>
                  && v.owner == Completed && v.callbacks == 1 && v.kept && |v.t.content| == |sources|
                  && forall i :: 0 <= i < |sources| ==> v.t.content[i] == FileSend.BytesOf(sources[i]))
  {
    var plan, n := Plan(r, sizes, Flatten(groups)), |labels|;
    SendInOrder(id, sources, groups, sizes);
    RunOnCourse(plan, states, labels, n);
    RunKeeps(states, labels, n);
    var v := states[n].recvs[r];
    assert RecvOk(states[n], r);
    if Settled(v) {
      forall i | 0 <= i < |sources|
        ensures v.t.content[i] == FileSend.BytesOf(sources[i])
      {
        assert FileHolds(v.t, plan.chunks, i);
      }
    }
  }
}
