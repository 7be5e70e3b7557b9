/** The coalescing mouse lane: a channel of two slots with one producer, and a
    writer that may receive between any two of the producer's channel operations. */
module MouseLane {
  import opened Bytes
  import opened Options
  import opened Frames

  const MOUSE_CAP := 2

  /** A displacement; both axes wrap around like the int32 values on the wire. */
  datatype Move = Move(dx: I32, dy: I32)

  const STILL := Move(0, 0)

  function Plus(a: Move, b: Move): Move {
    Move(AddI32(a.dx, b.dx), AddI32(a.dy, b.dy))
  }

  lemma PlusComm(a: Move, b: Move)
    ensures Plus(a, b) == Plus(b, a)
  {
  }

  lemma AddI32Assoc(a: I32, b: I32, c: I32)
    ensures AddI32(AddI32(a, b), c) == AddI32(a, AddI32(b, c))
  {
  }

  lemma PlusAssoc(a: Move, b: Move, c: Move)
    ensures Plus(Plus(a, b), c) == Plus(a, Plus(b, c))
  {
    AddI32Assoc(a.dx, b.dx, c.dx);
    AddI32Assoc(a.dy, b.dy, c.dy);
  }

  lemma PlusStill(a: Move)
    ensures Plus(a, STILL) == a && Plus(STILL, a) == a
  {
  }

  /** A malformed payload moves nothing. */
  function MoveOf(f: Frame): Move {
    if |f.payload| == 8 then Move(AsI32(GetU32(f.payload[0..4])), AsI32(GetU32(f.payload[4..8]))) else STILL
  }

  function MoveFrame(m: Move): Frame {
    Frame(MSG_MOUSE_MOVE, PutU32(AsU32(m.dx)) + PutU32(AsU32(m.dy)))
  }

  lemma MoveFrameDecodes(m: Move)
    ensures |MoveFrame(m).payload| == 8 && MoveOf(MoveFrame(m)) == m
  {
    var p := MoveFrame(m).payload;
    U32RoundTrip(AsU32(m.dx), []);
    U32RoundTrip(AsU32(m.dy), []);
    assert p[0..4] == PutU32(AsU32(m.dx)) + [] && p[4..8] == PutU32(AsU32(m.dy)) + [];
  }

  /** Total displacement of a list of moves. */
  function Total(s: seq<Frame>): Move {
    if s == [] then STILL else Plus(MoveOf(s[0]), Total(s[1..]))
  }

  lemma {:induction false} TotalConcat(a: seq<Frame>, b: seq<Frame>)
    ensures Total(a + b) == Plus(Total(a), Total(b))
  {
    if a == [] {
      assert a + b == b;
      PlusStill(Total(b));
    } else {
      assert (a + b)[1..] == a[1..] + b;
      TotalConcat(a[1..], b);
      PlusAssoc(MoveOf(a[0]), Total(a[1..]), Total(b));
    }
  }

  lemma TotalOne(f: Frame)
    ensures Total([f]) == MoveOf(f)
  {
    PlusStill(MoveOf(f));
  }

  /** The (0,0) move is the remote-wake sentinel. */
  predicate IsWake(f: Frame) {
    |f.payload| == 8 && MoveOf(f) == STILL
  }

  function Wakes(s: seq<Frame>): nat {
    if s == [] then 0 else (if IsWake(s[0]) then 1 else 0) + Wakes(s[1..])
  }

  lemma {:induction false} WakesConcat(a: seq<Frame>, b: seq<Frame>)
    ensures Wakes(a + b) == Wakes(a) + Wakes(b)
  {
    if a == [] {
      assert a + b == b;
    } else {
      assert (a + b)[1..] == a[1..] + b;
      WakesConcat(a[1..], b);
    }
  }

  lemma Appended(s: seq<Frame>, f: Frame)
    ensures Total(s + [f]) == Plus(Total(s), MoveOf(f))
    ensures Wakes(s + [f]) == Wakes(s) + Wakes([f])
  {
    TotalConcat(s, [f]);
    TotalOne(f);
    WakesConcat(s, [f]);
  }

  /** Every frame is a well-formed mouse move. */
  predicate AllMoves(s: seq<Frame>) {
    forall i :: 0 <= i < |s| ==> s[i].kind == MSG_MOUSE_MOVE && |s[i].payload| == 8
  }

  lemma StillMoves(sent: seq<Frame>, queued: seq<Frame>)
    requires queued != []
    ensures AllMoves(sent + queued) ==> AllMoves(sent + queued[1..])
  {
    if AllMoves(sent + queued) {
      var s, t := sent + queued, sent + queued[1..];
      forall i | 0 <= i < |t|
        ensures t[i].kind == MSG_MOUSE_MOVE && |t[i].payload| == 8
      {
        assert t[i] == if i < |sent| then s[i] else s[i + 1];
      }
    }
  }

  /** Taking the head of the queue out removes its move from the total. */
  lemma TakenOut(sent: seq<Frame>, queued: seq<Frame>, acc: Move)
    requires queued != []
    ensures Plus(Total(sent + queued[1..]), Plus(acc, MoveOf(queued[0]))) == Plus(Total(sent + queued), acc)
    ensures Wakes(sent + queued[1..]) <= Wakes(sent + queued)
    ensures AllMoves(sent + queued) ==> AllMoves(sent + queued[1..])
  {
    StillMoves(sent, queued);
    var a, h, b := Total(sent), MoveOf(queued[0]), Total(queued[1..]);
    TotalConcat(sent, queued);
    TotalConcat(sent, queued[1..]);
    WakesConcat(sent, queued);
    WakesConcat(sent, queued[1..]);
    Shuffle(a, h, b, acc);
  }

  lemma Shuffle(a: Move, h: Move, b: Move, acc: Move)
    ensures Plus(Plus(a, b), Plus(acc, h)) == Plus(Plus(a, Plus(h, b)), acc)
  {
    calc {
      Plus(Plus(a, b), Plus(acc, h));
      { PlusComm(acc, h); PlusAssoc(Plus(a, b), h, acc); }
      Plus(Plus(Plus(a, b), h), acc);
      { PlusAssoc(a, b, h); PlusComm(b, h); }
      Plus(Plus(a, Plus(h, b)), acc);
    }
  }

  /** What one enqueue does to the list of everything sent or still queued. */
  ghost predicate Conserves(before: seq<Frame>, after: seq<Frame>, f: Frame) {
    && (AllMoves(before) && AllMoves([f]) ==> AllMoves(after))
    && Total(after) == Plus(Total(before), MoveOf(f))
    && Wakes(after) <= Wakes(before) + Wakes([f])
  }

  lemma MoveFrameIsMove(sent: seq<Frame>, m: Move)
    ensures AllMoves(sent) ==> AllMoves(sent + [MoveFrame(m)])
  {
    MoveFrameDecodes(m);
  }

  lemma Coalesced(before: seq<Frame>, sent: seq<Frame>, f: Frame, m: Move)
    requires Plus(Total(sent), m) == Plus(Total(before), MoveOf(f)) && Wakes(sent) <= Wakes(before)
    requires AllMoves(before) ==> AllMoves(sent)
    ensures m == STILL ==> Conserves(before, sent, f)
    ensures m != STILL ==> Conserves(before, sent + [MoveFrame(m)], f) && Wakes([MoveFrame(m)]) == 0
  {
    PlusStill(Total(sent));
    MoveFrameDecodes(m);
    Appended(sent, MoveFrame(m));
    MoveFrameIsMove(sent, m);
    hide MoveFrame;
    hide Total;
  }

  class Lane {
    var ch: seq<Frame>
    var sent: seq<Frame>     // received by the writer, in order

    ghost predicate Valid()
      reads this
    {
      |ch| <= MOUSE_CAP
    }

    constructor ()
      ensures Valid() && ch == [] && sent == []
    {
      ch, sent := [], [];
    }

    /** The writer takes any number of queued moves, including none. */
    method WriterReceives()
      requires Valid()
      modifies this
      ensures Valid() && sent + ch == old(sent) + old(ch) && |ch| <= |old(ch)|
    {
      var k: nat :| k <= |ch|;
      assert ch == ch[..k] + ch[k..];
      sent, ch := sent + ch[..k], ch[k..];
    }

    /** Receive one queued move, if there is any. */
    method TryReceive() returns (f: Option<Frame>)
      requires Valid()
      modifies this`ch
      ensures Valid()
      ensures f == None <==> old(ch) == []
      ensures f == None ==> ch == []
      ensures f.Some? ==> f.value == old(ch)[0] && ch == old(ch)[1..]
    {
      if ch == [] {
        return None;
      }
      f := Some(ch[0]);
      ch := ch[1..];
    }

    /** The drain loop: adds every queued move to the one at hand and leaves the
        channel empty. */
    method Drain(start: Move) returns (m: Move)
      requires Valid()
      modifies this
      ensures ch == []
      ensures Plus(Total(sent), m) == Plus(Total(old(sent) + old(ch)), start)
      ensures Wakes(sent) <= Wakes(old(sent) + old(ch))
      ensures AllMoves(old(sent) + old(ch)) ==> AllMoves(sent)
    {
      m := start;
      while true
        invariant Valid()
        invariant Plus(Total(sent + ch), m) == Plus(Total(old(sent) + old(ch)), start)
        invariant Wakes(sent + ch) <= Wakes(old(sent) + old(ch))
        invariant AllMoves(old(sent) + old(ch)) ==> AllMoves(sent + ch)
        decreases |ch|
      {
        WriterReceives();
        ghost var queued := ch;
        var f := TryReceive();
        if f == None {
          assert sent + ch == sent;
          return;
        }
        TakenOut(sent, queued, m);
        m := Move(AddI32(m.dx, MoveOf(f.value).dx), AddI32(m.dy, MoveOf(f.value).dy));
      }
    }

    /** enqueueMouseMove. `asIs` says whether the move was queued unchanged. */
    method Enqueue(f: Frame) returns (asIs: bool)
      requires Valid()
      modifies this
      ensures Valid() && Conserves(old(sent) + old(ch), sent + ch, f)
      ensures asIs ==> sent + ch == old(sent) + old(ch) + [f]
      ensures |old(ch)| < MOUSE_CAP ==> asIs
      ensures !asIs && |f.payload| == 8 ==> |ch| <= 1 && Wakes(ch) == 0
    {
      WriterReceives();
      asIs := |ch| < MOUSE_CAP;
      if asIs {
        assert sent + (ch + [f]) == old(sent) + old(ch) + [f];
        Appended(old(sent) + old(ch), f);
        ch := ch + [f];
      } else if |f.payload| == 8 {
        Coalesce(f);
      } else {
        PlusStill(Total(sent + ch));
      }
    }

    method Coalesce(f: Frame)
      requires Valid() && |f.payload| == 8
      modifies this
      ensures Valid() && Conserves(old(sent) + old(ch), sent + ch, f)
      ensures |ch| <= 1 && Wakes(ch) == 0
    {
      var m := Drain(MoveOf(f));
      ghost var drained := sent;
      Coalesced(old(sent) + old(ch), sent, f, m);
      if m.dx == 0 && m.dy == 0 {
        assert sent + ch == drained;
        return;
      }
      WriterReceives();
      // The channel cannot have filled up again: there is one producer.
      assert sent + [] == sent && drained + [] == drained;
      if |ch| < MOUSE_CAP {
        ch := ch + [MoveFrame(m)];
      }
      assert sent + ch == drained + [MoveFrame(m)];
    }

    /** A whole burst of moves from the hook thread. */
    method EnqueueAll(moves: seq<Frame>)
      requires Valid() && sent == ch == []
      modifies this
      ensures Valid()
      ensures Total(sent + ch) == Total(moves)
      ensures Wakes(sent + ch) <= Wakes(moves)
    {
      ghost var alls := [sent + ch];
      var i := 0;
      while i < |moves|
        invariant i <= |moves| && Valid()
        invariant |alls| == i + 1 && alls[0] == [] && alls[i] == sent + ch
        invariant forall k :: 0 <= k < i ==> Conserves(alls[k], alls[k + 1], moves[k])
      {
        var _ := Enqueue(moves[i]);
        alls := alls + [sent + ch];
        i := i + 1;
      }
      RunConserves(alls, moves);
    }
  }

  /** Over any run of enqueues, whatever the writer did in between, the moves sent
      or queued add up to the moves enqueued, and no wake appears from nowhere. */
  lemma {:induction false} RunConserves(alls: seq<seq<Frame>>, moves: seq<Frame>)
    requires |alls| == |moves| + 1 && alls[0] == []
    requires forall k :: 0 <= k < |moves| ==> Conserves(alls[k], alls[k + 1], moves[k])
    ensures Total(alls[|moves|]) == Total(moves)
    ensures Wakes(alls[|moves|]) <= Wakes(moves)
    decreases |moves|
  {
    if moves != [] {
      var n := |moves| - 1;
      RunConserves(alls[..n + 1], moves[..n]);
      assert Conserves(alls[n], alls[n + 1], moves[n]);
      assert moves == moves[..n] + [moves[n]];
      Appended(moves[..n], moves[n]);
    }
  }
}
