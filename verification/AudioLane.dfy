/** The ordered audio lane of the send mux: a FIFO that never blocks its
    producers and makes room by dropping the oldest queued data frame. */
module AudioLane {
  import opened Options
  import opened Frames

  const AUDIO_CAP := 128

  // What one push does to the queue. The element type is left open: the lane
  // only ever asks whether an element is droppable data.

  /** Index of the oldest droppable element, or |q| if there is none. */
  function FirstData<T>(isData: T -> bool, q: seq<T>): (i: nat)
    ensures i <= |q|
    ensures forall j :: 0 <= j < i ==> !isData(q[j])
    ensures i < |q| ==> isData(q[i])
  {
    if q == [] then 0
    else if isData(q[0]) then 0
    else 1 + FirstData(isData, q[1..])
  }

  /** The incoming element is itself the oldest droppable one. */
  predicate Refused<T>(isData: T -> bool, q: seq<T>, f: T) {
    |q| >= AUDIO_CAP && FirstData(isData, q) == |q| && isData(f)
  }

  function AfterPush<T>(isData: T -> bool, q: seq<T>, f: T): seq<T> {
    if |q| < AUDIO_CAP then q + [f]
    else
      var i := FirstData(isData, q);
      if i < |q| then q[..i] + q[i + 1..] + [f]
      else if isData(f) then q
      else q + [f]
  }

  function DropsOnPush<T>(isData: T -> bool, q: seq<T>, f: T): nat {
    if |q| >= AUDIO_CAP && (FirstData(isData, q) < |q| || isData(f)) then 1 else 0
  }

  /** A push into a lane with room drops nothing. In a full one the oldest droppable element
      makes way, wherever it stands, and all others stay in order; without one, a droppable
      newcomer is itself dropped, and a control frame is queued all the same. */
  lemma PushLaw<T>(isData: T -> bool, q: seq<T>, f: T) returns (a: seq<T>, b: seq<T>)
    ensures |q| < AUDIO_CAP ==> AfterPush(isData, q, f) == q + [f]
    ensures DropsOnPush(isData, q, f) == |q| + 1 - |AfterPush(isData, q, f)|
    ensures |q| >= AUDIO_CAP && (exists i :: 0 <= i < |q| && isData(q[i])) ==>
              && |a| < |q| && q == a + [q[|a|]] + b && isData(q[|a|]) && (forall j :: 0 <= j < |a| ==> !isData(a[j]))
              && AfterPush(isData, q, f) == a + b + [f]
    ensures |q| >= AUDIO_CAP && (forall i :: 0 <= i < |q| ==> !isData(q[i])) ==>
              AfterPush(isData, q, f) == if isData(f) then q else q + [f]
  {
    var i := FirstData(isData, q);
    a, b := q[..i], if i < |q| then q[i + 1..] else [];
  }

  function IsDataFrame(): Frame -> bool {
    (f: Frame) => IsAudioData(f.kind)
  }

  /** audioLane of the source: the queue and its one-slot wake-up signal. */
  class Lane {
    var q: seq<Frame>
    var sig: bool

    constructor ()
      ensures q == [] && !sig
    {
      q, sig := [], false;
    }

    /** Appends under the lock; the wake-up signal is a separate step (Signal).
        `queued` is false exactly when the incoming frame itself was dropped. */
    method Append(f: Frame) returns (dropped: nat, queued: bool)
      modifies this`q
      ensures q == AfterPush(IsDataFrame(), old(q), f)
      ensures dropped == DropsOnPush(IsDataFrame(), old(q), f)
      ensures queued <==> !Refused(IsDataFrame(), old(q), f)
    {
      dropped, queued := 0, true;
      if |q| >= AUDIO_CAP {
        var idx := -1;
        var i := 0;
        while i < |q|
          invariant 0 <= i <= |q|
          invariant idx == -1
          invariant forall j :: 0 <= j < i ==> !IsAudioData(q[j].kind)
        {
          if IsAudioData(q[i].kind) {
            idx := i;
            break;
          }
          i := i + 1;
        }
        if idx >= 0 {
          q := q[..idx] + q[idx + 1..];
          dropped := 1;
        } else if IsAudioData(f.kind) {
          return 1, false;
        }
      }
      q := q + [f];
    }

    method Signal()
      modifies this`sig
      ensures sig
    {
      sig := true;
    }

    /** push: returns the number of frames dropped to make room. */
    method Push(f: Frame) returns (dropped: nat)
      modifies this
      ensures q == AfterPush(IsDataFrame(), old(q), f)
      ensures dropped == DropsOnPush(IsDataFrame(), old(q), f)
      ensures sig <==> old(sig) || !Refused(IsDataFrame(), old(q), f)
    {
      var queued;
      dropped, queued := Append(f);
      if queued {
        Signal();
      }
    }

    method Pop() returns (f: Option<Frame>)
      modifies this`q
      ensures old(q) == [] ==> f == None && q == []
      ensures old(q) != [] ==> f == Some(old(q)[0]) && q == old(q)[1..]
    {
      if q == [] {
        return None;
      }
      f := Some(q[0]);
      q := q[1..];
    }

    method Clear() returns (n: nat)
      modifies this`q
      ensures q == [] && n == |old(q)|
    {
      n := |q|;
      q := [];
    }
  }

  // Thinning: what survives when only data may be dropped

  /** `got` is `sent` with some data elements left out; order and every other
      element are kept. */
  ghost predicate Thinned<T>(isData: T -> bool, sent: seq<T>, got: seq<T>)
    decreases |sent|
  {
    if sent == [] then got == []
    else
      var n := |sent| - 1;
      || (got != [] && got[|got| - 1] == sent[n] && Thinned(isData, sent[..n], got[..|got| - 1]))
      || (isData(sent[n]) && Thinned(isData, sent[..n], got))
  }

  function Select<T>(keep: T -> bool, s: seq<T>): seq<T> {
    if s == [] then []
    else Select(keep, s[..|s| - 1]) + (if keep(s[|s| - 1]) then [s[|s| - 1]] else [])
  }

  function Not<T>(p: T -> bool): T -> bool {
    x => !p(x)
  }

  lemma SelectAppend<T>(keep: T -> bool, s: seq<T>, x: T)
    ensures Select(keep, s + [x]) == Select(keep, s) + (if keep(x) then [x] else [])
  {
    assert (s + [x])[..|s|] == s;
  }

  lemma {:induction false} SelectConcat<T>(keep: T -> bool, a: seq<T>, b: seq<T>)
    ensures Select(keep, a + b) == Select(keep, a) + Select(keep, b)
    decreases |b|
  {
    if b == [] {
      assert a + b == a;
    } else {
      var c, x := b[..|b| - 1], b[|b| - 1];
      SelectConcat(keep, a, c);
      assert a + b == (a + c) + [x];
      SelectAppend(keep, a + c, x);
      assert b == c + [x];
    }
  }

  lemma ThinnedKeep<T>(isData: T -> bool, sent: seq<T>, got: seq<T>, x: T)
    requires Thinned(isData, sent, got)
    ensures Thinned(isData, sent + [x], got + [x])
  {
    assert (sent + [x])[..|sent|] == sent && (got + [x])[..|got|] == got;
  }

  lemma ThinnedSkip<T>(isData: T -> bool, sent: seq<T>, got: seq<T>, x: T)
    requires Thinned(isData, sent, got) && isData(x)
    ensures Thinned(isData, sent + [x], got)
  {
    assert (sent + [x])[..|sent|] == sent;
  }

  /** A data element may be dropped at any later time, wherever it then stands. */
  lemma {:induction false} ThinnedRemove<T>(isData: T -> bool, sent: seq<T>, a: seq<T>, x: T, b: seq<T>)
    requires Thinned(isData, sent, (a + [x]) + b) && isData(x)
    ensures Thinned(isData, sent, a + b)
    decreases |sent|
  {
    var got, n := (a + [x]) + b, |sent| - 1;
    var m := |got| - 1;
    if got[m] == sent[n] && Thinned(isData, sent[..n], got[..m]) {
      if b == [] {
        assert got[..m] == a == a + b;
      } else {
        var c := b[..|b| - 1];
        assert got[..m] == (a + [x]) + c;
        ThinnedRemove(isData, sent[..n], a, x, c);
        assert (a + b)[..|a + b| - 1] == a + c;
      }
    } else {
      ThinnedRemove(isData, sent[..n], a, x, b);
    }
  }

  /** Nothing but data is ever missing. */
  lemma {:induction false} ThinnedControls<T>(isData: T -> bool, sent: seq<T>, got: seq<T>)
    requires Thinned(isData, sent, got)
    ensures Select(Not(isData), got) == Select(Not(isData), sent)
    decreases |sent|
  {
    if sent != [] {
      var n, m := |sent| - 1, |got| - 1;
      if got != [] && got[m] == sent[n] && Thinned(isData, sent[..n], got[..m]) {
        ThinnedControls(isData, sent[..n], got[..m]);
      } else {
        ThinnedControls(isData, sent[..n], got);
      }
    }
  }

  // Whole runs of the lane

  datatype Op<T> = Push(item: T) | Pop | Clear

  /** The queue with its history since the last clear. */
  datatype History<T> = History(q: seq<T>, pushed: seq<T>, popped: seq<T>, dropped: nat)

  function Apply<T>(isData: T -> bool, h: History<T>, op: Op<T>): History<T> {
    match op
    case Push(f) => History(AfterPush(isData, h.q, f), h.pushed + [f], h.popped, h.dropped + DropsOnPush(isData, h.q, f))
    case Pop => if h.q == [] then h else h.(q := h.q[1..], popped := h.popped + [h.q[0]])
    case Clear => History([], [], [], 0)
  }

  function Run<T>(isData: T -> bool, ops: seq<Op<T>>): History<T> {
    if ops == [] then History([], [], [], 0)
    else Apply(isData, Run(isData, ops[..|ops| - 1]), ops[|ops| - 1])
  }

  ghost predicate IsSuffix<T>(a: seq<T>, b: seq<T>) {
    |a| <= |b| && b[|b| - |a|..] == a
  }

  /** What the lane promises about a run since the last clear. */
  ghost predicate Faithful<T>(isData: T -> bool, h: History<T>) {
    && Thinned(isData, h.pushed, h.popped + h.q)
    && |h.pushed| == |h.popped| + |h.q| + h.dropped
    && IsSuffix(Select(isData, h.q), Select(isData, h.pushed))
    && (|h.q| <= AUDIO_CAP || |h.q| <= |Select(Not(isData), h.q)|)
  }

  lemma {:induction false} SelectNone<T>(p: T -> bool, s: seq<T>)
    requires forall i :: 0 <= i < |s| ==> !p(s[i])
    ensures Select(p, s) == []
  {
    if s != [] {
      SelectNone(p, s[..|s| - 1]);
    }
  }

  lemma {:induction false} SelectCounts<T>(p: T -> bool, s: seq<T>)
    ensures |Select(p, s)| + |Select(Not(p), s)| == |s|
  {
    if s != [] {
      SelectCounts(p, s[..|s| - 1]);
    }
  }

  function If<T>(keep: T -> bool, x: T): seq<T> {
    if keep(x) then [x] else []
  }

  lemma SelectAround<T>(keep: T -> bool, a: seq<T>, x: T, b: seq<T>)
    ensures Select(keep, (a + [x]) + b) == (Select(keep, a) + If(keep, x)) + Select(keep, b)
  {
    SelectConcat(keep, a + [x], b);
    SelectAppend(keep, a, x);
  }

  /** Cutting out the oldest data element shortens the selected data at its front. */
  lemma CutOldest<T>(isData: T -> bool, a: seq<T>, x: T, b: seq<T>)
    requires isData(x)
    requires forall j :: 0 <= j < |a| ==> !isData(a[j])
    ensures Select(isData, (a + [x]) + b) == [x] + Select(isData, a + b)
  {
    SelectNone(isData, a);
    SelectAround(isData, a, x, b);
    SelectConcat(isData, a, b);
  }

  lemma SuffixAppend<T>(a: seq<T>, b: seq<T>, c: seq<T>)
    requires IsSuffix(a, b)
    ensures IsSuffix(a + c, b + c)
  {
  }

  lemma SuffixTail<T>(x: seq<T>, a: seq<T>, b: seq<T>)
    requires IsSuffix(x + a, b)
    ensures IsSuffix(a, b)
  {
    var t := b[|b| - |x + a|..];
    assert a == t[|x|..] == b[|b| - |a|..];
  }

  /** Room in the lane, or nothing to drop and a frame that must not be dropped. */
  lemma AppendKeepsFaithful<T>(isData: T -> bool, h: History<T>, f: T)
    requires Faithful(isData, h)
    requires |h.q| < AUDIO_CAP || (FirstData(isData, h.q) == |h.q| && !isData(f))
    ensures Faithful(isData, Apply(isData, h, Push(f)))
  {
    var q := h.q;
    ThinnedKeep(isData, h.pushed, h.popped + q, f);
    assert h.popped + (q + [f]) == h.popped + q + [f];
    SelectAppend(isData, h.pushed, f);
    SelectAppend(isData, q, f);
    SuffixAppend(Select(isData, q), Select(isData, h.pushed), If(isData, f));
    if |q| >= AUDIO_CAP {
      SelectNone(isData, q);
      SelectCounts(isData, q);
    }
  }

  lemma Regroup<T>(p: seq<T>, q: seq<T>, i: nat, f: T)
    requires i < |q|
    ensures p + q == ((p + q[..i]) + [q[i]]) + q[i + 1..]
    ensures ((p + q[..i]) + q[i + 1..]) + [f] == p + (q[..i] + q[i + 1..] + [f])
  {
  }

  /** The history of a cut, without the counting. */
  lemma ThinnedCut<T>(isData: T -> bool, h: History<T>, i: nat, f: T)
    requires Thinned(isData, h.pushed, h.popped + h.q)
    requires i < |h.q| && isData(h.q[i])
    ensures Thinned(isData, h.pushed + [f], h.popped + (h.q[..i] + h.q[i + 1..] + [f]))
  {
    var a, b := h.q[..i], h.q[i + 1..];
    Regroup(h.popped, h.q, i, f);
    ThinnedRemove(isData, h.pushed, h.popped + a, h.q[i], b);
    ThinnedKeep(isData, h.pushed, (h.popped + a) + b, f);
  }

  lemma FreshestAfterCut<T>(isData: T -> bool, q: seq<T>, pushed: seq<T>, i: nat, f: T)
    requires i < |q| && isData(q[i])
    requires forall j :: 0 <= j < i ==> !isData(q[j])
    requires IsSuffix(Select(isData, q), Select(isData, pushed))
    ensures IsSuffix(Select(isData, q[..i] + q[i + 1..] + [f]), Select(isData, pushed + [f]))
  {
    var cut := q[..i] + q[i + 1..];
    assert q == (q[..i] + [q[i]]) + q[i + 1..];
    CutOldest(isData, q[..i], q[i], q[i + 1..]);
    SelectAppend(isData, pushed, f);
    SelectAppend(isData, cut, f);
    SuffixTail([q[i]], Select(isData, cut), Select(isData, pushed));
    SuffixAppend(Select(isData, cut), Select(isData, pushed), If(isData, f));
  }

  lemma {:induction false} SelectSome<T>(p: T -> bool, s: seq<T>, i: nat)
    requires i < |s| && p(s[i])
    ensures Select(p, s) != []
  {
    if i < |s| - 1 {
      SelectSome(p, s[..|s| - 1], i);
    }
  }

  /** The lane is full and holds data: its oldest data element makes room. */
  lemma CutKeepsFaithful<T>(isData: T -> bool, h: History<T>, i: nat, f: T)
    requires Faithful(isData, h)
    requires |h.q| >= AUDIO_CAP && i == FirstData(isData, h.q) < |h.q|
    ensures Faithful(isData, Apply(isData, h, Push(f)))
  {
    var h' := Apply(isData, h, Push(f));
    assert |h'.q| <= AUDIO_CAP by {
      SelectSome(isData, h.q, i);
      SelectCounts(isData, h.q);
    }
    ThinnedCut(isData, h, i, f);
    FreshestAfterCut(isData, h.q, h.pushed, i, f);
  }

  lemma PushKeepsFaithful<T>(isData: T -> bool, h: History<T>, f: T)
    requires Faithful(isData, h)
    ensures Faithful(isData, Apply(isData, h, Push(f)))
  {
    var q, i := h.q, FirstData(isData, h.q);
    if |q| < AUDIO_CAP || (i == |q| && !isData(f)) {
      AppendKeepsFaithful(isData, h, f);
    } else if i < |q| {
      CutKeepsFaithful(isData, h, i, f);
    } else {
      ThinnedSkip(isData, h.pushed, h.popped + q, f);
      SelectAppend(isData, h.pushed, f);
      SelectNone(isData, q);
      SelectCounts(isData, q);
    }
  }

  lemma PopKeepsFaithful<T>(isData: T -> bool, h: History<T>)
    requires Faithful(isData, h)
    ensures Faithful(isData, Apply(isData, h, Pop))
  {
    if h.q != [] {
      var rest := h.q[1..];
      assert h.popped + [h.q[0]] + rest == h.popped + h.q;
      assert h.q == [h.q[0]] + rest;
      SelectConcat(isData, [h.q[0]], rest);
      SelectConcat(Not(isData), [h.q[0]], rest);
      SelectCounts(isData, h.q);
    }
  }

  /** Refinement over every run: what was sent plus what is queued is what was
      pushed with only data left out, in order; every frame is accounted for;
      the queued data is always the freshest; and the length bound holds. */
  lemma {:induction false} RunFaithful<T>(isData: T -> bool, ops: seq<Op<T>>)
    ensures Faithful(isData, Run(isData, ops))
    ensures var h := Run(isData, ops);
            Select(Not(isData), h.popped) + Select(Not(isData), h.q) == Select(Not(isData), h.pushed)
  {
    var h := Run(isData, ops);
    if ops != [] {
      var before := Run(isData, ops[..|ops| - 1]);
      RunFaithful(isData, ops[..|ops| - 1]);
      match ops[|ops| - 1]
      case Push(f) => PushKeepsFaithful(isData, before, f);
      case Pop => PopKeepsFaithful(isData, before);
      case Clear =>
    }
    ThinnedControls(isData, h.pushed, h.popped + h.q);
    SelectConcat(Not(isData), h.popped, h.q);
  }
}
