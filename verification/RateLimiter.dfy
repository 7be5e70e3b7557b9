/** The sliding-window limit on inbound connections (internal/transport/transport.go).
    Times are nanoseconds; keys are addresses or device names. */
module RateLimiter {
  import opened Bytes

  const WINDOW := 30_000_000_000
  const MAX_PER_KEY := 5

  type Key = string

  // One key

  /** The times after the cutoff. */
  function Recent(ts: seq<int>, cutoff: int): (r: seq<int>)
    ensures |r| <= |ts|
  {
    if ts == [] then []
    else if ts[|ts| - 1] > cutoff then Recent(ts[..|ts| - 1], cutoff) + [ts[|ts| - 1]]
    else Recent(ts[..|ts| - 1], cutoff)
  }

  predicate Sorted(ts: seq<int>) {
    forall i, j :: 0 <= i < j < |ts| ==> ts[i] <= ts[j]
  }

  /** Keeps the times after the cutoff, in place, and returns how many they are. */
  method Prune(times: array<int>, len: nat, cutoff: int) returns (n: nat)
    requires len <= times.Length
    modifies times
    ensures n <= len && times[..n] == Recent(old(times[..len]), cutoff)
  {
    ghost var was := times[..];
    n := 0;
    var k := 0;
    while k < len
      invariant n <= k <= len
      invariant times[..n] == Recent(was[..k], cutoff)
      invariant forall j :: k <= j < times.Length ==> times[j] == was[j]
    {
      assert was[..k + 1][..k] == was[..k];
      ghost var kept := times[..n];
      if times[k] > cutoff {
        times[n] := times[k];
        n := n + 1;
        assert times[..n] == kept + [was[k]];
      }
      k := k + 1;
    }
    assert was[..len] == old(times[..len]);
  }

  // All keys

  function Stored(m: map<Key, seq<int>>, key: Key): seq<int> {
    if key in m then m[key] else []
  }

  predicate Full(ts: seq<int>, now: int) {
    |Recent(ts, now - WINDOW)| >= MAX_PER_KEY
  }

  function Admit(ts: seq<int>, now: int): seq<int> {
    if Full(ts, now) then Recent(ts, now - WINDOW) else Recent(ts, now - WINDOW) + [now]
  }

  predicate Refuses(m: map<Key, seq<int>>, key: Key, now: int) {
    Full(Stored(m, key), now)
  }

  function AfterAttempt(m: map<Key, seq<int>>, key: Key, now: int): map<Key, seq<int>> {
    m[key := Admit(Stored(m, key), now)]
  }

  function AfterClean(m: map<Key, seq<int>>, cutoff: int): map<Key, seq<int>> {
    map key | key in m && Recent(m[key], cutoff) != [] :: Recent(m[key], cutoff)
  }

  /** The times after the cutoff are those of the list that are, each of them, in order. */
  lemma {:induction false} RecentIs(ts: seq<int>, cutoff: int, x: int)
    ensures x in Recent(ts, cutoff) <==> x in ts && x > cutoff
    ensures multiset(Recent(ts, cutoff))[x] == if x > cutoff then multiset(ts)[x] else 0
  {
    if ts != [] {
      var n := |ts| - 1;
      RecentIs(ts[..n], cutoff, x);
      assert ts == ts[..n] + [ts[n]];
    }
  }

  /** A cleaning tick forgets exactly the keys without a time after the cutoff, and of the
      others everything before it, so the table holds only what still counts. */
  lemma CleanForgets(m: map<Key, seq<int>>, cutoff: int, key: Key, x: int)
    ensures var u := AfterClean(m, cutoff);
            && (key in u ==> u[key] != [] && key in m && (x in u[key] <==> x in m[key] && x > cutoff))
            && (key in m && x in m[key] && x > cutoff ==> key in u)
  {
    if key in m {
      RecentIs(m[key], cutoff, x);
    }
  }

  /** A slice: the first len elements of its array. */
  datatype Slice = Slice(data: array<int>, len: nat)

  ghost function Times(s: Slice): seq<int>
    requires s.len <= s.data.Length
    reads s.data
  {
    s.data[..s.len]
  }

  /** append(pruned, now): in place while there is room. */
  method Append(times: Slice, now: int) returns (t: Slice)
    requires times.len <= times.data.Length
    modifies times.data
    ensures t.len <= t.data.Length && Times(t) == old(Times(times)) + [now]
    ensures t.data == times.data || fresh(t.data)
  {
    var n := times.len;
    var data := times.data;
    if n == data.Length {
      data := new int[2 * n + 1](_ => 0);
      forall i | 0 <= i < n {
        data[i] := times.data[i];
      }
    }
    data[n] := now;
    assert data[..n] == old(Times(times));
    t := Slice(data, n + 1);
  }

  /** What one attempt does to the times of its key. */
  method Attempt(times: Slice, now: int) returns (limited: bool, t: Slice)
    requires times.len <= times.data.Length
    modifies times.data
    ensures limited <==> Full(old(Times(times)), now)
    ensures t.len <= t.data.Length && (t.data == times.data || fresh(t.data))
    ensures Times(t) == Admit(old(Times(times)), now)
  {
    hide Recent;
    var n := Prune(times.data, times.len, now - WINDOW);
    t := Slice(times.data, n);
    limited := n >= MAX_PER_KEY;
    if !limited {
      t := Append(t, now);
    }
  }

  class Limiter {
    var conns: map<Key, Slice>

    ghost function Arrays(): set<object>
      reads this
    {
      set key | key in conns :: conns[key].data
    }

    ghost predicate Valid()
      reads this
    {
      && (forall key :: key in conns ==> conns[key].len <= conns[key].data.Length)
      && forall a, b :: a in conns && b in conns && a != b ==> conns[a].data != conns[b].data
    }

    ghost function View(): map<Key, seq<int>>
      requires Valid()
      reads this, Arrays()
    {
      map key | key in conns :: Times(conns[key])
    }

    constructor ()
      ensures Valid() && conns == map[] && View() == map[]
    {
      conns := map[];
    }

    predicate Separate(key: Key, times: Slice)
      reads this
    {
      forall k :: k in conns && k != key ==> conns[k].data != times.data
    }

    /** rateConns[key] = times */
    method Store(key: Key, times: Slice)
      requires Valid() && times.len <= times.data.Length && Separate(key, times)
      modifies this
      ensures Valid() && Arrays() <= old(Arrays()) + {times.data} && conns.Keys == old(conns.Keys) + {key}
      ensures View() == old(View())[key := Times(times)]
    {
      conns := conns[key := times];
    }

    /** connRateLimited: whether the attempt is refused; an admitted one is recorded. */
    method ConnRateLimited(key: Key, now: int) returns (limited: bool)
      requires Valid()
      modifies this, Arrays()
      ensures Valid() && fresh(Arrays() - old(Arrays()))
      ensures limited <==> Refuses(old(View()), key, now)
      ensures View() == AfterAttempt(old(View()), key, now)
    {
      hide Admit;
      hide Full;
      ghost var was := View();
      var times;
      if key in conns {
        times := conns[key];
      } else {
        var empty := new int[0];
        times := Slice(empty, 0);
      }
      assert Times(times) == Stored(was, key);
      limited, times := Attempt(times, now);
      assert forall k :: k in conns && k != key ==> View()[k] == was[k];
      SameExcept(was, View(), key, Times(times));
      Store(key, times);
    }

    /** What cleanRateLimit does to one key. */
    method CleanKey(key: Key, cutoff: int)
      requires Valid() && key in conns
      modifies this, conns[key].data
      ensures Valid() && Arrays() <= old(Arrays()) && old(conns.Keys) - {key} <= conns.Keys
      ensures View() == CleanedKey(old(View()), key, cutoff)
    {
      hide Recent;
      ghost var was := View();
      var times := conns[key];
      var n := Prune(times.data, times.len, cutoff);
      if n == 0 {
        conns := conns - {key};
      } else {
        assert forall k :: k in conns && k != key ==> View()[k] == was[k];
        SameExcept(was, View(), key, times.data[..n]);
        Store(key, Slice(times.data, n));
      }
    }

    /** One tick of cleanRateLimit. */
    method Clean(cutoff: int)
      requires Valid()
      modifies this, Arrays()
      ensures Valid() && Arrays() <= old(Arrays())
      ensures View() == AfterClean(old(View()), cutoff)
    {
      ghost var was := View();
      ghost var arrays := Arrays();
      var todo := conns.Keys;
      assert todo == was.Keys;
      hide View;
      hide CleanedKey;
      hide PartlyCleaned;
      NothingCleaned(was, cutoff);
      while todo != {}
        invariant Valid() && Arrays() <= arrays && todo <= conns.Keys
        invariant PartlyCleaned(was, View(), todo, cutoff)
      {
        var key :| key in todo;
        OneMoreCleaned(was, View(), todo, key, cutoff);
        CleanKey(key, cutoff);
        todo := todo - {key};
      }
      AllCleaned(was, View(), cutoff);
    }
  }

  lemma SameExcept<K, V>(a: map<K, V>, b: map<K, V>, key: K, v: V)
    requires a.Keys - {key} == b.Keys - {key} && forall k :: k in a && k in b && k != key ==> a[k] == b[k]
    ensures a[key := v] == b[key := v]
  {
    forall k
      ensures k != key ==> (k in a <==> k in b)
    {
      assert k in a.Keys - {key} <==> k in b.Keys - {key};
    }
  }

  function CleanedKey(m: map<Key, seq<int>>, key: Key, cutoff: int): map<Key, seq<int>>
    requires key in m
  {
    if Recent(m[key], cutoff) == [] then m - {key} else m[key := Recent(m[key], cutoff)]
  }

  /** The keys not in todo have been cleaned, the others are as they were. */
  ghost predicate PartlyCleaned(was: map<Key, seq<int>>, m: map<Key, seq<int>>, todo: set<Key>, cutoff: int) {
    && m.Keys <= was.Keys && todo <= m.Keys
    && (forall key :: key in todo ==> m[key] == was[key])
    && forall key :: key in was && key !in todo ==>
         if Recent(was[key], cutoff) == [] then key !in m else key in m && m[key] == Recent(was[key], cutoff)
  }

  lemma NothingCleaned(m: map<Key, seq<int>>, cutoff: int)
    ensures PartlyCleaned(m, m, m.Keys, cutoff)
  {
  }

  lemma OneMoreCleaned(was: map<Key, seq<int>>, m: map<Key, seq<int>>, todo: set<Key>, key: Key, cutoff: int)
    requires PartlyCleaned(was, m, todo, cutoff) && key in todo
    ensures key in m && PartlyCleaned(was, CleanedKey(m, key, cutoff), todo - {key}, cutoff)
  {
    hide Recent;
  }

  lemma AllCleaned(was: map<Key, seq<int>>, m: map<Key, seq<int>>, cutoff: int)
    requires PartlyCleaned(was, m, {}, cutoff)
    ensures m == AfterClean(was, cutoff)
  {
    hide Recent;
  }

  // Runs

  datatype Event = Attempting(key: Key, now: int) | Cleaning(now: int)

  function After(events: seq<Event>): map<Key, seq<int>> {
    if events == [] then map[]
    else
      var m := After(events[..|events| - 1]);
      match events[|events| - 1]
      case Attempting(key, now) => AfterAttempt(m, key, now)
      case Cleaning(now) => AfterClean(m, now - WINDOW)
  }

  /** When connections of this key were admitted, the whole run over. */
  function Admitted(events: seq<Event>, key: Key): seq<int> {
    if events == [] then []
    else
      var before := events[..|events| - 1];
      var e := events[|events| - 1];
      Admitted(before, key) +
      (if e.Attempting? && e.key == key && !Refuses(After(before), key, e.now) then [e.now] else [])
  }

  /** The clock never goes back. */
  predicate Forward(events: seq<Event>) {
    forall i, j :: 0 <= i < j < |events| ==> events[i].now <= events[j].now
  }

  lemma RecentSnoc(ts: seq<int>, x: int, cutoff: int)
    ensures Recent(ts + [x], cutoff) == if x > cutoff then Recent(ts, cutoff) + [x] else Recent(ts, cutoff)
  {
    assert (ts + [x])[..|ts|] == ts;
  }

  lemma {:induction false} RecentTwice(ts: seq<int>, a: int, b: int)
    requires a <= b
    ensures Recent(Recent(ts, a), b) == Recent(ts, b)
  {
    if ts != [] {
      var n := |ts| - 1;
      RecentTwice(ts[..n], a, b);
      RecentSnoc(Recent(ts[..n], a), ts[n], b);
    }
  }

  /** Stored times stand for a history as far as the cutoff goes. */
  predicate Stands(stored: seq<int>, h: seq<int>, cutoff: int) {
    Recent(stored, cutoff) == Recent(h, cutoff)
  }

  lemma PrunedStands(stored: seq<int>, h: seq<int>, a: int, b: int)
    requires a <= b && Stands(stored, h, b)
    ensures Stands(Recent(stored, a), h, b)
  {
    RecentTwice(stored, a, b);
  }

  lemma ExtendedStands(stored: seq<int>, h: seq<int>, x: int, cutoff: int)
    requires Stands(stored, h, cutoff)
    ensures Stands(stored + [x], h + [x], cutoff)
  {
    RecentSnoc(stored, x, cutoff);
    RecentSnoc(h, x, cutoff);
  }

  lemma ForwardPart(events: seq<Event>)
    requires events != [] && Forward(events)
    ensures Forward(events[..|events| - 1])
  {
  }

  /** The stored times are exactly the recent part of the true history, for the present
      and every later moment: what was forgotten no longer matters. */
  lemma {:induction false} StoredIsRecent(events: seq<Event>, key: Key, now: int)
    requires Forward(events) && forall i :: 0 <= i < |events| ==> events[i].now <= now
    ensures Stands(Stored(After(events), key), Admitted(events, key), now - WINDOW)
  {
    hide Recent;
    hide Stands;
    if events == [] {
      NothingStored(now - WINDOW);
    } else {
      var n := |events| - 1;
      var before, e := events[..n], events[n];
      ForwardPart(events);
      StoredIsRecent(before, key, now);
      var ts, h := Stored(After(before), key), Admitted(before, key);
      PrunedStands(ts, h, e.now - WINDOW, now - WINDOW);
      assert h + [] == h;
      if e.Attempting? && e.key == key {
        ExtendedStands(Recent(ts, e.now - WINDOW), h, e.now, now - WINDOW);
      }
    }
  }

  lemma NothingStored(cutoff: int)
    ensures Stands([], [], cutoff)
  {
  }

  lemma {:induction false} AdmittedSorted(events: seq<Event>, key: Key, now: int)
    requires Forward(events) && forall i :: 0 <= i < |events| ==> events[i].now <= now
    ensures Sorted(Admitted(events, key)) && forall i :: 0 <= i < |Admitted(events, key)| ==> Admitted(events, key)[i] <= now
  {
    hide Refuses;
    if events != [] {
      var n := |events| - 1;
      ForwardPart(events);
      AdmittedSorted(events[..n], key, events[n].now);
    }
  }

  lemma SuffixSnoc(ts: seq<int>, k: nat)
    requires k < |ts|
    ensures ts[..|ts| - 1][k..] + [ts[|ts| - 1]] == ts[k..]
  {
  }

  lemma PrefixOfPrefix(ts: seq<int>, n: nat, m: nat)
    requires m <= n <= |ts|
    ensures ts[..n][..m] == ts[..m]
  {
  }

  lemma LastIsLargest(ts: seq<int>, k: nat)
    requires Sorted(ts) && k < |ts|
    ensures ts[k] <= ts[|ts| - 1]
    ensures forall i :: 0 <= i < |ts| ==> ts[i] <= ts[|ts| - 1]
  {
  }

  /** With the last one not after the cutoff, none is. */
  lemma SortedEnd(ts: seq<int>, k: nat, cutoff: int)
    requires Sorted(ts) && k < |ts| && ts[|ts| - 1] <= cutoff
    requires forall i :: 0 <= i < |ts| - 1 ==> (i < k <==> ts[i] <= cutoff)
    ensures k == |ts| - 1 && ts[..|ts| - 1][k..] == [] && ts[|ts|..] == []
    ensures forall i :: 0 <= i < |ts| ==> ts[i] <= cutoff
  {
    LastIsLargest(ts, k);
  }

  lemma SortedStart(ts: seq<int>, m: nat, to: int)
    requires Sorted(ts) && m < |ts| && ts[|ts| - 1] <= to
    requires forall i :: 0 <= i < |ts| - 1 ==> (i < m <==> ts[i] <= to)
    ensures m == |ts| - 1 && ts[..|ts| - 1][..m] + [ts[|ts| - 1]] == ts[..|ts|]
    ensures forall i :: 0 <= i < |ts| ==> ts[i] <= to
  {
    LastIsLargest(ts, m);
  }

  /** In a sorted list the recent part is a suffix. */
  lemma {:induction false} RecentIsSuffix(ts: seq<int>, cutoff: int) returns (k: nat)
    requires Sorted(ts)
    ensures k <= |ts| && Recent(ts, cutoff) == ts[k..]
    ensures forall i :: 0 <= i < |ts| ==> (i < k <==> ts[i] <= cutoff)
  {
    if ts == [] {
      k := 0;
    } else {
      var n := |ts| - 1;
      k := RecentIsSuffix(ts[..n], cutoff);
      assert forall i :: 0 <= i < n ==> ts[..n][i] == ts[i];
      if ts[n] > cutoff {
        SuffixSnoc(ts, k);
      } else {
        SortedEnd(ts, k, cutoff);
        k := n + 1;
      }
    }
  }

  /** A connection is refused if and only if five were admitted for its key in the thirty
      seconds that end with it, counted over the true history. */
  lemma RefusedIff(events: seq<Event>, key: Key, now: int)
    requires Forward(events) && forall i :: 0 <= i < |events| ==> events[i].now <= now
    ensures var h := Admitted(events, key);
            Refuses(After(events), key, now) <==> |h| >= 5 && h[|h| - 5] > now - 30_000_000_000
  {
    hide Recent;
    hide After;
    hide Admitted;
    StoredIsRecent(events, key, now);
    AdmittedSorted(events, key, now);
    var k := RecentIsSuffix(Admitted(events, key), now - WINDOW);
  }

  /** Any six admissions in a row of one key span at least the window. */
  lemma {:induction false} SixSpanWindow(events: seq<Event>, key: Key, i: nat)
    requires Forward(events) && i + MAX_PER_KEY < |Admitted(events, key)|
    ensures Admitted(events, key)[i + MAX_PER_KEY] - Admitted(events, key)[i] >= WINDOW
  {
    hide Refuses;
    var n := |events| - 1;
    var before, e := events[..n], events[n];
    ForwardPart(events);
    if i + MAX_PER_KEY < |Admitted(before, key)| {
      SixSpanWindow(before, key, i);
    } else {
      RefusedIff(before, key, e.now);
    }
  }

  /** The times up to and including `to`. */
  function Upto(ts: seq<int>, to: int): seq<int> {
    if ts == [] then []
    else if ts[|ts| - 1] <= to then Upto(ts[..|ts| - 1], to) + [ts[|ts| - 1]]
    else Upto(ts[..|ts| - 1], to)
  }

  lemma UptoLast(ts: seq<int>, to: int)
    requires ts != []
    ensures var n := |ts| - 1;
            Upto(ts, to) == if ts[n] <= to then Upto(ts[..n], to) + [ts[n]] else Upto(ts[..n], to)
  {
  }

  lemma {:induction false} UptoIsPrefix(ts: seq<int>, to: int) returns (m: nat)
    requires Sorted(ts)
    ensures m <= |ts| && Upto(ts, to) == ts[..m]
    ensures forall i :: 0 <= i < |ts| ==> (i < m <==> ts[i] <= to)
  {
    if ts == [] {
      m := 0;
    } else {
      var n := |ts| - 1;
      m := UptoIsPrefix(ts[..n], to);
      UptoLast(ts, to);
      hide Upto;
      assert forall i :: 0 <= i < n ==> ts[..n][i] == ts[i];
      if ts[n] <= to {
        SortedStart(ts, m, to);
        m := n + 1;
      } else {
        PrefixOfPrefix(ts, n, m);
      }
    }
  }

  /** At most five admissions per key in any window of thirty seconds, over the whole run
      and wherever cleaning falls. */
  lemma AtMostFive(events: seq<Event>, key: Key, from: int)
    requires Forward(events)
    ensures |Recent(Upto(Admitted(events, key), from + WINDOW), from)| <= MAX_PER_KEY
  {
    hide Recent;
    hide Upto;
    hide Admitted;
    var h := Admitted(events, key);
    AdmittedSorted(events, key, if events == [] then 0 else events[|events| - 1].now);
    var m := UptoIsPrefix(h, from + WINDOW);
    var k := RecentIsSuffix(h[..m], from);
    assert m > 0 ==> h[m - 1] <= from + WINDOW;
    assert m - k > MAX_PER_KEY ==> h[..m][m - 1 - MAX_PER_KEY] > from;
    if m - k > MAX_PER_KEY {
      SixSpanWindow(events, key, m - 1 - MAX_PER_KEY);
    }
  }
}
