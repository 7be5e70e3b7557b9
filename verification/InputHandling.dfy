/** What each handler of remote input does when nothing cuts in (internal/app/app_frames.go,
    app_lifecycle.go), and what can put a key down or let it up at all. */
module InputHandling {
  import opened Bytes
  import opened Options
  import opened RemoteInput

  // What is down

  /** Two messages mean the same key exactly if they agree in virtual key and scan code, as far
      as the injection takes them, and in the extended flag; keys are never taken for buttons. */
  lemma SameKey(a: KeyMsg, b: KeyMsg, x: Byte, y: Byte)
    ensures PhysOf(Key(a)) == PhysOf(Key(b)) <==>
            a.vk % 0x1_0000 == b.vk % 0x1_0000 && a.scan % 0x1_0000 == b.scan % 0x1_0000 && a.flags % 2 == b.flags % 2
    ensures PhysOf(Key(a)) != PhysOf(Button(x)) && (PhysOf(Button(x)) == PhysOf(Button(y)) <==> x == y)
    ensures Trackable(Key(a)) && (Trackable(Button(x)) <==> x in {0, 1, 2})
  {
  }

  /** The step presses p on this machine. */
  predicate Presses(s: State, l: Label, p: Phys) {
    l.e.Injects? && l.tid < |s.pcs| && s.pcs[l.tid].Recorded? && s.pcs[l.tid].down
    && Trackable(s.pcs[l.tid].item) && PhysOf(s.pcs[l.tid].item) == p
  }

  /** The step lets p up: an injected up, an up of a release, or a modifier-up. */
  predicate LetsUp(s: State, l: Label, p: Phys) {
    || (l.e.Injects? && l.tid < |s.pcs| && s.pcs[l.tid].Recorded? && !s.pcs[l.tid].down
        && Trackable(s.pcs[l.tid].item) && PhysOf(s.pcs[l.tid].item) == p)
    || (l.e.InjectsUp? && Trackable(l.e.item) && PhysOf(l.e.item) == p)
    || (l.e.UpsDone? && p in l.e.modifiers)
  }

  /** A key or button is down after a step exactly if the step pressed it, or it was down and
      the step did not let it up. */
  lemma DownAfter(s: State, l: Label, u: State, p: Phys)
    requires IsStep(s, l, u)
    ensures p in u.held <==> Presses(s, l, p) || (p in s.held && !LetsUp(s, l, p))
  {
    match l.e
    case Injects => InjectedAfter(s, l, u, p);
    case InjectsUp(_) => ReleasedAfter(s, l, u, p);
    case UpsDone(_) => ReleasedAfter(s, l, u, p);
    case _ =>
      hide AfterRecord;
      hide TouchWatchdog;
      hide PhysOf;
      hide Admit;
      hide Noted;
  }

  lemma ReleasedAfter(s: State, l: Label, u: State, p: Phys)
    requires IsStep(s, l, u) && (l.e.InjectsUp? || l.e.UpsDone?)
    ensures p in u.held <==> Presses(s, l, p) || (p in s.held && !LetsUp(s, l, p))
  {
    hide PhysOf;
  }

  lemma InjectedAfter(s: State, l: Label, u: State, p: Phys)
    requires IsStep(s, l, u) && l.e.Injects?
    ensures p in u.held <==> Presses(s, l, p) || (p in s.held && !LetsUp(s, l, p))
  {
    hide PhysOf;
  }

  predicate PressedAt(states: seq<State>, labels: seq<Label>, j: nat, k: nat, p: Phys)
    requires |states| > |labels| >= k > j
  {
    Presses(states[j], labels[j], p) && forall m :: j < m < k ==> !LetsUp(states[m], labels[m], p)
  }

  /** So in every run: what is down now was pressed at some step, and not let up since. */
  lemma {:induction false} DownSince(states: seq<State>, labels: seq<Label>, k: nat, p: Phys)
    requires IsRun(states, labels) && k < |states|
    ensures p in states[k].held <==> exists j :: 0 <= j < k && PressedAt(states, labels, j, k, p)
  {
    if k > 0 {
      var n := k - 1;
      DownSince(states, labels, n, p);
      assert IsStep(states[n], labels[n], states[k]);
      DownAfter(states[n], labels[n], states[k], p);
      hide IsRun;
      hide IsStep;
      PressedLonger(states, labels, n, k, p);
    }
  }

  lemma PressedLonger(states: seq<State>, labels: seq<Label>, n: nat, k: nat, p: Phys)
    requires |states| > |labels| >= k == n + 1
    ensures (exists j :: 0 <= j < k && PressedAt(states, labels, j, k, p)) <==>
            || Presses(states[n], labels[n], p)
            || (!LetsUp(states[n], labels[n], p) && exists j :: 0 <= j < n && PressedAt(states, labels, j, n, p))
  {
    hide Presses;
    hide LetsUp;
    if j :| 0 <= j < k && PressedAt(states, labels, j, k, p) {
      if j < n {
        assert !LetsUp(states[n], labels[n], p);
        assert PressedAt(states, labels, j, n, p);
      }
    }
    if Presses(states[n], labels[n], p) {
      assert PressedAt(states, labels, n, k, p);
    }
    if j :| 0 <= j < n && PressedAt(states, labels, j, n, p) && !LetsUp(states[n], labels[n], p) {
      assert PressedAt(states, labels, j, k, p);
    }
  }

  // One handler at a time

  /** The steps with these events of thread tid can be taken from s, and end in u. */
  ghost predicate Leads(s: State, tid: nat, events: seq<Event>, u: State)
    decreases |events|
  {
    if events == [] then u == s
    else Enabled(s, tid, events[0]) && Leads(Next(s, tid, events[0]), tid, events[1..], u)
  }

  lemma Onwards(s: State, tid: nat, e: Event, rest: seq<Event>, u: State)
    requires Enabled(s, tid, e) && Leads(Next(s, tid, e), tid, rest, u)
    ensures Leads(s, tid, [e] + rest, u)
  {
    assert ([e] + rest)[1..] == rest;
  }

  predicate Free(s: State, tid: nat) {
    s.mu == None && tid < |s.pcs| && s.pcs[tid] == Idle
  }

  function Handles(item: RemoteInput.Item, down: bool, now: int): seq<Event> {
    [Arrives(item, down), Acquires] + [Records, Injects] + [Touches(now), Unlocks]
  }

  lemma TwoSteps(s: State, tid: nat, e: Event, e': Event, rest: seq<Event>, u: State)
    requires Enabled(s, tid, e) && Enabled(Next(s, tid, e), tid, e') && Leads(Next(Next(s, tid, e), tid, e'), tid, rest, u)
    ensures Leads(s, tid, [e, e'] + rest, u)
  {
    hide Next;
    hide Enabled;
    Onwards(Next(s, tid, e), tid, e', rest, u);
    Onwards(s, tid, e, [e'] + rest, u);
    assert [e] + ([e'] + rest) == [e, e'] + rest;
  }

  /** The message is let in and gets the lock. */
  lemma Enters(s: State, tid: nat, item: RemoteInput.Item, down: bool)
    requires Free(s, tid) && !Refused(s)
    ensures Enabled(s, tid, Arrives(item, down)) && Enabled(Next(s, tid, Arrives(item, down)), tid, Acquires)
    ensures Next(Next(s, tid, Arrives(item, down)), tid, Acquires) == Goto(Noted(s).(mu := Some(tid)), tid, Locked(item, down))
  {
  }

  /** It is recorded and injected. */
  lemma Works(s: State, tid: nat, item: RemoteInput.Item, down: bool)
    requires tid < |s.pcs| && s.pcs[tid] == Locked(item, down) && Trackable(item)
    ensures Enabled(s, tid, Records) && Enabled(Next(s, tid, Records), tid, Injects)
    ensures Next(Next(s, tid, Records), tid, Injects)
         == Goto(s.(tracked := if down then s.tracked + {item} else s.tracked - {item},
                    held := if down then s.held + {PhysOf(item)} else s.held - {PhysOf(item)}), tid, Injected)
  {
  }

  /** The watchdog is set and the lock given up. */
  lemma Leaves(s: State, tid: nat, now: int)
    requires tid < |s.pcs| && s.pcs[tid] == Injected
    ensures Enabled(s, tid, Touches(now)) && Enabled(Next(s, tid, Touches(now)), tid, Unlocks)
    ensures Next(Next(s, tid, Touches(now)), tid, Unlocks)
         == Goto(s.(active := s.tracked != {}, armed := s.tracked != {}, mu := None,
                    deadline := if s.tracked == {} then None else Some(now + 2_000_000_000)), tid, Idle)
  {
  }

  /** A key or button message that is let in: tracked and down, or untracked and up; the
      machine is under control; and the watchdog has two seconds from now exactly if
      anything is tracked. */
  lemma InputAlone(s: State, tid: nat, item: RemoteInput.Item, down: bool, now: int) returns (u: State)
    requires Free(s, tid) && !Refused(s) && Trackable(item)
    ensures Leads(s, tid, Handles(item, down, now), u) && Free(u, tid) && u.pcs == s.pcs
    ensures u.tracked == (if down then s.tracked + {item} else s.tracked - {item})
    ensures u.held == (if down then s.held + {PhysOf(item)} else s.held - {PhysOf(item)})
    ensures u.peerActive && (s.peerActive ==> u.requiresWake == s.requiresWake)
    ensures u.active == u.armed == (u.tracked != {})
    ensures u.deadline == if u.tracked == {} then None else Some(now + 2_000_000_000)
  {
    Enters(s, tid, item, down);
    var s2 := Next(Next(s, tid, Arrives(item, down)), tid, Acquires);
    Works(s2, tid, item, down);
    var s4 := Next(Next(s2, tid, Records), tid, Injects);
    Leaves(s4, tid, now);
    u := Next(Next(s4, tid, Touches(now)), tid, Unlocks);
    assert u.pcs == s.pcs;
    hide Next;
    hide Enabled;
    TwoSteps(s4, tid, Touches(now), Unlocks, [], u);
    assert [Touches(now), Unlocks] + [] == [Touches(now), Unlocks];
    TwoSteps(s2, tid, Records, Injects, [Touches(now), Unlocks], u);
    TwoSteps(s, tid, Arrives(item, down), Acquires, [Records, Injects] + [Touches(now), Unlocks], u);
    assert [Arrives(item, down), Acquires] + ([Records, Injects] + [Touches(now), Unlocks]) == Handles(item, down, now);
  }

  /** After a pause no input gets in, of whatever kind. */
  lemma RefusedAlone(s: State, tid: nat, e: Event)
    requires Free(s, tid) && s.requiresWake && !s.peerActive && IsInput(e)
    ensures Enabled(s, tid, e) && Next(s, tid, e) == s
  {
  }

  /** A move while something is tracked pushes the deadline on. */
  lemma MoveAlone(s: State, tid: nat, now: int) returns (u: State)
    requires Free(s, tid) && !Refused(s) && s.active && s.tracked != {}
    ensures Leads(s, tid, [ArrivesMove, ReadsFlag] + [Touches(now)], u) && u.pcs == s.pcs
    ensures u.deadline == Some(now + 2_000_000_000) && u.armed && u.tracked == s.tracked && u.held == s.held
  {
    var s1 := Next(s, tid, ArrivesMove);
    var s2 := Next(s1, tid, ReadsFlag);
    u := Next(s2, tid, Touches(now));
    assert u.pcs == s.pcs;
    Onwards(s2, tid, Touches(now), [], u);
    assert [Touches(now)] + [] == [Touches(now)];
    TwoSteps(s, tid, ArrivesMove, ReadsFlag, [Touches(now)], u);
  }

  // A release

  /** The ups of a release, one by one. */
  lemma {:induction false} UpsAlone(s: State, tid: nat) returns (events: seq<Event>, u: State)
    requires Inv(s) && tid < |s.pcs| && s.pcs[tid].Ups?
    ensures Leads(s, tid, events, u) && |events| == |s.pcs[tid].rest|
    ensures Inv(u) && u == s.(held := u.held, pcs := s.pcs[tid := Ups({}, s.pcs[tid].next)])
    decreases |s.pcs[tid].rest|
  {
    var rest := s.pcs[tid].rest;
    if rest == {} {
      events, u := [], s;
      assert s.pcs[tid := Ups({}, s.pcs[tid].next)] == s.pcs;
    } else {
      var i :| i in rest;
      var s1 := Next(s, tid, InjectsUp(i));
      StepKeeps(s, tid, InjectsUp(i));
      assert |rest - {i}| == |rest| - 1;
      events, u := UpsAlone(s1, tid);
      hide Inv;
      Onwards(s, tid, InjectsUp(i), events, u);
      events := [InjectsUp(i)] + events;
    }
  }

  /** After its ups a release clears the fast-path flag and gives up the lock. */
  lemma LowersAlone(s: State, tid: nat, modifiers: set<Phys>) returns (u: State)
    requires Inv(s) && tid < |s.pcs| && s.pcs[tid].Ups? && s.pcs[tid].rest == {}
    ensures var next := s.pcs[tid].next;
            && Leads(s, tid, [UpsDone(modifiers), Lowers] + [Unlocks], u)
            && u == s.(held := {}, active := false, mu := None, pcs := s.pcs[tid := if next == Nothing then Idle else Flagging(next)])
            && s.held == {} && s.tracked == {}
  {
    assert OnlyHolder(s, tid);
    var s1 := Next(s, tid, UpsDone(modifiers));
    var s2 := Next(s1, tid, Lowers);
    u := Next(s2, tid, Unlocks);
    assert s.held == {};
    hide Inv;
    Onwards(s2, tid, Unlocks, [], u);
    assert [Unlocks] + [] == [Unlocks];
    TwoSteps(s, tid, UpsDone(modifiers), Lowers, [Unlocks], u);
  }

  lemma {:induction false} LeadsConcat(s: State, tid: nat, a: seq<Event>, u: State, b: seq<Event>, v: State)
    requires Leads(s, tid, a, u) && Leads(u, tid, b, v)
    ensures Leads(s, tid, a + b, v)
    decreases |a|
  {
    hide Next;
    hide Enabled;
    if a == [] {
      assert a + b == b;
    } else {
      LeadsConcat(Next(s, tid, a[0]), tid, a[1..], u, b, v);
      assert (a + b)[1..] == a[1..] + b;
    }
  }

  /** From the clearing on: every tracked key and button is let up, nothing stays tracked or
      down, the deadline and the timer are off, and the lock is free again. */
  lemma ClearsAlone(s: State, tid: nat, modifiers: set<Phys>) returns (events: seq<Event>, u: State)
    requires Inv(s) && tid < |s.pcs| && s.pcs[tid].Clearing?
    ensures Leads(s, tid, events, u)
    ensures var next := s.pcs[tid].next;
            u == s.(held := {}, tracked := {}, active := false, deadline := None, armed := false, mu := None,
                    pcs := s.pcs[tid := if next == Nothing then Idle else Flagging(next)])
  {
    var s1 := Next(s, tid, Clears);
    StepKeeps(s, tid, Clears);
    var ups, s2 := UpsAlone(s1, tid);
    u := LowersAlone(s2, tid, modifiers);
    hide Inv;
    hide Next;
    hide Enabled;
    LeadsConcat(s1, tid, ups, s2, [UpsDone(modifiers), Lowers] + [Unlocks], u);
    events := [Clears] + (ups + ([UpsDone(modifiers), Lowers] + [Unlocks]));
    assert u.pcs == s.pcs[tid := u.pcs[tid]];
  }

  lemma Asks(s: State, tid: nat, next: AfterRelease) returns (u: State)
    requires Inv(s) && Free(s, tid)
    ensures Enabled(s, tid, AsksRelease(next)) && Enabled(Next(s, tid, AsksRelease(next)), tid, Acquires)
    ensures u == Next(Next(s, tid, AsksRelease(next)), tid, Acquires) == Goto(s.(mu := Some(tid)), tid, Clearing(next))
    ensures Inv(u)
  {
    var s1 := Next(s, tid, AsksRelease(next));
    StepKeeps(s, tid, AsksRelease(next));
    u := Next(s1, tid, Acquires);
    StepKeeps(s1, tid, Acquires);
    hide Inv;
    assert u.pcs == s.pcs[tid := Clearing(next)];
  }

  /** A release that is asked for: all is let up, and the peer's control is paused, reset or
      left as it was. */
  lemma ReleaseAlone(s: State, tid: nat, next: AfterRelease, modifiers: set<Phys>) returns (events: seq<Event>, u: State)
    requires Inv(s) && Free(s, tid)
    ensures Leads(s, tid, events, u) && u.pcs == s.pcs
    ensures u.held == {} && u.tracked == {} && !u.active && u.deadline == None && !u.armed && u.mu == None
    ensures (u.peerActive, u.requiresWake) == match next
              case Nothing => (s.peerActive, s.requiresWake)
              case ThenPause => (false, true)
              case ThenReset => (false, false)
  {
    var s2 := Asks(s, tid, next);
    var s3;
    events, s3 := ClearsAlone(s2, tid, modifiers);
    hide Inv;
    if next == Nothing {
      u := s3;
    } else {
      u := Next(s3, tid, Flags);
      Onwards(s3, tid, Flags, [], u);
      assert [Flags] + [] == [Flags];
      LeadsConcat(s2, tid, events, s3, [Flags], u);
      events := events + [Flags];
    }
    assert u.pcs == s.pcs;
    TwoSteps(s, tid, AsksRelease(next), Acquires, events, u);
    events := [AsksRelease(next), Acquires] + events;
  }

  /** The wake signal is always let in: it ends a pause, and lets everything up. */
  lemma WakeAlone(s: State, tid: nat, modifiers: set<Phys>) returns (events: seq<Event>, u: State)
    requires Inv(s) && Free(s, tid)
    ensures Leads(s, tid, events, u) && events != [] && events[0] == ArrivesWake && u.pcs == s.pcs
    ensures u.peerActive && !u.requiresWake && u.held == {} && u.tracked == {}
  {
    var s1 := Next(s, tid, ArrivesWake);
    StepKeeps(s, tid, ArrivesWake);
    assert s1 == Goto(s.(peerActive := true, requiresWake := false), tid, WantRelease(Nothing));
    var s2 := Next(s1, tid, Acquires);
    StepKeeps(s1, tid, Acquires);
    assert s2 == Goto(s.(peerActive := true, requiresWake := false, mu := Some(tid)), tid, Clearing(Nothing));
    events, u := ClearsAlone(s2, tid, modifiers);
    hide Inv;
    assert u.pcs == s.pcs;
    TwoSteps(s, tid, ArrivesWake, Acquires, events, u);
    events := [ArrivesWake, Acquires] + events;
  }

  /** A new edge configuration ends a pause too: whatever arrives next is let in. */
  lemma ConfigureAlone(s: State, tid: nat, e: Event)
    requires Inv(s) && Free(s, tid) && IsInput(e)
    ensures Enabled(s, tid, Configures)
    ensures var u := Next(s, tid, Configures);
            && u == s.(requiresWake := false) && Enabled(u, tid, e)
            && Next(u, tid, e).peerActive && Next(u, tid, e).pcs[tid] != Idle
  {
    FlagsAgree(s);
    hide Inv;
  }

  // The watchdog

  /** Before the deadline the watchdog only sets its timer again. */
  lemma WatchdogWaits(s: State, tid: nat, now: int)
    requires tid < |s.pcs| && s.pcs[tid] == Fired && s.tracked != {} && s.deadline.Some? && now < s.deadline.value
    ensures Enabled(s, tid, FirstCheck(now)) && Next(s, tid, FirstCheck(now)) == Goto(s.(armed := true), tid, Idle)
  {
  }

  lemma ChecksOnce(s: State, tid: nat, now: int) returns (u: State)
    requires Inv(s) && s.mu == None && tid < |s.pcs| && s.pcs[tid] == Fired
    requires s.tracked != {} && s.deadline.Some? && s.deadline.value <= now
    ensures Enabled(s, tid, FirstCheck(now)) && Enabled(Next(s, tid, FirstCheck(now)), tid, Acquires)
    ensures u == Next(Next(s, tid, FirstCheck(now)), tid, Acquires) == Goto(s.(mu := Some(tid)), tid, Rechecking)
    ensures Inv(u)
  {
    var s1 := Next(s, tid, FirstCheck(now));
    StepKeeps(s, tid, FirstCheck(now));
    u := Next(s1, tid, Acquires);
    StepKeeps(s1, tid, Acquires);
    hide Inv;
    assert u.pcs == s.pcs[tid := Rechecking];
  }

  /** Past the deadline, with the lock free and no touch in between, it lets everything up. */
  lemma WatchdogReleases(s: State, tid: nat, now: int, later: int, modifiers: set<Phys>) returns (events: seq<Event>, u: State)
    requires Inv(s) && s.mu == None && tid < |s.pcs| && s.pcs[tid] == Fired
    requires s.tracked != {} && s.deadline.Some? && s.deadline.value <= now <= later
    ensures Leads(s, tid, events, u) && u.pcs == s.pcs[tid := Idle]
    ensures u.held == {} && u.tracked == {} && !u.active && u.deadline == None && !u.armed && u.mu == None
  {
    var s2 := ChecksOnce(s, tid, now);
    StepKeeps(s2, tid, SecondCheck(later));
    var s3 := Next(s2, tid, SecondCheck(later));
    assert s3 == Goto(s.(mu := Some(tid)), tid, Clearing(Nothing));
    events, u := ClearsAlone(s3, tid, modifiers);
    hide Inv;
    assert u.pcs == s.pcs[tid := Idle];
    Onwards(s2, tid, SecondCheck(later), events, u);
    TwoSteps(s, tid, FirstCheck(now), Acquires, [SecondCheck(later)] + events, u);
    events := [FirstCheck(now), Acquires] + ([SecondCheck(later)] + events);
  }

  /** The watchdog never lets go early: it starts to clear only at a look at the clock that
      finds the deadline passed, or no deadline at all. */
  lemma NeverEarly(s: State, l: Label, u: State)
    requires IsStep(s, l, u) && s.pcs[l.tid] in {Fired, Expired, Rechecking} && u.pcs[l.tid].Clearing?
    ensures l.e.SecondCheck? && (s.deadline.None? || s.deadline.value <= l.e.now)
  {
  }
}
