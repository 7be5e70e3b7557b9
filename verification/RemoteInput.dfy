/** Injected remote input and its tracking, in any interleaving of the frame handlers, the
    watchdog and the release paths (internal/app/app_frames.go, app_lifecycle.go,
    internal/inputstate/remote_input_state.go). */
module RemoteInput {
  import opened Bytes
  import opened Options

  datatype KeyMsg = KeyMsg(vk: U32, scan: U32, flags: U32)

  /** Only the extended-key bit matters. */
  function Normalize(m: KeyMsg): KeyMsg {
    m.(flags := m.flags % 2)
  }

  // The tracked keys

  predicate Before(a: KeyMsg, b: KeyMsg) {
    if a.vk != b.vk then a.vk < b.vk
    else if a.scan != b.scan then a.scan < b.scan
    else a.flags < b.flags
  }

  predicate Ascending(keys: seq<KeyMsg>) {
    forall i, j :: 0 <= i < j < |keys| ==> Before(keys[i], keys[j])
  }

  /** Puts x in its place; keys are sorted one at a time. */
  method Insert(keys: seq<KeyMsg>, x: KeyMsg) returns (r: seq<KeyMsg>)
    requires Ascending(keys) && x !in keys
    ensures Ascending(r) && forall k :: k in r <==> k == x || k in keys
  {
    var i := 0;
    while i < |keys| && Before(keys[i], x)
      invariant i <= |keys| && forall j :: 0 <= j < i ==> Before(keys[j], x)
    {
      i := i + 1;
    }
    assert i < |keys| ==> keys[i] in keys;
    Inserted(keys, i, x);
    r := keys[..i] + [x] + keys[i..];
  }

  lemma Inserted(keys: seq<KeyMsg>, i: nat, x: KeyMsg)
    requires Ascending(keys) && i <= |keys|
    requires forall j :: 0 <= j < i ==> Before(keys[j], x)
    requires i < |keys| ==> Before(x, keys[i])
    ensures var r := keys[..i] + [x] + keys[i..]; Ascending(r) && forall k :: k in r <==> k == x || k in keys
  {
    var r := keys[..i] + [x] + keys[i..];
    InsertedOrder(keys, i, x);
    assert r[i] == x;
    assert keys == keys[..i] + keys[i..];
  }

  lemma InsertedOrder(keys: seq<KeyMsg>, i: nat, x: KeyMsg)
    requires Ascending(keys) && i <= |keys|
    requires forall j :: 0 <= j < i ==> Before(keys[j], x)
    requires i < |keys| ==> Before(x, keys[i])
    ensures Ascending(keys[..i] + [x] + keys[i..])
  {
    var r := keys[..i] + [x] + keys[i..];
    forall a, b | 0 <= a < b < |r|
      ensures Before(r[a], r[b])
    {
      assert r[a] == if a < i then keys[a] else if a == i then x else keys[a - 1];
      assert r[b] == if b < i then keys[b] else if b == i then x else keys[b - 1];
      if a == i && b > i + 1 {
        assert Before(keys[i], keys[b - 1]);
      }
    }
  }

  /** The sorted list of a set of keys is determined by the set. */
  lemma {:induction false} SortedIsUnique(a: seq<KeyMsg>, b: seq<KeyMsg>)
    requires Ascending(a) && Ascending(b) && forall k :: k in a <==> k in b
    ensures a == b
  {
    FirstIn(a);
    FirstIn(b);
    if a != [] && b != [] {
      assert a[0] == b[0];
      forall k
        ensures k in a[1..] <==> k in b[1..]
      {
        InRest(a, k);
        InRest(b, k);
      }
      SortedIsUnique(a[1..], b[1..]);
      assert a == [a[0]] + a[1..] && b == [b[0]] + b[1..];
    }
  }

  lemma FirstIn(a: seq<KeyMsg>)
    ensures a == [] || a[0] in a
  {
  }

  lemma InRest(a: seq<KeyMsg>, k: KeyMsg)
    requires Ascending(a) && a != []
    ensures k in a[1..] <==> k in a && k != a[0]
  {
    if k in a && k != a[0] {
      var i :| 0 <= i < |a| && a[i] == k;
      assert a[1..][i - 1] == k;
    }
  }

  class KeyState {
    var pressed: set<KeyMsg>

    constructor ()
      ensures pressed == {}
    {
      pressed := {};
    }

    method Record(msg: KeyMsg, down: bool)
      modifies this
      ensures pressed == if down then old(pressed) + {Normalize(msg)} else old(pressed) - {Normalize(msg)}
    {
      if down {
        pressed := pressed + {Normalize(msg)};
      } else {
        pressed := pressed - {Normalize(msg)};
      }
    }

    /** Every pressed key, once, in order; none stays pressed. */
    method ReleaseAll() returns (keys: seq<KeyMsg>)
      modifies this
      ensures pressed == {} && Ascending(keys)
      ensures forall k :: k in keys <==> k in old(pressed)
    {
      keys := [];
      var left := pressed;
      while left != {}
        invariant pressed == old(pressed) && left <= pressed && Ascending(keys)
        invariant forall k :: k in keys <==> k in pressed && k !in left
      {
        var key :| key in left;
        keys := Insert(keys, key);
        left := left - {key};
      }
      pressed := {};
    }

    method HasPressed() returns (any: bool)
      ensures any <==> exists k :: k in pressed
    {
      any := |pressed| > 0;
      if any {
        assert pressed != {};
        var k :| k in pressed;
      }
    }
  }

  // What is injected

  /** A tracked key (normalized) or mouse button. */
  datatype Item = Key(msg: KeyMsg) | Button(b: Byte)

  /** What the injected event presses or releases on this machine. */
  datatype Phys = PhysKey(vk: U16, scan: U16, extended: bool) | PhysButton(b: Byte)

  /** Keys are cut to 16 bits for the injection; only buttons 0, 1 and 2 do anything. */
  predicate Trackable(i: Item) {
    i.Button? ==> i.b < 3
  }

  function PhysOf(i: Item): Phys {
    match i
    case Key(m) => PhysKey(m.vk % 0x1_0000, m.scan % 0x1_0000, m.flags % 2 == 1)
    case Button(b) => PhysButton(b)
  }

  /** The raw message presses the same key as its tracked form. */
  lemma NormalizedIsSame(m: KeyMsg)
    ensures PhysOf(Key(Normalize(m))) == PhysOf(Key(m))
  {
  }

  function Covered(items: set<Item>): set<Phys> {
    set i | i in items :: PhysOf(i)
  }

  // The machine

  datatype AfterRelease = Nothing | ThenPause | ThenReset

  datatype Pc =
    | Idle
    | Allowed(item: Item, down: bool)     // waiting for remoteInputMu
    | Locked(item: Item, down: bool)
    | Recorded(item: Item, down: bool)    // tracked, about to inject
    | Injected                            // about to touch the watchdog, holding remoteInputMu
    | Touched                             // about to unlock
    | Moving                              // mouse move injected, about to read the fast-path flag
    | Touching                            // scroll, text or move: about to touch without remoteInputMu
    | WantRelease(next: AfterRelease)     // waiting for remoteInputMu
    | Clearing(next: AfterRelease)        // holding it, about to clear what is tracked
    | Ups(rest: set<Item>, next: AfterRelease)
    | Lowering(next: AfterRelease)        // about to clear the fast-path flag
    | Unlocking(next: AfterRelease)
    | Flagging(next: AfterRelease)        // about to set the peer-control flags
    | Fired                               // the watchdog has started
    | Expired                             // ... and wants remoteInputMu
    | Rechecking                          // ... and has it

  datatype State = State(
    tracked: set<Item>, held: set<Phys>,
    active: bool,                // remoteInputActiveN
    deadline: Option<int>, armed: bool,
    peerActive: bool, requiresWake: bool,
    mu: Option<nat>, pcs: seq<Pc>)

  datatype Event =
    | Arrives(item: Item, down: bool)
    | ArrivesLoose
    | ArrivesMove
    | ArrivesWake
    | AsksRelease(next: AfterRelease)
    | Configures
    | TimerFires
    | Acquires
    | Records
    | Injects
    | Touches(now: int)
    | ReadsFlag
    | Clears
    | InjectsUp(item: Item)
    | UpsDone(modifiers: set<Phys>)
    | Lowers
    | Unlocks
    | Flags
    | FirstCheck(now: int)
    | SecondCheck(now: int)

  predicate IsInput(e: Event) {
    e.Arrives? || e.ArrivesLoose? || e.ArrivesMove?
  }

  const IDLE_TIMEOUT := 2_000_000_000

  predicate Enabled(s: State, tid: nat, e: Event) {
    tid < |s.pcs|
    && var pc := s.pcs[tid];
       match e
       case Arrives(_, _) => pc.Idle?
       case ArrivesLoose => pc.Idle?
       case ArrivesMove => pc.Idle?
       case ArrivesWake => pc.Idle?
       case AsksRelease(_) => pc.Idle?
       case Configures => pc.Idle?
       case TimerFires => pc.Idle? && s.armed
       case Acquires => (pc.Allowed? || pc.WantRelease? || pc.Expired?) && s.mu.None?
       case Records => pc.Locked?
       case Injects => pc.Recorded?
       case Touches(_) => pc.Injected? || pc.Touching?
       case ReadsFlag => pc.Moving?
       case Clears => pc.Clearing?
       case InjectsUp(i) => pc.Ups? && i in pc.rest
       case UpsDone(_) => pc.Ups? && pc.rest == {}
       case Lowers => pc.Lowering?
       case Unlocks => pc.Touched? || pc.Unlocking?
       case Flags => pc.Flagging?
       case FirstCheck(_) => pc.Fired?
       case SecondCheck(_) => pc.Rechecking?
  }

  function Goto(s: State, tid: nat, pc: Pc): State
    requires tid < |s.pcs|
  {
    s.(pcs := s.pcs[tid := pc])
  }

  /** notePeerControlInput(false). */
  predicate Refused(s: State) {
    !s.peerActive && s.requiresWake
  }

  function Noted(s: State): State {
    if s.peerActive then s else s.(peerActive := true, requiresWake := false)
  }

  function Admit(s: State, tid: nat, pc: Pc): State
    requires tid < |s.pcs|
  {
    if Refused(s) then s else Goto(Noted(s), tid, pc)
  }

  function AfterRecord(tracked: set<Item>, item: Item, down: bool): set<Item> {
    if !Trackable(item) then tracked else if down then tracked + {item} else tracked - {item}
  }

  function AfterInject(held: set<Phys>, item: Item, down: bool): set<Phys> {
    if !Trackable(item) then held else if down then held + {PhysOf(item)} else held - {PhysOf(item)}
  }

  function TouchWatchdog(s: State, now: int): State {
    if s.tracked == {} then s.(deadline := None, armed := false, active := false)
    else s.(active := true, deadline := Some(now + IDLE_TIMEOUT), armed := true)
  }

  function Next(s: State, tid: nat, e: Event): State
    requires Enabled(s, tid, e)
  {
    var pc := s.pcs[tid];
    match e
    case Arrives(item, down) => Admit(s, tid, Allowed(item, down))
    case ArrivesLoose => Admit(s, tid, Touching)
    case ArrivesMove => Admit(s, tid, Moving)
    case ArrivesWake => Goto(Noted(s), tid, WantRelease(Nothing))
    case AsksRelease(next) => Goto(s, tid, WantRelease(next))
    case Configures => if s.peerActive then s else s.(requiresWake := false)
    case TimerFires => Goto(s.(armed := false), tid, Fired)
    case Acquires =>
      Goto(s.(mu := Some(tid)), tid,
           if pc.Allowed? then Locked(pc.item, pc.down) else if pc.WantRelease? then Clearing(pc.next) else Rechecking)
    case Records => Goto(s.(tracked := AfterRecord(s.tracked, pc.item, pc.down)), tid, Recorded(pc.item, pc.down))
    case Injects => Goto(s.(held := AfterInject(s.held, pc.item, pc.down)), tid, Injected)
    case Touches(now) => Goto(TouchWatchdog(s, now), tid, if pc.Injected? then Touched else Idle)
    case ReadsFlag => Goto(s, tid, if s.active then Touching else Idle)
    case Clears => Goto(s.(deadline := None, armed := false, tracked := {}), tid, Ups(s.tracked, pc.next))
    case InjectsUp(i) => Goto(s.(held := AfterInject(s.held, i, false)), tid, Ups(pc.rest - {i}, pc.next))
    case UpsDone(modifiers) => Goto(s.(held := s.held - modifiers), tid, Lowering(pc.next))
    case Lowers => Goto(s.(active := false), tid, Unlocking(pc.next))
    case Unlocks => Goto(s.(mu := None), tid, if pc.Touched? || pc.next.Nothing? then Idle else Flagging(pc.next))
    case Flags => Goto(s.(peerActive := false, requiresWake := pc.next.ThenPause?), tid, Idle)
    case FirstCheck(now) =>
      if s.tracked == {} || s.deadline.None? then Goto(s, tid, Idle)
      else if s.deadline.value > now then Goto(s.(armed := true), tid, Idle)
      else Goto(s, tid, Expired)
    case SecondCheck(now) =>
      if s.deadline.Some? && s.deadline.value > now then Goto(s.(armed := true), tid, Unlocking(Nothing))
      else Goto(s, tid, Clearing(Nothing))
  }

  // The invariant

  predicate HoldsMu(pc: Pc) {
    || pc.Locked? || pc.Recorded? || pc.Injected? || pc.Touched?
    || pc.Clearing? || pc.Ups? || pc.Lowering? || pc.Unlocking? || pc.Rechecking?
  }

  predicate IsWatchdog(pc: Pc) {
    pc.Fired? || pc.Expired? || pc.Rechecking? || pc.Clearing?
  }

  /** What holds whenever no handler is in the middle of its work. */
  predicate Settled(s: State) {
    && s.held <= Covered(s.tracked)
    && (s.active <==> s.tracked != {})
    && (s.deadline.Some? <==> s.tracked != {})
  }

  predicate MidWork(s: State, pc: Pc) {
    match pc
    case Recorded(item, down) =>
      && s.held <= Covered(s.tracked) + (if !down && Trackable(item) then {PhysOf(item)} else {})
      && (down && Trackable(item) ==> item in s.tracked)
    case Injected => s.held <= Covered(s.tracked)
    case Ups(rest, _) => s.tracked == {} && s.deadline.None? && s.held <= Covered(rest) && forall i :: i in rest ==> Trackable(i)
    case Lowering(_) => s.tracked == {} && s.deadline.None? && s.held == {}
    case _ => Settled(s)
  }

  ghost predicate Watched(s: State) {
    s.tracked != {} && s.deadline.Some? ==> s.armed || exists tid :: 0 <= tid < |s.pcs| && IsWatchdog(s.pcs[tid])
  }

  predicate OnlyHolder(s: State, tid: nat)
    requires tid < |s.pcs|
  {
    HoldsMu(s.pcs[tid]) <==> s.mu == Some(tid)
  }

  ghost predicate Inv(s: State) {
    && (s.mu.Some? ==> s.mu.value < |s.pcs|)
    && (forall tid :: 0 <= tid < |s.pcs| ==> OnlyHolder(s, tid))
    && (if s.mu.None? then Settled(s) else MidWork(s, s.pcs[s.mu.value]))
    && (forall i :: i in s.tracked ==> Trackable(i))
    && Watched(s)
    && (s.requiresWake ==> !s.peerActive)
  }

  lemma CoveredAdd(items: set<Item>, i: Item)
    ensures Covered(items + {i}) == Covered(items) + {PhysOf(i)}
  {
    forall p | p in Covered(items) + {PhysOf(i)}
      ensures p in Covered(items + {i})
    {
      if p == PhysOf(i) {
        assert i in items + {i};
      } else {
        var j :| j in items && PhysOf(j) == p;
        assert j in items + {i};
      }
    }
  }

  /** A step of a thread that neither takes nor gives up the lock. */
  lemma SameLock(s: State, u: State, tid: nat)
    requires Inv(s) && tid < |s.pcs| == |u.pcs| && u.mu == s.mu && u.pcs == s.pcs[tid := u.pcs[tid]]
    requires HoldsMu(u.pcs[tid]) == HoldsMu(s.pcs[tid])
    ensures forall t :: 0 <= t < |u.pcs| ==> OnlyHolder(u, t)
  {
    forall t | 0 <= t < |u.pcs|
      ensures OnlyHolder(u, t)
    {
      assert OnlyHolder(s, t) && OnlyHolder(s, tid);
    }
  }

  lemma StillWatched(s: State, u: State, tid: nat)
    requires Watched(s) && tid < |s.pcs| && |u.pcs| == |s.pcs| && u.pcs == s.pcs[tid := u.pcs[tid]]
    requires u.tracked != {} && u.deadline.Some? ==> (s.tracked != {} && s.deadline.Some?) || u.armed
    requires s.armed && u.tracked != {} && u.deadline.Some? ==> u.armed || IsWatchdog(u.pcs[tid])
    requires IsWatchdog(s.pcs[tid]) && u.tracked != {} && u.deadline.Some? ==> IsWatchdog(u.pcs[tid]) || u.armed
    ensures Watched(u)
  {
    if u.tracked != {} && u.deadline.Some? && !u.armed {
      if s.armed {
        assert IsWatchdog(u.pcs[tid]);
      } else {
        var w :| 0 <= w < |s.pcs| && IsWatchdog(s.pcs[w]);
        assert IsWatchdog(u.pcs[w]);
      }
    }
  }

  /** A step outside the lock that leaves the tracking alone. */
  lemma FreeStep(s: State, u: State, tid: nat)
    requires Inv(s) && tid < |s.pcs| == |u.pcs| && u.pcs == s.pcs[tid := u.pcs[tid]]
    requires !HoldsMu(s.pcs[tid]) && !HoldsMu(u.pcs[tid])
    requires u.tracked == s.tracked && u.held == s.held && u.active == s.active && u.deadline == s.deadline && u.mu == s.mu
    requires s.armed ==> u.armed || IsWatchdog(u.pcs[tid])
    requires IsWatchdog(s.pcs[tid]) && u.tracked != {} && u.deadline.Some? ==> IsWatchdog(u.pcs[tid]) || u.armed
    requires u.requiresWake ==> !u.peerActive
    ensures Inv(u)
  {
    assert OnlyHolder(s, tid);
    SameLock(s, u, tid);
    StillWatched(s, u, tid);
  }

  lemma FlagsAgree(s: State)
    requires Inv(s)
    ensures s.requiresWake ==> !s.peerActive
  {
  }

  lemma Arriving(s: State, tid: nat, e: Event)
    requires Inv(s) && Enabled(s, tid, e)
    requires IsInput(e) || e.ArrivesWake? || e.AsksRelease? || e.Configures?
    ensures Inv(Next(s, tid, e))
  {
    hide Inv;
    FlagsAgree(s);
    assert s.pcs[tid := s.pcs[tid]] == s.pcs;
    FreeStep(s, Next(s, tid, e), tid);
  }

  lemma Waiting(s: State, tid: nat, e: Event)
    requires Inv(s) && Enabled(s, tid, e) && (e.TimerFires? || e.ReadsFlag? || e.Flags? || e.FirstCheck?)
    ensures Inv(Next(s, tid, e))
  {
    hide Inv;
    FlagsAgree(s);
    FreeStep(s, Next(s, tid, e), tid);
  }

  /** A touch from outside the lock never spoils the work of the lock's holder. */
  lemma LooseTouch(s: State, tid: nat, now: int)
    requires Inv(s) && tid < |s.pcs| && s.pcs[tid].Touching?
    ensures Inv(Next(s, tid, Touches(now)))
  {
    var u := Next(s, tid, Touches(now));
    assert OnlyHolder(s, tid);
    SameLock(s, u, tid);
    StillWatched(s, u, tid);
  }

  lemma Locking(s: State, tid: nat, e: Event)
    requires Inv(s) && Enabled(s, tid, e) && (e.Acquires? || e.Unlocks?)
    ensures Inv(Next(s, tid, e))
  {
    var u := Next(s, tid, e);
    assert OnlyHolder(s, tid);
    forall t | 0 <= t < |u.pcs|
      ensures OnlyHolder(u, t)
    {
      assert OnlyHolder(s, t);
    }
    StillWatched(s, u, tid);
  }

  lemma Working(s: State, tid: nat, e: Event)
    requires Inv(s) && Enabled(s, tid, e)
    requires e.Records? || e.Injects? || (e.Touches? && s.pcs[tid].Injected?) || e.SecondCheck?
    ensures Inv(Next(s, tid, e))
  {
    var u := Next(s, tid, e);
    var pc := s.pcs[tid];
    assert OnlyHolder(s, tid);
    SameLock(s, u, tid);
    if e.Records? && Trackable(pc.item) {
      if pc.down {
        CoveredAdd(s.tracked, pc.item);
      } else if pc.item in s.tracked {
        CoveredAdd(u.tracked, pc.item);
        assert u.tracked + {pc.item} == s.tracked;
      } else {
        assert u.tracked == s.tracked;
      }
    }
    if e.Injects? && Trackable(pc.item) && pc.down {
      assert PhysOf(pc.item) in Covered(s.tracked);
    }
    StillWatched(s, u, tid);
  }

  lemma Releasing(s: State, tid: nat, e: Event)
    requires Inv(s) && Enabled(s, tid, e) && (e.Clears? || e.InjectsUp? || e.UpsDone? || e.Lowers?)
    ensures Inv(Next(s, tid, e))
  {
    var u := Next(s, tid, e);
    var pc := s.pcs[tid];
    assert OnlyHolder(s, tid);
    SameLock(s, u, tid);
    if e.InjectsUp? {
      var rest := pc.rest - {e.item};
      CoveredAdd(rest, e.item);
      assert rest + {e.item} == pc.rest;
    }
  }

  lemma StepKeeps(s: State, tid: nat, e: Event)
    requires Inv(s) && Enabled(s, tid, e)
    ensures Inv(Next(s, tid, e))
  {
    match e
    case Acquires => Locking(s, tid, e);
    case Unlocks => Locking(s, tid, e);
    case Records => Working(s, tid, e);
    case Injects => Working(s, tid, e);
    case SecondCheck(_) => Working(s, tid, e);
    case Touches(_) =>
      if s.pcs[tid].Injected? {
        Working(s, tid, e);
      } else {
        LooseTouch(s, tid, e.now);
      }
    case Clears => Releasing(s, tid, e);
    case InjectsUp(_) => Releasing(s, tid, e);
    case UpsDone(_) => Releasing(s, tid, e);
    case Lowers => Releasing(s, tid, e);
    case TimerFires => Waiting(s, tid, e);
    case ReadsFlag => Waiting(s, tid, e);
    case Flags => Waiting(s, tid, e);
    case FirstCheck(_) => Waiting(s, tid, e);
    case _ => Arriving(s, tid, e);
  }

  // Runs

  datatype Label = Label(tid: nat, e: Event)

  predicate Initial(s: State) {
    && s.tracked == {} && s.held == {} && !s.active && s.deadline == None && !s.armed
    && !s.peerActive && !s.requiresWake && s.mu == None
    && forall tid :: 0 <= tid < |s.pcs| ==> s.pcs[tid] == Idle
  }

  predicate IsStep(s: State, l: Label, u: State) {
    Enabled(s, l.tid, l.e) && u == Next(s, l.tid, l.e)
  }

  predicate IsRun(states: seq<State>, labels: seq<Label>) {
    && |states| == |labels| + 1 && Initial(states[0])
    && forall k :: 0 <= k < |labels| ==> IsStep(states[k], labels[k], states[k + 1])
  }

  lemma {:induction false} RunKeeps(states: seq<State>, labels: seq<Label>, k: nat)
    requires IsRun(states, labels) && k < |states|
    ensures Inv(states[k])
  {
    if k == 0 {
      forall tid | 0 <= tid < |states[0].pcs|
        ensures OnlyHolder(states[0], tid)
      {
        assert states[0].pcs[tid] == Idle;
      }
    } else {
      RunKeeps(states, labels, k - 1);
      assert IsStep(states[k - 1], labels[k - 1], states[k]);
      StepKeeps(states[k - 1], labels[k - 1].tid, labels[k - 1].e);
    }
  }

  /** What the holder of remoteInputMu is about to release. */
  function InHand(s: State): set<Item> {
    if s.mu.None? || s.mu.value >= |s.pcs| then {}
    else
      match s.pcs[s.mu.value]
      case Recorded(item, down) => if down then {} else {item}
      case Ups(rest, _) => rest
      case _ => {}
  }

  /** At every moment, whatever is held down on this machine because of injected input is
      tracked, or is about to be released by the thread that holds the lock. */
  lemma HeldIsAccountedFor(states: seq<State>, labels: seq<Label>, k: nat, p: Phys)
    requires IsRun(states, labels) && k < |states| && p in states[k].held
    ensures exists i :: i in states[k].tracked + InHand(states[k]) && PhysOf(i) == p
  {
    var s := states[k];
    RunKeeps(states, labels, k);
    if s.mu.Some? && s.pcs[s.mu.value].Recorded? {
      var item := s.pcs[s.mu.value].item;
      if p in Covered(s.tracked) {
        var i :| i in s.tracked && PhysOf(i) == p;
        assert i in s.tracked + InHand(s);
      } else {
        assert item in s.tracked + InHand(s);
      }
    } else if s.mu.Some? && s.pcs[s.mu.value].Ups? {
      var i :| i in s.pcs[s.mu.value].rest && PhysOf(i) == p;
      assert i in s.tracked + InHand(s);
    } else {
      var i :| i in s.tracked && PhysOf(i) == p;
      assert i in s.tracked + InHand(s);
    }
  }

  /** Outside the lock: what is held is tracked; the fast-path flag says exactly whether
      anything is tracked; and then the deadline is set, and the timer is running or the
      watchdog is already at work, so nothing stays down unwatched. */
  lemma SettledOutsideLock(states: seq<State>, labels: seq<Label>, k: nat)
    requires IsRun(states, labels) && k < |states| && states[k].mu == None
    ensures var s := states[k];
            && s.held <= Covered(s.tracked)
            && (s.active <==> s.tracked != {}) && (s.deadline.Some? <==> s.tracked != {})
            && (s.tracked != {} ==> s.armed || exists tid :: 0 <= tid < |s.pcs| && IsWatchdog(s.pcs[tid]))
  {
    RunKeeps(states, labels, k);
  }

  /** Once a release has gone through its keys and buttons, nothing injected is held and
      nothing is tracked, until it gives up the lock. */
  lemma ReleaseLeavesNothing(states: seq<State>, labels: seq<Label>, k: nat, tid: nat)
    requires IsRun(states, labels) && k < |states| && tid < |states[k].pcs|
    requires states[k].pcs[tid].Lowering?
    ensures states[k].held == {} && states[k].tracked == {} && states[k].mu == Some(tid)
  {
    RunKeeps(states, labels, k);
    assert OnlyHolder(states[k], tid);
  }

  /** From the clearing on the next step of a release is always enabled: it leaves fewer
      keys to release or goes on to the next stage. */
  lemma ReleaseProceeds(s: State, tid: nat)
    requires tid < |s.pcs| && (s.pcs[tid].Clearing? || s.pcs[tid].Ups? || s.pcs[tid].Lowering?)
    ensures exists e :: Enabled(s, tid, e) && var pc, pc' := s.pcs[tid], Next(s, tid, e).pcs[tid];
              || (pc.Clearing? && pc'.Ups?) || (pc.Ups? && pc'.Ups? && pc'.rest < pc.rest)
              || (pc.Ups? && pc'.Lowering?) || (pc.Lowering? && pc'.Unlocking?)
  {
    var pc := s.pcs[tid];
    if pc.Clearing? {
      assert Enabled(s, tid, Clears);
    } else if pc.Lowering? {
      assert Enabled(s, tid, Lowers);
    } else if pc.rest == {} {
      assert Enabled(s, tid, UpsDone({}));
    } else {
      var i :| i in pc.rest;
      assert Enabled(s, tid, InjectsUp(i));
    }
  }

  /** Steps a release still has to take before it may give up the lock: one for each key or
      button, and one each for clearing, for the modifiers and for the fast-path flag. */
  function Left(s: State, tid: nat): nat {
    if tid < |s.pcs| then LeftAt(s.pcs[tid], s.tracked) else 0
  }

  function LeftAt(pc: Pc, tracked: set<Item>): nat {
    match pc
    case Clearing(_) => |tracked| + 3
    case Ups(rest, _) => |rest| + 2
    case Lowering(_) => 1
    case _ => 0
  }

  function StepsOf(labels: seq<Label>, tid: nat): nat {
    if labels == [] then 0
    else StepsOf(labels[..|labels| - 1], tid) + (if labels[|labels| - 1].tid == tid then 1 else 0)
  }

  lemma OwnStep(s: State, tid: nat, e: Event)
    requires Enabled(s, tid, e) && LeftAt(s.pcs[tid], s.tracked) > 0
    ensures Left(Next(s, tid, e), tid) == LeftAt(s.pcs[tid], s.tracked) - 1
  {
    OwnEvent(s, tid, e);
    hide Enabled;
    match e
    case Clears =>
    case InjectsUp(i) =>
      var rest := s.pcs[tid].rest;
      assert rest == (rest - {i}) + {i};
    case UpsDone(_) =>
    case Lowers =>
  }

  lemma OwnEvent(s: State, tid: nat, e: Event)
    requires Enabled(s, tid, e) && LeftAt(s.pcs[tid], s.tracked) > 0
    ensures match s.pcs[tid]
            case Clearing(_) => e == Clears
            case Ups(rest, _) => (e.InjectsUp? && e.item in rest) || (e.UpsDone? && rest == {})
            case Lowering(_) => e == Lowers
            case _ => false
  {
  }

  /** Only the lock's holder changes what is tracked. */
  lemma OtherStep(s: State, tid: nat, other: nat, e: Event)
    requires Inv(s) && Enabled(s, other, e) && tid < |s.pcs| && tid != other && HoldsMu(s.pcs[tid])
    ensures var u := Next(s, other, e); tid < |u.pcs| && u.pcs[tid] == s.pcs[tid] && u.tracked == s.tracked
  {
    assert OnlyHolder(s, tid) && OnlyHolder(s, other);
    hide Inv;
    assert !e.Records? && !e.Clears?;
  }

  lemma ReleaseStep(s: State, l: Label, u: State, tid: nat)
    requires Inv(s) && IsStep(s, l, u) && Left(s, tid) > 0
    ensures Left(u, tid) == Left(s, tid) - (if l.tid == tid then 1 else 0)
  {
    hide Inv;
    hide Next;
    hide Enabled;
    if l.tid == tid {
      OwnStep(s, tid, l.e);
    } else {
      OtherStep(s, tid, l.tid, l.e);
    }
  }

  lemma StepsSnoc(labels: seq<Label>, i: nat, j: nat, tid: nat)
    requires i < j <= |labels|
    ensures StepsOf(labels[i..j], tid) == StepsOf(labels[i..j - 1], tid) + (if labels[j - 1].tid == tid then 1 else 0)
  {
    assert labels[i..j][..j - i - 1] == labels[i..j - 1];
  }

  lemma LastStep(states: seq<State>, labels: seq<Label>, j: nat, tid: nat)
    requires IsRun(states, labels) && 0 < j < |states| && Left(states[j - 1], tid) > 0
    ensures Left(states[j], tid) == Left(states[j - 1], tid) - (if labels[j - 1].tid == tid then 1 else 0)
  {
    RunKeeps(states, labels, j - 1);
    assert IsStep(states[j - 1], labels[j - 1], states[j]);
    hide IsRun;
    hide IsStep;
    hide Inv;
    ReleaseStep(states[j - 1], labels[j - 1], states[j], tid);
  }

  lemma {:induction false} ReleaseCounts(states: seq<State>, labels: seq<Label>, i: nat, j: nat, tid: nat)
    requires IsRun(states, labels) && i <= j < |states|
    requires forall m :: i <= m < j ==> Left(states[m], tid) > 0
    ensures StepsOf(labels[i..j], tid) + Left(states[j], tid) == Left(states[i], tid)
    decreases j
  {
    hide Left;
    if i < j {
      ReleaseCounts(states, labels, i, j - 1, tid);
      StepsSnoc(labels, i, j, tid);
      LastStep(states, labels, j, tid);
    } else {
      assert labels[i..j] == [];
    }
  }

  /** Every release gets there: until it is through, each of its own steps brings it exactly
      one closer, no step of another thread sets it back, and it always has a step to take.
      So it takes |tracked| + 3 steps from the clearing on, however the threads interleave. */
  lemma ReleaseEnds(states: seq<State>, labels: seq<Label>, i: nat, j: nat, tid: nat)
    requires IsRun(states, labels) && i <= j < |states|
    requires forall m :: i <= m < j ==> Left(states[m], tid) > 0
    ensures StepsOf(labels[i..j], tid) + Left(states[j], tid) == Left(states[i], tid)
    ensures Left(states[j], tid) > 0 ==> exists e :: Enabled(states[j], tid, e)
  {
    hide *;
    ReleaseCounts(states, labels, i, j, tid);
    ReleaseGoes(states[j], tid);
  }

  lemma ReleaseGoes(s: State, tid: nat)
    ensures Left(s, tid) > 0 ==> exists e :: Enabled(s, tid, e)
  {
    if Left(s, tid) > 0 {
      ReleaseProceeds(s, tid);
    }
  }

  // Pausing

  /** What ends a pause: the wake signal, a new edge configuration, or a reset. */
  predicate EndsPause(s: State, l: Label) {
    l.e.ArrivesWake? || l.e.Configures? || (l.e.Flags? && l.tid < |s.pcs| && s.pcs[l.tid] != Flagging(ThenPause))
  }

  /** A pause lasts until something ends it, and meanwhile no input that arrives gets
      through. */
  lemma {:induction false} PauseHolds(states: seq<State>, labels: seq<Label>, i: nat, j: nat)
    requires IsRun(states, labels) && i <= j < |labels| && states[i].requiresWake
    requires forall k :: i <= k < j ==> !EndsPause(states[k], labels[k])
    ensures states[j].requiresWake && Refused(states[j])
    ensures IsInput(labels[j].e) ==> states[j + 1] == states[j]
    decreases j
  {
    RunKeeps(states, labels, j);
    if i < j {
      PauseHolds(states, labels, i, j - 1);
      var s, l := states[j - 1], labels[j - 1];
      assert IsStep(s, l, states[j]) && !EndsPause(s, l);
    }
    assert IsStep(states[j], labels[j], states[j + 1]);
  }
}
