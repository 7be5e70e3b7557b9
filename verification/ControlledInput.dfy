/** The controlled side's handlers, run one at a time as remoteInputMu makes them
    (internal/app/app_frames.go, app_lifecycle.go), in the terms of RemoteInput. */
module ControlledInput {
  import opened Bytes
  import opened Options
  import opened RemoteInput

  const BUTTONS := 3

  function KeyItems(keys: set<KeyMsg>): set<Item> {
    set k | k in keys :: Key(k)
  }

  function ButtonItems(buttons: seq<bool>): set<Item>
    requires |buttons| == BUTTONS
  {
    set b: Byte | b < BUTTONS && buttons[b] :: Button(b)
  }

  function KeysUp(held: set<Phys>, keys: seq<KeyMsg>): set<Phys> {
    if keys == [] then held else KeysUp(held, keys[..|keys| - 1]) - {PhysOf(Key(keys[|keys| - 1]))}
  }

  lemma {:induction false} KeysUpIs(held: set<Phys>, keys: seq<KeyMsg>)
    ensures KeysUp(held, keys) == held - (set k | k in keys :: PhysOf(Key(k)))
  {
    if keys != [] {
      var n := |keys| - 1;
      KeysUpIs(held, keys[..n]);
      assert forall k :: k in keys <==> k in keys[..n] || k == keys[n];
    }
  }

  class Input {
    const keys: KeyState
    const buttons: array<bool>
    var held: set<Phys>          // what injection has pressed on this machine
    var active: bool             // remoteInputActiveN
    var deadline: Option<int>
    var armed: bool

    ghost predicate Valid()
    {
      buttons.Length == BUTTONS
    }

    ghost function Tracked(): set<Item>
      requires Valid()
      reads keys, buttons
    {
      KeyItems(keys.pressed) + ButtonItems(buttons[..])
    }

    constructor ()
      ensures Valid() && fresh(keys) && fresh(buttons)
      ensures Tracked() == {} && held == {} && !active && deadline == None && !armed
    {
      keys := new KeyState();
      buttons := new bool[BUTTONS](_ => false);
      held, active, deadline, armed := {}, false, None, false;
    }

    method InjectKey(msg: KeyMsg, down: bool)
      modifies this`held
      ensures held == AfterInject(old(held), Key(Normalize(msg)), down)
    {
      NormalizedIsSame(msg);
      if down {
        held := held + {PhysOf(Key(msg))};
      } else {
        held := held - {PhysOf(Key(msg))};
      }
    }

    method InjectButton(b: Byte, down: bool)
      modifies this`held
      ensures held == AfterInject(old(held), Button(b), down)
    {
      if b < 3 {
        if down {
          held := held + {PhysButton(b)};
        } else {
          held := held - {PhysButton(b)};
        }
      }
    }

    /** touchRemoteKeyWatchdog. */
    method Touch(now: int)
      requires Valid()
      modifies this`active, this`deadline, this`armed
      ensures active == armed == (Tracked() != {})
      ensures deadline == if Tracked() == {} then None else Some(now + IDLE_TIMEOUT)
    {
      var any := keys.HasPressed();
      if any {
        ghost var k :| k in keys.pressed;
        assert Key(k) in Tracked();
      }
      if buttons[0] { assert Button(0) in Tracked(); }
      if buttons[1] { assert Button(1) in Tracked(); }
      if buttons[2] { assert Button(2) in Tracked(); }
      if !any && !buttons[0] && !buttons[1] && !buttons[2] {
        deadline, armed, active := None, false, false;
        return;
      }
      active, deadline, armed := true, Some(now + IDLE_TIMEOUT), true;
    }

    method HandleKey(msg: KeyMsg, down: bool, now: int)
      requires Valid()
      modifies this, keys
      ensures Tracked() == AfterRecord(old(Tracked()), Key(Normalize(msg)), down)
      ensures held == AfterInject(old(held), Key(Normalize(msg)), down)
      ensures active == (Tracked() != {}) && (deadline.Some? <==> Tracked() != {})
      ensures old(held) <= Covered(old(Tracked())) ==> held <= Covered(Tracked())
    {
      ghost var tracked := Tracked();
      keys.Record(msg, down);
      InjectKey(msg, down);
      Touch(now);
      CoverKept(tracked, old(held), Key(Normalize(msg)), down);
    }

    method HandleClick(b: Byte, down: bool, now: int)
      requires Valid()
      modifies this, buttons
      ensures Tracked() == AfterRecord(old(Tracked()), Button(b), down)
      ensures held == AfterInject(old(held), Button(b), down)
      ensures active == (Tracked() != {}) && (deadline.Some? <==> Tracked() != {})
      ensures old(held) <= Covered(old(Tracked())) ==> held <= Covered(Tracked())
    {
      ghost var tracked := Tracked();
      if b < 3 {
        buttons[b] := down;
      }
      InjectButton(b, down);
      Touch(now);
      CoverKept(tracked, old(held), Button(b), down);
    }

    method KeysReleased(released: seq<KeyMsg>)
      modifies this`held
      ensures held == old(held) - (set k | k in released :: PhysOf(Key(k)))
    {
      var n := 0;
      while n < |released|
        invariant n <= |released| && held == KeysUp(old(held), released[..n])
      {
        assert released[..n + 1][..n] == released[..n];
        held := held - {PhysOf(Key(released[n]))};
        n := n + 1;
      }
      assert released[..n] == released;
      KeysUpIs(old(held), released);
    }

    method ButtonsReleased(pressed: seq<bool>)
      requires |pressed| == BUTTONS
      modifies this`held
      ensures held == old(held) - PhysButtons(pressed)
    {
      var b: Byte := 0;
      while b < 3
        invariant b <= 3
        invariant held == old(held) - (set c: Byte | c < b && pressed[c] :: PhysButton(c))
      {
        if pressed[b] {
          held := held - {PhysButton(b)};
        }
        b := b + 1;
      }
    }

    /** releaseInjectedRemoteKeysLocked: a key-up for every tracked key, in order, a
        button-up for every tracked button, and the modifiers. */
    method Release(modifiers: set<Phys>)
      requires Valid()
      modifies this, keys, buttons
      ensures Tracked() == {} && !active && deadline == None && !armed
      ensures held == old(held) - Covered(old(Tracked())) - modifiers
      ensures old(held) <= Covered(old(Tracked())) ==> held == {}
    {
      ghost var pressed := keys.pressed;
      deadline, armed := None, false;
      var released := keys.ReleaseAll();
      var pressedButtons := buttons[..];
      buttons[0], buttons[1], buttons[2] := false, false, false;
      KeysReleased(released);
      ButtonsReleased(pressedButtons);
      CoveredParts(pressed, pressedButtons);
      KeysCovered(released, pressed);
      held := held - modifiers;
      active := false;
      assert Tracked() == {};
    }

    /** handleRemoteKeyWatchdog after the timer fired. The clock is read twice, and between
        the two sections another handler may have touched the deadline. Releases exactly
        what is idle past its deadline at both looks; otherwise the timer runs again. */
    method Watchdog(now: int, between: Option<int>, later: int, modifiers: set<Phys>)
      requires Valid() && now <= later && !armed
      modifies this, keys, buttons
      ensures var expired := old(Tracked()) != {} && old(deadline).Some? && old(deadline).value <= now;
              var due := expired && (between.None? || between.value + IDLE_TIMEOUT <= later);
              && (due ==> Tracked() == {} && held == old(held) - Covered(old(Tracked())) - modifiers && !active && !armed)
              && (!due ==> Tracked() == old(Tracked()) && held == old(held))
              && (!expired ==>
                    && active == old(active) && deadline == old(deadline)
                    && (armed <==> Tracked() != {} && deadline.Some?))
              && (expired && !due ==> active && armed && deadline == Some(between.value + IDLE_TIMEOUT))
    {
      var any := keys.HasPressed();
      if any {
        ghost var k :| k in keys.pressed;
        assert Key(k) in Tracked();
      }
      if buttons[0] { assert Button(0) in Tracked(); }
      if buttons[1] { assert Button(1) in Tracked(); }
      if buttons[2] { assert Button(2) in Tracked(); }
      var hasPressed := any || buttons[0] || buttons[1] || buttons[2];
      assert hasPressed <==> Tracked() != {};
      if !hasPressed || deadline.None? {
        return;
      }
      if deadline.value > now {
        armed := true;
        return;
      }
      if between.Some? {
        Touch(between.value);
      }
      if deadline.value > later {
        armed := true;
        return;
      }
      Release(modifiers);
    }
  }

  function PhysButtons(buttons: seq<bool>): set<Phys>
    requires |buttons| == BUTTONS
  {
    set c: Byte | c < 3 && buttons[c] :: PhysButton(c)
  }

  lemma KeysCovered(list: seq<KeyMsg>, keys: set<KeyMsg>)
    requires forall k :: k in list <==> k in keys
    ensures (set k | k in list :: PhysOf(Key(k))) == Covered(KeyItems(keys))
  {
    forall k | k in keys
      ensures PhysOf(Key(k)) in Covered(KeyItems(keys))
    {
      assert Key(k) in KeyItems(keys);
    }
  }

  lemma CoveredParts(keys: set<KeyMsg>, buttons: seq<bool>)
    requires |buttons| == BUTTONS
    ensures Covered(KeyItems(keys) + ButtonItems(buttons))
         == Covered(KeyItems(keys)) + PhysButtons(buttons)
  {
    var all := KeyItems(keys) + ButtonItems(buttons);
    forall c: Byte | c < 3 && buttons[c]
      ensures PhysButton(c) in Covered(all)
    {
      assert Button(c) in all && PhysOf(Button(c)) == PhysButton(c);
    }
    forall p | p in Covered(KeyItems(keys))
      ensures p in Covered(all)
    {
      var i :| i in KeyItems(keys) && PhysOf(i) == p;
      assert i in all;
    }
  }

  lemma CoverKept(tracked: set<Item>, held: set<Phys>, item: Item, down: bool)
    ensures held <= Covered(tracked) ==> AfterInject(held, item, down) <= Covered(AfterRecord(tracked, item, down))
  {
    var t := AfterRecord(tracked, item, down);
    if held <= Covered(tracked) && Trackable(item) {
      forall p | p in AfterInject(held, item, down)
        ensures p in Covered(t)
      {
        if down && p == PhysOf(item) {
          assert item in t;
        } else {
          var i :| i in tracked && PhysOf(i) == p;
          assert i in t;
        }
      }
    }
  }
}
