/** muxLoop and drainHighPriority in their own form: loops over shared lanes that
    producers change between any two operations. Every execution of these loops is
    a run of the writer's state machine in SendMux. */
module MuxWriter {
  import opened Options
  import opened Frames
  import opened SendMux

  lemma {:induction false} SentIgnoresLast(states: seq<Mux>, labels: seq<Label>)
    requires |states| >= |labels|
    ensures SentOver(states, labels) == SentOver(states[..|labels|], labels)
  {
    if labels != [] {
      var n := |labels| - 1;
      assert states[..|labels|][..n] == states[..n];
    }
  }

  /** What the idle select does. */
  datatype Choice = Serve(lane: Lane) | TakeToken | TakeTick | Blocked

  class Writer {
    var mouse: seq<Frame>
    var high: seq<Frame>
    var audio: seq<Frame>
    var file: seq<Frame>
    var sig: bool
    var wire: seq<Frame>              // what muxSend has handed to the transport

    ghost var pc: Pc
    ghost var states: seq<Mux>
    ghost var labels: seq<Label>

    ghost function Now(): Mux
      reads this
    {
      Mux(pc, mouse, high, audio, file, sig)
    }

    /** The history so far is a run that ends in the present state, and the wire
        holds exactly the frames of its sends. */
    ghost predicate Traced()
      reads this
    {
      && IsRun(states, labels)
      && states[0].pc == Mouse(0)
      && states[|labels|] == Now()
      && wire == SentOver(states, labels)
    }

    constructor ()
      ensures Traced() && pc == Mouse(0) && labels == []
    {
      mouse, high, audio, file, sig, wire := [], [], [], [], false, [];
      pc := Mouse(0);
      labels := [];
      states := [Mux(Mouse(0), [], [], [], [], false)];
    }

    ghost method Record(l: Label)
      requires IsRun(states, labels) && states[0].pc == Mouse(0)
      requires Step(states[|labels|], Now(), l)
      requires wire == SentOver(states, labels) + Outgoing(states[|labels|], l)
      modifies this`states, this`labels
      ensures Traced() && labels == old(labels) + [l] && states == old(states) + [Now()]
    {
      assert (labels + [l])[..|labels|] == labels;
      assert (states + [Now()])[..|labels|] == states[..|labels|];
      SentIgnoresLast(states, labels);
      labels := labels + [l];
      states := states + [Now()];
    }

    /** Producers run: the lanes may change in any way. */
    method OthersRun()
      requires Traced()
      modifies this
      ensures Traced() && pc == old(pc) && wire == old(wire) && labels == old(labels) + [Others]
      ensures states == old(states) + [Now()]
    {
      mouse := *;
      high := *;
      audio := *;
      file := *;
      sig := *;
      Record(Others);
    }

    method TryMouse(ghost n: nat) returns (sent: bool)
      requires Traced() && pc == Mouse(n)
      modifies this
      ensures Traced() && pc == High(if sent then n + 1 else n)
      ensures |wire| == |old(wire)| + (if sent then 1 else 0)
    {
      OthersRun();
      sent := mouse != [];
      if sent {
        wire := wire + [mouse[0]];
        mouse := mouse[1..];
      }
      pc := High(if sent then n + 1 else n);
      Record(SendMux.Writer(if sent then Some(MouseLane) else None));
    }

    method TryHigh(ghost n: nat) returns (sent: bool)
      requires Traced() && pc == High(n)
      modifies this
      ensures Traced()
      ensures pc == if !sent then Audio(0, n > 0) else if n + 1 < BURST then Mouse(n + 1) else Audio(0, true)
      ensures |wire| == |old(wire)| + (if sent then 1 else 0)
    {
      OthersRun();
      sent := high != [];
      if sent {
        wire := wire + [high[0]];
        high := high[1..];
      }
      pc := if !sent then Audio(0, n > 0) else if n + 1 < BURST then Mouse(n + 1) else Audio(0, true);
      Record(SendMux.Writer(if sent then Some(HighLane) else None));
    }

    /** drainHighPriority: an iteration adds up to two frames, so one call may send
        BURST + 1 of them. */
    method DrainHighPriority() returns (sent: nat)
      requires Traced() && pc == Mouse(0)
      modifies this
      ensures Traced() && pc == Audio(0, sent > 0)
      ensures sent <= BURST + 1 && |wire| == |old(wire)| + sent
    {
      sent := 0;
      while sent < BURST
        invariant Traced() && sent <= BURST + 1 && |wire| == |old(wire)| + sent
        invariant pc == if sent < BURST then Mouse(sent) else Audio(0, true)
        decreases BURST - sent
      {
        var moved := TryMouse(sent);
        if moved {
          sent := sent + 1;
        }
        var control := TryHigh(sent);
        if !control {
          return;
        }
        sent := sent + 1;
      }
    }

    method PopAudio(ghost i: nat, ghost progressed: bool) returns (sent: bool)
      requires Traced() && pc == Audio(i, progressed) && i < AUDIO_BURST
      modifies this
      ensures Traced() && pc == if sent then PeekMouse(i + 1) else FileSlot(progressed)
      ensures |wire| == |old(wire)| + (if sent then 1 else 0)
    {
      OthersRun();
      sent := audio != [];
      if sent {
        wire := wire + [audio[0]];
        audio := audio[1..];
      }
      pc := if sent then PeekMouse(i + 1) else FileSlot(progressed);
      Record(SendMux.Writer(if sent then Some(AudioQueue) else None));
    }

    method InputWaiting(ghost i: nat) returns (yes: bool)
      requires Traced() && pc == PeekMouse(i)
      modifies this
      ensures Traced() && wire == old(wire) && pc == if yes then FileSlot(true) else Audio(i, true)
    {
      OthersRun();
      yes := mouse != [];
      pc := if yes then FileSlot(true) else PeekHigh(i);
      Record(SendMux.Writer(None));
      if !yes {
        OthersRun();
        yes := high != [];
        pc := if yes then FileSlot(true) else Audio(i, true);
        Record(SendMux.Writer(None));
      }
    }

    /** The audio burst: up to AUDIO_BURST frames, yielding to any input. */
    method AudioPart(progressed0: bool) returns (progressed: bool)
      requires Traced() && pc == Audio(0, progressed0)
      modifies this
      ensures Traced() && pc == FileSlot(progressed)
      ensures |old(wire)| <= |wire| <= |old(wire)| + AUDIO_BURST
      ensures progressed <==> progressed0 || |wire| > |old(wire)|
    {
      progressed := progressed0;
      var i := 0;
      while i < AUDIO_BURST
        invariant i <= AUDIO_BURST && Traced() && pc == Audio(i, progressed)
        invariant |wire| == |old(wire)| + i
        invariant progressed <==> progressed0 || i > 0
      {
        var sent := PopAudio(i, progressed);
        if !sent {
          return;
        }
        progressed := true;
        var waiting := InputWaiting(i + 1);
        if waiting {
          return;
        }
        i := i + 1;
      }
      pc := FileSlot(progressed);
      Record(SendMux.Writer(None));
    }

    method FilePart(progressed0: bool) returns (progressed: bool)
      requires Traced() && pc == FileSlot(progressed0)
      modifies this
      ensures Traced() && pc == if progressed then Mouse(0) else Idle
      ensures |old(wire)| <= |wire| <= |old(wire)| + 1
      ensures progressed <==> progressed0 || |wire| > |old(wire)|
    {
      OthersRun();
      var sent := file != [];
      progressed := progressed0 || sent;
      if sent {
        wire := wire + [file[0]];
        file := file[1..];
      }
      pc := if progressed then Mouse(0) else Idle;
      Record(SendMux.Writer(if sent then Some(FileLane) else None));
    }

    /** The case of the idle select that fires: any ready one, among them the ticker's if it
        has fired; blocked if there is none. */
    method ChooseReady(ticked: bool) returns (chosen: Choice)
      ensures match chosen
              case Serve(lane) => lane in {MouseLane, HighLane, FileLane} && Queued(Now(), lane)
              case TakeToken => sig
              case TakeTick => ticked
              case Blocked => !ticked && !sig && mouse == [] && high == [] && file == []
    {
      chosen := Blocked;
      if
      case mouse != [] => chosen := Serve(MouseLane);
      case high != [] => chosen := Serve(HighLane);
      case sig => chosen := TakeToken;
      case file != [] => chosen := Serve(FileLane);
      case ticked => chosen := TakeTick;
      case !ticked && !sig && mouse == [] && high == [] && file == [] =>
    }

    method IdleSend(lane: Lane)
      requires Traced() && pc == Idle && lane in {MouseLane, HighLane, FileLane} && Queued(Now(), lane)
      modifies this
      ensures Traced() && pc == Mouse(0) && Serves(old(Now()), Now(), Some(lane))
      ensures labels == old(labels) + [SendMux.Writer(Some(lane))] && states == old(states) + [Now()]
      ensures wire == old(wire) + Outgoing(old(Now()), SendMux.Writer(Some(lane))) && |wire| == |old(wire)| + 1
    {
      pc := Mouse(0);
      if lane == MouseLane {
        wire, mouse := wire + [mouse[0]], mouse[1..];
      } else if lane == HighLane {
        wire, high := wire + [high[0]], high[1..];
      } else {
        wire, file := wire + [file[0]], file[1..];
      }
      Record(SendMux.Writer(Some(lane)));
    }

    method IdleTick(heartbeatDue: bool) returns (sent: Option<Lane>)
      requires Traced() && pc == Idle
      modifies this
      ensures Traced() && pc == Mouse(0) && Tick(old(Now()), Now(), sent) && (sent == Some(Heartbeat) <==> heartbeatDue)
      ensures labels == old(labels) + [SendMux.Writer(sent)] && states == old(states) + [Now()]
      ensures wire == old(wire) + Outgoing(old(Now()), SendMux.Writer(sent)) && |wire| <= |old(wire)| + 1
    {
      sent := None;
      pc := Mouse(0);
      if heartbeatDue {
        sent := Some(Heartbeat);
        wire := wire + [Frame(MSG_HEARTBEAT, [])];
      }
      Record(SendMux.Writer(sent));
    }

    method IdleToken()
      requires Traced() && pc == Idle && sig
      modifies this
      ensures Traced() && pc == Mouse(0) && Serves(old(Now()), Now(), None)
      ensures labels == old(labels) + [SendMux.Writer(None)] && states == old(states) + [Now()] && wire == old(wire)
    {
      pc, sig := Mouse(0), false;
      Record(SendMux.Writer(None));
    }

    /** One look at the idle select; `ticked` says whether the ticker has fired. If it has
        not, the writer stays blocked exactly if nothing is ready, and otherwise it serves
        exactly one ready case: it takes the token, or sends the head of a lane. */
    method IdleSelect(ticked: bool, heartbeatDue: bool) returns (sent: Option<Lane>, blocked: bool)
      requires Traced() && pc == Idle
      modifies this
      ensures Traced() && |states| > |old(states)|
      ensures var looked := states[|old(states)|];
              && looked.pc == Idle
              && (blocked <==> !ticked && !looked.sig && looked.mouse == [] && looked.high == [] && looked.file == [])
              && (blocked ==> Now() == looked && labels == old(labels) + [Others] && wire == old(wire))
              && (!blocked ==> pc == Mouse(0) && labels == old(labels) + [Others, SendMux.Writer(sent)]
                               && wire == old(wire) + Outgoing(looked, SendMux.Writer(sent)))
              && (!blocked && !ticked ==> Serves(looked, Now(), sent))
      ensures |old(wire)| <= |wire| <= |old(wire)| + 1 && (sent == Some(Heartbeat) ==> ticked && heartbeatDue)
    {
      OthersRun();
      ghost var looked, seen := Now(), states;
      assert seen[|old(states)|] == looked;
      var chosen := ChooseReady(ticked);
      sent, blocked := None, chosen == Blocked;
      match chosen {
        case Serve(lane) =>
          sent := Some(lane);
          IdleSend(lane);
        case TakeToken => IdleToken();
        case TakeTick => sent := IdleTick(heartbeatDue);
        case Blocked =>
      }
      assert blocked || states == seen + [Now()];
      assert states[|old(states)|] == looked;
      assert old(labels) + [Others] + [SendMux.Writer(sent)] == old(labels) + [Others, SendMux.Writer(sent)];
    }

    /** muxLoop for a given number of rounds (it runs until the context ends). A round is a
        cycle or, while the writer is blocked, one more look at the idle select. A cycle
        sends at most BURST + 1 input, AUDIO_BURST audio and one file frame, or a single
        frame from the idle select. */
    method MuxLoop(rounds: nat)
      requires Traced() && pc == Mouse(0)
      modifies this
      ensures Traced() && (pc == Mouse(0) || pc == Idle)
      ensures |wire| <= |old(wire)| + rounds * (BURST + AUDIO_BURST + 2)
    {
      var n, idle := 0, false;
      while n < rounds
        invariant n <= rounds && Traced() && pc == if idle then Idle else Mouse(0)
        invariant |wire| <= |old(wire)| + n * (BURST + AUDIO_BURST + 2)
      {
        if !idle {
          var drained := DrainHighPriority();
          var progressed := AudioPart(drained > 0);
          progressed := FilePart(progressed);
          idle := !progressed;
        }
        if idle {
          var ticked, heartbeatDue := *, *;
          var sent;
          sent, idle := IdleSelect(ticked, heartbeatDue);
        }
        n := n + 1;
      }
    }
  }

  /** The interval between two sends of a lane, read off any execution of the loop:
      the bounds of SendMux apply to every stretch of a traced history. */
  lemma TracedWaiting(w: Writer, from: nat, to: nat, lane: Lane)
    requires w.Traced() && from <= to <= |w.labels| && lane != Heartbeat
    requires forall k :: from <= k <= to ==> Queued(w.states[k], lane)
    requires forall k :: from <= k < to ==> w.labels[k] != SendMux.Writer(Some(lane))
    ensures Sends(w.labels[from..to]) <= WaitBound(lane)
  {
    var states, labels := w.states[from..to + 1], w.labels[from..to];
    CountersStay(w.states, w.labels, from);
    forall k | 0 <= k < |labels|
      ensures Step(states[k], states[k + 1], labels[k])
    {
      assert Step(w.states[from + k], w.states[from + k + 1], w.labels[from + k]);
    }
    BoundedWaiting(states, labels, lane);
  }
}
