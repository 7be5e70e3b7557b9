/** Routing of outgoing frames and the reliable lane (enqueueSend of
    internal/app/send_mux.go): it never blocks, and when it must drop a frame whose loss
    would be unsafe it ends the session instead. */
module EnqueueSend {
  import opened Bytes
  import opened Frames
  import MouseLane
  import AudioLane

  const HIGH_CAP := 128
  const FILE_CAP := 8

  function AfterHigh<T>(q: seq<T>, f: T): seq<T> {
    if |q| < HIGH_CAP then q + [f] else q
  }

  class Mux {
    const mouse: MouseLane.Lane
    const audio: AudioLane.Lane
    var high: seq<Frame>
    var file: seq<Frame>
    var fileSent: seq<Frame>    // taken by the writer while a producer waited
    var sessionUp: bool
    var highDropped: nat
    var audioDropped: nat

    ghost predicate Valid()
      reads this, mouse, audio
    {
      mouse.Valid() && |high| <= HIGH_CAP && |file| <= FILE_CAP
    }

    constructor ()
      ensures Valid() && fresh(mouse) && fresh(audio) && sessionUp
      ensures high == [] && file == [] && fileSent == [] && highDropped == 0 && audioDropped == 0
    {
      mouse := new MouseLane.Lane();
      audio := new AudioLane.Lane();
      high, file, fileSent, sessionUp, highDropped, audioDropped := [], [], [], true, 0, 0;
    }

    /** The blocking send of a file chunk: waits for the writer, unless the program ends;
        then the select may take either way, even while the lane has room. */
    method EnqueueFile(f: Frame, ending: bool) returns (queued: bool)
      requires Valid()
      modifies this`file, this`fileSent
      ensures Valid() && (queued || ending)
      ensures fileSent + file == old(fileSent) + old(file) + (if queued then [f] else [])
      ensures |fileSent| >= |old(fileSent)|
    {
      var ended: bool := *;
      if ending && (ended || |file| == FILE_CAP) {
        assert old(fileSent) + old(file) + [] == old(fileSent) + old(file);
        return false;
      }
      if |file| == FILE_CAP {
        assert file == [file[0]] + file[1..];
        fileSent, file := fileSent + [file[0]], file[1..];
      }
      file := file + [f];
      return true;
    }

    method EnqueueHigh(f: Frame)
      requires Valid()
      modifies this`high, this`highDropped, this`sessionUp
      ensures Valid() && high == AfterHigh(old(high), f)
      ensures highDropped == old(highDropped) + (if |old(high)| < HIGH_CAP then 0 else 1)
      ensures sessionUp <==> old(sessionUp) && (|old(high)| < HIGH_CAP || !IsTransition(f.kind))
    {
      if |high| < HIGH_CAP {
        high := high + [f];
        return;
      }
      highDropped := highDropped + 1;
      if IsTransition(f.kind) {
        sessionUp := false;
      }
    }

    /** enqueueSend: exactly one lane sees the frame. Mouse moves coalesce; frames of the
        audio streams go to the ordered lane; a file chunk waits for room; every other frame
        goes to the end of the reliable lane if there is room, and an input transition is
        queued there or ends the session. */
    method EnqueueSend(f: Frame, ending: bool)
      requires Valid()
      modifies this, mouse, audio
      ensures Valid()
      ensures f.kind == MSG_MOUSE_MOVE ==> MouseLane.Conserves(old(mouse.sent) + old(mouse.ch), mouse.sent + mouse.ch, f)
      ensures IsAudioLane(f.kind) ==> audio.q == AudioLane.AfterPush(AudioLane.IsDataFrame(), old(audio.q), f)
      ensures f.kind == MSG_FILE_CHUNK && !ending ==> fileSent + file == old(fileSent) + old(file) + [f]
      ensures f.kind != MSG_MOUSE_MOVE && !IsAudioLane(f.kind) && f.kind != MSG_FILE_CHUNK ==>
                high == if |old(high)| < HIGH_CAP then old(high) + [f] else old(high)
      ensures sessionUp <==> old(sessionUp) && !(IsTransition(f.kind) && |old(high)| >= HIGH_CAP)
      ensures f.kind in {MSG_KEY_DOWN, MSG_KEY_UP, MSG_MOUSE_CLICK, MSG_SWITCH_BACK, MSG_UNICODE_TEXT} && sessionUp ==>
                high == old(high) + [f]
      ensures f.kind != MSG_MOUSE_MOVE ==> mouse.sent == old(mouse.sent) && mouse.ch == old(mouse.ch)
      ensures !IsAudioLane(f.kind) ==> audio.q == old(audio.q)
      ensures f.kind != MSG_FILE_CHUNK ==> file == old(file) && fileSent == old(fileSent)
      ensures f.kind == MSG_MOUSE_MOVE || IsAudioLane(f.kind) || f.kind == MSG_FILE_CHUNK ==>
                high == old(high) && sessionUp == old(sessionUp)
    {
      if f.kind == MSG_MOUSE_MOVE {
        var _ := mouse.Enqueue(f);
      } else if IsAudioLane(f.kind) {
        var dropped := audio.Push(f);
        audioDropped := audioDropped + dropped;
      } else if f.kind == MSG_FILE_CHUNK {
        var _ := EnqueueFile(f, ending);
      } else {
        EnqueueHigh(f);
      }
    }
  }

  // Whole runs of the reliable lane

  datatype Op<T> = Push(item: T) | Pop

  /** The lane since it was last cleared, and whether the session is still up. */
  datatype History<T> = History(q: seq<T>, pushed: seq<T>, popped: seq<T>, up: bool)

  function Apply<T>(isTransition: T -> bool, h: History<T>, op: Op<T>): History<T> {
    match op
    case Push(f) => History(AfterHigh(h.q, f), h.pushed + [f], h.popped, h.up && (|h.q| < HIGH_CAP || !isTransition(f)))
    case Pop => if h.q == [] then h else h.(q := h.q[1..], popped := h.popped + [h.q[0]])
  }

  function Run<T>(isTransition: T -> bool, ops: seq<Op<T>>): History<T> {
    if ops == [] then History([], [], [], true)
    else Apply(isTransition, Run(isTransition, ops[..|ops| - 1]), ops[|ops| - 1])
  }

  /** Transitions pushed but neither sent nor queued. */
  function Missing<T>(isTransition: T -> bool, h: History<T>): int {
    |AudioLane.Select(isTransition, h.pushed)| - |AudioLane.Select(isTransition, h.popped + h.q)|
  }

  ghost predicate Reliable<T>(isTransition: T -> bool, h: History<T>) {
    && |h.q| <= HIGH_CAP
    && Missing(isTransition, h) >= 0 && (h.up <==> Missing(isTransition, h) == 0)
    && (h.up ==> AudioLane.Thinned(AudioLane.Not(isTransition), h.pushed, h.popped + h.q))
  }

  lemma PushReliable<T>(isTransition: T -> bool, h: History<T>, f: T)
    requires Reliable(isTransition, h)
    ensures Reliable(isTransition, Apply(isTransition, h, Push(f)))
  {
    AudioLane.SelectAppend(isTransition, h.pushed, f);
    AudioLane.SelectAppend(isTransition, h.popped + h.q, f);
    assert h.popped + (h.q + [f]) == h.popped + h.q + [f];
    if h.up {
      if |h.q| < HIGH_CAP {
        AudioLane.ThinnedKeep(AudioLane.Not(isTransition), h.pushed, h.popped + h.q, f);
      } else if !isTransition(f) {
        AudioLane.ThinnedSkip(AudioLane.Not(isTransition), h.pushed, h.popped + h.q, f);
      }
    }
  }

  /** In every run: while the session is up, what was sent and what is queued is what was
      enqueued with only harmless frames left out, in order; and the session has been
      ended if and only if an input transition is missing. */
  lemma {:induction false} RunReliable<T>(isTransition: T -> bool, ops: seq<Op<T>>)
    ensures Reliable(isTransition, Run(isTransition, ops))
  {
    if ops != [] {
      var n := |ops| - 1;
      var h := Run(isTransition, ops[..n]);
      RunReliable(isTransition, ops[..n]);
      if ops[n].Push? {
        PushReliable(isTransition, h, ops[n].item);
      } else if h.q != [] {
        assert h.popped + [h.q[0]] + h.q[1..] == h.popped + h.q;
      }
    }
  }
}
