/** The streaming resampler (internal/audio/resample.go) against a batch definition.
    Samples and positions are real numbers. */
module Resampler {
  import opened Arith
  import opened Seqs

  /** 4-point Catmull-Rom interpolation between y1 and y2. */
  function Cubic(y0: real, y1: real, y2: real, y3: real, t: real): real {
    var a := -0.5 * y0 + 1.5 * y1 - 1.5 * y2 + 0.5 * y3;
    var b := y0 - 2.5 * y1 + 2.0 * y2 - 0.5 * y3;
    var c := -0.5 * y0 + 0.5 * y2;
    ((a * t + b) * t + c) * t + y1
  }

  /** The curve passes through its two inner points and reproduces straight lines. */
  lemma CubicMeaning(y0: real, y1: real, y2: real, y3: real, p: real, q: real, t: real)
    ensures Cubic(y0, y1, y2, y3, 0.0) == y1
    ensures Cubic(y0, y1, y2, y3, 1.0) == y2
    ensures Cubic(p - q, p, p + q, p + 2.0 * q, t) == p + q * t
  {
    assert -0.5 * (p - q) + 1.5 * p - 1.5 * (p + q) + 0.5 * (p + 2.0 * q) == 0.0;
    assert (p - q) - 2.5 * p + 2.0 * (p + q) - 0.5 * (p + 2.0 * q) == 0.0;
    assert -0.5 * (p - q) + 0.5 * (p + q) == q;
  }

  // The batch definition

  /** One silent frame of history, then the input. */
  function WithSilence(input: seq<real>, ch: nat): seq<real> {
    seq(ch, _ => 0.0) + input
  }

  /** Read position of output frame k, in frames of WithSilence(input). */
  function Position(k: nat, src: nat, dst: nat): real
    requires dst > 0
  {
    1.0 + (k * src) as real / dst as real
  }

  /** The output frame at position p: frames floor(p)-1 .. floor(p)+2 are read. */
  predicate Readable(h: seq<real>, ch: nat, p: real) {
    ch > 0 && 1 <= p.Floor && p.Floor + 2 < |h| / ch
  }

  function Sample(h: seq<real>, ch: nat, p: real, c: nat): real
    requires Readable(h, ch, p) && c < ch
  {
    var i := p.Floor;
    InGroup(|h|, ch, i - 1, c);
    InGroup(|h|, ch, i, c);
    InGroup(|h|, ch, i + 1, c);
    InGroup(|h|, ch, i + 2, c);
    Cubic(h[(i - 1) * ch + c], h[i * ch + c], h[(i + 1) * ch + c], h[(i + 2) * ch + c], p - i as real)
  }

  function OutFrame(h: seq<real>, ch: nat, p: real): (f: seq<real>)
    requires Readable(h, ch, p)
    ensures |f| == ch
  {
    seq(ch, c requires 0 <= c < ch => Sample(h, ch, p, c))
  }

  /** How many output frames n input frames are worth. */
  function Due(n: nat, src: nat, dst: nat): nat
    requires src > 0
  {
    if n < 2 then 0 else CeilDiv((n - 2) * dst, src)
  }

  /** Exactly the frames before Due can be read. */
  lemma DueIsReadable(n: nat, src: nat, dst: nat, k: nat)
    requires src > 0 && dst > 0
    ensures k < Due(n, src, dst) <==> Position(k, src, dst).Floor + 2 < n + 1
    ensures Position(k, src, dst) >= 1.0
  {
    var x := (k * src) as real / dst as real;
    assert x >= 0.0;
    assert Position(k, src, dst).Floor == x.Floor + 1;
    RatioLess(k * src, dst, n - 2);
    assert x.Floor < n - 2 <==> x < (n - 2) as real;
    if n >= 2 {
      CeilDivLess((n - 2) * dst, src, k);
    } else {
      assert x.Floor >= 0;
    }
  }

  lemma SilentFrame(input: seq<real>, ch: nat)
    requires ch > 0
    ensures |WithSilence(input, ch)| / ch == |input| / ch + 1
  {
    DivLess(ch + |input|, ch, 1);
  }

  /** The first k output frames can all be read from h. */
  ghost predicate AllReadable(h: seq<real>, ch: nat, src: nat, dst: nat, k: nat)
    requires dst > 0
  {
    forall j: nat :: j < k ==> Readable(h, ch, Position(j, src, dst))
  }

  lemma DueAllReadable(input: seq<real>, ch: nat, src: nat, dst: nat, k: nat)
    requires ch > 0 && src > 0 && dst > 0 && k <= Due(|input| / ch, src, dst)
    ensures AllReadable(WithSilence(input, ch), ch, src, dst, k)
  {
    SilentFrame(input, ch);
    forall j: nat | j < k
      ensures Readable(WithSilence(input, ch), ch, Position(j, src, dst))
    {
      DueIsReadable(|input| / ch, src, dst, j);
    }
  }

  /** The first k output frames, read from the whole of h. */
  ghost function Batch(h: seq<real>, ch: nat, src: nat, dst: nat, k: nat): seq<real>
    requires dst > 0 && AllReadable(h, ch, src, dst, k)
  {
    if k == 0 then []
    else Batch(h, ch, src, dst, k - 1) + OutFrame(h, ch, Position(k - 1, src, dst))
  }

  /** Everything an input is worth, computed from the whole of it at once. */
  ghost function Resampled(input: seq<real>, ch: nat, src: nat, dst: nat): seq<real>
    requires ch > 0 && src > 0 && dst > 0
  {
    if src == dst then input
    else
      DueAllReadable(input, ch, src, dst, Due(|input| / ch, src, dst));
      Batch(WithSilence(input, ch), ch, src, dst, Due(|input| / ch, src, dst))
  }

  lemma MoreInputMoreDue(a: nat, b: nat, src: nat, dst: nat)
    requires src > 0 && a <= b
    ensures Due(a, src, dst) <= Due(b, src, dst)
  {
    if a >= 2 {
      var k := Due(b, src, dst);
      CeilDivLess((b - 2) * dst, src, k);
      MulLe(a - 2, b - 2, dst);
      CeilDivLess((a - 2) * dst, src, k);
    }
  }

  /** Frames already readable do not depend on what follows. */
  lemma {:induction false} BatchIgnoresLater(h: seq<real>, g: seq<real>, ch: nat, src: nat, dst: nat, k: nat)
    requires dst > 0 && h <= g && AllReadable(h, ch, src, dst, k)
    ensures AllReadable(g, ch, src, dst, k)
    ensures Batch(g, ch, src, dst, k) == Batch(h, ch, src, dst, k)
  {
    if ch > 0 {
      DivMonotone(|h|, |g|, ch);
    }
    if k > 0 {
      BatchIgnoresLater(h, g, ch, src, dst, k - 1);
      var p := Position(k - 1, src, dst);
      assert Readable(h, ch, p) && Readable(g, ch, p);
      SameFrame(h, g, ch, p, p, 0);
    }
  }

  /** A frame read at p from h is the frame read at p - d from h without its first d frames. */
  lemma SameFrame(h: seq<real>, g: seq<real>, ch: nat, p: real, p': real, d: nat)
    requires ch > 0 && p' == p + d as real
    requires Readable(h, ch, p) && Readable(g, ch, p')
    requires forall j :: 0 <= j < |h| && d * ch + j < |g| ==> h[j] == g[d * ch + j]
    ensures OutFrame(h, ch, p) == OutFrame(g, ch, p')
  {
    assert p'.Floor == p.Floor + d;
    forall c | 0 <= c < ch
      ensures Sample(h, ch, p, c) == Sample(g, ch, p', c)
    {
      SameSample(h, g, ch, p, p', d, c);
    }
  }

  lemma SameSample(h: seq<real>, g: seq<real>, ch: nat, p: real, p': real, d: nat, c: nat)
    requires ch > 0 && p' == p + d as real && c < ch
    requires Readable(h, ch, p) && Readable(g, ch, p')
    requires forall j :: 0 <= j < |h| && d * ch + j < |g| ==> h[j] == g[d * ch + j]
    ensures Sample(h, ch, p, c) == Sample(g, ch, p', c)
  {
    var i := p.Floor;
    assert p'.Floor == i + d;
    SameElement(h, g, ch, i - 1, d, c);
    SameElement(h, g, ch, i, d, c);
    SameElement(h, g, ch, i + 1, d, c);
    SameElement(h, g, ch, i + 2, d, c);
  }

  lemma SameElement(h: seq<real>, g: seq<real>, ch: nat, j: nat, d: nat, c: nat)
    requires c < ch && j < |h| / ch && j + d < |g| / ch
    requires forall j :: 0 <= j < |h| && d * ch + j < |g| ==> h[j] == g[d * ch + j]
    ensures j * ch + c < |h| && (j + d) * ch + c < |g| && h[j * ch + c] == g[(j + d) * ch + c]
  {
    InGroup(|h|, ch, j, c);
    InGroup(|g|, ch, j + d, c);
    assert (j + d) * ch + c == d * ch + (j * ch + c);
  }

  // The streaming form

  lemma StepIsOne(src: nat, dst: nat)
    requires dst > 0
    ensures src as real / dst as real == 1.0 <==> src == dst
  {
    var x := src as real / dst as real;
    assert x * dst as real == src as real;
  }

  lemma NextPosition(k: nat, src: nat, dst: nat)
    requires dst > 0
    ensures Position(k + 1, src, dst) == Position(k, src, dst) + src as real / dst as real
  {
    assert ((k + 1) * src) as real == (k * src) as real + src as real;
  }

  lemma FloorShift(p: real, d: int)
    ensures (p + d as real).Floor == p.Floor + d
  {
  }

  /** The buffer is the history h without its first `dropped` frames, and the read
      position is that of output frame k. */
  ghost predicate Aligned(h: seq<real>, ch: nat, src: nat, dst: nat, buf: seq<real>, pos: real, dropped: nat, k: nat) {
    && ch > 0 && src > 0 && dst > 0
    && dropped * ch <= |h|
    && buf == h[dropped * ch..]
    && pos + dropped as real == Position(k, src, dst)
    && pos >= 1.0
  }

  lemma AlignedLength(h: seq<real>, ch: nat, src: nat, dst: nat, buf: seq<real>, pos: real, dropped: nat, k: nat)
    requires Aligned(h, ch, src, dst, buf, pos, dropped, k)
    ensures |buf| / ch == |h| / ch - dropped
    ensures Position(k, src, dst).Floor == pos.Floor + dropped
  {
    DivLess(|h|, ch, dropped);
    FloorShift(pos, dropped);
  }

  /** What can be read from the buffer is what can be read from the whole history. */
  lemma AlignedReads(h: seq<real>, ch: nat, src: nat, dst: nat, buf: seq<real>, pos: real, dropped: nat, k: nat)
    requires Aligned(h, ch, src, dst, buf, pos, dropped, k) && pos.Floor + 2 < |buf| / ch
    ensures Readable(buf, ch, pos) && Readable(h, ch, Position(k, src, dst))
    ensures OutFrame(buf, ch, pos) == OutFrame(h, ch, Position(k, src, dst))
  {
    AlignedLength(h, ch, src, dst, buf, pos, dropped, k);
    SameFrame(buf, h, ch, pos, Position(k, src, dst), dropped);
  }

  /** The loop test of process: more can be read exactly when more is due. */
  lemma AlignedDue(input: seq<real>, ch: nat, src: nat, dst: nat, buf: seq<real>, pos: real, dropped: nat, k: nat)
    requires Aligned(WithSilence(input, ch), ch, src, dst, buf, pos, dropped, k)
    ensures k < Due(|input| / ch, src, dst) <==> pos.Floor + 2 < |buf| / ch
  {
    AlignedLength(WithSilence(input, ch), ch, src, dst, buf, pos, dropped, k);
    SilentFrame(input, ch);
    DueIsReadable(|input| / ch, src, dst, k);
  }

  lemma AlignedTrim(h: seq<real>, ch: nat, src: nat, dst: nat, buf: seq<real>, pos: real, dropped: nat, k: nat, drop: nat)
    requires Aligned(h, ch, src, dst, buf, pos, dropped, k)
    requires drop <= |buf| / ch && drop as real <= pos - 1.0
    ensures drop * ch <= |buf| && |buf[drop * ch..]| / ch == |buf| / ch - drop
    ensures Aligned(h, ch, src, dst, buf[drop * ch..], pos - drop as real, dropped + drop, k)
  {
    DivBounds(|buf|, ch);
    MulLe(drop, |buf| / ch, ch);
    DivLess(|buf|, ch, drop);
    assert (dropped + drop) * ch == dropped * ch + drop * ch;
  }

  lemma AlignedAppend(h: seq<real>, ch: nat, src: nat, dst: nat, buf: seq<real>, pos: real, dropped: nat,
                      k: nat, more: seq<real>)
    requires Aligned(h, ch, src, dst, buf, pos, dropped, k)
    ensures Aligned(h + more, ch, src, dst, buf + more, pos, dropped, k)
  {
  }

  /** Nothing is emitted early: if all k frames can be read, k is at most due. */
  lemma ReadableIsDue(input: seq<real>, ch: nat, src: nat, dst: nat, k: nat)
    requires ch > 0 && src > 0 && dst > 0 && AllReadable(WithSilence(input, ch), ch, src, dst, k)
    ensures k <= Due(|input| / ch, src, dst)
  {
    if k > 0 {
      SilentFrame(input, ch);
      DueIsReadable(|input| / ch, src, dst, k - 1);
      assert Readable(WithSilence(input, ch), ch, Position(k - 1, src, dst));
    }
  }

  /** One output frame: the inner loop over channels. */
  method ReadFrame(buf: seq<real>, ch: nat, pos: real) returns (frame: seq<real>)
    requires Readable(buf, ch, pos)
    ensures frame == OutFrame(buf, ch, pos)
  {
    var i := pos.Floor;
    var t := pos - i as real;
    frame := [];
    var c := 0;
    while c < ch
      invariant c <= ch && |frame| == c
      invariant forall d :: 0 <= d < c ==> frame[d] == Sample(buf, ch, pos, d)
    {
      InGroup(|buf|, ch, i - 1, c);
      InGroup(|buf|, ch, i, c);
      InGroup(|buf|, ch, i + 1, c);
      InGroup(|buf|, ch, i + 2, c);
      frame := frame + [Cubic(buf[(i - 1) * ch + c], buf[i * ch + c], buf[(i + 1) * ch + c], buf[(i + 2) * ch + c], t)];
      c := c + 1;
    }
  }

  /** streamResampler: keeps phase and history across calls. */
  class StreamResampler {
    const channels: nat
    const step: real
    var pos: real
    var buf: seq<real>

    ghost const src: nat
    ghost const dst: nat
    ghost var input: seq<real>    // everything processed so far
    ghost var output: seq<real>   // everything emitted so far
    ghost var dropped: nat        // whole frames already cut from the front
    ghost var emitted: nat        // output frames so far

    ghost predicate InStep(h: seq<real>)
      reads this
    {
      && Aligned(h, channels, src, dst, buf, pos, dropped, emitted)
      && step == src as real / dst as real
    }

    ghost predicate Valid()
      reads this
    {
      && channels > 0 && src > 0 && dst > 0
      && step == src as real / dst as real
      && output == Resampled(input, channels, src, dst)
      && (src != dst ==>
            && InStep(WithSilence(input, channels))
            && emitted == Due(|input| / channels, src, dst)
            && |buf| / channels <= 3)
    }

    constructor (srcRate: nat, dstRate: nat, channels: nat)
      requires srcRate > 0 && dstRate > 0 && channels > 0
      ensures Valid() && input == [] && output == []
      ensures this.channels == channels && src == srcRate && dst == dstRate
    {
      this.channels := channels;
      step := srcRate as real / dstRate as real;
      buf := seq(channels, _ => 0.0);
      pos := 1.0;
      src, dst := srcRate, dstRate;
      input, output, dropped, emitted := [], [], 0, 0;
      new;
      assert WithSilence([], channels) == buf;
      DivUnique(channels, channels, 1);
    }

    /** One iteration of the read loop. */
    method EmitOne(ghost h: seq<real>) returns (frame: seq<real>)
      requires InStep(h) && pos.Floor + 2 < |buf| / channels
      modifies this`pos, this`emitted
      ensures emitted == old(emitted) + 1 && InStep(h)
      ensures Readable(h, channels, Position(old(emitted), src, dst))
      ensures frame == OutFrame(h, channels, Position(old(emitted), src, dst))
    {
      AlignedReads(h, channels, src, dst, buf, pos, dropped, emitted);
      frame := ReadFrame(buf, channels, pos);
      NextPosition(emitted, src, dst);
      pos := pos + step;
      emitted := emitted + 1;
      assert step > 0.0;
    }

    /** The read loop: emits every output frame that has become due. */
    method Emit(dst0: seq<real>) returns (out: seq<real>, ghost made: seq<real>)
      requires InStep(WithSilence(input, channels))
      requires AllReadable(WithSilence(input, channels), channels, src, dst, emitted)
      modifies this`pos, this`emitted
      ensures InStep(WithSilence(input, channels)) && emitted >= old(emitted)
      ensures pos.Floor + 2 >= |buf| / channels
      ensures AllReadable(WithSilence(input, channels), channels, src, dst, emitted)
      ensures out == dst0 + made
      ensures Batch(WithSilence(input, channels), channels, src, dst, old(emitted)) + made
           == Batch(WithSilence(input, channels), channels, src, dst, emitted)
    {
      ghost var h := WithSilence(input, channels);
      ghost var first := Batch(h, channels, src, dst, emitted);
      ghost var due := Due(|input| / channels, src, dst);
      made := [];
      out := dst0;
      while true
        invariant InStep(h) && emitted >= old(emitted)
        invariant AllReadable(h, channels, src, dst, emitted)
        invariant out == dst0 + made
        invariant first + made == Batch(h, channels, src, dst, emitted)
        decreases due - emitted
      {
        if pos.Floor + 2 >= |buf| / channels {
          break;
        }
        AlignedDue(input, channels, src, dst, buf, pos, dropped, emitted);
        var frame := EmitOne(h);
        BatchGrows(h, channels, src, dst, emitted - 1, first, made, frame);
        Rebracket(dst0, made, frame);
        made := made + frame;
        out := out + frame;
      }
    }

    /** Keep one frame of history before the next read position. */
    method Trim(ghost h: seq<real>)
      requires InStep(h) && pos.Floor + 2 >= |buf| / channels
      modifies this`pos, this`buf, this`dropped
      ensures InStep(h) && |buf| / channels <= 3
    {
      var frames := |buf| / channels;
      var drop := pos.Floor - 1;
      if drop > 0 {
        if drop > frames {
          drop := frames;
        }
        AlignedTrim(h, channels, src, dst, buf, pos, dropped, emitted, drop);
        buf := buf[drop * channels..];
        pos := pos - drop as real;
        dropped := dropped + drop;
      }
    }

    /** process: appends the resampled output for `more` to `dst0`. */
    method Process(dst0: seq<real>, more: seq<real>) returns (out: seq<real>)
      requires Valid()
      modifies this
      ensures Valid() && input == old(input) + more
      ensures dst0 <= out && output == old(output) + out[|dst0|..]
    {
      StepIsOne(src, dst);
      ghost var made := more;
      if step == 1.0 {
        input, output := input + more, output + more;
        out := dst0 + more;
      } else {
        out, made := Interpolated(dst0, more);
      }
      assert out[|dst0|..] == made;
    }

    method Interpolated(dst0: seq<real>, more: seq<real>) returns (out: seq<real>, ghost made: seq<real>)
      requires Valid() && src != dst
      modifies this
      ensures Valid() && input == old(input) + more
      ensures out == dst0 + made && output == old(output) + made
    {
      ghost var g := WithSilence(input, channels);
      assert WithSilence(input + more, channels) == g + more;
      DueAllReadable(input, channels, src, dst, emitted);
      BatchIgnoresLater(g, g + more, channels, src, dst, emitted);
      AlignedAppend(g, channels, src, dst, buf, pos, dropped, emitted, more);
      buf := buf + more;
      input := input + more;
      out, made := Emit(dst0);
      AlignedDue(input, channels, src, dst, buf, pos, dropped, emitted);
      ReadableIsDue(input, channels, src, dst, emitted);
      Trim(g + more);
      output := output + made;
    }
  }

  lemma BatchGrows(h: seq<real>, ch: nat, src: nat, dst: nat, k: nat, first: seq<real>, made: seq<real>, frame: seq<real>)
    requires dst > 0 && AllReadable(h, ch, src, dst, k) && Readable(h, ch, Position(k, src, dst))
    requires first + made == Batch(h, ch, src, dst, k) && frame == OutFrame(h, ch, Position(k, src, dst))
    ensures AllReadable(h, ch, src, dst, k + 1)
    ensures first + (made + frame) == Batch(h, ch, src, dst, k + 1)
  {
    Rebracket(first, made, frame);
  }

  /** Chunk boundaries do not matter: however a stream is cut up, processing it
      piece by piece yields the resampling of the whole. */
  method ProcessAll(chunks: seq<seq<real>>, srcRate: nat, dstRate: nat, channels: nat) returns (out: seq<real>)
    requires srcRate > 0 && dstRate > 0 && channels > 0
    ensures out == Resampled(Flatten(chunks), channels, srcRate, dstRate)
  {
    var r := new StreamResampler(srcRate, dstRate, channels);
    out := [];
    var n := 0;
    while n < |chunks|
      invariant n <= |chunks| && r.Valid() && fresh(r)
      invariant r.channels == channels && r.src == srcRate && r.dst == dstRate
      invariant r.input == Flatten(chunks[..n]) && r.output == out
    {
      ghost var before := out;
      out := r.Process(out, chunks[n]);
      assert chunks[..n + 1][..n] == chunks[..n];
      assert out == before + out[|before|..];
      n := n + 1;
    }
    assert chunks[..n] == chunks;
  }
}
