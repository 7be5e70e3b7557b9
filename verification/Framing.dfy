/** Frames on a byte stream (internal/protocol/protocol.go): written into recycled buffers,
    read back from a stream that may deliver them in any pieces. */
module Framing {
  import opened Bytes
  import opened Frames
  import opened Seqs

  const HEADER := 5
  const MAX_POOLED := 0x1_0000

  /** A frame on the wire: kind, length, payload. */
  function FrameBytes(f: Frame): (b: seq<Byte>)
    ensures |b| == HEADER + |f.payload|
  {
    [f.kind] + PutU32(|f.payload| % TWO32) + f.payload
  }

  function Wire(fs: seq<Frame>): seq<Byte> {
    if fs == [] then [] else FrameBytes(fs[0]) + Wire(fs[1..])
  }

  // Writing

  datatype WriteResult = Written | ShortWrite | WriteError

  method PutHeader(buf: array<Byte>, f: Frame)
    requires buf.Length >= HEADER
    modifies buf
    ensures buf[..HEADER] == [f.kind] + PutU32(|f.payload| % TWO32)
    ensures buf[HEADER..] == old(buf[HEADER..])
  {
    var len: U32 := |f.payload| % TWO32;
    var d := PutU32(len);
    buf[0], buf[1], buf[2], buf[3], buf[4] := f.kind, d[0], d[1], d[2], d[3];
  }

  method CopyAt(buf: array<Byte>, at: nat, data: seq<Byte>)
    requires at + |data| <= buf.Length
    modifies buf
    ensures buf[..at] == old(buf[..at]) && buf[at..at + |data|] == data
  {
    var k := 0;
    while k < |data|
      invariant k <= |data| && buf[..at] == old(buf[..at])
      invariant forall j :: 0 <= j < k ==> buf[at + j] == data[j]
    {
      buf[at + k] := data[k];
      k := k + 1;
    }
  }

  /** WriteFrame: `pooled` is the recycled buffer, holding whatever was last written from
      it; the writer takes `taken` bytes. What reaches it is the frame and nothing else,
      and no large buffer is recycled. */
  method WriteFrame(pooled: array<Byte>, f: Frame, taken: nat, fails: bool)
    returns (out: seq<Byte>, result: WriteResult, back: array?<Byte>)
    modifies pooled
    ensures out == if taken < HEADER + |f.payload| then FrameBytes(f)[..taken] else FrameBytes(f)
    ensures result == if fails then WriteError else if out == FrameBytes(f) then Written else ShortWrite
    ensures back != null ==> back.Length <= MAX_POOLED && (back == pooled || fresh(back))
  {
    var size := HEADER + |f.payload|;
    var buf := pooled;
    if pooled.Length < size {
      buf := new Byte[size](_ => 0);
    }
    PutHeader(buf, f);
    CopyAt(buf, HEADER, f.payload);
    assert buf[..size] == buf[..HEADER] + buf[HEADER..size];
    out := if taken < size then buf[..taken] else buf[..size];
    assert buf[..size][..if taken < size then taken else size] == out;
    result := if fails then WriteError else if taken >= size then Written else ShortWrite;
    back := if buf.Length <= MAX_POOLED then buf else null;
  }

  // Reading

  datatype ReadError = Eof | UnexpectedEof | TooLarge
  datatype Result<T> = Ok(value: T) | Err(error: ReadError)

  /** A stream that delivers its bytes in these pieces, some possibly empty, and then ends. */
  class Source {
    var chunks: seq<seq<Byte>>

    ghost function Rest(): seq<Byte>
      reads this
    {
      Flatten(chunks)
    }

    constructor (chunks: seq<seq<Byte>>)
      ensures Rest() == Flatten(chunks)
    {
      this.chunks := chunks;
    }

    /** One read of at most max bytes; ended once nothing is left. */
    method Read(max: nat) returns (data: seq<Byte>, ended: bool)
      modifies this
      ensures ended <==> old(chunks) == []
      ensures |data| <= max && old(Rest()) == data + Rest()
      ensures |chunks| < |old(chunks)| || |data| == max || ended
      ensures |chunks| <= |old(chunks)|
    {
      if chunks == [] {
        return [], true;
      }
      var c := chunks[0];
      FlattenHead(chunks);
      if |c| <= max {
        data := c;
        chunks := chunks[1..];
      } else {
        data := c[..max];
        chunks := [c[max..]] + chunks[1..];
        assert chunks[1..] == old(chunks)[1..];
        FlattenHead(chunks);
        Rebracket(c[..max], c[max..], Flatten(chunks[1..]));
        assert c[..max] + c[max..] == c;
      }
      ended := false;
    }

    /** io.ReadFull: exactly n bytes, or an error once the stream ends. */
    method ReadFull(n: nat) returns (r: Result<seq<Byte>>)
      modifies this
      ensures r.Ok? <==> |old(Rest())| >= n
      ensures r.Ok? ==> r.value == old(Rest())[..n] && Rest() == old(Rest())[n..]
      ensures r.Err? ==> r.error == (if old(Rest()) == [] then Eof else UnexpectedEof)
    {
      var got := [];
      ghost var all := Rest();
      while |got| < n
        invariant |got| <= n && got + Rest() == all
        decreases n - |got|, |chunks|
      {
        ghost var before, rest := got, Rest();
        var data, ended := Read(n - |got|);
        if ended {
          assert rest == [];
          return Err(if got == [] then Eof else UnexpectedEof);
        }
        Rebracket(before, data, Rest());
        got := got + data;
      }
      assert all[..n] == got && all[n..] == Rest();
      return Ok(got);
    }
  }

  datatype Parsed = Parsed(frame: Frame, rest: seq<Byte>)

  /** Reading one frame from the start of b. */
  function Parse(b: seq<Byte>, maxPayload: U32): Result<Parsed> {
    if |b| < HEADER then Err(if b == [] then Eof else UnexpectedEof)
    else
      var length := GetU32(b[1..HEADER]);
      var rest := b[HEADER..];
      if length > maxPayload then Err(TooLarge)
      else if |rest| < length then Err(if rest == [] then Eof else UnexpectedEof)
      else Ok(Parsed(Frame(b[0], rest[..length]), rest[length..]))
  }

  /** ReadFrameLimit: the frame at the start of the stream, whatever its pieces. */
  method ReadFrameLimit(src: Source, maxPayload: U32) returns (r: Result<Frame>)
    modifies src
    ensures match Parse(old(src.Rest()), maxPayload)
            case Ok(p) => r == Ok(p.frame) && src.Rest() == p.rest
            case Err(e) => r == Err(e)
  {
    ghost var b := src.Rest();
    var header := src.ReadFull(HEADER);
    if header.Err? {
      return Err(header.error);
    }
    assert header.value == b[..HEADER] && header.value[1..] == b[1..HEADER] && header.value[0] == b[0];
    var length := GetU32(header.value[1..]);
    if length > maxPayload {
      return Err(TooLarge);
    }
    var payload := [];
    if length > 0 {
      var body := src.ReadFull(length);
      if body.Err? {
        return Err(body.error);
      }
      payload := body.value;
    }
    return Ok(Frame(header.value[0], payload));
  }

  lemma Parts(kind: Byte, digits: seq<Byte>, payload: seq<Byte>, rest: seq<Byte>)
    requires |digits| == 4
    ensures var b := ([kind] + digits + payload) + rest;
            b[0] == kind && b[1..HEADER] == digits && b[HEADER..] == payload + rest
  {
  }

  /** Reading what was written gives the frame back and leaves the rest; a payload over the
      limit is the only thing that is refused. */
  lemma ParseWritten(f: Frame, rest: seq<Byte>, maxPayload: U32)
    requires |f.payload| < TWO32
    ensures Parse(FrameBytes(f) + rest, maxPayload)
         == if |f.payload| <= maxPayload then Ok(Parsed(f, rest)) else Err(TooLarge)
  {
    hide PutU32;
    hide GetU32;
    LengthDigits(|f.payload|);
    Parts(f.kind, PutU32(|f.payload|), f.payload, rest);
    assert (f.payload + rest)[..|f.payload|] == f.payload && (f.payload + rest)[|f.payload|..] == rest;
  }

  lemma LengthDigits(n: U32)
    ensures |PutU32(n)| == 4 && GetU32(PutU32(n)) == n && n % TWO32 == n
  {
    assert PutU32(n) + [] == PutU32(n);
    U32RoundTrip(n, []);
  }

  predicate Fit(fs: seq<Frame>, maxPayload: U32) {
    forall i :: 0 <= i < |fs| ==> |fs[i].payload| <= maxPayload
  }

  /** Repeated reads of concatenated writes return the same frames in the same order, in
      whatever pieces the stream delivers them, and then the end of the stream. */
  method ReadBack(src: Source, maxPayload: U32, ghost sent: seq<Frame>) returns (got: seq<Frame>, end: ReadError)
    requires src.Rest() == Wire(sent) && Fit(sent, maxPayload)
    modifies src
    ensures got == sent && end == Eof
  {
    got := [];
    ghost var left := sent;
    while true
      invariant got + left == sent && Fit(left, maxPayload) && src.Rest() == Wire(left)
      decreases |left|
    {
      if left != [] {
        ParseWritten(left[0], Wire(left[1..]), maxPayload);
      }
      var r := ReadFrameLimit(src, maxPayload);
      if r.Err? {
        return got, r.error;
      }
      Rebracket(got, [left[0]], left[1..]);
      assert [left[0]] + left[1..] == left;
      got := got + [r.value];
      left := left[1..];
    }
  }

  /** Different lists of frames are different on the wire. */
  lemma {:induction false} WireInjective(a: seq<Frame>, b: seq<Frame>, maxPayload: U32)
    requires Fit(a, maxPayload) && Fit(b, maxPayload) && Wire(a) == Wire(b)
    ensures a == b
  {
    if a != [] && b != [] {
      ParseWritten(a[0], Wire(a[1..]), maxPayload);
      ParseWritten(b[0], Wire(b[1..]), maxPayload);
      WireInjective(a[1..], b[1..], maxPayload);
      assert a == [a[0]] + a[1..] && b == [b[0]] + b[1..];
    }
  }
}
