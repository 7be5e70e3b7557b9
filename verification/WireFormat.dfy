/** Where each field stands on the wire, and in which byte order (internal/protocol/protocol.go,
    internal/filetransfer/filetransfer_windows_send.go, internal/audio/format.go). */
module WireFormat {
  import opened Bytes
  import opened Frames
  import opened RemoteInput
  import Codecs
  import FileChunks
  import Framing
  import MouseLane
  import Pcm

  /** The number these digits write, most significant first. */
  function Value(b: seq<Byte>): nat {
    if b == [] then 0 else Value(b[..|b| - 1]) * 0x100 + b[|b| - 1]
  }

  /** The same digits, least significant first. */
  function Backwards(b: seq<Byte>): seq<Byte> {
    if b == [] then [] else Backwards(b[1..]) + [b[0]]
  }

  lemma ValueSnoc(b: seq<Byte>, x: Byte)
    ensures Value(b + [x]) == Value(b) * 0x100 + x
  {
    assert (b + [x])[..|b|] == b;
  }

  lemma ValueFour(b: seq<Byte>)
    requires |b| == 4
    ensures Value(b) == ((b[0] as int * 0x100 + b[1]) * 0x100 + b[2]) * 0x100 + b[3]
  {
    assert b == [] + [b[0]] + [b[1]] + [b[2]] + [b[3]];
    ValueSnoc([], b[0]);
    ValueSnoc([] + [b[0]], b[1]);
    ValueSnoc([] + [b[0]] + [b[1]], b[2]);
    ValueSnoc([] + [b[0]] + [b[1]] + [b[2]], b[3]);
  }

  lemma Read32(b: seq<Byte>)
    requires |b| == 4
    ensures GetU32(b) == Value(b)
  {
    ValueFour(b);
  }

  /** 32-bit fields are written and read most significant byte first. */
  lemma BigEndian32(v: U32)
    ensures |PutU32(v)| == 4 && Value(PutU32(v)) == v
  {
    assert PutU32(v) + [] == PutU32(v);
    U32RoundTrip(v, []);
    Read32(PutU32(v));
  }

  lemma {:induction false} ValueConcat4(a: seq<Byte>, b: seq<Byte>)
    requires |b| == 4
    ensures Value(a + b) == Value(a) * 0x1_0000_0000 + Value(b)
  {
    assert a + b == a + [b[0]] + [b[1]] + [b[2]] + [b[3]];
    ValueSnoc(a, b[0]);
    ValueSnoc(a + [b[0]], b[1]);
    ValueSnoc(a + [b[0]] + [b[1]], b[2]);
    ValueSnoc(a + [b[0]] + [b[1]] + [b[2]], b[3]);
    ValueFour(b);
  }

  /** So are 64-bit fields. */
  lemma BigEndian64(v: U64)
    ensures |PutU64(v)| == 8 && Value(PutU64(v)) == v
  {
    BigEndian32(v / TWO32);
    BigEndian32(v % TWO32);
    ValueConcat4(PutU32(v / TWO32), PutU32(v % TWO32));
  }

  /** Audio formats are little endian. */
  lemma LittleEndian(v: U16, w: U32)
    ensures |PutLE16(v)| == 2 && Value(Backwards(PutLE16(v))) == v
    ensures |PutLE32(w)| == 4 && Value(Backwards(PutLE32(w))) == w
  {
    var a, b := PutLE16(v), PutLE32(w);
    BackwardsTwo(a);
    BackwardsFour(b);
    ValueSnoc([a[1]], a[0]);
    ValueSnoc([], a[1]);
    assert [] + [a[1]] == [a[1]] && [a[1]] + [a[0]] == [a[1], a[0]];
    ValueFour([b[3], b[2], b[1], b[0]]);
  }

  lemma BackwardsTwo(a: seq<Byte>)
    requires |a| == 2
    ensures Backwards(a) == [a[1], a[0]]
  {
    assert a[1..] == [a[1]] && a[1..][1..] == [];
    assert Backwards(a[1..]) == Backwards([]) + [a[1]];
  }

  lemma BackwardsFour(a: seq<Byte>)
    requires |a| == 4
    ensures Backwards(a) == [a[3], a[2], a[1], a[0]]
  {
    assert a[1..][1..] == [a[2], a[3]];
    BackwardsTwo(a[1..][1..]);
  }

  /** A frame: its kind, the length of its payload in four bytes, the payload. */
  lemma FrameLayout(f: Frame)
    requires |f.payload| < TWO32
    ensures var b := Framing.FrameBytes(f);
            |b| == 5 + |f.payload| && b[0] == f.kind && Value(b[1..5]) == |f.payload| && b[5..] == f.payload
  {
    BigEndian32(|f.payload|);
    hide PutU32;
    hide Value;
    var b := Framing.FrameBytes(f);
    assert b[1..5] == PutU32(|f.payload|);
  }

  /** A signed 32-bit field in two's complement. */
  lemma SignedField(i: I32)
    ensures |PutU32(AsU32(i))| == 4 && Value(PutU32(AsU32(i))) == (if i < 0 then i + TWO32 else i)
  {
    BigEndian32(AsU32(i));
  }

  /** A mouse move: dx, dy. A scroll: its distance. */
  lemma MoveLayout(m: MouseLane.Move, delta: I32)
    ensures var b := Codecs.EncodeMove(m);
            && |b| == 8
            && Value(b[0..4]) == (if m.dx < 0 then m.dx + TWO32 else m.dx)
            && Value(b[4..8]) == (if m.dy < 0 then m.dy + TWO32 else m.dy)
    ensures var b := Codecs.EncodeScroll(delta); |b| == 4 && Value(b) == (if delta < 0 then delta + TWO32 else delta)
  {
    SignedField(m.dx);
    SignedField(m.dy);
    SignedField(delta);
    Codecs.Two(PutU32(AsU32(m.dx)), PutU32(AsU32(m.dy)));
  }

  /** A key: virtual key, scan code, flags. A click: the button, and 1 if it goes down. */
  lemma KeyLayout(m: KeyMsg, c: Codecs.Click)
    ensures var b := Codecs.EncodeKey(m);
            |b| == 12 && Value(b[0..4]) == m.vk && Value(b[4..8]) == m.scan && Value(b[8..12]) == m.flags
    ensures var b := Codecs.EncodeClick(c); |b| == 2 && b[0] == c.button && (b[1] == 1 <==> c.pressed)
  {
    BigEndian32(m.vk);
    BigEndian32(m.scan);
    BigEndian32(m.flags);
    Codecs.Three(PutU32(m.vk), PutU32(m.scan), PutU32(m.flags));
  }

  /** Clipboard text: its sequence number, then the text. */
  lemma ClipboardLayout(m: Codecs.ClipboardSync)
    ensures var b := Codecs.EncodeClipboard(m); |b| == 4 + |m.text| && Value(b[0..4]) == m.n && b[4..] == m.text
  {
    BigEndian32(m.n);
    var b := Codecs.EncodeClipboard(m);
    assert b[0..4] == PutU32(m.n);
  }

  /** A file chunk: transfer, file, offset in eight bytes, data. */
  lemma ChunkLayout(c: FileChunks.Chunk)
    ensures var b := FileChunks.Encode(c);
            && |b| == 16 + |c.data| && Value(b[0..4]) == c.id && Value(b[4..8]) == c.file
            && Value(b[8..16]) == c.offset && b[16..] == c.data
  {
    BigEndian32(c.id);
    BigEndian32(c.file);
    BigEndian64(c.offset);
    FileChunks.Fields(PutU32(c.id), PutU32(c.file), PutU64(c.offset), c.data);
  }

  /** A PCM format blob, as WAVEFORMATEX lays it out. */
  lemma FormatLayout(rate: U32, channels: U16)
    requires rate * channels * 2 < TWO32 && channels < 0x8000
    ensures var b := Pcm.Pcm16Format(rate, channels);
            && |b| == 18
            && Value(Backwards(b[0..2])) == 1                      // PCM
            && Value(Backwards(b[2..4])) == channels
            && Value(Backwards(b[4..8])) == rate
            && Value(Backwards(b[8..12])) == rate * channels * 2   // bytes a second
            && Value(Backwards(b[12..14])) == channels * 2         // bytes a frame
            && Value(Backwards(b[14..16])) == 16                   // bits a sample
            && b[16..] == [0, 0]
  {
    var bytes: U32 := rate * channels * 2;
    FormatParts(rate, channels, bytes);
    hide Pcm.Pcm16Format;
    FieldsRead(channels, rate, bytes);
  }

  lemma FormatParts(rate: U32, channels: U16, bytes: U32)
    requires rate * channels * 2 == bytes && channels < 0x8000
    ensures Pcm.Pcm16Format(rate, channels) == Blob(channels, rate, bytes)
  {
    assert bytes % TWO32 == bytes && channels * 2 % 0x1_0000 == channels * 2;
  }

  function Blob(channels: U16, rate: U32, bytes: U32): seq<Byte>
    requires channels < 0x8000
  {
    PutLE16(1) + PutLE16(channels) + PutLE32(rate) + PutLE32(bytes) + PutLE16(channels * 2) + PutLE16(16) + [0, 0]
  }

  lemma FieldsRead(channels: U16, rate: U32, bytes: U32)
    requires channels < 0x8000
    ensures var b := Blob(channels, rate, bytes);
            && |b| == 18 && Value(Backwards(b[0..2])) == 1 && Value(Backwards(b[2..4])) == channels
            && Value(Backwards(b[4..8])) == rate && Value(Backwards(b[8..12])) == bytes
            && Value(Backwards(b[12..14])) == channels * 2 && Value(Backwards(b[14..16])) == 16 && b[16..] == [0, 0]
  {
    LittleEndian(1, rate);
    LittleEndian(channels, bytes);
    LittleEndian(channels * 2, 0);
    LittleEndian(16, 0);
    Slices(PutLE16(1), PutLE16(channels), PutLE32(rate), PutLE32(bytes), PutLE16(channels * 2), PutLE16(16));
  }

  lemma Slices(a: seq<Byte>, c: seq<Byte>, r: seq<Byte>, s: seq<Byte>, g: seq<Byte>, n: seq<Byte>)
    requires |a| == |c| == |g| == |n| == 2 && |r| == |s| == 4
    ensures var b := a + c + r + s + g + n + [0, 0];
            && |b| == 18 && b[0..2] == a && b[2..4] == c && b[4..8] == r && b[8..12] == s
            && b[12..14] == g && b[14..16] == n && b[16..] == [0, 0]
  {
  }
}
