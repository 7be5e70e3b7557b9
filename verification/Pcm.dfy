/** PCM formats and sample conversion (internal/audio/format.go). Samples are reals. */
module Pcm {
  import opened Bytes
  import opened Options
  import opened Arith
  import opened FrameMaps
  import opened Seqs

  datatype Codec = Pcm16 | Pcm24 | Pcm32 | Float32

  datatype Spec = Spec(rate: nat, channels: nat, blockAlign: nat, codec: Codec)

  function SampleSize(c: Codec): nat {
    match c
    case Pcm16 => 2
    case Pcm24 => 3
    case Pcm32 => 4
    case Float32 => 4
  }

  predicate ValidSpec(s: Spec) {
    && 8000 <= s.rate <= 384000
    && 1 <= s.channels <= 8
    && s.blockAlign >= s.channels * SampleSize(s.codec)
  }

  // Format blobs

  const FORMAT_SIZE := 18
  const TAG_PCM := 0x0001
  const TAG_FLOAT := 0x0003
  const TAG_EXTENSIBLE := 0xfffe
  const SUBTYPE_TAIL: seq<Byte> := [0x00, 0x00, 0x10, 0x00, 0x80, 0x00, 0x00, 0xaa, 0x00, 0x38, 0x9b, 0x71]

  function CodecOf(raw: seq<Byte>): Option<Codec>
    requires |raw| >= FORMAT_SIZE
  {
    var plain: int := GetLE16(raw[0..2]);
    var tag := if plain == TAG_EXTENSIBLE && |raw| >= 40 && raw[28..40] == SUBTYPE_TAIL
               then GetLE32(raw[24..28]) as int % 0x1_0000 else plain;
    var bits: int := GetLE16(raw[14..16]);
    if tag == TAG_PCM then
      if bits == 16 then Some(Pcm16) else if bits == 24 then Some(Pcm24) else if bits == 32 then Some(Pcm32) else None
    else if tag == TAG_FLOAT && bits == 32 then Some(Float32)
    else None
  }

  /** parsePCMSpec: formats that cannot be decoded exactly are rejected. */
  function ParseSpec(raw: seq<Byte>): (r: Option<Spec>)
    ensures r.Some? ==> ValidSpec(r.value)
  {
    if |raw| < FORMAT_SIZE || CodecOf(raw) == None then None
    else
      var s := Spec(GetLE32(raw[4..8]), GetLE16(raw[2..4]), GetLE16(raw[12..14]), CodecOf(raw).value);
      if s.rate < 8000 || s.rate > 384000 then None
      else if s.channels < 1 || s.channels > 8 then None
      else if s.blockAlign < s.channels * SampleSize(s.codec) then None
      else Some(s)
  }

  /** newPCM16WaveFormat */
  function Pcm16Format(rate: U32, channels: U16): seq<Byte> {
    PutLE16(TAG_PCM) + PutLE16(channels) + PutLE32(rate) + PutLE32(rate * channels * 2 % TWO32)
    + PutLE16(channels * 2 % 0x1_0000) + PutLE16(16) + [0, 0]
  }

  lemma LE32RoundTrip(v: U32)
    ensures |PutLE32(v)| == 4 && GetLE32(PutLE32(v)) == v
  {
    var b := PutLE32(v);
    assert b[..2] == PutLE16(v % 0x1_0000) && b[2..] == PutLE16(v / 0x1_0000);
  }

  lemma Pcm16Fields(rate: U32, channels: U16)
    ensures var raw := Pcm16Format(rate, channels);
            && |raw| == FORMAT_SIZE && CodecOf(raw) == Some(Pcm16)
            && GetLE32(raw[4..8]) == rate && GetLE16(raw[2..4]) == channels
            && GetLE16(raw[12..14]) == channels * 2 % 0x1_0000
  {
    var raw := Pcm16Format(rate, channels);
    LE32RoundTrip(rate);
    assert |PutLE32(rate * channels * 2 % TWO32)| == 4;
    assert raw[0..2] == PutLE16(TAG_PCM);
    assert raw[2..4] == PutLE16(channels);
    assert raw[4..8] == PutLE32(rate);
    assert raw[12..14] == PutLE16(channels * 2 % 0x1_0000);
    assert raw[14..16] == PutLE16(16);
  }

  /** An announced format is understood by the receiver exactly when its rate and
      channel count are in the supported range, and then as what was meant. */
  lemma AnnouncedFormatUnderstood(rate: U32, channels: U16)
    ensures ParseSpec(Pcm16Format(rate, channels)) ==
            if 8000 <= rate <= 384000 && 1 <= channels <= 8
            then Some(Spec(rate, channels, channels * 2, Pcm16)) else None
  {
    Pcm16Fields(rate, channels);
  }

  // Samples

  function Clamp(v: real): real {
    if v > 1.0 then 1.0 else if v < -1.0 then -1.0 else v
  }

  function Scale(c: Codec): int
    requires c != Float32
  {
    match c
    case Pcm16 => 0x8000
    case Pcm24 => 0x80_0000
    case Pcm32 => 0x8000_0000
  }

  /** The low k bytes of u, least significant first. */
  function PutLE(u: nat, k: nat): (b: seq<Byte>)
    ensures |b| == k
  {
    if k == 0 then [] else [u % 0x100] + PutLE(u / 0x100, k - 1)
  }

  function GetLE(b: seq<Byte>, k: nat): nat
    requires |b| >= k
  {
    if k == 0 then 0 else b[0] as int + 0x100 * GetLE(b[1..], k - 1)
  }

  function Pow256(k: nat): nat {
    if k == 0 then 1 else 0x100 * Pow256(k - 1)
  }

  lemma {:induction false} LERoundTrip(u: nat, k: nat)
    requires u < Pow256(k)
    ensures GetLE(PutLE(u, k), k) == u
  {
    if k > 0 {
      LERoundTrip(u / 0x100, k - 1);
      assert PutLE(u, k)[1..] == PutLE(u / 0x100, k - 1);
    }
  }

  /** n in two's complement. */
  function TwosComplement(c: Codec, n: int): nat
    requires c != Float32 && -Scale(c) <= n < Scale(c)
  {
    if n >= 0 then n else n + 2 * Scale(c)
  }

  function Signed(c: Codec, b: seq<Byte>): int
    requires c != Float32 && |b| >= SampleSize(c)
  {
    var u := GetLE(b, SampleSize(c));
    if u < Scale(c) then u else u - 2 * Scale(c)
  }

  lemma ScaleIsHalf(c: Codec)
    requires c != Float32
    ensures Pow256(SampleSize(c)) == 2 * Scale(c)
  {
    assert Pow256(1) == 0x100 && Pow256(2) == 0x1_0000 && Pow256(3) == 0x100_0000 && Pow256(4) == 0x1_0000_0000;
  }

  lemma SignedRoundTrip(c: Codec, n: int)
    requires c != Float32 && -Scale(c) <= n < Scale(c)
    ensures Signed(c, PutLE(TwosComplement(c, n), SampleSize(c))) == n
  {
    ScaleIsHalf(c);
    LERoundTrip(TwosComplement(c, n), SampleSize(c));
  }

  function Pow2(z: int): real
    decreases if z < 0 then -z else z
  {
    if z == 0 then 1.0 else if z > 0 then 2.0 * Pow2(z - 1) else Pow2(z + 1) / 2.0
  }

  function Magnitude(e: nat, m: nat): real {
    if e == 0 then m as real * Pow2(-149) else (m + 0x80_0000) as real * Pow2(e - 150)
  }

  /** Value of an IEEE 754 single; NaN, infinities and anything beyond 1000 count as 0. */
  function FloatValue(u: nat): real {
    var e, m := u / 0x80_0000 % 0x100, u % 0x80_0000;
    if e == 0xff then 0.0
    else
      var v := if u < 0x8000_0000 then Magnitude(e, m) else -Magnitude(e, m);
      if v > 1000.0 || v < -1000.0 then 0.0 else v
  }

  function Dequantize(c: Codec, n: int): real
    requires c != Float32
  {
    match c
    case Pcm16 => n as real / 32768.0
    case Pcm24 => n as real / 8388608.0
    case Pcm32 => n as real / 2147483648.0
  }

  function DecodeSample(c: Codec, b: seq<Byte>): (v: real)
    requires |b| == SampleSize(c)
    ensures -1.0 <= v <= 1.0
  {
    Clamp(if c == Float32 then FloatValue(GetLE(b, 4)) else Dequantize(c, Signed(c, b)))
  }

  /** math.Round: to nearest, halves away from zero. */
  function Round(x: real): int {
    if x >= 0.0 then (x + 0.5).Floor else -((0.5 - x).Floor)
  }

  function Quantize(c: Codec, w: real): (n: int)
    requires c != Float32 && -1.0 <= w <= 1.0
    ensures -Scale(c) < n < Scale(c)
  {
    match c
    case Pcm16 => Round(w * 32767.0)
    case Pcm24 => Round(w * 8388607.0)
    case Pcm32 => Round(w * 2147483647.0)
  }

  /** `bits` stands for math.Float32bits, which is not part of this model. */
  function EncodeSample(c: Codec, v: real, bits: real -> U32): (b: seq<Byte>)
    ensures |b| == SampleSize(c)
  {
    if c == Float32 then PutLE(bits(Clamp(v)), 4)
    else PutLE(TwosComplement(c, Quantize(c, Clamp(v))), SampleSize(c))
  }

  /** One and a half quantization steps. */
  function Tolerance(c: Codec): real
    requires c != Float32
  {
    match c
    case Pcm16 => 1.5 / 32768.0
    case Pcm24 => 1.5 / 8388608.0
    case Pcm32 => 1.5 / 2147483648.0
  }

  lemma QuantizedNear(c: Codec, w: real)
    requires c != Float32 && -1.0 <= w <= 1.0
    ensures w - Tolerance(c) <= Clamp(Dequantize(c, Quantize(c, w))) <= w + Tolerance(c)
  {
    match c
    case Pcm16 =>
    case Pcm24 =>
    case Pcm32 =>
  }

  /** Encoding and decoding an integer sample loses at most one and a half steps. */
  lemma SampleFidelity(c: Codec, v: real, bits: real -> U32)
    requires c != Float32
    ensures Clamp(v) - Tolerance(c) <= DecodeSample(c, EncodeSample(c, v, bits)) <= Clamp(v) + Tolerance(c)
  {
    SignedRoundTrip(c, Quantize(c, Clamp(v)));
    QuantizedNear(c, Clamp(v));
  }

  // Streams

  lemma SampleInBlock(spec: Spec, c: nat)
    requires ValidSpec(spec) && c < spec.channels
    ensures c * SampleSize(spec.codec) + SampleSize(spec.codec) <= spec.blockAlign
  {
    MulLe(c + 1, spec.channels, SampleSize(spec.codec));
  }

  function DecodeBlock(spec: Spec, block: seq<Byte>): (r: seq<real>)
    requires ValidSpec(spec) && |block| == spec.blockAlign
    ensures |r| == spec.channels
  {
    seq(spec.channels, c requires 0 <= c < spec.channels =>
      SampleInBlock(spec, c);
      DecodeSample(spec.codec, block[c * SampleSize(spec.codec)..c * SampleSize(spec.codec) + SampleSize(spec.codec)]))
  }

  function Decoder(spec: Spec): seq<Byte> -> seq<real>
    requires ValidSpec(spec)
  {
    block => if |block| == spec.blockAlign then DecodeBlock(spec, block) else []
  }

  /** Every whole frame of raw, decoded. */
  function Decoded(raw: seq<Byte>, spec: Spec): seq<real>
    requires ValidSpec(spec)
  {
    FrameMap(Decoder(spec), spec.blockAlign, raw)
  }

  lemma SliceOfBlock(raw: seq<Byte>, g: nat, f: nat, p: nat, size: nat)
    requires (f + 1) * g <= |raw| && p + size <= g
    ensures 0 <= f * g + p + size <= |raw|
    ensures raw[f * g + p..f * g + p + size] == Block(g, raw, f)[p..p + size]
  {
    MulLe(0, f, g);
    SliceOfSlice(raw, f * g, g, p, size);
  }

  lemma SliceOfSlice(s: seq<Byte>, a: nat, g: nat, p: nat, size: nat)
    requires a + g <= |s| && p + size <= g
    ensures s[a..a + g][p..p + size] == s[a + p..a + p + size]
  {
    var t := s[a..a + g];
    var x, y := t[p..p + size], s[a + p..a + p + size];
    forall i | 0 <= i < |x|
      ensures x[i] == y[i]
    {
      assert x[i] == t[p + i] == s[a + (p + i)];
    }
  }

  /** Sample c of the block that starts at base, read from its own bytes. */
  function SampleAt(raw: seq<Byte>, spec: Spec, base: nat, c: nat): (v: real)
    requires ValidSpec(spec) && base + spec.blockAlign <= |raw| && c < spec.channels
    ensures v == DecodeBlock(spec, raw[base..base + spec.blockAlign])[c]
  {
    SampleInBlock(spec, c);
    SliceOfSlice(raw, base, spec.blockAlign, c * SampleSize(spec.codec), SampleSize(spec.codec));
    DecodeSample(spec.codec, raw[base + c * SampleSize(spec.codec)..base + c * SampleSize(spec.codec) + SampleSize(spec.codec)])
  }

  method DecodeFrame(raw: seq<Byte>, spec: Spec, base: nat) returns (frame: seq<real>)
    requires ValidSpec(spec) && base + spec.blockAlign <= |raw|
    ensures frame == DecodeBlock(spec, raw[base..base + spec.blockAlign])
  {
    ghost var whole := DecodeBlock(spec, raw[base..base + spec.blockAlign]);
    hide *;
    frame := [];
    var c := 0;
    while c < spec.channels
      invariant c <= spec.channels && frame == whole[..c]
    {
      frame := frame + [SampleAt(raw, spec, base, c)];
      c := c + 1;
    }
  }

  lemma DecodedStep(raw: seq<Byte>, spec: Spec, f: nat)
    requires ValidSpec(spec) && (f + 1) * spec.blockAlign <= |raw|
    ensures f * spec.blockAlign <= |raw|
    ensures Decoded(raw[..(f + 1) * spec.blockAlign], spec)
         == Decoded(raw[..f * spec.blockAlign], spec) + DecodeBlock(spec, Block(spec.blockAlign, raw, f))
  {
    hide FrameMap;
    hide DecodeBlock;
    FrameMapStep(Decoder(spec), spec.blockAlign, raw, f);
  }

  /** decodePCM: appends the samples of the whole frames of raw. */
  method DecodePCM(dst: seq<real>, raw: seq<Byte>, spec: Spec) returns (out: seq<real>)
    requires ValidSpec(spec)
    ensures out == dst + Decoded(raw, spec)
  {
    hide FrameMap;
    hide DecodeBlock;
    var frames := |raw| / spec.blockAlign;
    out := dst;
    FrameMapShort(Decoder(spec), spec.blockAlign, raw[..0]);
    var f := 0;
    while f < frames
      invariant f <= frames && f * spec.blockAlign <= |raw|
      invariant out == dst + Decoded(raw[..f * spec.blockAlign], spec)
    {
      WholeBlocks(|raw|, spec.blockAlign, f);
      var frame := DecodeFrame(raw, spec, f * spec.blockAlign);
      DecodedStep(raw, spec, f);
      Rebracket(dst, Decoded(raw[..f * spec.blockAlign], spec), frame);
      out := out + frame;
      f := f + 1;
    }
    FrameMapWhole(Decoder(spec), spec.blockAlign, raw, frames);
  }

  lemma DecodedBounds(raw: seq<Byte>, spec: Spec)
    requires ValidSpec(spec)
    ensures |Decoded(raw, spec)| == (|raw| / spec.blockAlign) * spec.channels
  {
    FrameMapLength(Decoder(spec), spec.blockAlign, spec.channels, raw);
  }

  // What the samples mean

  /** Sample c of frame f comes from its own bytes and from nowhere else. */
  lemma DecodedAt(raw: seq<Byte>, spec: Spec, f: nat, c: nat)
    requires ValidSpec(spec) && f < |raw| / spec.blockAlign && c < spec.channels
    ensures var i, o, size := f * spec.channels + c, f * spec.blockAlign + c * SampleSize(spec.codec), SampleSize(spec.codec);
            && 0 <= i < |Decoded(raw, spec)| && 0 <= o && o + size <= |raw|
            && Decoded(raw, spec)[i] == DecodeSample(spec.codec, raw[o..o + size])
  {
    hide FrameMap;
    hide DecodeSample;
    WholeBlocks(|raw|, spec.blockAlign, f);
    SampleInBlock(spec, c);
    SliceOfBlock(raw, spec.blockAlign, f, c * SampleSize(spec.codec), SampleSize(spec.codec));
    DecodedBounds(raw, spec);
    FrameMapAt(Decoder(spec), spec.blockAlign, spec.channels, raw, f);
    MulDiv(|raw| / spec.blockAlign, spec.channels);
    InGroup(|Decoded(raw, spec)|, spec.channels, f, c);
    assert Decoded(raw, spec)[f * spec.channels..(f + 1) * spec.channels][c] == Decoded(raw, spec)[f * spec.channels + c];
  }

  /** The numbers that integer samples stand for: least significant byte first, the last
      byte signed, full scale just below one. */
  lemma IntegerSamples(b: seq<Byte>)
    requires 2 <= |b| <= 4
    ensures var top := if b[|b| - 1] < 128 then b[|b| - 1] as int else b[|b| - 1] as int - 256;
            && (|b| == 2 ==> DecodeSample(Pcm16, b) == (b[0] as int + 256 * top) as real / 32768.0)
            && (|b| == 3 ==> DecodeSample(Pcm24, b) == (b[0] as int + 256 * b[1] as int + 65536 * top) as real / 8388608.0)
            && (|b| == 4 ==> DecodeSample(Pcm32, b)
                             == (b[0] as int + 256 * b[1] as int + 65536 * b[2] as int + 16777216 * top) as real / 2147483648.0)
  {
    assert b[1..][0] == b[1] && b[1..][1..] == b[2..];
    if |b| == 2 {
      GetLETwo(b);
    } else if |b| == 3 {
      GetLETwo(b[1..]);
    } else {
      assert b[2..][0] == b[2] && b[2..][1] == b[3];
      GetLETwo(b[2..]);
      assert GetLE(b[1..], 3) == b[1] as int + 0x100 * GetLE(b[2..], 2);
      assert GetLE(b, 4) == b[0] as int + 0x100 * GetLE(b[1..], 3);
    }
  }

  lemma GetLETwo(b: seq<Byte>)
    requires |b| >= 2
    ensures GetLE(b, 2) == b[0] as int + 256 * b[1] as int
  {
    assert GetLE(b[1..], 1) == b[1] as int + 0x100 * GetLE(b[1..][1..], 0);
  }

  lemma {:induction false} Pow2Next(z: int)
    ensures Pow2(z + 1) == 2.0 * Pow2(z) && Pow2(z) > 0.0
    decreases if z < 0 then -z else z
  {
    if z < 0 {
      Pow2Next(z + 1);
    } else if z > 0 {
      Pow2Next(z - 1);
    }
  }

  /** Single precision: the top bit is the sign. */
  lemma FloatSign(u: nat)
    requires u < 0x8000_0000
    ensures FloatValue(u + 0x8000_0000) == -FloatValue(u)
  {
    assert (u + 0x8000_0000) / 0x80_0000 == u / 0x80_0000 + 0x100;
  }

  lemma MagnitudeLaws(e: nat, m: nat)
    ensures e > 0 ==> Magnitude(e + 1, m) == 2.0 * Magnitude(e, m)
    ensures Magnitude(e, m) >= 0.0 && Magnitude(e, m + 2) - Magnitude(e, m + 1) == Magnitude(e, m + 1) - Magnitude(e, m) > 0.0
  {
    Pow2Next(e - 150);
    Pow2Next(-149);
    hide Pow2;
    if e > 0 {
      Grows((m + 0x80_0000) as real, Pow2(e - 150));
      Doubles((m + 0x80_0000) as real, Pow2(e - 150));
    } else {
      Grows(m as real, Pow2(-149));
    }
  }

  lemma Grows(a: real, p: real)
    requires a >= 0.0 && p > 0.0
    ensures a * p >= 0.0 && (a + 1.0) * p == a * p + p && (a + 2.0) * p == a * p + 2.0 * p
  {
  }

  lemma Doubles(a: real, p: real)
    ensures a * (2.0 * p) == 2.0 * (a * p)
  {
  }

  /** A step of the exponent doubles. */
  lemma FloatDoubles(u: nat)
    requires 0x80_0000 <= u && u + 0x80_0000 < 0x7f80_0000 && FloatValue(u + 0x80_0000) != 0.0
    ensures FloatValue(u + 0x80_0000) == 2.0 * FloatValue(u)
  {
    var e, m := u / 0x80_0000, u % 0x80_0000;
    assert (u + 0x80_0000) / 0x80_0000 == e + 1 && (u + 0x80_0000) % 0x80_0000 == m;
    MagnitudeLaws(e, m);
    hide Magnitude;
  }

  /** Within an exponent the values are evenly spaced. */
  lemma FloatEven(u: nat)
    requires u < 0x7f80_0000 && u % 0x80_0000 + 2 < 0x80_0000 && FloatValue(u + 2) != 0.0
    ensures FloatValue(u + 2) - FloatValue(u + 1) == FloatValue(u + 1) - FloatValue(u) > 0.0
  {
    var e, m := u / 0x80_0000, u % 0x80_0000;
    assert (u + 1) / 0x80_0000 == e && (u + 1) % 0x80_0000 == m + 1;
    assert (u + 2) / 0x80_0000 == e && (u + 2) % 0x80_0000 == m + 2;
    MagnitudeLaws(e, m);
    hide Magnitude;
  }

  /** One is one: with the doubling and the spacing every value in range is determined. */
  lemma FloatOne()
    ensures FloatValue(0x3f80_0000) == 1.0 && FloatValue(0x3fc0_0000) == 1.5 && FloatValue(0) == 0.0
  {
    PowMinus23();
    hide Pow2;
    UnitMagnitude(Pow2(-23));
    hide Magnitude;
  }

  lemma UnitMagnitude(p: real)
    requires p * 0x80_0000 as real == 1.0 && p == Pow2(-23)
    ensures Magnitude(127, 0) == 1.0 && Magnitude(127, 0x40_0000) == 1.5 && Magnitude(0, 0) == 0.0
  {
    hide Pow2;
  }

  lemma PowMinus23()
    ensures Pow2(-23) * 0x80_0000 as real == 1.0
  {
    assert Pow2(-4) == 0.0625;
    assert Pow2(-8) == 0.00390625;
    assert Pow2(-12) * 4096.0 == 1.0;
    assert Pow2(-16) * 65536.0 == 1.0;
    assert Pow2(-20) * 1048576.0 == 1.0;
  }

  /** NaN, infinities and anything beyond a thousand count as silence. */
  lemma FloatGarbage(u: nat)
    requires u < 0x1_0000_0000
    ensures u / 0x80_0000 % 0x100 == 0xff ==> FloatValue(u) == 0.0
    ensures -1000.0 <= FloatValue(u) <= 1000.0
  {
  }

  /** Encoding takes the nearest step, and both signs alike. */
  lemma QuantizeNearest(c: Codec, w: real)
    requires c != Float32 && -1.0 <= w <= 1.0
    ensures -0.5 <= w * (Scale(c) - 1) as real - Quantize(c, w) as real <= 0.5
    ensures Quantize(c, -w) == -Quantize(c, w)
  {
    match c
    case Pcm16 =>
    case Pcm24 =>
    case Pcm32 =>
  }

  /** An accepted format says what its fields say, and its samples are as wide as announced;
      only the float tag means floats. */
  lemma AcceptedFields(raw: seq<Byte>)
    requires ParseSpec(raw).Some?
    ensures |raw| >= 18
    ensures var s := ParseSpec(raw).value;
            && s.channels == raw[2] as int + 256 * raw[3] as int
            && s.rate == raw[4] as int + 256 * raw[5] as int + 65536 * raw[6] as int + 16777216 * raw[7] as int
            && s.blockAlign == raw[12] as int + 256 * raw[13] as int
            && 8 * SampleSize(s.codec) == raw[14] as int + 256 * raw[15] as int
            && (raw[1] == 0 ==> raw[0] == (if s.codec == Float32 then 3 else 1))
            && (raw[1] != 0 ==> raw[0] == 0xfe && raw[1] == 0xff && |raw| >= 40 && raw[25] == 0
                                && raw[24] == if s.codec == Float32 then 3 else 1)
  {
    assert raw[4..8][..2] == raw[4..6] && raw[4..8][2..] == raw[6..8];
    if |raw| >= 40 {
      assert raw[24..28][..2] == raw[24..26] && raw[24..28][2..] == raw[26..28];
    }
  }

  /** The bytes that name the sample type: the first two, or in an extensible format those of
      its subtype. */
  function TypeBytes(raw: seq<Byte>): seq<Byte>
    requires |raw| >= 18
  {
    if raw[0..2] == [0xfe, 0xff] && |raw| >= 40 && raw[28..40] == SUBTYPE_TAIL then raw[24..26] else raw[0..2]
  }

  /** Exactly which formats are accepted: 16, 24 or 32 bits of PCM or 32 of float, plain or
      extensible, at 8 to 384 kHz, in one to eight channels that fit into a block. */
  lemma AcceptedIff(raw: seq<Byte>)
    requires |raw| >= 18
    ensures var channels, rate := raw[2] as int + 256 * raw[3] as int,
                                  raw[4] as int + 256 * raw[5] as int + 65536 * raw[6] as int + 16777216 * raw[7] as int;
            ParseSpec(raw).Some? <==>
              && raw[15] == 0
              && ((TypeBytes(raw) == [1, 0] && raw[14] in {16, 24, 32}) || (TypeBytes(raw) == [3, 0] && raw[14] == 32))
              && 8000 <= rate <= 384000 && 1 <= channels <= 8
              && 8 * (raw[12] as int + 256 * raw[13] as int) >= channels * raw[14] as int
  {
    assert raw[4..8][..2] == raw[4..6] && raw[4..8][2..] == raw[6..8];
    if |raw| >= 40 {
      assert raw[24..28][..2] == raw[24..26] && raw[24..28][2..] == raw[26..28];
      LowHalf(raw[24..28]);
    }
    TagBytes(raw[0..2]);
  }

  lemma TagBytes(b: seq<Byte>)
    requires |b| == 2
    ensures GetLE16(b) == 1 <==> b == [1, 0]
    ensures GetLE16(b) == 3 <==> b == [3, 0]
    ensures GetLE16(b) == 0xfffe <==> b == [0xfe, 0xff]
  {
  }

  lemma LowHalf(b: seq<Byte>)
    requires |b| == 4
    ensures GetLE32(b) as int % 0x1_0000 == GetLE16(b[..2]) as int
    ensures GetLE16(b[..2]) == 1 <==> b[..2] == [1, 0]
    ensures GetLE16(b[..2]) == 3 <==> b[..2] == [3, 0]
  {
    TagBytes(b[..2]);
  }
}
