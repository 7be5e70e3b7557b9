/** encodePCM of internal/audio/format.go, which fills a caller's buffer in place, and what
    survives an encode/decode trip. */
module PcmEncode {
  import opened Bytes
  import opened Arith
  import opened FrameMaps
  import opened Pcm

  predicate Unpadded(spec: Spec) {
    ValidSpec(spec) && spec.blockAlign == spec.channels * SampleSize(spec.codec)
  }

  /** The first c samples of a frame, encoded. */
  function Samples(frame: seq<real>, c: nat, codec: Codec, bits: real -> U32): (b: seq<Byte>)
    requires c <= |frame|
    ensures |b| == c * SampleSize(codec)
  {
    if c == 0 then []
    else
      assert c * SampleSize(codec) == (c - 1) * SampleSize(codec) + SampleSize(codec);
      Samples(frame, c - 1, codec, bits) + EncodeSample(codec, frame[c - 1], bits)
  }

  lemma SamplesNext(frame: seq<real>, c: nat, codec: Codec, bits: real -> U32)
    requires c < |frame|
    ensures Samples(frame, c + 1, codec, bits) == Samples(frame, c, codec, bits) + EncodeSample(codec, frame[c], bits)
    ensures (c + 1) * SampleSize(codec) == c * SampleSize(codec) + SampleSize(codec)
  {
  }

  function Encoder(spec: Spec, bits: real -> U32): seq<real> -> seq<Byte>
    requires ValidSpec(spec)
  {
    frame => if |frame| == spec.channels then Samples(frame, spec.channels, spec.codec, bits) else []
  }

  /** Every whole frame of src, encoded. */
  function Encoded(src: seq<real>, spec: Spec, bits: real -> U32): seq<Byte>
    requires ValidSpec(spec)
  {
    FrameMap(Encoder(spec, bits), spec.channels, src)
  }

  lemma {:induction false} SamplesPrefix(frame: seq<real>, c: nat, d: nat, codec: Codec, bits: real -> U32)
    requires c <= d <= |frame|
    ensures Samples(frame, c, codec, bits) <= Samples(frame, d, codec, bits)
    decreases d
  {
    if c < d {
      SamplesPrefix(frame, c, d - 1, codec, bits);
    }
  }

  lemma PrefixSlice(head: seq<Byte>, b: seq<Byte>, t: seq<Byte>, o: nat, size: nat)
    requires head + b <= t && o == |head| && size == |b|
    ensures o + size <= |t| && t[o..o + size] == b
  {
    assert t[..o + size] == head + b;
  }

  /** Sample c of a block sits where the decoder looks for it. */
  lemma SampleAt(frame: seq<real>, c: nat, codec: Codec, bits: real -> U32)
    requires c < |frame|
    ensures var o := c * SampleSize(codec);
            && o + SampleSize(codec) <= |Samples(frame, |frame|, codec, bits)|
            && Samples(frame, |frame|, codec, bits)[o..o + SampleSize(codec)] == EncodeSample(codec, frame[c], bits)
  {
    SamplesPrefix(frame, c + 1, |frame|, codec, bits);
    SamplesNext(frame, c, codec, bits);
    hide Samples;
    hide EncodeSample;
    hide SampleSize;
    PrefixSlice(Samples(frame, c, codec, bits), EncodeSample(codec, frame[c], bits), Samples(frame, |frame|, codec, bits),
                c * SampleSize(codec), SampleSize(codec));
  }

  ghost predicate Close(got: real, meant: real, tolerance: real) {
    Clamp(meant) - tolerance <= got <= Clamp(meant) + tolerance
  }

  /** Sample by sample within the tolerance of the clamped original. */
  ghost predicate Near(got: seq<real>, meant: seq<real>, tolerance: real) {
    && |got| == |meant|
    && forall i :: 0 <= i < |got| ==> Close(got[i], meant[i], tolerance)
  }

  // In place

  /** b with x written over it from o on. */
  function Overlay<T>(b: seq<T>, o: nat, x: seq<T>): (r: seq<T>)
    requires o + |x| <= |b|
    ensures |r| == |b|
  {
    b[..o] + x + b[o + |x|..]
  }

  lemma OverlayGrow<T>(b: seq<T>, o: nat, x: seq<T>, y: seq<T>)
    requires o + |x| + |y| <= |b|
    ensures Overlay(Overlay(b, o, x), o + |x|, y) == Overlay(b, o, x + y)
  {
    var c := Overlay(b, o, x);
    assert c[..o + |x|] == b[..o] + x && c[o + |x| + |y|..] == b[o + |x| + |y|..];
    assert b[..o] + x + y == b[..o] + (x + y);
  }

  /** A buffer of this size takes so many frames. */
  predicate Room(size: nat, spec: Spec, frames: nat) {
    frames > 0 ==> (frames - 1) * spec.blockAlign + spec.channels * SampleSize(spec.codec) <= size
  }

  lemma RoomLess(size: nat, spec: Spec, f: nat, frames: nat)
    requires Room(size, spec, frames) && f <= frames
    ensures Room(size, spec, f)
  {
    MulLe(f - 1, frames - 1, spec.blockAlign);
  }

  lemma RoomFor(size: nat, spec: Spec, f: nat)
    requires Room(size, spec, f + 1)
    ensures 0 <= f * spec.blockAlign && f * spec.blockAlign + spec.channels * SampleSize(spec.codec) <= size
  {
    MulLe(0, f, spec.blockAlign);
  }

  /** Frame g of src, encoded. */
  function FrameCode(src: seq<real>, spec: Spec, bits: real -> U32, g: nat): (s: seq<Byte>)
    requires ValidSpec(spec) && (g + 1) * spec.channels <= |src|
    ensures |s| == spec.channels * SampleSize(spec.codec)
  {
    BlockSplit(src, spec.channels, g);
    Samples(Block(spec.channels, src, g), spec.channels, spec.codec, bits)
  }

  lemma BlockSplit(src: seq<real>, ch: nat, g: nat)
    requires ch > 0 && (g + 1) * ch <= |src|
    ensures 0 <= g * ch <= |src| && src[..(g + 1) * ch] == src[..g * ch] + Block(ch, src, g) && |Block(ch, src, g)| == ch
  {
    assert (g + 1) * ch == g * ch + ch;
    MulLe(0, g, ch);
  }

  /** What the buffer holds after f frames: each frame's samples at the start of its block,
      padding and the rest as they were. */
  function Filled(b: seq<Byte>, src: seq<real>, spec: Spec, bits: real -> U32, f: nat): (r: seq<Byte>)
    requires ValidSpec(spec) && f * spec.channels <= |src| && Room(|b|, spec, f)
    ensures |r| == |b|
  {
    if f == 0 then b
    else
      RoomLess(|b|, spec, f - 1, f);
      RoomFor(|b|, spec, f - 1);
      BlockSplit(src, spec.channels, f - 1);
      Overlay(Filled(b, src, spec, bits, f - 1), (f - 1) * spec.blockAlign, FrameCode(src, spec, bits, f - 1))
  }

  /** Byte i belongs to the samples of frame k. */
  predicate InFrame(spec: Spec, k: nat, i: nat) {
    k * spec.blockAlign <= i < k * spec.blockAlign + spec.channels * SampleSize(spec.codec)
  }

  /** Bytes that belong to no frame's samples stay as they were. */
  lemma {:induction false} PaddingStays(b: seq<Byte>, src: seq<real>, spec: Spec, bits: real -> U32, f: nat, i: nat)
    requires ValidSpec(spec) && f * spec.channels <= |src| && Room(|b|, spec, f)
    requires i < |b| && forall k: nat :: k < f ==> !InFrame(spec, k, i)
    ensures Filled(b, src, spec, bits, f)[i] == b[i]
  {
    hide FrameCode;
    hide Overlay;
    hide SampleSize;
    if f > 0 {
      RoomLess(|b|, spec, f - 1, f);
      RoomFor(|b|, spec, f - 1);
      BlockSplit(src, spec.channels, f - 1);
      PaddingStays(b, src, spec, bits, f - 1, i);
      assert !InFrame(spec, f - 1, i);
      OverlayAt(Filled(b, src, spec, bits, f - 1), (f - 1) * spec.blockAlign, FrameCode(src, spec, bits, f - 1), i);
    }
  }

  lemma OverlayAt<T>(b: seq<T>, o: nat, x: seq<T>, i: nat)
    requires o + |x| <= |b| && i < |b|
    ensures !(o <= i < o + |x|) ==> Overlay(b, o, x)[i] == b[i]
  {
  }

  lemma OverlayEnds<T>(b: seq<T>, o: nat, x: seq<T>, end: nat)
    requires o + |x| <= end <= |b|
    ensures Overlay(b, o, x)[..o] == b[..o]
    ensures Overlay(b, o, x)[..end] == b[..o] + (x + b[o + |x|..end])
    ensures Overlay(b, o, x)[o..end] == x + b[o + |x|..end]
  {
    var r := Overlay(b, o, x);
    assert r[..o + |x|] == b[..o] + x && r[o + |x|..end] == b[o + |x|..end];
    assert r[..end] == r[..o + |x|] + r[o + |x|..end];
    assert r[..end][o..] == r[o..end];
  }

  lemma BlockEnds(size: nat, spec: Spec, f: nat)
    requires ValidSpec(spec) && (f + 1) * spec.blockAlign <= size
    ensures f * spec.blockAlign + spec.blockAlign == (f + 1) * spec.blockAlign && f * spec.blockAlign >= 0
    ensures Room(size, spec, f + 1) && Room(size, spec, f)
  {
    MulLe(0, f, spec.blockAlign);
    RoomLess(size, spec, f, f + 1);
  }

  /** One frame more: its samples and the padding of its block come after what was there. */
  lemma FilledNext(b: seq<Byte>, src: seq<real>, spec: Spec, bits: real -> U32, g: nat) returns (pad: seq<Byte>)
    requires ValidSpec(spec) && (g + 1) * spec.channels <= |src| && (g + 1) * spec.blockAlign <= |b|
    ensures 0 <= g * spec.channels <= |src| && 0 <= g * spec.blockAlign <= |b|
    ensures Room(|b|, spec, g + 1) && Room(|b|, spec, g)
    ensures |FrameCode(src, spec, bits, g)| + |pad| == spec.blockAlign
    ensures Filled(b, src, spec, bits, g + 1)[..(g + 1) * spec.blockAlign]
         == Filled(b, src, spec, bits, g)[..g * spec.blockAlign] + (FrameCode(src, spec, bits, g) + pad)
  {
    hide FrameCode;
    hide Overlay;
    BlockEnds(|b|, spec, g);
    BlockSplit(src, spec.channels, g);
    var o, end := g * spec.blockAlign, (g + 1) * spec.blockAlign;
    var before := Filled(b, src, spec, bits, g);
    OverlayEnds(before, o, FrameCode(src, spec, bits, g), end);
    pad := before[o + |FrameCode(src, spec, bits, g)|..end];
  }

  /** In an unpadded buffer of exactly the right size nothing but the encoding is left. */
  ghost predicate Exact(b: seq<Byte>, src: seq<real>, spec: Spec, bits: real -> U32, f: nat)
    requires ValidSpec(spec) && f * spec.channels <= |src| && f * spec.blockAlign <= |b| && Room(|b|, spec, f)
  {
    Filled(b, src, spec, bits, f)[..f * spec.blockAlign] == Encoded(src[..f * spec.channels], spec, bits)
  }

  lemma ExactNext(b: seq<Byte>, src: seq<real>, spec: Spec, bits: real -> U32, g: nat)
    requires Unpadded(spec) && (g + 1) * spec.channels <= |src| && (g + 1) * spec.blockAlign <= |b|
    requires g * spec.channels <= |src| && g * spec.blockAlign <= |b| && Room(|b|, spec, g) && Room(|b|, spec, g + 1)
    requires Exact(b, src, spec, bits, g)
    ensures Exact(b, src, spec, bits, g + 1)
  {
    hide FrameCode;
    hide Room;
    hide Filled;
    hide Encoded;
    var pad := FilledNext(b, src, spec, bits, g);
    EncodedNext(src, spec, bits, g);
    Attach(Filled(b, src, spec, bits, g)[..g * spec.blockAlign], FrameCode(src, spec, bits, g), pad);
  }

  lemma ExactNone(b: seq<Byte>, src: seq<real>, spec: Spec, bits: real -> U32)
    requires ValidSpec(spec)
    ensures Exact(b, src, spec, bits, 0)
  {
    FrameMapShort(Encoder(spec, bits), spec.channels, src[..0]);
  }

  lemma {:induction false} FilledExact(b: seq<Byte>, src: seq<real>, spec: Spec, bits: real -> U32, f: nat)
    requires Unpadded(spec) && f * spec.channels <= |src| && f * spec.blockAlign <= |b| && Room(|b|, spec, f)
    ensures Exact(b, src, spec, bits, f)
  {
    hide SampleSize;
    if f == 0 {
      ExactNone(b, src, spec, bits);
    } else {
      hide Exact;
      hide Filled;
      hide Encoded;
      hide Room;
      FrameBefore(|b|, src, spec, f - 1);
      FilledExact(b, src, spec, bits, f - 1);
      ExactNext(b, src, spec, bits, f - 1);
    }
  }

  lemma Attach<T>(a: seq<T>, x: seq<T>, y: seq<T>)
    ensures |y| == 0 ==> a + (x + y) == a + x
  {
    if |y| == 0 {
      assert x + y == x;
    }
  }

  lemma EncodedNext(src: seq<real>, spec: Spec, bits: real -> U32, g: nat)
    requires ValidSpec(spec) && (g + 1) * spec.channels <= |src|
    ensures 0 <= g * spec.channels <= |src|
    ensures Encoded(src[..(g + 1) * spec.channels], spec, bits)
         == Encoded(src[..g * spec.channels], spec, bits) + FrameCode(src, spec, bits, g)
  {
    hide FrameMap;
    hide Samples;
    BlockSplit(src, spec.channels, g);
    FrameMapStep(Encoder(spec, bits), spec.channels, src, g);
  }

  /** The block of a frame: its samples, then whatever padding there was. */
  lemma CodedInBlock(frame: seq<real>, spec: Spec, bits: real -> U32, pad: seq<Byte>, c: nat)
    requires ValidSpec(spec) && |frame| == spec.channels && c < |frame|
    requires |Samples(frame, |frame|, spec.codec, bits) + pad| == spec.blockAlign
    ensures DecodeBlock(spec, Samples(frame, |frame|, spec.codec, bits) + pad)[c]
         == DecodeSample(spec.codec, EncodeSample(spec.codec, frame[c], bits))
  {
    hide DecodeSample;
    hide EncodeSample;
    SampleInBlock(spec, c);
    SampleAt(frame, c, spec.codec, bits);
    hide Samples;
    var o := c * SampleSize(spec.codec);
    SliceOfFront(Samples(frame, |frame|, spec.codec, bits), pad, o, o + SampleSize(spec.codec));
  }

  lemma SliceOfFront<T>(a: seq<T>, b: seq<T>, i: nat, j: nat)
    requires i <= j <= |a|
    ensures (a + b)[i..j] == a[i..j]
  {
  }

  lemma BlockCoded(frame: seq<real>, spec: Spec, bits: real -> U32, pad: seq<Byte>)
    requires ValidSpec(spec) && spec.codec != Float32 && |frame| == spec.channels
    requires |Samples(frame, |frame|, spec.codec, bits) + pad| == spec.blockAlign
    ensures Near(DecodeBlock(spec, Samples(frame, |frame|, spec.codec, bits) + pad), frame, Tolerance(spec.codec))
  {
    hide Samples;
    hide DecodeSample;
    hide EncodeSample;
    hide Tolerance;
    var block := Samples(frame, |frame|, spec.codec, bits) + pad;
    forall c | 0 <= c < |frame|
      ensures Close(DecodeBlock(spec, block)[c], frame[c], Tolerance(spec.codec))
    {
      CodedInBlock(frame, spec, bits, pad, c);
      SampleFidelity(spec.codec, frame[c], bits);
      hide DecodeBlock;
    }
  }

  lemma FrameCoded(src: seq<real>, spec: Spec, bits: real -> U32, pad: seq<Byte>, g: nat)
    requires ValidSpec(spec) && spec.codec != Float32 && (g + 1) * spec.channels <= |src|
    requires |FrameCode(src, spec, bits, g) + pad| == spec.blockAlign
    ensures Near(DecodeBlock(spec, FrameCode(src, spec, bits, g) + pad), Block(spec.channels, src, g), Tolerance(spec.codec))
  {
    hide Samples;
    hide DecodeBlock;
    BlockSplit(src, spec.channels, g);
    BlockCoded(Block(spec.channels, src, g), spec, bits, pad);
  }

  lemma NearJoin(a: seq<real>, b: seq<real>, x: seq<real>, y: seq<real>, tolerance: real)
    requires Near(a, x, tolerance) && Near(b, y, tolerance)
    ensures Near(a + b, x + y, tolerance)
  {
  }

  lemma DecodedNext(a: seq<Byte>, block: seq<Byte>, spec: Spec, g: nat)
    requires ValidSpec(spec) && |a| == g * spec.blockAlign && |block| == spec.blockAlign
    ensures Decoded(a + block, spec) == Decoded(a, spec) + DecodeBlock(spec, block)
  {
    hide DecodeBlock;
    FrameMapConcat(Decoder(spec), spec.blockAlign, a, block, g);
    FrameMapOne(Decoder(spec), spec.blockAlign, block);
  }

  lemma NearNext(done: seq<Byte>, block: seq<Byte>, spec: Spec, g: nat, x: seq<real>, y: seq<real>, tolerance: real)
    requires ValidSpec(spec) && |done| == g * spec.blockAlign && |block| == spec.blockAlign
    requires Near(Decoded(done, spec), x, tolerance) && Near(DecodeBlock(spec, block), y, tolerance)
    ensures Near(Decoded(done + block, spec), x + y, tolerance)
  {
    hide Decoded;
    hide DecodeBlock;
    hide Near;
    DecodedNext(done, block, spec, g);
    NearJoin(Decoded(done, spec), DecodeBlock(spec, block), x, y, tolerance);
  }

  ghost predicate Recovered(b: seq<Byte>, src: seq<real>, spec: Spec, bits: real -> U32, f: nat)
    requires ValidSpec(spec) && spec.codec != Float32
    requires f * spec.channels <= |src| && f * spec.blockAlign <= |b| && Room(|b|, spec, f)
  {
    Near(Decoded(Filled(b, src, spec, bits, f)[..f * spec.blockAlign], spec), src[..f * spec.channels], Tolerance(spec.codec))
  }

  lemma RecoveredNext(b: seq<Byte>, src: seq<real>, spec: Spec, bits: real -> U32, g: nat)
    requires ValidSpec(spec) && spec.codec != Float32
    requires (g + 1) * spec.channels <= |src| && (g + 1) * spec.blockAlign <= |b|
    requires g * spec.channels <= |src| && g * spec.blockAlign <= |b| && Room(|b|, spec, g) && Room(|b|, spec, g + 1)
    requires Recovered(b, src, spec, bits, g)
    ensures Recovered(b, src, spec, bits, g + 1)
  {
    hide FrameMap;
    hide FrameCode;
    hide DecodeBlock;
    hide Tolerance;
    hide Room;
    hide Filled;
    hide Decoded;
    hide Near;
    hide Block;
    var pad := FilledNext(b, src, spec, bits, g);
    FrameCoded(src, spec, bits, pad, g);
    BlockSplit(src, spec.channels, g);
    hide ValidSpec;
    hide SampleSize;
    NearNext(Filled(b, src, spec, bits, g)[..g * spec.blockAlign], FrameCode(src, spec, bits, g) + pad, spec, g,
             src[..g * spec.channels], Block(spec.channels, src, g), Tolerance(spec.codec));
  }

  lemma FrameBefore(size: nat, src: seq<real>, spec: Spec, g: nat)
    requires ValidSpec(spec) && (g + 1) * spec.channels <= |src| && (g + 1) * spec.blockAlign <= size
    ensures g * spec.channels <= |src| && g * spec.blockAlign <= size && Room(size, spec, g)
  {
    BlockEnds(size, spec, g);
    BlockSplit(src, spec.channels, g);
  }

  lemma {:induction false} AllRecovered(b: seq<Byte>, src: seq<real>, spec: Spec, bits: real -> U32, f: nat)
    requires ValidSpec(spec) && spec.codec != Float32
    requires f * spec.channels <= |src| && f * spec.blockAlign <= |b| && Room(|b|, spec, f)
    ensures Recovered(b, src, spec, bits, f)
  {
    if f == 0 {
      hide Tolerance;
      FrameMapShort(Decoder(spec), spec.blockAlign, b[..0]);
    } else {
      hide Recovered;
      hide Filled;
      hide Room;
      FrameBefore(|b|, src, spec, f - 1);
      AllRecovered(b, src, spec, bits, f - 1);
      RecoveredNext(b, src, spec, bits, f - 1);
    }
  }

  /** Whatever the padding: decoding the blocks of a filled buffer gives back every frame,
      clamped, to within one and a half quantization steps. */
  lemma FilledFidelity(b: seq<Byte>, src: seq<real>, spec: Spec, bits: real -> U32, f: nat)
    requires ValidSpec(spec) && spec.codec != Float32
    requires f * spec.channels <= |src| && f * spec.blockAlign <= |b| && Room(|b|, spec, f)
    ensures Recovered(b, src, spec, bits, f)
  {
    AllRecovered(b, src, spec, bits, f);
  }

  /** Decoding what encodePCM produced gives back every whole frame, clamped, to
      within one and a half quantization steps. */
  lemma StreamFidelity(src: seq<real>, spec: Spec, bits: real -> U32, n: nat)
    requires Unpadded(spec) && spec.codec != Float32
    requires n * spec.channels <= |src| < n * spec.channels + spec.channels
    ensures Near(Decoded(Encoded(src, spec, bits), spec), src[..n * spec.channels], Tolerance(spec.codec))
  {
    hide FrameMap;
    hide Near;
    hide Filled;
    hide Room;
    hide Tolerance;
    hide Blank;
    DivUnique(|src|, spec.channels, n);
    FrameMapWhole(Encoder(spec, bits), spec.channels, src, n);
    assert Encoded(src[..n * spec.channels], spec, bits) == Encoded(src, spec, bits);
    hide Encoded;
    hide Decoded;
    var b := Blank(spec, n);
    hide ValidSpec;
    AllRecovered(b, src, spec, bits, n);
    FilledExact(b, src, spec, bits, n);
  }

  function Blank(spec: Spec, n: nat): (b: seq<Byte>)
    requires ValidSpec(spec)
    ensures |b| == n * spec.blockAlign && Room(|b|, spec, n)
  {
    MulLe(0, n, spec.blockAlign);
    var b: seq<Byte> := seq(n * spec.blockAlign, _ => 0);
    assert Room(|b|, spec, n) by {
      if n > 0 {
        BlockEnds(|b|, spec, n - 1);
      }
    }
    b
  }

  // The loops

  method PutBytes(dst: array<Byte>, o: nat, x: seq<Byte>)
    requires o + |x| <= dst.Length
    modifies dst
    ensures dst[..] == Overlay(old(dst[..]), o, x)
  {
    var i := 0;
    while i < |x|
      invariant i <= |x|
      invariant forall j :: 0 <= j < i ==> dst[o + j] == x[j]
      invariant forall j :: 0 <= j < dst.Length && !(o <= j < o + i) ==> dst[j] == old(dst[j])
    {
      dst[o + i] := x[i];
      i := i + 1;
    }
  }

  method PutSample(dst: array<Byte>, ghost b: seq<Byte>, base: nat, frame: seq<real>, c: nat, codec: Codec,
                   bits: real -> U32)
    requires c < |frame| && |b| == dst.Length && base + |frame| * SampleSize(codec) <= dst.Length
    requires base + c * SampleSize(codec) <= dst.Length && dst[..] == Overlay(b, base, Samples(frame, c, codec, bits))
    modifies dst
    ensures base + (c + 1) * SampleSize(codec) <= dst.Length
    ensures dst[..] == Overlay(b, base, Samples(frame, c + 1, codec, bits))
  {
    hide Overlay;
    MulLe(c + 1, |frame|, SampleSize(codec));
    SamplesNext(frame, c, codec, bits);
    hide Samples;
    hide EncodeSample;
    hide SampleSize;
    var o := base + c * SampleSize(codec);
    PutBytes(dst, o, EncodeSample(codec, frame[c], bits));
    OverlayGrow(b, base, Samples(frame, c, codec, bits), EncodeSample(codec, frame[c], bits));
  }

  method EncodeFrame(dst: array<Byte>, base: nat, frame: seq<real>, spec: Spec, bits: real -> U32)
    requires ValidSpec(spec) && |frame| == spec.channels && base + spec.channels * SampleSize(spec.codec) <= dst.Length
    modifies dst
    ensures dst[..] == Overlay(old(dst[..]), base, Samples(frame, spec.channels, spec.codec, bits))
  {
    OverlayNothing(dst[..], base);
    assert Samples(frame, 0, spec.codec, bits) == [];
    hide Samples;
    hide Overlay;
    hide SampleSize;
    var c := 0;
    while c < spec.channels
      invariant c <= spec.channels && base + c * SampleSize(spec.codec) <= dst.Length
      invariant dst[..] == Overlay(old(dst[..]), base, Samples(frame, c, spec.codec, bits))
    {
      PutSample(dst, old(dst[..]), base, frame, c, spec.codec, bits);
      c := c + 1;
    }
  }

  lemma OverlayNothing<T>(b: seq<T>, o: nat)
    requires o <= |b|
    ensures Overlay(b, o, []) == b
  {
  }

  /** encodePCM: the samples of each whole frame of src go to the start of its block; all
      other bytes of the buffer stay as they were. */
  method EncodePCM(dst: array<Byte>, src: seq<real>, spec: Spec, bits: real -> U32)
    requires ValidSpec(spec) && Room(dst.Length, spec, |src| / spec.channels)
    modifies dst
    ensures (|src| / spec.channels) * spec.channels <= |src|
    ensures dst[..] == Filled(old(dst[..]), src, spec, bits, |src| / spec.channels)
  {
    hide Room;
    hide Filled;
    hide SampleSize;
    FilledNothing(dst[..], src, spec, bits);
    var frames, ch := |src| / spec.channels, spec.channels;
    DivBounds(|src|, ch);
    RoomLess(dst.Length, spec, 0, frames);
    var f := 0;
    while f < frames
      invariant f <= frames && f * ch <= |src| && Room(dst.Length, spec, f)
      invariant dst[..] == Filled(old(dst[..]), src, spec, bits, f)
    {
      WholeBlocks(|src|, ch, f);
      RoomLess(dst.Length, spec, f + 1, frames);
      EncodeNext(dst, old(dst[..]), src, spec, bits, f);
      f := f + 1;
    }
  }

  lemma FilledNothing(b: seq<Byte>, src: seq<real>, spec: Spec, bits: real -> U32)
    requires ValidSpec(spec)
    ensures Room(|b|, spec, 0) && Filled(b, src, spec, bits, 0) == b
  {
  }

  method EncodeNext(dst: array<Byte>, ghost b: seq<Byte>, src: seq<real>, spec: Spec, bits: real -> U32, f: nat)
    requires ValidSpec(spec) && f * spec.channels <= |src| && (f + 1) * spec.channels <= |src|
    requires |b| == dst.Length && Room(|b|, spec, f) && Room(|b|, spec, f + 1)
    requires dst[..] == Filled(b, src, spec, bits, f)
    modifies dst
    ensures dst[..] == Filled(b, src, spec, bits, f + 1)
  {
    hide Samples;
    hide Overlay;
    hide Room;
    RoomFor(dst.Length, spec, f);
    BlockSplit(src, spec.channels, f);
    EncodeFrame(dst, f * spec.blockAlign, Block(spec.channels, src, f), spec, bits);
  }

  /** The payload of a data frame: a new buffer of exactly the whole frames. */
  method EncodeNew(src: seq<real>, spec: Spec, bits: real -> U32) returns (payload: seq<Byte>)
    requires Unpadded(spec)
    ensures payload == Encoded(src, spec, bits)
    ensures |payload| == (|src| / spec.channels) * spec.blockAlign
  {
    var frames := |src| / spec.channels;
    MulLe(0, frames, spec.blockAlign);
    DivBounds(|src|, spec.channels);
    var dst := new Byte[frames * spec.blockAlign](_ => 0);
    if frames > 0 {
      BlockEnds(dst.Length, spec, frames - 1);
    }
    ghost var blank := dst[..];
    EncodePCM(dst, src, spec, bits);
    payload := dst[..];
    FilledExact(blank, src, spec, bits, frames);
    assert payload[..frames * spec.blockAlign] == payload;
    FrameMapWhole(Encoder(spec, bits), spec.channels, src, frames);
  }
}
