/** Channel layout conversion: mapChannels of internal/audio/format.go. */
module Channels {
  import opened Arith
  import opened FrameMaps
  import opened Seqs

  const FOLD := 0.7071

  datatype Pair = Pair(l: real, r: real)

  /** Surround frame folded into left and right, channels up to (not including) c. */
  function Folded(frame: seq<real>, c: nat): Pair
    requires 4 <= c
    requires |frame| >= 3
  {
    if c == 4 || c > |frame| then Pair(frame[0] + FOLD * frame[2], frame[1] + FOLD * frame[2])
    else
      var p := Folded(frame, c - 1);
      if (c - 1) % 2 == 0 then Pair(p.l + FOLD * frame[c - 1], p.r)
      else Pair(p.l, p.r + FOLD * frame[c - 1])
  }

  /** The largest value a folded channel can reach. */
  function FoldMax(srcCh: nat): (m: real)
    requires srcCh >= 3
    ensures m >= 1.0
  {
    1.0 + FOLD + FOLD * ((srcCh - 3) / 2) as real
  }

  function Norm(srcCh: nat): real
    requires srcCh >= 3
  {
    1.0 / FoldMax(srcCh)
  }

  function Scaled(p: Pair, srcCh: nat): Pair
    requires srcCh >= 3
  {
    Pair(p.l * Norm(srcCh), p.r * Norm(srcCh))
  }

  function Stereo(frame: seq<real>): Pair
    requires frame != []
  {
    if |frame| == 1 then Pair(frame[0], frame[0])
    else if |frame| == 2 then Pair(frame[0], frame[1])
    else
      Scaled(Folded(frame, if |frame| < 4 then 4 else |frame|), |frame|)
  }

  /** One frame in the other layout. */
  function MapFrame(frame: seq<real>, dstCh: nat): (r: seq<real>)
    requires frame != [] && dstCh > 0
    ensures |r| == dstCh
  {
    if |frame| == dstCh then frame
    else if dstCh == 1 then [(Stereo(frame).l + Stereo(frame).r) * 0.5]
    else [Stereo(frame).l, Stereo(frame).r] + seq(dstCh - 2, _ => 0.0)
  }

  function Mapper(srcCh: nat, dstCh: nat): seq<real> -> seq<real>
    requires srcCh > 0 && dstCh > 0
  {
    frame => if |frame| == srcCh then MapFrame(frame, dstCh) else []
  }

  /** Every whole frame of s in the other layout. */
  function Mapped(s: seq<real>, srcCh: nat, dstCh: nat): seq<real>
    requires srcCh > 0 && dstCh > 0
  {
    FrameMap(Mapper(srcCh, dstCh), srcCh, s)
  }

  // No clipping

  ghost predicate Within(s: seq<real>, m: real) {
    forall i :: 0 <= i < |s| ==> -m <= s[i] <= m
  }

  lemma {:induction false} FoldedBounds(frame: seq<real>, c: nat)
    requires |frame| >= 3 && (c == 4 || 4 <= c <= |frame|) && Within(frame, 1.0)
    ensures var m := 1.0 + FOLD + FOLD * ((c - 3) / 2) as real;
            -m <= Folded(frame, c).l <= m
    ensures var m := 1.0 + FOLD + FOLD * ((c - 4) / 2) as real;
            -m <= Folded(frame, c).r <= m
    decreases c
  {
    if c > 4 {
      FoldedBounds(frame, c - 1);
      assert -1.0 <= frame[c - 1] <= 1.0;
      if (c - 1) % 2 == 0 {
        assert (c - 3) / 2 == (c - 4) / 2 + 1 - (if c % 2 == 0 then 1 else 0);
      }
    }
  }

  lemma InverseBounds(x: real, m: real, n: real)
    requires m >= 1.0 && n * m == 1.0 && -m <= x <= m
    ensures -1.0 <= x * n <= 1.0
  {
    RealMulPos(n, m);
    assert (m - x) * n >= 0.0 && (m + x) * n >= 0.0;
    assert (m - x) * n == 1.0 - x * n && (m + x) * n == 1.0 + x * n;
  }

  lemma NormBounds(x: real, srcCh: nat)
    requires srcCh >= 3 && -FoldMax(srcCh) <= x <= FoldMax(srcCh)
    ensures -1.0 <= x * Norm(srcCh) <= 1.0
  {
    assert Norm(srcCh) * FoldMax(srcCh) == 1.0;
    InverseBounds(x, FoldMax(srcCh), Norm(srcCh));
  }

  lemma FoldMaxCovers(n: nat, c: nat)
    requires n >= 3 && c == (if n < 4 then 4 else n)
    ensures 1.0 + FOLD + FOLD * ((c - 3) / 2) as real == FoldMax(n)
    ensures 1.0 + FOLD + FOLD * ((c - 4) / 2) as real <= FoldMax(n)
  {
  }

  lemma FoldedWithin(frame: seq<real>, c: nat)
    requires |frame| > 2 && Within(frame, 1.0) && c == (if |frame| < 4 then 4 else |frame|)
    ensures -FoldMax(|frame|) <= Folded(frame, c).l <= FoldMax(|frame|)
    ensures -FoldMax(|frame|) <= Folded(frame, c).r <= FoldMax(|frame|)
  {
    FoldedBounds(frame, c);
    FoldMaxCovers(|frame|, c);
  }

  lemma ScaledBounds(p: Pair, n: nat)
    requires n >= 3
    requires -FoldMax(n) <= p.l <= FoldMax(n) && -FoldMax(n) <= p.r <= FoldMax(n)
    ensures -1.0 <= Scaled(p, n).l <= 1.0 && -1.0 <= Scaled(p, n).r <= 1.0
  {
    NormBounds(p.l, n);
    NormBounds(p.r, n);
  }

  lemma SurroundBounds(frame: seq<real>)
    requires |frame| > 2 && Within(frame, 1.0)
    ensures -1.0 <= Stereo(frame).l <= 1.0 && -1.0 <= Stereo(frame).r <= 1.0
  {
    var c := if |frame| < 4 then 4 else |frame|;
    FoldedWithin(frame, c);
    ScaledBounds(Folded(frame, c), |frame|);
  }

  lemma StereoBounds(frame: seq<real>)
    requires frame != [] && Within(frame, 1.0)
    ensures -1.0 <= Stereo(frame).l <= 1.0 && -1.0 <= Stereo(frame).r <= 1.0
  {
    assert -1.0 <= frame[0] <= 1.0;
    if |frame| == 2 {
      assert -1.0 <= frame[1] <= 1.0;
    } else if |frame| > 2 {
      SurroundBounds(frame);
    }
  }

  /** Folding surround into stereo or mono never leaves [-1, 1]. */
  lemma MapFrameNeverClips(frame: seq<real>, dstCh: nat)
    requires frame != [] && dstCh > 0 && Within(frame, 1.0)
    ensures Within(MapFrame(frame, dstCh), 1.0)
  {
    StereoBounds(frame);
  }

  // The loops

  /** The surround branch of mapChannels, with its loop over the extra channels. */
  method FoldSurround(frame: seq<real>) returns (l: real, r: real)
    requires |frame| >= 3
    ensures Pair(l, r) == Stereo(frame)
  {
    l, r := frame[0], frame[1];
    l := l + FOLD * frame[2];
    r := r + FOLD * frame[2];
    var c := 4;
    while c < |frame|
      invariant c == 4 || 4 <= c <= |frame|
      invariant Pair(l, r) == Folded(frame, c)
    {
      if c % 2 == 0 {
        l := l + FOLD * frame[c];
      } else {
        r := r + FOLD * frame[c];
      }
      c := c + 1;
    }
    var norm := Norm(|frame|);
    l, r := l * norm, r * norm;
  }

  method MapOne(frame: seq<real>, dstCh: nat) returns (out: seq<real>)
    requires frame != [] && dstCh > 0 && |frame| != dstCh
    ensures out == MapFrame(frame, dstCh)
  {
    var l, r := frame[0], frame[0];
    if |frame| == 2 {
      r := frame[1];
    } else if |frame| > 2 {
      l, r := FoldSurround(frame);
    }
    if dstCh == 1 {
      return [(l + r) * 0.5];
    }
    out := [l, r];
    var c := 2;
    while c < dstCh
      invariant 2 <= c <= dstCh && out == [l, r] + seq(c - 2, _ => 0.0)
    {
      out := out + [0.0];
      c := c + 1;
    }
  }

  lemma MappedStep(s: seq<real>, srcCh: nat, dstCh: nat, f: nat)
    requires srcCh > 0 && dstCh > 0 && (f + 1) * srcCh <= |s|
    ensures f * srcCh <= |s|
    ensures Mapped(s[..(f + 1) * srcCh], srcCh, dstCh)
         == Mapped(s[..f * srcCh], srcCh, dstCh) + MapFrame(Block(srcCh, s, f), dstCh)
  {
    FrameMapStep(Mapper(srcCh, dstCh), srcCh, s, f);
  }

  lemma {:induction false} MappedSame(s: seq<real>, ch: nat, n: nat)
    requires ch > 0 && n * ch <= |s|
    ensures Mapped(s[..n * ch], ch, ch) == s[..n * ch]
  {
    if n > 0 {
      assert n * ch == (n - 1) * ch + ch;
      MappedSame(s, ch, n - 1);
      MappedStep(s, ch, ch, n - 1);
    }
  }

  method MapEach(dst: seq<real>, src: seq<real>, srcCh: nat, dstCh: nat, frames: nat) returns (out: seq<real>)
    requires srcCh > 0 && dstCh > 0 && srcCh != dstCh && frames == |src| / srcCh
    ensures frames * srcCh <= |src| && out == dst + Mapped(src[..frames * srcCh], srcCh, dstCh)
  {
    hide FrameMap;
    hide MapFrame;
    out := dst;
    FrameMapShort(Mapper(srcCh, dstCh), srcCh, src[..0]);
    var f := 0;
    while f < frames
      invariant f <= frames && f * srcCh <= |src|
      invariant out == dst + Mapped(src[..f * srcCh], srcCh, dstCh)
    {
      WholeBlocks(|src|, srcCh, f);
      var frame := MapOne(Block(srcCh, src, f), dstCh);
      MappedStep(src, srcCh, dstCh, f);
      Rebracket(dst, Mapped(src[..f * srcCh], srcCh, dstCh), frame);
      out := out + frame;
      f := f + 1;
    }
  }

  /** mapChannels: appends the whole frames of src in the destination layout. */
  method MapChannels(dst: seq<real>, src: seq<real>, srcCh: nat, dstCh: nat) returns (out: seq<real>)
    requires srcCh > 0 && dstCh > 0
    ensures out == dst + Mapped(src, srcCh, dstCh)
  {
    var frames := |src| / srcCh;
    FrameMapWhole(Mapper(srcCh, dstCh), srcCh, src, frames);
    if srcCh == dstCh {
      MappedSame(src, srcCh, frames);
      return dst + src[..frames * srcCh];
    }
    out := MapEach(dst, src, srcCh, dstCh, frames);
  }
}
