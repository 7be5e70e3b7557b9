/** What each input channel contributes when a frame is brought into another layout
    (mapChannels of internal/audio/format.go). */
module ChannelLaws {
  import opened Arith
  import opened Channels

  /** One or two channels: a mono sample goes to both sides, two sides are averaged into
      one, channels beyond the second stay silent, and an equal layout is left alone. */
  lemma SmallLayouts(x: real, y: real, dstCh: nat)
    requires dstCh >= 2
    ensures MapFrame([x], 1) == [x] && MapFrame([x, y], 2) == [x, y]
    ensures 2.0 * MapFrame([x, y], 1)[0] == x + y
    ensures MapFrame([x], dstCh)[..2] == [x, x] && (dstCh > 2 ==> MapFrame([x, y], dstCh)[..2] == [x, y])
    ensures forall c :: 2 <= c < dstCh ==> MapFrame([x], dstCh)[c] == 0.0 && MapFrame([x, y], dstCh)[c] == 0.0
  {
  }

  /** Mono is the average of what stereo would have been. */
  lemma MonoIsAverage(frame: seq<real>)
    requires |frame| > 2
    ensures 2.0 * MapFrame(frame, 1)[0] == MapFrame(frame, 2)[0] + MapFrame(frame, 2)[1]
  {
  }

  /** Which sides an input channel of a surround frame goes to, at full or folded level. */
  datatype Place = ToLeft | ToRight | ToBoth | Nowhere

  function PlaceOf(i: nat): Place {
    if i == 2 then ToBoth
    else if i == 3 then Nowhere  // low frequencies
    else if i % 2 == 0 then ToLeft
    else ToRight
  }

  function Level(i: nat): real {
    if i < 2 then 1.0 else FOLD
  }

  /** How much more of each side there is. */
  function Shift(i: nat, d: real): Pair {
    match PlaceOf(i)
    case ToLeft => Pair(Level(i) * d, 0.0)
    case ToRight => Pair(0.0, Level(i) * d)
    case ToBoth => Pair(Level(i) * d, Level(i) * d)
    case Nowhere => Pair(0.0, 0.0)
  }

  lemma {:induction false} FoldShifts(frame: seq<real>, c: nat, i: nat, x: real)
    requires |frame| >= 3 && (c == 4 || 4 <= c <= |frame|) && i < |frame|
    ensures var a, b, s := Folded(frame, c), Folded(frame[i := x], c), if i < c then Shift(i, x - frame[i]) else Pair(0.0, 0.0);
            b.l - a.l == s.l && b.r - a.r == s.r
    decreases c
  {
    if c > 4 {
      FoldShifts(frame, c - 1, i, x);
    }
  }

  /** x at the scale of a layout of n channels. */
  function Part(x: real, n: nat): real
    requires n >= 3
  {
    x * Norm(n)
  }

  lemma PartAdds(x: real, s: real, n: nat)
    requires n >= 3
    ensures Part(x + s, n) == Part(x, n) + Part(s, n)
  {
    hide Norm;
  }

  lemma ScaleShifts(a: Pair, b: Pair, s: Pair, n: nat)
    requires n >= 3 && b.l - a.l == s.l && b.r - a.r == s.r
    ensures Part(b.l, n) - Part(a.l, n) == Part(s.l, n) && Part(b.r, n) - Part(a.r, n) == Part(s.r, n)
  {
    hide Part;
    assert b.l == a.l + s.l && b.r == a.r + s.r;
    PartAdds(a.l, s.l, n);
    PartAdds(a.r, s.r, n);
  }

  function Full(frame: seq<real>): Pair
    requires |frame| > 2
  {
    Folded(frame, if |frame| < 4 then 4 else |frame|)
  }

  lemma SurroundIs(frame: seq<real>)
    requires |frame| > 2
    ensures MapFrame(frame, 2) == [Part(Full(frame).l, |frame|), Part(Full(frame).r, |frame|)]
  {
    hide Folded;
    hide Norm;
    var r := MapFrame(frame, 2);
    assert |r| == 2 && r[0] == Stereo(frame).l && r[1] == Stereo(frame).r;
    assert Stereo(frame) == Scaled(Full(frame), |frame|);
    assert Stereo(frame).l == Part(Full(frame).l, |frame|);
    assert Stereo(frame).r == Part(Full(frame).r, |frame|);
  }

  /** Each channel of a surround frame contributes to its own side or sides, in proportion
      to its sample and independently of every other channel; the level is the same for all
      folded channels, and the whole is scaled by one factor for the layout. */
  lemma ChannelContributes(frame: seq<real>, i: nat, x: real)
    requires |frame| > 2 && i < |frame|
    ensures var a, b, s := MapFrame(frame, 2), MapFrame(frame[i := x], 2), Shift(i, x - frame[i]);
            b[0] - a[0] == Part(s.l, |frame|) && b[1] - a[1] == Part(s.r, |frame|)
  {
    FoldShifts(frame, if |frame| < 4 then 4 else |frame|, i, x);
    SurroundIs(frame);
    SurroundIs(frame[i := x]);
    hide Part;
    hide Folded;
    hide Shift;
    hide MapFrame;
    ScaleShifts(Full(frame), Full(frame[i := x]), Shift(i, x - frame[i]), |frame|);
  }

  lemma {:induction false} SilentFold(n: nat, c: nat)
    requires n >= 3 && (c == 4 || 4 <= c <= n)
    ensures Folded(seq(n, _ => 0.0), c) == Pair(0.0, 0.0)
    decreases c
  {
    if c > 4 {
      SilentFold(n, c - 1);
    }
  }

  lemma {:induction false} FullFold(n: nat, c: nat)
    requires n >= 3 && (c == 4 || 4 <= c <= n)
    ensures Folded(seq(n, _ => 1.0), c).l == 1.0 + FOLD + FOLD * ((c - 3) / 2) as real
    ensures Folded(seq(n, _ => 1.0), c).r == 1.0 + FOLD + FOLD * ((c - 4) / 2) as real
    decreases c
  {
    if c > 4 {
      FullFold(n, c - 1);
      if (c - 1) % 2 == 0 {
        assert (c - 3) / 2 == (c - 4) / 2 + 1;
      } else {
        assert (c - 3) / 2 == (c - 4) / 2 && (c - 4) / 2 == (c - 5) / 2 + 1;
      }
    }
  }

  /** Silence stays silence, and the scale is the largest that never clips: when every
      channel is at full level, so is the left side. */
  lemma FullScale(n: nat)
    requires n > 2
    ensures MapFrame(seq(n, _ => 0.0), 2) == [0.0, 0.0]
    ensures MapFrame(seq(n, _ => 1.0), 2)[0] == 1.0
  {
    var c := if n < 4 then 4 else n;
    SurroundIs(seq(n, _ => 0.0));
    SurroundIs(seq(n, _ => 1.0));
    hide MapFrame;
    SilentFold(n, c);
    FullFold(n, c);
    FoldMaxCovers(n, c);
    FullNorm(n);
    hide Folded;
    hide Part;
    hide FoldMax;
    assert Full(seq(n, _ => 1.0)).l == FoldMax(n);
  }

  lemma FullNorm(n: nat)
    requires n > 2
    ensures Part(FoldMax(n), n) == 1.0 && Part(0.0, n) == 0.0
  {
  }
}
