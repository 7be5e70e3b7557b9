/** What the interpolation does to a signal (internal/audio/resample.go and playout.go):
    the curve between samples, and what resampling and playing make of smooth signals. */
module Curves {
  import opened Arith
  import opened Resampler

  // One segment

  function Poly(a: real, b: real, c: real, d: real, t: real): real {
    ((a * t + b) * t + c) * t + d
  }

  /** The curve is the one cubic that starts at y1 with the slope of its neighbours and ends
      at y2 with the slope of its neighbours; so segments join without a kink. */
  lemma OnlyCurve(y0: real, y1: real, y2: real, y3: real, a: real, b: real, c: real, d: real, t: real)
    requires d == y1 && a + b + c + d == y2
    requires c == (y2 - y0) / 2.0 && 3.0 * a + 2.0 * b + c == (y3 - y1) / 2.0
    ensures Cubic(y0, y1, y2, y3, t) == Poly(a, b, c, d, t)
  {
    assert a == -0.5 * y0 + 1.5 * y1 - 1.5 * y2 + 0.5 * y3;
    assert b == y0 - 2.5 * y1 + 2.0 * y2 - 0.5 * y3;
  }

  function Quadratic(p: real, q: real, s: real, x: real): real {
    (s * x + q) * x + p
  }

  /** Every quadratic is reproduced. */
  lemma CubicQuadratic(p: real, q: real, s: real, x: real, t: real)
    ensures Cubic(Quadratic(p, q, s, x - 1.0), Quadratic(p, q, s, x), Quadratic(p, q, s, x + 1.0),
                  Quadratic(p, q, s, x + 2.0), t)
         == Quadratic(p, q, s, x + t)
  {
    Expand(p, q, s, x, -1.0);
    Expand(p, q, s, x, 1.0);
    Expand(p, q, s, x, 2.0);
    Expand(p, q, s, x, t);
    var y, c := Quadratic(p, q, s, x), 2.0 * s * x + q;
    OnlyCurve(y + (s - c), y, y + (s + c), y + (4.0 * s + 2.0 * c), 0.0, s, c, y, t);
  }

  /** Around any point a quadratic is one again. */
  lemma Expand(p: real, q: real, s: real, x: real, t: real)
    ensures Quadratic(p, q, s, x + t) == Quadratic(p, q, s, x) + (s * t + (2.0 * s * x + q)) * t
  {
    assert (s * (x + t) + q) * (x + t) == (s * x + q) * (x + t) + s * t * (x + t);
    assert (s * x + q) * (x + t) == (s * x + q) * x + (s * x + q) * t;
    assert s * t * (x + t) == s * t * x + s * t * t;
    assert s * t * x == (s * x) * t;
    assert (s * t + (2.0 * s * x + q)) * t == s * t * t + (2.0 * s * x) * t + q * t;
  }

  /** Reading backwards gives the same curve backwards. */
  lemma CubicReversed(y0: real, y1: real, y2: real, y3: real, t: real)
    ensures Cubic(y0, y1, y2, y3, t) == Cubic(y3, y2, y1, y0, 1.0 - t)
  {
    var a := -0.5 * y0 + 1.5 * y1 - 1.5 * y2 + 0.5 * y3;
    var b := y0 - 2.5 * y1 + 2.0 * y2 - 0.5 * y3;
    var c := -0.5 * y0 + 0.5 * y2;
    OnlyCurve(y3, y2, y1, y0, -a, 3.0 * a + b, -3.0 * a - 2.0 * b - c, a + b + c + y1, 1.0 - t);
    Backwards(a, b, c, y1, t);
  }

  lemma Backwards(a: real, b: real, c: real, d: real, t: real)
    ensures Poly(a, b, c, d, t) == Poly(-a, 3.0 * a + b, -3.0 * a - 2.0 * b - c, a + b + c + d, 1.0 - t)
  {
    var u := 1.0 - t;
    assert t == 1.0 - u;
    assert (a * (1.0 - u) + b) * (1.0 - u) == (a + b) - a * u - (a + b) * u + a * u * u;
  }

  predicate Audible(y: real) {
    -1.0 <= y <= 1.0
  }

  /** What is left of the curve once its value and slope at y1 are taken off. */
  function Rest(y0: real, y1: real, y2: real, y3: real, h: real): real {
    Cubic(y0, y1, y2, y3, h) - y1 - (y2 - y0) / 2.0 * h
  }

  /** It leaves y1 with half the difference of y1's neighbours as its slope: what is left is
      of second order. */
  lemma LeavesWithSlope(y0: real, y1: real, y2: real, y3: real, h: real)
    requires Audible(y0) && Audible(y1) && Audible(y2) && Audible(y3) && 0.0 <= h <= 1.0
    ensures -10.0 * (h * h) <= Rest(y0, y1, y2, y3, h) <= 10.0 * (h * h)
  {
    var a, b := -0.5 * y0 + 1.5 * y1 - 1.5 * y2 + 0.5 * y3, y0 - 2.5 * y1 + 2.0 * y2 - 0.5 * y3;
    assert -4.0 <= a <= 4.0 && -6.0 <= b <= 6.0;
    RestIs(y0, y1, y2, y3, h, a, b);
    hide Rest;
    hide Mul;
    Fraction(h);
    Bounded(a, h, 4.0);
    Bounded(Mul(a, h) + b, Mul(h, h), 10.0);
  }

  function Mul(x: real, y: real): real {
    x * y
  }

  lemma Fraction(h: real)
    requires 0.0 <= h <= 1.0
    ensures 0.0 <= Mul(h, h) == h * h <= 1.0
  {
    Bounded(h, h, 1.0);
  }

  lemma RestIs(y0: real, y1: real, y2: real, y3: real, h: real, a: real, b: real)
    requires a == -0.5 * y0 + 1.5 * y1 - 1.5 * y2 + 0.5 * y3 && b == y0 - 2.5 * y1 + 2.0 * y2 - 0.5 * y3
    ensures Rest(y0, y1, y2, y3, h) == Mul(Mul(a, h) + b, Mul(h, h))
  {
    OnlyCurve(y0, y1, y2, y3, a, b, (y2 - y0) / 2.0, y1, h);
    hide Cubic;
    Powers(a, b, (y2 - y0) / 2.0, y1, h);
  }

  lemma Powers(a: real, b: real, c: real, d: real, h: real)
    ensures Poly(a, b, c, d, h) == (a * h + b) * (h * h) + c * h + d
  {
    var u := a * h + b;
    assert (u * h + c) * h == u * h * h + c * h;
    assert u * h * h == u * (h * h);
  }

  lemma Bounded(x: real, h: real, m: real)
    requires -m <= x <= m && 0.0 <= h <= 1.0
    ensures -(m * h) <= Mul(x, h) <= m * h && -m <= Mul(x, h) <= m
  {
    Below(x, h, m);
    Below(-x, h, m);
    Opposite(x, h);
    hide Mul;
  }

  lemma Opposite(x: real, h: real)
    ensures Mul(-x, h) == -Mul(x, h)
  {
  }

  lemma Below(x: real, h: real, m: real)
    requires x <= m && 0.0 <= m && 0.0 <= h <= 1.0
    ensures Mul(x, h) <= m * h <= m
  {
    if h > 0.0 {
      RealMulLe(x, m, h);
    }
    if m > 0.0 {
      RealMulLe(h, 1.0, m);
    }
  }

  /** And it comes to y2 with half the difference of y2's neighbours. */
  lemma EntersWithSlope(y0: real, y1: real, y2: real, y3: real, h: real)
    requires Audible(y0) && Audible(y1) && Audible(y2) && Audible(y3) && 0.0 <= h <= 1.0
    ensures -10.0 * (h * h) <= Cubic(y0, y1, y2, y3, 1.0 - h) - y2 + (y3 - y1) / 2.0 * h <= 10.0 * (h * h)
  {
    CubicReversed(y0, y1, y2, y3, 1.0 - h);
    LeavesWithSlope(y3, y2, y1, y0, h);
    hide Cubic;
    assert (y1 - y3) / 2.0 * h == -((y3 - y1) / 2.0 * h);
  }

  // Whole signals

  /** Channel c of the frames from `from` on follows the quadratic, frame j at time j - shift. */
  predicate Follows(h: seq<real>, ch: nat, c: nat, from: nat, shift: real, p: real, q: real, s: real)
    requires c < ch
  {
    forall j: nat :: from <= j < |h| / ch ==> FollowsAt(h, ch, c, j, shift, p, q, s)
  }

  predicate FollowsAt(h: seq<real>, ch: nat, c: nat, j: nat, shift: real, p: real, q: real, s: real)
    requires c < ch && j < |h| / ch
  {
    InGroup(|h|, ch, j, c);
    h[j * ch + c] == Quadratic(p, q, s, j as real - shift)
  }

  /** A frame read between samples of a quadratic lies on it. */
  lemma SampleFollows(h: seq<real>, ch: nat, pos: real, c: nat, from: nat, shift: real, p: real, q: real, s: real)
    requires c < ch && Readable(h, ch, pos) && from < pos.Floor && Follows(h, ch, c, from, shift, p, q, s)
    ensures OutFrame(h, ch, pos)[c] == Quadratic(p, q, s, pos - shift)
  {
    var i := pos.Floor;
    hide Quadratic;
    hide Cubic;
    assert FollowsAt(h, ch, c, i - 1, shift, p, q, s) && FollowsAt(h, ch, c, i, shift, p, q, s);
    assert FollowsAt(h, ch, c, i + 1, shift, p, q, s) && FollowsAt(h, ch, c, i + 2, shift, p, q, s);
    var x := i as real - shift;
    CubicQuadratic(p, q, s, x, pos - i as real);
    assert (i - 1) as real - shift == x - 1.0 && (i + 1) as real - shift == x + 1.0 && (i + 2) as real - shift == x + 2.0;
    assert x + (pos - i as real) == pos - shift;
  }

  lemma {:induction false} BatchAt(h: seq<real>, ch: nat, src: nat, dst: nat, n: nat, k: nat)
    requires dst > 0 && AllReadable(h, ch, src, dst, n) && k < n
    ensures |Batch(h, ch, src, dst, n)| == n * ch && 0 <= k * ch && (k + 1) * ch <= n * ch
    ensures Batch(h, ch, src, dst, n)[k * ch..(k + 1) * ch] == OutFrame(h, ch, Position(k, src, dst))
    decreases n
  {
    hide OutFrame;
    MulLe(0, k, ch);
    MulLe(k + 1, n, ch);
    assert n * ch == (n - 1) * ch + ch && (k + 1) * ch == k * ch + ch;
    assert Readable(h, ch, Position(n - 1, src, dst));
    assert AllReadable(h, ch, src, dst, n - 1);
    BatchSize(h, ch, src, dst, n - 1);
    if k < n - 1 {
      BatchAt(h, ch, src, dst, n - 1, k);
    }
  }

  lemma {:induction false} BatchSize(h: seq<real>, ch: nat, src: nat, dst: nat, n: nat)
    requires dst > 0 && AllReadable(h, ch, src, dst, n)
    ensures |Batch(h, ch, src, dst, n)| == n * ch
  {
    if n > 0 {
      assert AllReadable(h, ch, src, dst, n - 1);
      BatchSize(h, ch, src, dst, n - 1);
      assert n * ch == (n - 1) * ch + ch;
    }
  }

  /** Resampling keeps time: if a channel of the input is a quadratic sampled at frames
      0, 1, 2, ..., output frame k is that quadratic at time k * src / dst, from the first
      frame on that does not touch the silence before the input. */
  lemma ResampledFollows(input: seq<real>, ch: nat, src: nat, dst: nat, k: nat, c: nat, p: real, q: real, s: real)
    requires c < ch && src > 0 && dst > 0 && src != dst && Follows(input, ch, c, 0, 0.0, p, q, s)
    requires k < Due(|input| / ch, src, dst) && k * src >= dst
    ensures 0 <= k * ch && k * ch + c < |Resampled(input, ch, src, dst)|
    ensures Resampled(input, ch, src, dst)[k * ch + c] == Quadratic(p, q, s, (k * src) as real / dst as real)
  {
    var h, n := WithSilence(input, ch), Due(|input| / ch, src, dst);
    DueAllReadable(input, ch, src, dst, n);
    BatchAt(h, ch, src, dst, n, k);
    assert (k + 1) * ch == k * ch + ch;
    var pos := Position(k, src, dst);
    PastSilence(k, src, dst);
    SilenceFollows(input, ch, c, p, q, s);
    hide OutFrame;
    SampleFollows(h, ch, pos, c, 1, 1.0, p, q, s);
    assert Batch(h, ch, src, dst, n)[k * ch + c] == Batch(h, ch, src, dst, n)[k * ch..(k + 1) * ch][c];
  }

  lemma PastSilence(k: nat, src: nat, dst: nat)
    requires dst > 0 && k * src >= dst
    ensures Position(k, src, dst).Floor >= 2
  {
    var x, d := (k * src) as real, dst as real;
    assert x / d * d == x;
    if x / d < 1.0 {
      RealMulLe(x / d, 1.0, d);
      assert x / d * d < d by {
        RealMulPos(1.0 - x / d, d);
      }
    }
  }

  lemma SilenceFollows(input: seq<real>, ch: nat, c: nat, p: real, q: real, s: real)
    requires c < ch && Follows(input, ch, c, 0, 0.0, p, q, s)
    ensures Follows(WithSilence(input, ch), ch, c, 1, 1.0, p, q, s)
  {
    var h := WithSilence(input, ch);
    SilentFrame(input, ch);
    forall j: nat | 1 <= j < |h| / ch
      ensures FollowsAt(h, ch, c, j, 1.0, p, q, s)
    {
      assert FollowsAt(input, ch, c, j - 1, 0.0, p, q, s);
      InGroup(|h|, ch, j, c);
      InGroup(|input|, ch, j - 1, c);
      assert j * ch + c == ch + ((j - 1) * ch + c);
      assert (j - 1) as real - 0.0 == j as real - 1.0;
    }
  }
}
