/** Conversions that work block by block over a stream, ignoring an incomplete last block. */
module FrameMaps {
  import opened Arith

  function FrameMap<A, B>(f: seq<A> -> seq<B>, g: nat, s: seq<A>): seq<B>
    requires g > 0
  {
    if |s| < g then [] else f(s[..g]) + FrameMap(f, g, s[g..])
  }

  function Block<A>(g: nat, s: seq<A>, i: nat): seq<A>
    requires (i + 1) * g <= |s|
  {
    assert (i + 1) * g == i * g + g && i * g >= 0;
    s[i * g..(i + 1) * g]
  }

  /** Converting a whole number of blocks first and the rest later changes nothing. */
  lemma {:induction false} FrameMapConcat<A, B>(f: seq<A> -> seq<B>, g: nat, a: seq<A>, b: seq<A>, n: nat)
    requires g > 0 && |a| == n * g
    ensures FrameMap(f, g, a + b) == FrameMap(f, g, a) + FrameMap(f, g, b)
    decreases n
  {
    if n == 0 {
      assert a + b == b;
    } else {
      assert (n - 1) * g == n * g - g;
      MulLe(1, n, g);
      assert (a + b)[..g] == a[..g] && (a + b)[g..] == a[g..] + b;
      FrameMapConcat(f, g, a[g..], b, n - 1);
    }
  }

  lemma FrameMapShort<A, B>(f: seq<A> -> seq<B>, g: nat, s: seq<A>)
    requires g > 0 && |s| < g
    ensures FrameMap(f, g, s) == []
  {
  }

  lemma FrameMapOne<A, B>(f: seq<A> -> seq<B>, g: nat, s: seq<A>)
    requires g > 0 && |s| == g
    ensures FrameMap(f, g, s) == f(s)
  {
    assert s[..g] == s && s[g..] == [];
  }

  lemma WholeBlocks(x: nat, g: nat, i: nat)
    requires g > 0 && i < x / g
    ensures i * g < (i + 1) * g <= x
  {
    DivBounds(x, g);
    MulLe(i + 1, x / g, g);
    assert (i + 1) * g == i * g + g;
  }

  /** One more block. */
  lemma FrameMapStep<A, B>(f: seq<A> -> seq<B>, g: nat, s: seq<A>, i: nat)
    requires g > 0 && (i + 1) * g <= |s|
    ensures i * g <= |s|
    ensures FrameMap(f, g, s[..(i + 1) * g]) == FrameMap(f, g, s[..i * g]) + f(Block(g, s, i))
  {
    assert (i + 1) * g == i * g + g;
    var a, b := s[..i * g], Block(g, s, i);
    assert s[..(i + 1) * g] == a + b;
    FrameMapConcat(f, g, a, b, i);
    FrameMapOne(f, g, b);
  }

  lemma FrameMapRest<A, B>(f: seq<A> -> seq<B>, g: nat, a: seq<A>, rest: seq<A>, n: nat)
    requires g > 0 && |a| == n * g && |rest| < g
    ensures FrameMap(f, g, a) == FrameMap(f, g, a + rest)
  {
    FrameMapConcat(f, g, a, rest, n);
    FrameMapShort(f, g, rest);
  }

  /** The incomplete last block is ignored. */
  lemma FrameMapWhole<A, B>(f: seq<A> -> seq<B>, g: nat, s: seq<A>, n: nat)
    requires g > 0 && n == |s| / g
    ensures n * g <= |s| && FrameMap(f, g, s[..n * g]) == FrameMap(f, g, s)
  {
    DivBounds(|s|, g);
    assert (n + 1) * g == n * g + g;
    var a, rest := s[..n * g], s[n * g..];
    assert s == a + rest;
    FrameMapRest(f, g, a, rest, n);
  }

  /** Length of the result when every block yields m elements. */
  lemma {:induction false} FrameMapLength<A, B>(f: seq<A> -> seq<B>, g: nat, m: nat, s: seq<A>)
    requires g > 0 && forall b: seq<A> :: |b| == g ==> |f(b)| == m
    ensures |FrameMap(f, g, s)| == (|s| / g) * m
    decreases |s|
  {
    if |s| < g {
      DivUnique(|s|, g, 0);
    } else {
      FrameMapLength(f, g, m, s[g..]);
      DivLess(|s|, g, 1);
      assert |s[g..]| / g == |s| / g - 1;
      assert (|s| / g) * m == (|s| / g - 1) * m + m;
    }
  }

  function Then<A, B, C>(f: seq<A> -> seq<B>, h: seq<B> -> seq<C>): seq<A> -> seq<C> {
    x => h(f(x))
  }

  /** Two conversions in a row are one conversion, when the blocks of the first are
      the blocks of the second. */
  lemma {:induction false} FrameMapFuse<A, B, C>(f: seq<A> -> seq<B>, g: nat, h: seq<B> -> seq<C>, m: nat, s: seq<A>)
    requires g > 0 && m > 0
    requires forall b: seq<A> :: |b| == g ==> |f(b)| == m
    ensures FrameMap(h, m, FrameMap(f, g, s)) == FrameMap(Then(f, h), g, s)
    decreases |s|
  {
    if |s| >= g {
      FrameMapFuse(f, g, h, m, s[g..]);
      var first, rest := f(s[..g]), FrameMap(f, g, s[g..]);
      assert (first + rest)[..m] == first && (first + rest)[m..] == rest;
    }
  }

  /** Block i of the result is the conversion of block i. */
  lemma {:induction false} FrameMapAt<A(!new), B>(f: seq<A> -> seq<B>, g: nat, h: nat, s: seq<A>, i: nat)
    requires g > 0 && i < |s| / g && forall b :: |b| == g ==> |f(b)| == h
    ensures 0 <= i * h <= (i + 1) * h <= |FrameMap(f, g, s)| && 0 <= i * g <= (i + 1) * g <= |s|
    ensures FrameMap(f, g, s)[i * h..(i + 1) * h] == f(Block(g, s, i))
    decreases i
  {
    WholeBlocks(|s|, g, i);
    FrameMapLength(f, g, h, s);
    MulLe(i + 1, |s| / g, h);
    MulLe(0, i, h);
    MulLe(0, i, g);
    assert (i + 1) * h == i * h + h;
    DivLess(|s|, g, 1);
    if i > 0 {
      FrameMapAt(f, g, h, s[g..], i - 1);
      assert (i - 1) * h + h == i * h && (i - 1) * g + g == i * g && (i + 1) * g == i * g + g;
      assert Block(g, s[g..], i - 1) == Block(g, s, i);
      assert FrameMap(f, g, s) == f(s[..g]) + FrameMap(f, g, s[g..]);
      Later(f(s[..g]), FrameMap(f, g, s[g..]), (i - 1) * h, i * h);
    } else {
      assert FrameMap(f, g, s) == f(s[..g]) + FrameMap(f, g, s[g..]);
    }
  }

  lemma Later<T>(a: seq<T>, b: seq<T>, lo: nat, hi: nat)
    requires lo <= hi <= |b|
    ensures (a + b)[|a| + lo..|a| + hi] == b[lo..hi]
  {
  }
}
