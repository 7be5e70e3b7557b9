/** Sequence facts used all over: regrouping and flattening. */
module Seqs {

  lemma Rebracket<T>(a: seq<T>, b: seq<T>, c: seq<T>)
    ensures (a + b) + c == a + (b + c)
  {
  }

  function Flatten<T>(chunks: seq<seq<T>>): seq<T> {
    if chunks == [] then [] else Flatten(chunks[..|chunks| - 1]) + chunks[|chunks| - 1]
  }

  lemma FlattenEmpty<T>()
    ensures Flatten<T>([]) == []
  {
  }

  lemma FlattenSnoc<T>(a: seq<seq<T>>, x: seq<T>)
    ensures Flatten(a + [x]) == Flatten(a) + x
  {
    assert (a + [x])[..|a|] == a;
  }

  lemma FlattenHead<T>(chunks: seq<seq<T>>)
    requires chunks != []
    ensures Flatten(chunks) == chunks[0] + Flatten(chunks[1..])
  {
    assert chunks == [chunks[0]] + chunks[1..] && [chunks[0]][..0] == [];
    FlattenConcat([chunks[0]], chunks[1..]);
    assert [] + chunks[0] == chunks[0];
    FlattenOne(chunks[0]);
  }

  lemma FlattenOne<T>(x: seq<T>)
    ensures Flatten([x]) == x
  {
    assert [] + [x] == [x];
    FlattenSnoc([], x);
  }

  lemma {:induction false} FlattenConcat<T>(a: seq<seq<T>>, b: seq<seq<T>>)
    ensures Flatten(a + b) == Flatten(a) + Flatten(b)
  {
    if b == [] {
      assert a + b == a;
    } else {
      var n, x := |b| - 1, b[|b| - 1];
      FlattenConcat(a, b[..n]);
      assert a + b == (a + b[..n]) + [x] && b == b[..n] + [x];
      FlattenSnoc(a + b[..n], x);
      FlattenSnoc(b[..n], x);
      Rebracket(Flatten(a), Flatten(b[..n]), x);
    }
  }
}
