/** Types shared by every module of the model. */
module Prelude {
  /** One octet of a file or of a TCP stream. */
  newtype byte = x: int | 0 <= x < 256

  /** A symmetric key. */
  type Key = seq<byte>

  datatype Option<+T> = None | Some(value: T)

  datatype Result<+T, +E> = Ok(value: T) | Err(error: E)

  /** Ranging over a map: its keys in an arbitrary order. */
  method CollectKeys<K(==)>(keys: set<K>) returns (list: seq<K>)
    ensures (forall k :: k in list <==> k in keys) && |list| == |keys|
  {
    list := [];
    var left := keys;
    while left != {}
      invariant left <= keys
      invariant forall k :: k in list <==> k in keys - left
      invariant |list| + |left| == |keys|
      decreases |left|
    {
      var k :| k in left;
      list := list + [k];
      left := left - {k};
    }
  }

  lemma SubsetSize<T>(a: set<T>, b: set<T>)
    requires a <= b
    ensures |a| <= |b|
  {
    assert b == a + (b - a);
  }

  function Total(xs: seq<int>): int {
    if xs == [] then 0 else Total(xs[..|xs| - 1]) + xs[|xs| - 1]
  }

  lemma {:induction false} TotalAppend(xs: seq<int>, ys: seq<int>)
    ensures Total(xs + ys) == Total(xs) + Total(ys)
  {
    if ys == [] {
      assert xs + ys == xs;
    } else {
      var n := |ys| - 1;
      assert (xs + ys)[..|xs| + n] == xs + ys[..n];
      TotalAppend(xs, ys[..n]);
    }
  }

  lemma TotalSnoc(xs: seq<int>, x: int)
    ensures Total(xs + [x]) == Total(xs) + x
  {
    assert (xs + [x])[..|xs|] == xs;
  }

  lemma {:induction false} TotalOfNats(xs: seq<nat>)
    ensures Total(xs) >= 0
    ensures xs != [] ==> Total(xs) == xs[0] + Total(xs[1..]) >= xs[0]
    decreases |xs|
  {
    if xs != [] {
      TotalOfNats(xs[1..]);
      TotalAppend([xs[0] as int], xs[1..]);
      assert xs == [xs[0] as int] + xs[1..];
    }
  }
}
