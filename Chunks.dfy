// `_genChunks(l, n)`: the slices `l[idx:idx+n]` for `idx` in
// `range(0, len(l), n)`. Python's `range` refuses a zero step with
// ValueError and yields nothing for a negative step from 0 upwards; a slice
// past the end is cut short.

module Chunks {
  import opened Json

  function Min(a: int, b: int): int
  {
    if a <= b then a else b
  }

  /** The slices from position `idx` on, `n` elements each. */
  function ChunksFrom<T>(l: seq<T>, n: nat, idx: nat): (r: seq<seq<T>>)
    requires n > 0
    decreases |l| - idx
  {
    if idx >= |l| then [] else [l[idx..Min(idx + n, |l|)]] + ChunksFrom(l, n, idx + n)
  }

  /** `list(_genChunks(l, n))`. */
  function Chunks<T>(l: seq<T>, n: int): (r: Result<seq<seq<T>>>)
    ensures r.Err? <==> n == 0
    ensures r.Err? ==> r.error == ValueError
    ensures n < 0 ==> r == Ok([])
  {
    if n == 0 then Err(ValueError)
    else if n < 0 then Ok([])
    else Ok(ChunksFrom(l, n, 0))
  }

  /** All the elements of a list of lists, in order. */
  function Flatten<T>(xs: seq<seq<T>>): seq<T>
  {
    if |xs| == 0 then [] else xs[0] + Flatten(xs[1..])
  }

  /** The slices from `idx` on, put back together, give the rest of the list. */
  lemma {:induction false} ChunksFromFlatten<T>(l: seq<T>, n: nat, idx: nat)
    requires n > 0 && idx <= |l|
    ensures Flatten(ChunksFrom(l, n, idx)) == l[idx..]
    decreases |l| - idx
  {
    if idx < |l| {
      var first := l[idx..Min(idx + n, |l|)];
      var rest := ChunksFrom(l, n, idx + n);
      FlattenCons(first, rest);
      if idx + n <= |l| {
        ChunksFromFlatten(l, n, idx + n);
        assert l[idx..] == first + l[idx + n..];
      } else {
        assert Flatten(rest) == [];
        assert first + [] == l[idx..];
      }
    }
  }

  lemma FlattenCons<T>(x: seq<T>, xs: seq<seq<T>>)
    ensures Flatten([x] + xs) == x + Flatten(xs)
  {
    assert ([x] + xs)[1..] == xs;
  }

  /** There are `(|l| - idx) / n` slices rounded up. */
  lemma {:induction false} ChunksFromCount<T>(l: seq<T>, n: nat, idx: nat)
    requires n > 0 && idx <= |l|
    ensures (|ChunksFrom(l, n, idx)| - 1) * n < |l| - idx <= |ChunksFrom(l, n, idx)| * n
    decreases |l| - idx
  {
    if idx < |l| {
      var c := |ChunksFrom(l, n, idx)|;
      if idx + n <= |l| {
        ChunksFromCount(l, n, idx + n);
        var c' := |ChunksFrom(l, n, idx + n)|;
        assert c == c' + 1;
        assert c * n == c' * n + n;
        assert (c - 1) * n == (c' - 1) * n + n;
      } else {
        assert ChunksFrom(l, n, idx + n) == [];
        assert ChunksFrom(l, n, idx) == [l[idx..Min(idx + n, |l|)]];
      }
    }
  }

  /** Every slice holds `n` elements except the last, which holds 1 to `n`. */
  lemma {:induction false} ChunksFromSizes<T>(l: seq<T>, n: nat, idx: nat)
    requires n > 0 && idx <= |l|
    ensures forall k :: 0 <= k < |ChunksFrom(l, n, idx)| - 1 ==> |ChunksFrom(l, n, idx)[k]| == n
    ensures forall k :: 0 <= k < |ChunksFrom(l, n, idx)| ==> 0 < |ChunksFrom(l, n, idx)[k]| <= n
    decreases |l| - idx
  {
    if idx < |l| {
      var cs := ChunksFrom(l, n, idx);
      var rest := ChunksFrom(l, n, idx + n);
      assert cs == [l[idx..Min(idx + n, |l|)]] + rest;
      if idx + n <= |l| {
        ChunksFromSizes(l, n, idx + n);
        forall k | 0 < k < |cs| ensures cs[k] == rest[k - 1] {
        }
      } else {
        assert rest == [];
      }
    }
  }

  /** For a positive `n`, the chunks put back together give the list; there
      are `len(l) / n` of them rounded up, all of `n` elements but the last, which
      holds 1 to `n`. */
  lemma ChunksPartition<T>(l: seq<T>, n: int)
    requires n > 0
    ensures Flatten(Chunks(l, n).value) == l
    ensures (|Chunks(l, n).value| - 1) * n < |l| <= |Chunks(l, n).value| * n
    ensures forall k :: 0 <= k < |Chunks(l, n).value| - 1 ==> |Chunks(l, n).value[k]| == n
    ensures forall k :: 0 <= k < |Chunks(l, n).value| ==> 0 < |Chunks(l, n).value[k]| <= n
  {
    ChunksFromFlatten(l, n, 0);
    ChunksFromCount(l, n, 0);
    ChunksFromSizes(l, n, 0);
    assert l[0..] == l;
  }

  /** Seven percentile entries in chunks of three: two full chunks and a last one of one. */
  lemma ChunksOfThree()
    ensures Chunks([1, 2, 3, 4, 5, 6, 7], 3) == Ok([[1, 2, 3], [4, 5, 6], [7]])
  {
    var l := [1, 2, 3, 4, 5, 6, 7];
    assert ChunksFrom(l, 3, 9) == [];
    assert l[6..Min(9, 7)] == [7];
    assert ChunksFrom(l, 3, 6) == [[7]];
    assert l[3..Min(6, 7)] == [4, 5, 6];
    assert ChunksFrom(l, 3, 3) == [[4, 5, 6], [7]];
    assert l[0..Min(3, 7)] == [1, 2, 3];
    assert ChunksFrom(l, 3, 0) == [[1, 2, 3], [4, 5, 6], [7]];
  }
}
