/** Batches and filters of lists, and the size of sets. */
module Arrays {
  import opened Numbers

  /** The index at which batch i starts. */
  function Start(i: nat, size: nat): nat {
    if i == 0 then 0 else Start(i - 1, size) + size
  }

  lemma {:induction false} StartIsProduct(i: nat, size: nat)
    ensures Start(i, size) == i * size
  {
    if i > 0 { StartIsProduct(i - 1, size); }
  }

  /** Every batch starts where the one before it ends; only the last one may be short. */
  function Chunk<T>(xs: seq<T>, size: nat, i: nat): seq<T>
    requires Start(i, size) <= |xs|
  {
    xs[Start(i, size)..Min(Start(i, size) + size, |xs|)]
  }

  ghost predicate AreChunks<T>(xs: seq<T>, size: nat, chunks: seq<seq<T>>) {
    forall i: nat :: i < |chunks| ==> Start(i, size) < |xs| && chunks[i] == Chunk(xs, size, i)
  }

  method ChunkArray<T>(xs: seq<T>, size: nat) returns (chunks: seq<seq<T>>)
    requires size >= 1
    ensures |xs| <= Start(|chunks|, size) < |xs| + size
    ensures AreChunks(xs, size, chunks)
  {
    chunks := [];
    var i := 0;
    while i < |xs|
      invariant i == Start(|chunks|, size) < |xs| + size
      invariant AreChunks(xs, size, chunks)
    {
      chunks := chunks + [xs[i..Min(i + size, |xs|)]];
      i := i + size;
    }
  }

  function Flatten<T>(chunks: seq<seq<T>>): seq<T> {
    if chunks == [] then [] else Flatten(chunks[..|chunks| - 1]) + chunks[|chunks| - 1]
  }

  /** The first n batches put together are what comes before batch n, so all of them are the whole list. */
  lemma {:induction false} ChunksFlatten<T>(xs: seq<T>, size: nat, chunks: seq<seq<T>>)
    requires AreChunks(xs, size, chunks)
    ensures Flatten(chunks) == xs[..Min(Start(|chunks|, size), |xs|)]
  {
    if chunks != [] {
      var n := |chunks| - 1;
      ChunksFlatten(xs, size, chunks[..n]);
      var start := Start(n, size);
      assert chunks[n] == Chunk(xs, size, n);
      assert xs[..start] + xs[start..Min(start + size, |xs|)] == xs[..Min(start + size, |xs|)];
    }
  }

  function Filter<T>(xs: seq<T>, keep: T -> bool): seq<T> {
    if xs == [] then []
    else if keep(xs[0]) then [xs[0]] + Filter(xs[1..], keep) else Filter(xs[1..], keep)
  }

  lemma {:induction false} FilterMembers<T>(xs: seq<T>, keep: T -> bool)
    ensures forall x :: x in Filter(xs, keep) <==> x in xs && keep(x)
    ensures |Filter(xs, keep)| <= |xs|
  {
    if xs != [] { FilterMembers(xs[1..], keep); }
  }

  lemma {:induction false} FilterConcat<T>(xs: seq<T>, ys: seq<T>, keep: T -> bool)
    ensures Filter(xs + ys, keep) == Filter(xs, keep) + Filter(ys, keep)
  {
    if xs == [] {
      assert xs + ys == ys;
    } else {
      assert (xs + ys)[1..] == xs[1..] + ys;
      FilterConcat(xs[1..], ys, keep);
    }
  }

  lemma {:induction false} FilterAgrees<T>(xs: seq<T>, keep: T -> bool, other: T -> bool)
    requires forall x :: x in xs ==> keep(x) == other(x)
    ensures Filter(xs, keep) == Filter(xs, other)
  {
    if xs != [] { FilterAgrees(xs[1..], keep, other); }
  }

  lemma {:induction false} FilterKeepsAll<T>(xs: seq<T>, keep: T -> bool)
    requires forall x :: x in xs ==> keep(x)
    ensures Filter(xs, keep) == xs
  {
    if xs != [] { FilterKeepsAll(xs[1..], keep); }
  }

  lemma {:induction false} FilterKeepsNone<T>(xs: seq<T>, keep: T -> bool)
    requires forall x :: x in xs ==> !keep(x)
    ensures Filter(xs, keep) == []
  {
    if xs != [] { FilterKeepsNone(xs[1..], keep); }
  }

  lemma {:induction false} FilterBoth<T>(xs: seq<T>, first: T -> bool, second: T -> bool, both: T -> bool)
    requires forall x :: x in xs ==> both(x) == (first(x) && second(x))
    ensures Filter(Filter(xs, first), second) == Filter(xs, both)
  {
    if xs != [] { FilterBoth(xs[1..], first, second, both); }
  }

  lemma SubsetSize<T>(a: set<T>, b: set<T>)
    requires a <= b
    ensures |a| <= |b|
  {
    assert b == a + (b - a);
  }

  lemma OneMemberMoves<T>(before: set<T>, after: set<T>, c: T)
    requires before - {c} == after - {c}
    ensures |after| + (if c in before then 1 else 0) == |before| + (if c in after then 1 else 0)
  {
    var others := before - {c};
    assert before == if c in before then others + {c} else others;
    assert after == if c in after then others + {c} else others;
  }
}
