/**
 ORDER BY and LIMIT/OFFSET over one snapshot. When the order is strict and total on the rows, the
 ordered result is unique, and the pages up to the last one are exactly that result cut in pieces.
 */
module Ordering {
  import opened Numbers
  import opened Arrays

  ghost predicate NoDuplicates<T>(xs: seq<T>) {
    forall i, j :: 0 <= i < j < |xs| ==> xs[i] != xs[j]
  }

  ghost predicate StrictOrder<T(!new)>(less: (T, T) -> bool, xs: seq<T>) {
    && (forall a :: a in xs ==> !less(a, a))
    && (forall a, b, c :: a in xs && b in xs && c in xs && less(a, b) && less(b, c) ==> less(a, c))
  }

  ghost predicate TotalOrder<T(!new)>(less: (T, T) -> bool, xs: seq<T>) {
    && StrictOrder(less, xs)
    && (forall a, b :: a in xs && b in xs && a != b ==> less(a, b) || less(b, a))
  }

  ghost predicate Sorted<T>(less: (T, T) -> bool, xs: seq<T>) {
    forall i, j :: 0 <= i < j < |xs| ==> less(xs[i], xs[j])
  }

  function Insert<T>(x: T, xs: seq<T>, less: (T, T) -> bool): seq<T> {
    if xs == [] then [x]
    else if less(x, xs[0]) then [x] + xs
    else [xs[0]] + Insert(x, xs[1..], less)
  }

  /** ORDER BY */
  function OrderBy<T>(xs: seq<T>, less: (T, T) -> bool): seq<T> {
    if xs == [] then [] else Insert(xs[0], OrderBy(xs[1..], less), less)
  }

  ghost predicate SameElements<T(!new)>(xs: seq<T>, ys: seq<T>) {
    forall a :: a in xs <==> a in ys
  }

  lemma {:induction false} InsertKeepsElements<T(!new)>(x: T, xs: seq<T>, less: (T, T) -> bool)
    ensures |Insert(x, xs, less)| == |xs| + 1
    ensures forall a :: a in Insert(x, xs, less) <==> a == x || a in xs
  {
    if xs != [] { InsertKeepsElements(x, xs[1..], less); }
  }

  lemma SortedWithFirst<T(!new)>(x: T, xs: seq<T>, less: (T, T) -> bool)
    requires Sorted(less, xs) && forall a :: a in xs ==> less(x, a)
    ensures Sorted(less, [x] + xs)
  {
  }

  lemma {:induction false} InsertSorts<T(!new)>(x: T, xs: seq<T>, less: (T, T) -> bool)
    requires Sorted(less, xs) && TotalOrder(less, [x] + xs) && x !in xs
    ensures Sorted(less, Insert(x, xs, less))
  {
    assert x in [x] + xs && forall a :: a in xs ==> a in [x] + xs;
    if xs != [] {
      assert forall a :: a in xs[1..] ==> less(xs[0], a);
      if less(x, xs[0]) {
        assert forall a :: a in xs ==> a == xs[0] || a in xs[1..];
        SortedWithFirst(x, xs, less);
      } else {
        assert forall a :: a in [x] + xs[1..] ==> a in [x] + xs;
        InsertSorts(x, xs[1..], less);
        InsertKeepsElements(x, xs[1..], less);
        SortedWithFirst(xs[0], Insert(x, xs[1..], less), less);
      }
    }
  }

  /** The ordered result has the same rows, once each, in strictly increasing order. */
  lemma {:induction false} OrderByIsSorted<T(!new)>(xs: seq<T>, less: (T, T) -> bool)
    requires NoDuplicates(xs) && TotalOrder(less, xs)
    ensures Sorted(less, OrderBy(xs, less)) && SameElements(OrderBy(xs, less), xs) && |OrderBy(xs, less)| == |xs|
  {
    if xs != [] {
      var rest := xs[1..];
      assert forall a :: a in rest ==> a in xs;
      OrderByIsSorted(rest, less);
      InsertKeepsElements(xs[0], OrderBy(rest, less), less);
      assert forall a :: a in [xs[0]] + OrderBy(rest, less) ==> a in xs;
      InsertSorts(xs[0], OrderBy(rest, less), less);
    }
  }

  lemma FirstIsElement<T>(xs: seq<T>)
    requires xs != []
    ensures xs[0] in xs
  {
  }

  /** Whatever algorithm ordered the rows, the result is this one. */
  lemma {:induction false} SortedIsUnique<T(!new)>(xs: seq<T>, ys: seq<T>, less: (T, T) -> bool)
    requires StrictOrder(less, xs) && Sorted(less, xs) && Sorted(less, ys) && SameElements(xs, ys)
    ensures xs == ys
    decreases |xs|
  {
    if xs == [] {
      if ys != [] { FirstIsElement(ys); }
    } else {
      assert xs[0] in xs && xs[0] in ys;
      assert ys[0] in ys && ys[0] in xs;
      var i :| 0 <= i < |xs| && xs[i] == ys[0];
      var j :| 0 <= j < |ys| && ys[j] == xs[0];
      assert i == 0 || j == 0;
      TailsHaveSameElements(xs, ys, less);
      assert forall a :: a in xs[1..] ==> a in xs;
      SortedIsUnique(xs[1..], ys[1..], less);
    }
  }

  lemma TailsHaveSameElements<T(!new)>(xs: seq<T>, ys: seq<T>, less: (T, T) -> bool)
    requires xs != [] && ys != [] && xs[0] == ys[0]
    requires StrictOrder(less, xs) && Sorted(less, xs) && Sorted(less, ys) && SameElements(xs, ys)
    ensures SameElements(xs[1..], ys[1..])
  {
    forall a | a in xs[1..] ensures a in ys[1..] {
      assert a in xs && less(xs[0], a);
    }
    forall a | a in ys[1..] ensures a in xs[1..] {
      assert a in ys && less(ys[0], a);
    }
  }

  // ---------------------------------------------------------------- Pages

  /** LIMIT limit OFFSET offset */
  function Slice<T>(xs: seq<T>, offset: nat, limit: nat): seq<T> {
    xs[Min(offset, |xs|)..Min(offset + limit, |xs|)]
  }

  function Offset(page: nat, limit: nat): nat
    requires page >= 1
  {
    (page - 1) * limit
  }

  function Page<T>(xs: seq<T>, page: nat, limit: nat): seq<T>
    requires page >= 1
  {
    Slice(xs, Offset(page, limit), limit)
  }

  /** Math.ceil(total / limit) */
  function TotalPages(total: nat, limit: nat): (pages: nat)
    requires limit >= 1
    ensures total <= pages * limit < total + limit
  {
    (total + limit - 1) / limit
  }

  function Pages<T>(xs: seq<T>, limit: nat, n: nat): seq<T> {
    if n == 0 then [] else Pages(xs, limit, n - 1) + Page(xs, n, limit)
  }

  lemma {:induction false} PagesArePrefix<T>(xs: seq<T>, limit: nat, n: nat)
    ensures n * limit >= 0 && Pages(xs, limit, n) == xs[..Min(n * limit, |xs|)]
  {
    if n > 0 {
      PagesArePrefix(xs, limit, n - 1);
      assert n * limit == Offset(n, limit) + limit;
      var a, b := Min(Offset(n, limit), |xs|), Min(n * limit, |xs|);
      assert xs[..a] + xs[a..b] == xs[..b];
    }
  }

  lemma PageBounds(total: nat, page: nat, limit: nat)
    requires page >= 1 && limit >= 1
    ensures page <= TotalPages(total, limit) ==> Offset(page, limit) < total
    ensures page > TotalPages(total, limit) ==> Offset(page, limit) >= total
  {
    var pages := TotalPages(total, limit);
    if page <= pages {
      assert (page - 1) * limit <= (pages - 1) * limit;
      assert pages * limit == (pages - 1) * limit + limit;
    } else {
      assert (page - 1) * limit >= pages * limit;
    }
  }

  lemma PageSize<T>(xs: seq<T>, page: nat, limit: nat)
    requires page >= 1 && limit >= 1
    ensures page <= TotalPages(|xs|, limit) ==> 1 <= |Page(xs, page, limit)| <= limit
    ensures page > TotalPages(|xs|, limit) ==> Page(xs, page, limit) == []
  {
    PageBounds(|xs|, page, limit);
    var offset := Offset(page, limit);
    assert Page(xs, page, limit) == Slice(xs, offset, limit);
  }

  /**
   Pages 1 to totalPages put together are the whole result, none of them is empty or too long, and
   every later page is empty.
   */
  lemma PagesPartition<T>(xs: seq<T>, limit: nat)
    requires limit >= 1
    ensures Pages(xs, limit, TotalPages(|xs|, limit)) == xs
    ensures forall page: nat :: 1 <= page <= TotalPages(|xs|, limit) ==> 1 <= |Page(xs, page, limit)| <= limit
    ensures forall page: nat :: page > TotalPages(|xs|, limit) ==> Page(xs, page, limit) == []
  {
    var pages := TotalPages(|xs|, limit);
    PagesArePrefix(xs, limit, pages);
    assert xs[..|xs|] == xs;
    forall page: nat | page >= 1
      ensures page <= pages ==> 1 <= |Page(xs, page, limit)| <= limit
      ensures page > pages ==> Page(xs, page, limit) == []
    {
      PageSize(xs, page, limit);
    }
  }

  lemma OffsetsApart(p: nat, q: nat, limit: nat)
    requires 1 <= p < q
    ensures Offset(p, limit) + limit <= Offset(q, limit)
  {
    assert (q - 1) * limit == (p - 1) * limit + (q - p) * limit;
    assert (q - p) * limit == (q - p - 1) * limit + limit;
  }

  /** No row appears on two pages. */
  lemma NoRowOnTwoPages<T>(xs: seq<T>, limit: nat, p: nat, q: nat, a: T)
    requires NoDuplicates(xs) && 1 <= p < q
    requires a in Page(xs, p, limit)
    ensures a !in Page(xs, q, limit)
  {
    OffsetsApart(p, q, limit);
    SlicesApart(xs, Offset(p, limit), Offset(q, limit), limit, a);
  }

  lemma SlicesApart<T>(xs: seq<T>, i: nat, j: nat, limit: nat, a: T)
    requires NoDuplicates(xs) && i + limit <= j && a in Slice(xs, i, limit)
    ensures a !in Slice(xs, j, limit)
  {
  }
}
