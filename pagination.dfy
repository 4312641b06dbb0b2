/**
 * The arithmetic behind the artist page's pagination: the page count, the list
 * of page numbers, and the slice of the collection shown on one page.
 */
module Pagination {

  function Min(a: int, b: int): int { if a <= b then a else b }

  function Max(a: int, b: int): int { if a >= b then a else b }

  /** The page count `Math.ceil(total / size)`: the fewest pages of `size` that hold `total` items. */
  function CeilDiv(total: nat, size: nat): (r: nat)
    requires size > 0
    ensures size * r >= total
    ensures r == 0 || size * (r - 1) < total
    ensures total == 0 ==> r == 0
  {
    var q := (total + size - 1) / size;
    var m := (total + size - 1) % size;
    assert size * q + m == total + size - 1;
    assert size * (q - 1) == size * q - size;
    q
  }

  /** The page numbers `[1, 2, ..., n]`, built as the page loop pushes them. */
  function PageNumbers(n: nat): (r: seq<int>)
    ensures |r| == n
    ensures forall k :: 0 <= k < n ==> r[k] == k + 1
    ensures forall i, j :: 0 <= i < j < n ==> r[i] < r[j]
  {
    if n == 0 then [] else PageNumbers(n - 1) + [n]
  }

  /**
   * JavaScript's `s.slice(start, end)`: a negative bound counts from the end,
   * both bounds are clamped to the list, and crossed bounds give nothing.
   */
  function JsSlice<T>(s: seq<T>, start: int, end: int): (r: seq<T>)
    ensures |r| <= |s|
    ensures forall x :: x in r ==> x in s
    ensures 0 <= start && 0 <= end ==>
      r == if start < end && start < |s| then s[start..Min(end, |s|)] else []
  {
    var from := if start < 0 then Max(|s| + start, 0) else Min(start, |s|);
    var to := if end < 0 then Max(|s| + end, 0) else Min(end, |s|);
    if to <= from then [] else s[from..to]
  }

  /** A product of two non-negative numbers is non-negative. */
  lemma MulNonNegative(a: int, b: int)
    requires a >= 0 && b >= 0
    ensures a * b >= 0
  {
  }

  /**
   * The slice `paginateArtists` takes: the start index `(page-1)*size`, the
   * inclusive end index `min(start + size - 1, total - 1)`, and `slice(start, end + 1)`.
   */
  function PageSlice<T>(s: seq<T>, page: int, size: nat, total: int): (r: seq<T>)
    ensures |r| <= |s|
    ensures forall x :: x in r ==> x in s
  {
    var startIndex := (page - 1) * size;
    var endIndex := Min(startIndex + size - 1, total - 1);
    JsSlice(s, startIndex, endIndex + 1)
  }

  /**
   * For a page number of at least 1 and a count equal to the list's length, the
   * page is the half-open range `[(page-1)*size, min(page*size, |s|))`, empty
   * when the start is at or past the end, and never longer than a page.
   */
  lemma PageSliceIsRange<T>(s: seq<T>, page: int, size: nat)
    requires size > 0 && page >= 1
    ensures var start := (page - 1) * size;
      PageSlice(s, page, size, |s|) == if start < |s| then s[start..Min(start + size, |s|)] else []
    ensures |PageSlice(s, page, size, |s|)| <= size
  {
    var start := (page - 1) * size;
    MulNonNegative(page - 1, size);
    assert (page - 1) * size + size == page * size;
  }

  /**
   * On a page in range, every page but the last is full, and the last holds what
   * the full pages leave over (at least one item).
   */
  lemma PageSliceLength<T>(s: seq<T>, page: int, size: nat)
    requires size > 0
    requires 1 <= page <= CeilDiv(|s|, size)
    ensures var n := CeilDiv(|s|, size);
      page < n ==> |PageSlice(s, page, size, |s|)| == size
    ensures var n := CeilDiv(|s|, size);
      page == n ==> |PageSlice(s, page, size, |s|)| == |s| - size * (n - 1) > 0
  {
    PageLengths(s, page, size, CeilDiv(|s|, size));
  }

  /** PageSliceLength for any page count `n` that is the ceiling of `|s| / size`. */
  lemma PageLengths<T>(s: seq<T>, page: int, size: nat, n: int)
    requires size > 0
    requires size * n >= |s| && size * (n - 1) < |s|
    requires 1 <= page <= n
    ensures page < n ==> |PageSlice(s, page, size, |s|)| == size
    ensures page == n ==> |PageSlice(s, page, size, |s|)| == |s| - size * (n - 1) > 0
  {
    PageSliceIsRange(s, page, size);
    PageArithmetic(|s|, page, size, n);
  }

  /** The index arithmetic of a page in range: it starts inside the list, and if it is not the last it ends inside it. */
  lemma PageArithmetic(total: int, page: int, size: nat, n: int)
    requires size > 0
    requires size * n >= total && size * (n - 1) < total
    requires 1 <= page <= n
    ensures 0 <= (page - 1) * size < total
    ensures page < n ==> Min((page - 1) * size + size, total) == (page - 1) * size + size
    ensures page == n ==> Min((page - 1) * size + size, total) == total && (page - 1) * size == size * (n - 1)
  {
    MulNonNegative(page - 1, size);
    var start := (page - 1) * size;
    assert start + size == page * size;
    MonotoneMul(size, page - 1, n - 1);
    assert start == size * (page - 1);
    if page < n {
      MonotoneMul(size, page, n - 1);
      assert page * size == size * page;
    }
  }

  /**
   * A page number past the last page (as the current page becomes when the list
   * shrinks under it) shows nothing.
   */
  lemma PageBeyondLastIsEmpty<T>(s: seq<T>, page: int, size: nat)
    requires size > 0
    requires page > CeilDiv(|s|, size)
    ensures PageSlice(s, page, size, |s|) == []
  {
    var n := CeilDiv(|s|, size);
    PageSliceIsRange(s, page, size);
    MonotoneMul(size, n, page - 1);
    assert (page - 1) * size == size * (page - 1);
  }

  /** Multiplying by a positive size keeps order. */
  lemma MonotoneMul(size: nat, a: int, b: int)
    requires a <= b
    ensures size * a <= size * b
  {
    assert size * b - size * a == size * (b - a);
    MulNonNegative(size, b - a);
  }

  /** The pages 1..n laid end to end. */
  function Pages<T>(s: seq<T>, size: nat, n: nat): seq<T>
  {
    if n == 0 then [] else Pages(s, size, n - 1) + PageSlice(s, n, size, |s|)
  }

  /** Pages 1..n together are exactly the first `min(n*size, |s|)` items, in order. */
  lemma {:induction false} PagesArePrefix<T>(s: seq<T>, size: nat, n: nat)
    requires size > 0
    ensures Pages(s, size, n) == s[..Min(n * size, |s|)]
  {
    if n > 0 {
      PagesArePrefix(s, size, n - 1);
      PageSliceIsRange(s, n, size);
      PrefixStep(|s|, size, n);
      var start := (n - 1) * size;
      if start < |s| {
        assert s[..start] + s[start..Min(n * size, |s|)] == s[..Min(n * size, |s|)];
      }
    }
  }

  /** The index arithmetic of page `n`: it starts where pages 1..n-1 end and ends where pages 1..n end. */
  lemma PrefixStep(total: nat, size: nat, n: nat)
    requires size > 0 && n > 0
    ensures var start := (n - 1) * size;
      && start >= 0
      && Min(start + size, total) == Min(n * size, total)
      && Min((n - 1) * size, total) == Min(start, total)
      && (start >= total ==> Min(n * size, total) == total)
  {
    MulNonNegative(n - 1, size);
    assert (n - 1) * size + size == n * size;
  }

  /** The pages 1..CeilDiv(|s|, size) partition the list: laid end to end they give it back. */
  lemma PagesPartition<T>(s: seq<T>, size: nat)
    requires size > 0
    ensures Pages(s, size, CeilDiv(|s|, size)) == s
  {
    var n := CeilDiv(|s|, size);
    PagesArePrefix(s, size, n);
    assert n * size >= |s|;
    assert s[..|s|] == s;
  }
}
