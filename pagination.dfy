/**
 * The page arithmetic of the Home page: page offsets, the offset of the
 * prefetched next page, the next/previous guards and the window of page
 * buttons. JavaScript numbers are read as exact `real`s where the source
 * divides, and as `int`s elsewhere.
 */
module Pagination {
  import opened Wrappers
  import opened Ints

  const PokemonPerPage: int := 12
  const MaxPageButtons: int := 5

  /** `Math.ceil(count / pokemonPerPage)`: the least integer not below `count / 12`. */
  function TotalPages(count: nat): (r: nat)
    ensures r as real >= count as real / PokemonPerPage as real
    ensures (r - 1) as real < count as real / PokemonPerPage as real
  {
    var r := (count + PokemonPerPage - 1) / PokemonPerPage;
    assert r * PokemonPerPage >= count;
    assert (r - 1) * PokemonPerPage < count;
    r
  }

  /** The list offset of a page, `(currentPage - 1) * pokemonPerPage`. */
  function PageOffset(currentPage: int): (r: int)
    ensures currentPage >= 1 ==> r >= 0
    ensures r % PokemonPerPage == 0
    ensures r / PokemonPerPage + 1 == currentPage
  {
    (currentPage - 1) * PokemonPerPage
  }

  /** `(pageParam / pokemonPerPage + 1) * pokemonPerPage`, the offset whose page is prefetched. */
  function NextOffset(pageParam: int): (r: real)
    ensures r == pageParam as real + PokemonPerPage as real
  {
    (pageParam as real / PokemonPerPage as real + 1.0) * PokemonPerPage as real
  }

  /**
   * The offset that fetching the page at `pageParam` prefetches: only when the
   * response's `next` link is truthy (present and not the empty string).
   */
  function PrefetchOffset(pageParam: int, next: Option<string>): (r: Option<real>)
    ensures r.Some? <==> next.Some? && next.value != ""
    ensures r.Some? ==> r.value == pageParam as real + PokemonPerPage as real
  {
    if next.Some? && next.value != "" then Some(NextOffset(pageParam)) else None
  }

  /** The prefetch made while showing page `p` fetches exactly the list of page `p + 1`. */
  lemma PrefetchIsNextPage(p: int, next: string)
    requires next != ""
    ensures PrefetchOffset(PageOffset(p), Some(next)) == Some(PageOffset(p + 1) as real)
  {
  }

  /**
   * The guard of `goToNextPage`, `currentPage < count / pokemonPerPage`; an
   * absent `count` gives `NaN`, and every comparison with `NaN` is false.
   */
  function CanGoNext(currentPage: int, count: Option<nat>): (r: bool)
    ensures r <==> count.Some? && currentPage * PokemonPerPage < count.value
  {
    count.Some? && (currentPage as real) < count.value as real / PokemonPerPage as real
  }

  /** A page reached through `goToNextPage` from a valid page is still a page of the list. */
  lemma NextStaysInRange(currentPage: int, count: nat)
    requires currentPage >= 1 && CanGoNext(currentPage, Some(count))
    ensures currentPage + 1 <= TotalPages(count)
  {
  }

  /** The guard of `goToPrevPage`. */
  function CanGoPrev(currentPage: int): (r: bool)
    ensures r ==> currentPage - 1 >= 1
  {
    currentPage > 1
  }

  /** The ascending run `lo, lo + 1, ..., hi` (empty when `hi < lo`). */
  function Range(lo: int, hi: int): (r: seq<int>)
    ensures |r| == Max(0, hi - lo + 1)
    ensures forall k :: 0 <= k < |r| ==> r[k] == lo + k
    decreases hi - lo
  {
    if hi < lo then [] else Range(lo, hi - 1) + [hi]
  }

  /**
   * The window of page buttons, stated independently of the source's
   * algorithm: `min(5, totalPages)` consecutive pages, placed as close to
   * centred on `currentPage` as the bounds `[1, totalPages]` allow.
   */
  function PaginationWindow(currentPage: int, totalPages: int): (r: seq<int>)
    ensures forall k :: 0 <= k < |r| ==> r[k] == r[0] + k
    ensures forall k :: 0 <= k < |r| ==> 1 <= r[k] <= totalPages
    ensures |r| == Max(0, Min(MaxPageButtons, totalPages))
    ensures 1 <= currentPage <= totalPages ==> currentPage in r
  {
    if totalPages <= 0 then []
    else
      var len := Min(MaxPageButtons, totalPages);
      var lo := Max(1, Min(currentPage - MaxPageButtons / 2, totalPages - len + 1));
      var r := Range(lo, lo + len - 1);
      assert 1 <= currentPage <= totalPages ==> r[currentPage - lo] == currentPage;
      r
  }

  /** The worked examples of the window. */
  lemma WindowExamples()
    ensures PaginationWindow(1, 10) == [1, 2, 3, 4, 5]
    ensures PaginationWindow(10, 10) == [6, 7, 8, 9, 10]
    ensures PaginationWindow(5, 10) == [3, 4, 5, 6, 7]
    ensures PaginationWindow(3, 4) == [1, 2, 3, 4]
    ensures PaginationWindow(1, 0) == []
  {
    assert Range(1, 5) == [1, 2, 3, 4, 5];
    assert Range(6, 10) == [6, 7, 8, 9, 10];
    assert Range(3, 7) == [3, 4, 5, 6, 7];
    assert Range(1, 4) == [1, 2, 3, 4];
  }

}
