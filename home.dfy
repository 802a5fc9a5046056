/**
 * The state of the Home page (`searchTerm`, `currentPage`), its event
 * handlers, the choice of what list is displayed, and the generation of the
 * page-number buttons. The paginated list response is represented by its
 * `count` (`None` while `paginatedData` is undefined).
 */
module Home {
  import opened Wrappers
  import opened PokeApi
  import opened JsString
  import opened Pagination
  import opened Ints

  class HomePage {
    var searchTerm: string
    var currentPage: int

    /** Every handler keeps the current page a page number, 1 or more. */
    ghost predicate Valid()
      reads this
    {
      currentPage >= 1
    }

    /** `useState('')` and `useState(1)`. */
    constructor ()
      ensures Valid() && searchTerm == "" && currentPage == 1
    {
      searchTerm := "";
      currentPage := 1;
    }

    /** The `onChange` handler of the search input. */
    method SetSearchTerm(value: string)
      requires Valid()
      modifies this
      ensures Valid()
      ensures searchTerm == value && currentPage == old(currentPage)
    {
      searchTerm := value;
    }

    /** `clearSearch`: back to an empty term on page 1. */
    method ClearSearch()
      modifies this
      ensures Valid()
      ensures searchTerm == "" && currentPage == 1
    {
      searchTerm := "";
      currentPage := 1;
    }

    /**
     * `handleSearch`: a blank term (empty once trimmed) clears the search;
     * any other term asks the search query to refetch, reported as `refetch`.
     */
    method HandleSearch() returns (refetch: bool)
      requires Valid()
      modifies this
      ensures Valid()
      ensures refetch <==> !IsBlank(old(searchTerm))
      ensures refetch ==> searchTerm == old(searchTerm) && currentPage == old(currentPage)
      ensures !refetch ==> searchTerm == "" && currentPage == 1
    {
      TrimEmptyIffBlank(searchTerm);
      if Trim(searchTerm) == [] {
        ClearSearch();
        refetch := false;
        return;
      }
      refetch := true;
    }

    /** `goToNextPage`: one page on, only while `currentPage < count / 12`. */
    method GoToNextPage(count: Option<nat>)
      requires Valid()
      modifies this
      ensures Valid()
      ensures searchTerm == old(searchTerm)
      ensures currentPage == if CanGoNext(old(currentPage), count) then old(currentPage) + 1 else old(currentPage)
      ensures count.Some? && old(currentPage) <= TotalPages(count.value) ==> currentPage <= TotalPages(count.value)
    {
      if CanGoNext(currentPage, count) {
        NextStaysInRange(currentPage, count.value);
        currentPage := currentPage + 1;
      }
    }

    /** `goToPrevPage`: one page back, never below page 1. */
    method GoToPrevPage()
      requires Valid()
      modifies this
      ensures Valid()
      ensures searchTerm == old(searchTerm)
      ensures currentPage == if old(currentPage) > 1 then old(currentPage) - 1 else old(currentPage)
    {
      if CanGoPrev(currentPage) {
        currentPage := currentPage - 1;
      }
    }

    /**
     * `goToPage`, the handler of a page-number button; the buttons carry the
     * numbers of the pagination window, which are all 1 or more.
     */
    method GoToPage(pageNumber: int)
      requires Valid() && pageNumber >= 1
      modifies this
      ensures Valid()
      ensures searchTerm == old(searchTerm) && currentPage == pageNumber
    {
      currentPage := pageNumber;
    }

    /** `displayPokemon`: the search results while a term is entered, else the page's details. */
    function DisplayPokemon(searchResults: seq<Pokemon>, detailedPokemon: seq<Pokemon>): (r: seq<Pokemon>)
      reads this
      ensures searchTerm != "" ==> r == searchResults
      ensures searchTerm == "" ==> r == detailedPokemon
    {
      if searchTerm != "" then searchResults else detailedPokemon
    }

    /**
     * `generatePaginationNumbers`: no buttons without page data; otherwise the
     * source's shifting of `startPage`/`endPage` and its loop produce exactly
     * the window of `PaginationWindow`, for every current page and count.
     */
    method GeneratePaginationNumbers(count: Option<nat>) returns (pageNumbers: seq<int>)
      ensures count.None? ==> pageNumbers == []
      ensures count.Some? ==> pageNumbers == PaginationWindow(currentPage, TotalPages(count.value))
    {
      if count.None? {
        return [];
      }
      var totalPages := TotalPages(count.value);
      pageNumbers := [];

      var startPage := Max(1, currentPage - MaxPageButtons / 2);
      var endPage := Min(totalPages, startPage + MaxPageButtons - 1);

      if endPage - startPage + 1 < MaxPageButtons {
        startPage := Max(1, endPage - MaxPageButtons + 1);
      }

      var i := startPage;
      while i <= endPage
        invariant startPage <= i <= Max(startPage, endPage + 1)
        invariant pageNumbers == Range(startPage, i - 1)
      {
        pageNumbers := pageNumbers + [i];
        i := i + 1;
      }

      var len := Min(MaxPageButtons, totalPages);
      var lo := Max(1, Min(currentPage - MaxPageButtons / 2, totalPages - len + 1));
      assert totalPages > 0 ==> startPage == lo && endPage == lo + len - 1;
    }
  }

  /** After `clearSearch` the page shows the paginated details, from page 1. */
  lemma ClearedSearchShowsPages(page: HomePage, searchResults: seq<Pokemon>, detailedPokemon: seq<Pokemon>)
    requires page.searchTerm == "" && page.currentPage == 1
    ensures page.DisplayPokemon(searchResults, detailedPokemon) == detailedPokemon
    ensures PageOffset(page.currentPage) == 0
  {
  }

}
