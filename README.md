# Pokédex decision rules, modelled in Dafny

The Pokédex is a React client for PokeAPI with two pages. The Home page
lists the catalog twelve records per page. It also offers a search box.
The Detail page shows one record with its English description and links
to the neighbouring ids. This project models the decision rules inside
those two pages and proves what they promise. Every network response is
an input value.

- `wrappers.dfy`: `Wrappers.Option`, which stands for JavaScript's `null` and `undefined`.
- `ints.dfy`: integer `Min` and `Max`, shared by the page arithmetic and the search.
- `poke_api.dfy`: the response shapes the pages read (`CatalogEntry`, `Pokemon`, `FlavorEntry`, `Species`).
- `js_string.dfy`: the string built-ins the rules depend on: `toLowerCase` (ASCII only), `includes`, `trim` and one-character `replace`.
- `pagination.dfy`: page offsets, the prefetch offset, the next/previous guards and the page count. It also gives a reference definition of the five-button page window.
- `search.dfy`: the search query function. A direct lookup is tried first. Otherwise the name filter runs, the matches are cut to 20, and their details are fetched with `Promise.all`.
- `home.dfy`: class `HomePage`. It holds the `searchTerm`/`currentPage` state, the event handlers, the choice of the displayed list, and `generatePaginationNumbers` as a loop. That loop is proved equal to the reference window for every current page and count.
- `detail.dfy`: the English description and the prev/next ids. The loading effect is modelled in two ways. `LoadSteps` is the sequence of setter calls and requests, as a pure value. Class `DetailPage` runs that sequence step by step. `Render` gives the order in which loading, error, a missing record and the content are checked.

JavaScript numbers are read as exact `real`s where the source divides (`count / 12`, `Math.ceil`, `(pageParam / 12 + 1) * 12`). Everywhere else they are read as integers.

Where the design description and the code differ, the model follows the code:
- When the direct lookup is not tried or fails, a missing complete catalog makes the search return an empty list. There is no separate "index not ready" state.
- A failed species request sets `error`, so the page shows the error.
- Only the next list page is prefetched. Neighbouring detail records are not.
- Nothing cancels an out-of-date request.
- `error` is never reset. After one failed load, a later load that succeeds still shows the old error (`Detail.ErrorSurvivesLaterLoad`).

## Model

| member | source | states |
|---|---|---|
| `JsString.ToLower` | src/pages/Home.jsx:103 | same length; each character lower-cased in place; no ASCII capital left |
| `JsString.Includes` | src/pages/Home.jsx:105 | the empty needle is in every name; a needle longer than the name never is |
| `JsString.IncludesIff` | src/pages/Home.jsx:105 | `includes` holds exactly when the needle occurs at some position of the name |
| `JsString.TrimStart` | src/pages/Home.jsx:124 | result is the suffix left after dropping leading white space only, and does not start with white space |
| `JsString.TrimEnd` | src/pages/Home.jsx:124 | result is the prefix left after dropping trailing white space only, and does not end with white space |
| `JsString.Trim` | src/pages/Home.jsx:124 | the result is an infix of the term with only white space before and after it, and neither starts nor ends with white space |
| `JsString.TrimEmptyIffBlank` | src/pages/Home.jsx:124 | `!searchTerm.trim()` holds exactly when every character of the term is white space |
| `JsString.ReplaceChar` | src/pages/PokemonDetail.jsx:48 | same length; exactly the occurrences of the character are replaced; none is left |
| `Pagination.TotalPages` | src/pages/Home.jsx:158 | the least integer not below `count / 12` |
| `Pagination.PageOffset` | src/pages/Home.jsx:47-48 | offset is a multiple of 12, non-negative from page 1, and page `offset / 12 + 1` |
| `Pagination.NextOffset` | src/pages/Home.jsx:21 | the prefetched offset is `pageParam + 12` |
| `Pagination.PrefetchOffset` | src/pages/Home.jsx:20-25 | a prefetch happens iff the response's `next` is truthy, and then at `pageParam + 12` |
| `Pagination.PrefetchIsNextPage` | src/pages/Home.jsx:21-23 | the prefetch made on page `p` is the list query of page `p + 1` |
| `Pagination.CanGoNext` | src/pages/Home.jsx:139 | the float guard `currentPage < count / 12` holds iff `currentPage * 12 < count`; false without data |
| `Pagination.NextStaysInRange` | src/pages/Home.jsx:139-140 | a page reached by `goToNextPage` from page 1 or later is at most `totalPages` |
| `Pagination.CanGoPrev` | src/pages/Home.jsx:145 | going back is allowed only to a page of 1 or more |
| `Pagination.Range` | src/pages/Home.jsx:169-171 | the loop's run `lo..hi`: `max(0, hi - lo + 1)` elements, k-th is `lo + k` |
| `Pagination.PaginationWindow` | src/pages/Home.jsx:160-171 | contiguous ascending; each page in `[1, totalPages]`; length `min(5, totalPages)` (0 without pages); contains `currentPage` when it is a page |
| `Pagination.WindowExamples` | src/pages/Home.jsx:160-171 | (1,10)→1..5, (10,10)→6..10, (5,10)→3..7, (3,4)→1..4, no pages→[] |
| `Search.IsAllDigits` | src/pages/Home.jsx:88 | `/^\d+$/` matches exactly the non-empty terms made only of ASCII digits |
| `Search.TriesDirectLookup` | src/pages/Home.jsx:88 | a term skips the direct lookup exactly when it has at most 3 characters and is empty or holds a non-digit |
| `Search.FilterByName` | src/pages/Home.jsx:104-106 | result keeps catalog order; every kept name includes the needle; every matching entry is kept |
| `Search.FilterAppend` | src/pages/Home.jsx:104-106 | filtering a concatenation is the concatenation of the filtered parts |
| `Search.SearchMatches` | src/pages/Home.jsx:103-110 | the first `min(20, k)` of the `k` entries matching the lower-cased term, a prefix of the filtered list, in catalog order |
| `Search.FetchAll` | src/pages/Home.jsx:32-39 | resolves iff every detail request succeeds, to the records in request order |
| `Search.PokemonSearch` | src/pages/Home.jsx:86-116 | a successful direct lookup of a digit term or a term longer than 3 is the whole answer; no catalog or no match gives `[]`; otherwise the matched entries' records |
| `Search.ShortTermIgnoresLookup` | src/pages/Home.jsx:88-99 | a term that is neither all digits nor longer than 3 never consults the direct lookup |
| `Search.FallbackResults` | src/pages/Home.jsx:101-113 | on the substring path, with detail requests succeeding, exactly `min(20, k)` records, the i-th that of the i-th match |
| `Search.RoutingExamples` | src/pages/Home.jsx:88 | "25" and "pika" are looked up directly, "pik" is not |
| `Home.HomePage.constructor` | src/pages/Home.jsx:9-10 | the page starts with an empty term on page 1 |
| `Home.HomePage.SetSearchTerm` | src/pages/Home.jsx:192 | typing replaces the term and keeps the page |
| `Home.HomePage.ClearSearch` | src/pages/Home.jsx:132-135 | term becomes empty, page becomes 1 |
| `Home.HomePage.HandleSearch` | src/pages/Home.jsx:122-129 | a blank term clears the search and resets to page 1; any other term refetches and leaves the state alone |
| `Home.HomePage.GoToNextPage` | src/pages/Home.jsx:138-142 | increments exactly when `CanGoNext`; never leaves `[1, totalPages]` |
| `Home.HomePage.GoToPrevPage` | src/pages/Home.jsx:144-148 | decrements only above page 1, so never goes below 1 |
| `Home.HomePage.GoToPage` | src/pages/Home.jsx:150-152 | the page becomes the button's number |
| `Home.HomePage.DisplayPokemon` | src/pages/Home.jsx:180 | search results while a term is entered, the page's details otherwise |
| `Home.HomePage.GeneratePaginationNumbers` | src/pages/Home.jsx:155-174 | `[]` without page data; otherwise exactly `PaginationWindow(currentPage, totalPages)` for every current page and count |
| `Home.ClearedSearchShowsPages` | src/pages/Home.jsx:180 | after clearing, the paginated details are displayed, from offset 0 |
| `Detail.FirstEnglish` | src/pages/PokemonDetail.jsx:44-46 | the index of the first entry whose language is `en`, or none when no entry is |
| `Detail.EnglishFlavorText` | src/pages/PokemonDetail.jsx:41-49 | fallback text without species or English entry; otherwise the first English text, same length, form feeds turned into spaces; never a form feed |
| `Detail.PrevId` | src/pages/PokemonDetail.jsx:52 | present iff a record with id above 1 is loaded, and then one less |
| `Detail.NextId` | src/pages/PokemonDetail.jsx:53 | present iff a record is loaded, and then one more, with no upper bound |
| `Detail.PrevOfNext` | src/pages/PokemonDetail.jsx:52-53 | going next and then back returns to the same id |
| `Detail.FirstRecordNeighbours` | src/pages/PokemonDetail.jsx:52-53 | record 1 has no previous id and next id 2 |
| `Detail.LoadSteps` | src/pages/PokemonDetail.jsx:14-33 | every load starts by switching loading on and requesting the record, and ends by switching loading off |
| `Detail.LoadingSetOnlyAtEnds` | src/pages/PokemonDetail.jsx:14-33 | no step between the first and the last changes `isLoading` |
| `Detail.LoadFinalState` | src/pages/PokemonDetail.jsx:14-33 | every load ends not loading; not-ok sets only the "Pokemon not found" error; a throw sets its message; success stores record and species |
| `Detail.SpeciesRequestFollowsRecord` | src/pages/PokemonDetail.jsx:21-25 | the species request comes after the record is stored, with that record's species url |
| `Detail.SpeciesSetAfterRecord` | src/pages/PokemonDetail.jsx:22-27 | the species is stored only after the record |
| `Detail.FailedDetailStopsEarly` | src/pages/PokemonDetail.jsx:18-19 | a failed detail request stores neither record nor species and never requests the species |
| `Detail.Render` | src/pages/PokemonDetail.jsx:55-57 | loading wins over everything; then a non-empty error message; then a missing record shows "not found"; only then the content with description and neighbour ids |
| `Detail.LoadingThroughout` | src/pages/PokemonDetail.jsx:14-35 | every state strictly inside a load renders the loading view |
| `Detail.FirstLoadView` | src/pages/PokemonDetail.jsx:14-57 | the first load shows the error message, "not found" or the content with description and neighbour ids, per outcome |
| `Detail.ErrorSurvivesLaterLoad` | src/pages/PokemonDetail.jsx:14-33 | an error once shown stays shown after a later load succeeds |
| `Detail.DetailPage.constructor` | src/pages/PokemonDetail.jsx:7-10 | record and species null, loading, no error |
| `Detail.DetailPage.SetIsLoadingState` | src/pages/PokemonDetail.jsx:14 | `setIsLoading` changes only `isLoading` and logs the call |
| `Detail.DetailPage.SetPokemonState` | src/pages/PokemonDetail.jsx:22 | `setPokemon` changes only `pokemon` and logs the call |
| `Detail.DetailPage.SetSpeciesState` | src/pages/PokemonDetail.jsx:27 | `setSpecies` changes only `species` and logs the call |
| `Detail.DetailPage.SetErrorState` | src/pages/PokemonDetail.jsx:32 | `setError` changes only `error` and logs the call |
| `Detail.DetailPage.FetchPokemonDetails` | src/pages/PokemonDetail.jsx:13-35 | the state and the log of setter calls and requests advance exactly by `LoadSteps` |

## Left out

- All `fetch` and `response.json()` calls and the PokeAPI URLs. Their outcomes are parameters: `lookup`, `fetchDetail`, `completeList`, `detail` and `speciesFor`.
- React Query caching, `staleTime`, `keepPreviousData`, the `enabled` gates (src/pages/Home.jsx:49, 75, 117), `prefetchQuery` scheduling and refetching. These belong to a library whose code is not part of this model, and they depend on timing.
- The combined `isLoading` flag (src/pages/Home.jsx:177). It is built from the library's query flags.
- How the library exposes a rejected search query, and the default `[]` it shows meanwhile.
- `fetchPokemonPage` apart from its prefetch decision. Its request is I/O.
- The concurrency of `Promise.all`. Only its order-preserving result is modelled (`Search.FetchAll`).
- Races between an old detail load and a new one when the route id changes. These are concurrency.
- `console.error` in the detail effect (src/pages/PokemonDetail.jsx:31) and `e.preventDefault()` in the search handler (src/pages/Home.jsx:123). These are logging and browser side effects that change no page state.
- JSX markup, sprite fallback, name capitalisation, `padStart` and the disabled state of the buttons.
- Floating-point display values: stat bar width and height/weight divided by 10.
- Floating-point rounding. The source's divisions are modelled as exact `real` arithmetic.
- Detail record fields other than `id`, `name` and `species.url`.
- `JsString.ToLower`: lower-cases ASCII letters only. JavaScript's `toLowerCase` also maps non-ASCII letters.
- `Search.TriesDirectLookup`: counts length in Unicode scalar values. JavaScript's `length` counts UTF-16 code units, which differs for characters outside the Basic Multilingual Plane.
- src/App.jsx, src/components/Navigation.jsx, src/components/Header.jsx, src/pages/About.jsx and src/pages/NotFound.jsx hold only routing and static markup. App.jsx registers no route for the detail page. The Footer it imports is not part of this model.
