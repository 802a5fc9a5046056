/**
 * The search query of the Home page (`queryKey: ['pokemonSearch', searchTerm]`):
 * a direct lookup by id or name for terms that look like one, and otherwise a
 * case-folded substring filter over the complete catalog, cut to 20 matches
 * whose detail records are fetched together.
 *
 * The network is a parameter: `lookup(t)` is the outcome of the direct
 * request for `/pokemon/<t>` (`None` when the response is not ok or the
 * request or its JSON body throws), `fetchDetail(url)` the outcome of one
 * detail request, and `completeList` the cached complete catalog
 * (`None` while that query has no data).
 */
module Search {
  import opened Wrappers
  import opened PokeApi
  import opened JsString
  import opened Ints

  /** How many substring matches are resolved to detail records. */
  const SearchLimit: int := 20

  /** The outcome of the query function: its resolved list, or a rejected promise. */
  datatype SearchOutcome = Resolved(results: seq<Pokemon>) | Rejected

  /** `\d` without the `u` flag: an ASCII digit. */
  predicate IsDigit(c: char)
  {
    '0' <= c <= '9'
  }

  /** `/^\d+$/.test(term)`, matched one character at a time: one or more digits and nothing else. */
  predicate IsAllDigits(term: string)
    ensures IsAllDigits(term) <==> |term| > 0 && forall i :: 0 <= i < |term| ==> IsDigit(term[i])
  {
    |term| > 0 && IsDigit(term[0]) && (|term| == 1 || IsAllDigits(term[1..]))
  }

  /** The routing rule: the direct lookup is tried for digit strings and for terms longer than 3. */
  predicate TriesDirectLookup(term: string)
    ensures !TriesDirectLookup(term) <==>
      |term| <= 3 && (term == [] || exists i :: 0 <= i < |term| && !IsDigit(term[i]))
  {
    IsAllDigits(term) || |term| > 3
  }

  /** `a` is `b` with some elements deleted, the rest kept in order. */
  predicate IsSubsequence<T(==)>(a: seq<T>, b: seq<T>)
    decreases |b|
  {
    if a == [] then true
    else if b == [] then false
    else if a[0] == b[0] then IsSubsequence(a[1..], b[1..])
    else IsSubsequence(a, b[1..])
  }

  /** `catalog.filter(p => p.name.includes(needle))` */
  function FilterByName(catalog: seq<CatalogEntry>, needle: string): (r: seq<CatalogEntry>)
    ensures IsSubsequence(r, catalog)
    ensures forall i :: 0 <= i < |r| ==> Includes(r[i].name, needle)
    ensures forall e :: e in catalog && Includes(e.name, needle) ==> e in r
  {
    if catalog == [] then []
    else
      var rest := FilterByName(catalog[1..], needle);
      if Includes(catalog[0].name, needle) then [catalog[0]] + rest else rest
  }

  /** Filtering a concatenation filters each part, in order. */
  lemma {:induction false} FilterAppend(a: seq<CatalogEntry>, b: seq<CatalogEntry>, needle: string)
    ensures FilterByName(a + b, needle) == FilterByName(a, needle) + FilterByName(b, needle)
  {
    if a != [] {
      assert (a + b)[1..] == a[1..] + b;
      FilterAppend(a[1..], b, needle);
    } else {
      assert a + b == b;
    }
  }

  /**
   * The catalog entries whose details the search resolves:
   * `completeList.filter(...)` on the lower-cased term, then `.slice(0, 20)`.
   */
  function SearchMatches(catalog: seq<CatalogEntry>, term: string): (r: seq<CatalogEntry>)
    ensures var all := FilterByName(catalog, ToLower(term));
      |r| == Min(SearchLimit, |all|) && r == all[..|r|]
    ensures forall i :: 0 <= i < |r| ==> Includes(r[i].name, ToLower(term))
    ensures IsSubsequence(r, catalog)
  {
    var all := FilterByName(catalog, ToLower(term));
    var r := if |all| <= SearchLimit then all else all[..SearchLimit];
    PrefixIsSubsequence(r, all, catalog);
    r
  }

  /** `Promise.all` over the detail requests: every record in order, or a rejection if one fails. */
  function FetchAll(entries: seq<CatalogEntry>, fetchDetail: string -> Option<Pokemon>): (r: SearchOutcome)
    ensures r.Resolved? <==> forall i :: 0 <= i < |entries| ==> fetchDetail(entries[i].url).Some?
    ensures r.Resolved? ==>
      |r.results| == |entries| &&
      forall i :: 0 <= i < |entries| ==> r.results[i] == fetchDetail(entries[i].url).value
  {
    if entries == [] then Resolved([])
    else
      match fetchDetail(entries[0].url)
      case None => Rejected
      case Some(p) =>
        match FetchAll(entries[1..], fetchDetail)
        case Rejected => Rejected
        case Resolved(rest) => Resolved([p] + rest)
  }

  /** The `queryFn` of the search query. */
  function PokemonSearch(term: string, lookup: string -> Option<Pokemon>,
                         completeList: Option<seq<CatalogEntry>>,
                         fetchDetail: string -> Option<Pokemon>): (r: SearchOutcome)
    // a successful direct lookup is the whole answer
    ensures TriesDirectLookup(term) && lookup(ToLower(term)).Some? ==>
      r == Resolved([lookup(ToLower(term)).value])
    // no catalog, or no substring match: an empty list, never an error
    ensures (!(TriesDirectLookup(term) && lookup(ToLower(term)).Some?) &&
             (completeList.None? || SearchMatches(completeList.value, term) == [])) ==> r == Resolved([])
    // otherwise: the matched entries' detail records, in catalog order
    ensures (!(TriesDirectLookup(term) && lookup(ToLower(term)).Some?) && completeList.Some?) ==>
      r == FetchAll(SearchMatches(completeList.value, term), fetchDetail)
  {
    var direct := if TriesDirectLookup(term) then lookup(ToLower(term)) else None;
    if direct.Some? then Resolved([direct.value])
    else if completeList.Some? && |completeList.value| > 0 then
      var matches := SearchMatches(completeList.value, term);
      if |matches| > 0 then FetchAll(matches, fetchDetail) else Resolved([])
    else Resolved([])
  }

  /** A term that is not routed to the direct lookup gives the same outcome whatever that lookup would answer. */
  lemma ShortTermIgnoresLookup(term: string, lookup1: string -> Option<Pokemon>, lookup2: string -> Option<Pokemon>,
                               completeList: Option<seq<CatalogEntry>>, fetchDetail: string -> Option<Pokemon>)
    requires !TriesDirectLookup(term)
    ensures PokemonSearch(term, lookup1, completeList, fetchDetail)
         == PokemonSearch(term, lookup2, completeList, fetchDetail)
  {
  }

  /**
   * When the substring search runs and every detail request succeeds, the
   * result is the `min(20, k)` records of the `k` matching entries, in
   * catalog order.
   */
  lemma {:induction false} FallbackResults(term: string, lookup: string -> Option<Pokemon>,
                                           catalog: seq<CatalogEntry>, fetchDetail: string -> Option<Pokemon>)
    requires !(TriesDirectLookup(term) && lookup(ToLower(term)).Some?)
    requires forall e :: e in catalog ==> fetchDetail(e.url).Some?
    ensures var all := FilterByName(catalog, ToLower(term));
      var r := PokemonSearch(term, lookup, Some(catalog), fetchDetail);
      r.Resolved? && |r.results| == Min(SearchLimit, |all|) &&
      forall i :: 0 <= i < |r.results| ==> r.results[i] == fetchDetail(all[i].url).value
  {
    var all := FilterByName(catalog, ToLower(term));
    var m := SearchMatches(catalog, term);
    forall i | 0 <= i < |m| ensures fetchDetail(m[i].url).Some? && m[i] == all[i] {
      SubsequenceMembers(m, catalog, i);
    }
    var r := PokemonSearch(term, lookup, Some(catalog), fetchDetail);
    assert r == FetchAll(m, fetchDetail);
  }

  /** "25" is a digit string and "pika" is longer than 3, so both are looked up directly; "pik" is not. */
  lemma RoutingExamples()
    ensures TriesDirectLookup("25")
    ensures TriesDirectLookup("pika")
    ensures !TriesDirectLookup("pik")
  {
    assert "pik"[0] == 'p';
  }

  /** Every element of a subsequence is an element of the whole. */
  lemma {:induction false} SubsequenceMembers<T>(a: seq<T>, b: seq<T>, i: int)
    requires IsSubsequence(a, b) && 0 <= i < |a|
    ensures a[i] in b
    decreases |b|
  {
    if a[0] == b[0] {
      if i > 0 { SubsequenceMembers(a[1..], b[1..], i - 1); }
    } else {
      SubsequenceMembers(a, b[1..], i);
    }
  }

  /** A prefix of a subsequence is a subsequence. */
  lemma {:induction false} PrefixIsSubsequence<T>(p: seq<T>, a: seq<T>, b: seq<T>)
    requires IsSubsequence(a, b) && |p| <= |a| && p == a[..|p|]
    ensures IsSubsequence(p, b)
    decreases |b|
  {
    if p != [] {
      if a[0] == b[0] {
        PrefixIsSubsequence(p[1..], a[1..], b[1..]);
      } else {
        PrefixIsSubsequence(p, a, b[1..]);
      }
    }
  }

}
