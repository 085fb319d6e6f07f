/**
 * The movie queries of frontend/hooks/useMovies.ts. React Query, the cache and the OMDB
 * client are foreign: the API's answer is a parameter, with `totalResults` as
 * `Number.parseInt` read it (`None` for NaN). What is modelled is how a page result is
 * built from that answer, which page comes next, and when each query is enabled.
 */
module MovieQueries {
  import opened Wrappers
  import opened Text
  import opened SearchSlice
  import opened MoviesSlice

  /** OMDB pages hold this many results. */
  const PageSize: nat := 10

  /** The arguments of `omdbApi.searchMovies`; `None` is `undefined`. */
  datatype SearchRequest = SearchRequest(query: string, page: nat, kind: Option<string>, year: Option<string>)

  /** The API's answer: the `Search` list if present, and the parsed `totalResults`. */
  datatype SearchResponse = SearchResponse(search: Option<seq<Movie>>, parsedTotal: Option<int>)

  datatype PageResult = PageResult(movies: seq<Movie>, totalResults: int, page: nat, hasNextPage: bool)

  /** `enabled: !!query.trim()`. */
  predicate SearchEnabled(query: string)
    ensures SearchEnabled(query) <==> exists i :: 0 <= i < |query| && !IsWhitespace(query[i])
  {
    Trim(query) != ""
  }

  /** Suggestions are fetched only for text of at least this many characters. */
  const MinSuggestionQueryLength: nat := 2

  /** `enabled: query.length >= 2`: the length counts whitespace too. */
  predicate SuggestionsEnabled(query: string)
    ensures SuggestionsEnabled(query) <==> |query| >= MinSuggestionQueryLength
  {
    |query| >= MinSuggestionQueryLength
  }

  /** `enabled: !!imdbId`: any non-empty id, blank or not, is fetched. */
  predicate DetailsEnabled(imdbId: string)
    ensures DetailsEnabled(imdbId) <==> |imdbId| > 0
  {
    imdbId != ""
  }

  /**
   * The two text conditions are independent: whitespace-only text of length 2 fetches
   * suggestions but never runs the search, and a one-character query runs the search but
   * fetches no suggestions.
   */
  lemma EnablementConditionsDiffer()
    ensures SuggestionsEnabled("  ") && !SearchEnabled("  ")
    ensures SearchEnabled("a") && !SuggestionsEnabled("a")
  {
    assert Blank("  ");
    assert !IsWhitespace("a"[0]);
  }

  /**
   * The search condition is the stricter of the two on the same text: text that would be
   * searched is non-empty, while the single space " " is non-empty yet blank.
   */
  lemma SearchStricterThanDetails(s: string)
    ensures SearchEnabled(s) ==> DetailsEnabled(s)
    ensures DetailsEnabled(" ") && !SearchEnabled(" ")
  {
    assert Blank(" ");
  }

  /** `s || undefined`. */
  function OrAbsent(s: string): (r: Option<string>)
    ensures r.None? <==> s == ""
    ensures r.Some? ==> r.value == s
  {
    if s == "" then None else Some(s)
  }

  /** The request `queryFn` sends for a page: empty filters are left out. */
  function SearchRequestFor(query: string, filters: Filters, pageParam: nat): (r: SearchRequest)
    ensures r.query == query && r.page == pageParam
    ensures r.kind.None? <==> filters.kind == ""
    ensures r.kind.Some? ==> r.kind.value == filters.kind
    ensures r.year.None? <==> filters.year == ""
    ensures r.year.Some? ==> r.year.value == filters.year
  {
    SearchRequest(query, pageParam, OrAbsent(filters.kind), OrAbsent(filters.year))
  }

  /** `queryFn` for one page, given the answer to `SearchRequestFor(query, filters, pageParam)`. */
  function SearchPage(query: string, pageParam: nat, response: SearchResponse): (r: Result<PageResult, string>)
    ensures r.Err? <==> !SearchEnabled(query)
    ensures r.Err? ==> r.error == "Search query is required"
    ensures r.Ok? ==> r.value.movies == (if response.search.Some? then response.search.value else [])
    ensures r.Ok? ==> r.value.totalResults == (if response.parsedTotal.Some? then response.parsedTotal.value else 0)
    ensures r.Ok? ==> r.value.page == pageParam
    ensures r.Ok? ==> (r.value.hasNextPage <==> pageParam * PageSize < r.value.totalResults)
  {
    if Trim(query) == "" then
      Err("Search query is required")
    else
      Ok(PageResult(
        response.search.GetOr([]),
        response.parsedTotal.GetOr(0),
        pageParam,
        match response.parsedTotal case Some(n) => pageParam * PageSize < n case None => false))
  }

  /** `getNextPageParam`. */
  function NextPageParam(last: PageResult): (r: Option<nat>)
    ensures r.Some? <==> last.hasNextPage
    ensures r.Some? ==> r.value == last.page + 1
  {
    if last.hasNextPage then Some(last.page + 1) else None
  }

  /** How many pages a search with `total` results has (at least one, even for none). */
  function PageCount(total: int): (n: nat)
    ensures n >= 1
    ensures total > 0 ==> (n - 1) * PageSize < total <= n * PageSize
  {
    if total <= PageSize then 1 else (total + PageSize - 1) / PageSize
  }

  /**
   * The page params the query walks through, from `pageParam`, when every answer reports
   * `total` results: each page is fetched, then `NextPageParam` of its result decides.
   */
  function PagesFrom(query: string, total: int, pageParam: nat): seq<nat>
    requires SearchEnabled(query)
    decreases if total > pageParam * PageSize then total - pageParam * PageSize else 0
  {
    var page := SearchPage(query, pageParam, SearchResponse(None, Some(total))).value;
    match NextPageParam(page)
    case None => [pageParam]
    case Some(next) => [pageParam] + PagesFrom(query, total, next)
  }

  /** Another page is fetched exactly while the pages so far hold fewer results than the total. */
  lemma MorePagesIff(total: int, p: nat)
    requires 1 <= p
    ensures p * PageSize < total <==> p < PageCount(total)
  {
    if total > PageSize {
      var n := PageCount(total);
      assert n * PageSize <= total + PageSize - 1 < n * PageSize + PageSize;
    }
  }

  /**
   * Paging from page `p` visits p, p + 1, …, PageCount(total): consecutive pages with no gap
   * and no repetition, ending at the page that holds the last result.
   */
  lemma {:induction false} PagesAreConsecutive(query: string, total: int, p: nat)
    requires SearchEnabled(query)
    requires 1 <= p <= PageCount(total)
    ensures PagesFrom(query, total, p) == seq(PageCount(total) - p + 1, i => p + i)
    decreases PageCount(total) - p
  {
    MorePagesIff(total, p);
    if p < PageCount(total) {
      PagesAreConsecutive(query, total, p + 1);
    }
  }

  /** From the first page, the search visits pages 1 to PageCount(total). */
  lemma FirstPageWalksAllPages(query: string, total: int)
    requires SearchEnabled(query)
    ensures PagesFrom(query, total, 1) == seq(PageCount(total), i => i + 1)
  {
    PagesAreConsecutive(query, total, 1);
  }
}
