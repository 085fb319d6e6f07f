/**
 * The search slice of frontend/store/slices/searchSlice.ts: the query, the three filters,
 * the suggestions and the bounded, duplicate-free list of recent searches. The reducers
 * update the state in place; `AddRecent` and `MergeFilters` specify the two that compute.
 */
module SearchSlice {
  import opened Wrappers
  import opened Text

  /** At most this many recent searches are kept. */
  const MaxRecentSearches: nat := 5

  /** The filters; `kind` is the source's `type` key. */
  datatype Filters = Filters(year: string, kind: string, genre: string)

  /** A `Partial<Filters>`: `None` for a key the payload does not supply. */
  datatype FiltersPatch = FiltersPatch(year: Option<string>, kind: Option<string>, genre: Option<string>)

  const NoFilters := Filters("", "", "")

  /** `{ ...filters, ...patch }`. */
  function MergeFilters(f: Filters, patch: FiltersPatch): (r: Filters)
    ensures patch.year.Some? ==> r.year == patch.year.value
    ensures patch.year.None? ==> r.year == f.year
    ensures patch.kind.Some? ==> r.kind == patch.kind.value
    ensures patch.kind.None? ==> r.kind == f.kind
    ensures patch.genre.Some? ==> r.genre == patch.genre.value
    ensures patch.genre.None? ==> r.genre == f.genre
  {
    Filters(patch.year.GetOr(f.year), patch.kind.GetOr(f.kind), patch.genre.GetOr(f.genre))
  }

  /** Applying the same partial filters twice is applying them once. */
  lemma MergeFiltersIdempotent(f: Filters, patch: FiltersPatch)
    ensures MergeFilters(MergeFilters(f, patch), patch) == MergeFilters(f, patch)
  {
  }

  ghost predicate NoDuplicates(s: seq<string>) {
    forall i, j :: 0 <= i < j < |s| ==> s[i] != s[j]
  }

  /** What the recent-search list always is: short, duplicate-free, trimmed non-empty entries. */
  ghost predicate RecentValid(s: seq<string>) {
    && |s| <= MaxRecentSearches
    && NoDuplicates(s)
    && forall i :: 0 <= i < |s| ==> s[i] != "" && Trimmed(s[i])
  }

  /** `addRecentSearch`: trim; ignore a blank or already listed query; else put it first and keep 4 more. */
  function AddRecent(recent: seq<string>, q: string): (r: seq<string>)
    ensures Trim(q) == "" || Trim(q) in recent ==> r == recent
    ensures Trim(q) != "" && Trim(q) !in recent ==>
      |r| >= 1 && r[0] == Trim(q) && r[1..] == recent[..if |recent| < MaxRecentSearches - 1 then |recent| else MaxRecentSearches - 1]
    ensures Trim(q) != "" ==> Trim(q) in r
    ensures r == recent || |r| <= MaxRecentSearches
    ensures RecentValid(recent) ==> RecentValid(r)
  {
    var query := Trim(q);
    if query != "" && query !in recent then
      var kept := recent[..if |recent| < MaxRecentSearches - 1 then |recent| else MaxRecentSearches - 1];
      var r := [query] + kept;
      assert RecentValid(recent) ==> NoDuplicates(r) by {
        forall i, j | 0 < i < j < |r| ensures RecentValid(recent) ==> r[i] != r[j] {
          assert r[i] == recent[i - 1] && r[j] == recent[j - 1];
        }
        forall j | 0 < j < |r| ensures r[0] != r[j] {
          assert r[j] == recent[j - 1];
        }
      }
      r
    else
      recent
  }

  /** Adding the same search twice in a row adds it once. */
  lemma AddRecentIdempotent(recent: seq<string>, q: string)
    ensures AddRecent(AddRecent(recent, q), q) == AddRecent(recent, q)
  {
  }

  /** The slice's state, updated in place by its reducers. */
  class SearchState {
    var query: string
    var filters: Filters
    var suggestions: seq<string>
    var recentSearches: seq<string>

    ghost predicate Valid()
      reads this`recentSearches
    {
      RecentValid(recentSearches)
    }

    constructor ()
      ensures Valid()
      ensures query == "" && filters == NoFilters && suggestions == [] && recentSearches == []
    {
      query := "";
      filters := NoFilters;
      suggestions := [];
      recentSearches := [];
    }

    method SetQuery(q: string)
      modifies this`query
      ensures query == q
    {
      query := q;
    }

    method SetFilters(patch: FiltersPatch)
      modifies this`filters
      ensures filters == MergeFilters(old(filters), patch)
    {
      filters := MergeFilters(filters, patch);
    }

    method SetSuggestions(s: seq<string>)
      modifies this`suggestions
      ensures suggestions == s
    {
      suggestions := s;
    }

    method AddRecentSearch(q: string)
      requires Valid()
      modifies this`recentSearches
      ensures Valid()
      ensures recentSearches == AddRecent(old(recentSearches), q)
    {
      var trimmed := Trim(q);
      if trimmed != "" && trimmed !in recentSearches {
        var keep := if |recentSearches| < MaxRecentSearches - 1 then |recentSearches| else MaxRecentSearches - 1;
        recentSearches := [trimmed] + recentSearches[..keep];
      }
    }

    method ClearRecentSearches()
      modifies this`recentSearches
      ensures Valid()
      ensures recentSearches == []
    {
      recentSearches := [];
    }

    method ClearFilters()
      modifies this`filters
      ensures filters == NoFilters
    {
      filters := NoFilters;
    }
  }
}
