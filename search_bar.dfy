/**
 * The search bar of frontend/components/search-bar.tsx: a local copy of the query being typed,
 * a flag for the suggestion dropdown, and handlers that update both and dispatch to the search
 * slice. The debounce delay, focus and blur are browser behaviour; the debounced value reaches
 * the model as the argument of `SyncDebouncedQuery`.
 */
module SearchBars {
  import opened Text
  import opened SearchSlice
  import opened MovieQueries

  /** Typed text of at least this length is enough to open the dropdown. */
  const MinSuggestionLength: nat := 2

  /**
   * `useMovieSuggestions(debouncedQuery)`: whether the suggestions query runs for the
   * debounced text. Its threshold is the dropdown's, so typed text long enough to open the
   * dropdown is long enough to be fetched once the debounced value has caught up with it.
   */
  function SuggestionsFetched(debounced: string): (fetched: bool)
    ensures fetched <==> SuggestionsEnabled(debounced)
    ensures fetched <==> |debounced| >= MinSuggestionLength
  {
    SuggestionsEnabled(debounced)
  }

  class SearchBar {
    const store: SearchState
    var localQuery: string
    var showSuggestions: bool

    /** The input starts from the store's query with the dropdown closed. */
    constructor (store: SearchState)
      ensures this.store == store && localQuery == store.query && !showSuggestions
    {
      this.store := store;
      localQuery := store.query;
      showSuggestions := false;
    }

    /** Whether the dropdown of suggestions and recent searches is rendered. */
    function DropdownShown(): (shown: bool)
      reads this, store`recentSearches
      ensures shown ==> showSuggestions && (|localQuery| >= MinSuggestionLength || |store.recentSearches| > 0)
      ensures showSuggestions && |store.recentSearches| > 0 ==> shown
      ensures showSuggestions && SuggestionsFetched(localQuery) ==> shown
    {
      showSuggestions && (|localQuery| >= MinSuggestionLength || |store.recentSearches| > 0)
    }

    /** `handleSearch(q)`: q becomes the local and stored query and a recent search; the dropdown closes. */
    method HandleSearch(q: string)
      requires store.Valid()
      modifies this`localQuery, this`showSuggestions, store`query, store`recentSearches
      ensures store.Valid()
      ensures localQuery == q && store.query == q && !showSuggestions
      ensures store.recentSearches == AddRecent(old(store.recentSearches), q)
      ensures !DropdownShown()
    {
      localQuery := q;
      store.SetQuery(q);
      store.AddRecentSearch(q);
      showSuggestions := false;
    }

    /** `handleClear`: both queries become empty and the dropdown closes. */
    method HandleClear()
      modifies this`localQuery, this`showSuggestions, store`query
      ensures localQuery == "" && store.query == "" && !showSuggestions
      ensures !DropdownShown()
    {
      localQuery := "";
      store.SetQuery("");
      showSuggestions := false;
    }

    /** `handleKeyDown`: Enter searches for the untrimmed local query unless it is blank; Escape closes. */
    method HandleKeyDown(key: string)
      requires store.Valid()
      modifies this`localQuery, this`showSuggestions, store`query, store`recentSearches
      ensures store.Valid()
      ensures key == "Enter" && Trim(old(localQuery)) != "" ==>
        && localQuery == old(localQuery) && store.query == old(localQuery) && !showSuggestions
        && store.recentSearches == AddRecent(old(store.recentSearches), old(localQuery))
      ensures key == "Escape" ==>
        !showSuggestions && localQuery == old(localQuery)
        && store.query == old(store.query) && store.recentSearches == old(store.recentSearches)
      ensures (key == "Enter" && Trim(old(localQuery)) == "") || (key != "Enter" && key != "Escape") ==>
        && localQuery == old(localQuery) && showSuggestions == old(showSuggestions)
        && store.query == old(store.query) && store.recentSearches == old(store.recentSearches)
    {
      if key == "Enter" && Trim(localQuery) != "" {
        HandleSearch(localQuery);
      }
      if key == "Escape" {
        showSuggestions := false;
      }
    }

    /** The input's `onChange`. */
    method HandleChange(value: string)
      modifies this`localQuery
      ensures localQuery == value
    {
      localQuery := value;
    }

    /** The input's `onFocus`: the dropdown opens if there is anything to show. */
    method HandleFocus()
      modifies this`showSuggestions
      ensures showSuggestions
      ensures DropdownShown() <==> |localQuery| >= MinSuggestionLength || |store.recentSearches| > 0
    {
      showSuggestions := true;
    }

    /** The effect on the debounced value: the store is written only when the two differ. */
    method SyncDebouncedQuery(debounced: string) returns (dispatched: bool)
      modifies store`query
      ensures dispatched <==> debounced != old(store.query)
      ensures store.query == debounced
    {
      dispatched := debounced != store.query;
      if dispatched {
        store.SetQuery(debounced);
      }
    }
  }
}
