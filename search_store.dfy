/** The shared search store and the search hook (src/hook/useSearch.ts). */
module SearchStore {
  import opened Wrappers
  import opened Types
  import opened Browser
  import SearchService

  /** The store's data fields (`SearchState`). */
  datatype SearchState = SearchState(
    searchTerm: string,
    location: string,
    filters: Filters,
    results: seq<Job>,
    isLoading: bool,
    error: Option<string>,
    currentPage: int,
    totalResults: int,
    totalPages: int)

  const InitialState: SearchState := SearchState("", "", NoFilters, [], false, None, 1, 0, 0)

  const SearchFailed: string := "Error al realizar la búsqueda"

  /** What `clearSearch` leaves: query, results and paging as in the initial
      state, the loading flag and the error message as they were. */
  function Cleared(s: SearchState): (r: SearchState)
    ensures r == InitialState.(isLoading := s.isLoading, error := s.error)
  {
    s.(searchTerm := "", location := "", filters := NoFilters, results := [],
       currentPage := 1, totalResults := 0, totalPages := 0)
  }

  /** `clearSearch` and `resetSearch` differ only in the loading flag and the
      error; on an idle, error-free store they agree. */
  lemma ClearedDiffersFromResetOnlyInStatus(s: SearchState)
    ensures Cleared(s) == InitialState <==> !s.isLoading && s.error == None
  {
  }

  /** The part of the store written to browser storage under 'search-store'. */
  datatype Persisted = Persisted(searchTerm: string, location: string, filters: Filters)

  function Partialize(s: SearchState): Persisted {
    Persisted(s.searchTerm, s.location, s.filters)
  }

  /** The store after a reload: the persisted fields over the initial state. */
  function Rehydrate(p: Persisted): SearchState {
    InitialState.(searchTerm := p.searchTerm, location := p.location, filters := p.filters)
  }

  /** Results, loading, error and paging never survive persistence: a reloaded
      store has the saved query and the initial values for everything else. */
  lemma PersistRoundTrip(s: SearchState)
    ensures Partialize(Rehydrate(Partialize(s))) == Partialize(s)
    ensures Rehydrate(Partialize(s)) == s.(results := [], isLoading := false, error := None,
                                           currentPage := 1, totalResults := 0, totalPages := 0)
  {
  }

  /** Two states that differ only outside the query persist the same snapshot. */
  lemma PartializeIgnoresResults(s: SearchState, t: SearchState)
    requires s.searchTerm == t.searchTerm && s.location == t.location && s.filters == t.filters
    ensures Partialize(s) == Partialize(t)
  {
  }

  /** The state `performSearch` leaves behind, starting from `s`, given what the
      search service returned. */
  function AfterSearch(s: SearchState, result: Response<SearchResponse>): (r: SearchState)
    ensures !r.isLoading
    ensures r.searchTerm == s.searchTerm && r.location == s.location && r.filters == s.filters
    ensures result.Ok? ==>
      && r.results == result.body.jobs
      && r.totalResults == result.body.total
      && r.currentPage == result.body.page
      && r.totalPages == result.body.totalPages
      && r.error == None
    ensures result.Err? ==>
      && r.results == s.results
      && r.totalResults == s.totalResults
      && r.currentPage == s.currentPage
      && r.totalPages == s.totalPages
      && r.error == Some(SearchFailed)
  {
    match result
    case Ok(resp) =>
      s.(results := resp.jobs, totalResults := resp.total, currentPage := resp.page,
         totalPages := resp.totalPages, isLoading := false, error := None)
    case Err(_) =>
      s.(isLoading := false, error := Some(SearchFailed))
  }

  /** The query string `handleSearch` navigates with: `q` only for a non-empty
      term, `location` only for a non-empty location, in that order. */
  function UrlQuery(term: string, loc: string): (q: Query)
    ensures |q| <= 2
    ensures Get(q, "q") == (if term != "" then Some(term) else None)
    ensures Get(q, "location") == (if loc != "" then Some(loc) else None)
    ensures term != "" && loc != "" ==> q == [("q", term), ("location", loc)]
  {
    (if term != "" then [("q", term)] else []) + (if loc != "" then [("location", loc)] else [])
  }

  /** Reading the query back with `get(...) || ''` gives the term and location
      that built it, empty ones included. */
  lemma UrlQueryRoundTrip(term: string, loc: string)
    ensures QueryGetOrEmpty(UrlQuery(term, loc), "q") == term
    ensures QueryGetOrEmpty(UrlQuery(term, loc), "location") == loc
  {
  }

  /** The request a search sends to the job service. */
  function SearchRequest(term: string, loc: string, filters: Filters, page: int): Effect {
    Request("GET", SearchService.SearchPath, SearchService.QueryParams(term, loc, filters, page, SearchService.DefaultLimit))
  }

  /** The zustand store: one object shared by every component. */
  class Store {
    var searchTerm: string
    var location: string
    var filters: Filters
    var results: seq<Job>
    var isLoading: bool
    var error: Option<string>
    var currentPage: int
    var totalResults: int
    var totalPages: int

    function State(): SearchState
      reads this
    {
      SearchState(searchTerm, location, filters, results, isLoading, error, currentPage, totalResults, totalPages)
    }

    constructor ()
      ensures State() == InitialState
    {
      searchTerm, location, filters, results := "", "", NoFilters, [];
      isLoading, error := false, None;
      currentPage, totalResults, totalPages := 1, 0, 0;
    }

    method SetSearchTerm(term: string)
      modifies this
      ensures State() == old(State()).(searchTerm := term)
    {
      searchTerm := term;
    }

    method SetLocation(loc: string)
      modifies this
      ensures State() == old(State()).(location := loc)
    {
      location := loc;
    }

    method SetFilters(f: Filters)
      modifies this
      ensures State() == old(State()).(filters := f)
    {
      filters := f;
    }

    /** Writes the four result fields together and nothing else. */
    method SetResults(jobs: seq<Job>, total: int, page: int, pages: int)
      modifies this
      ensures State() == old(State()).(results := jobs, totalResults := total, currentPage := page, totalPages := pages)
    {
      results, totalResults, currentPage, totalPages := jobs, total, page, pages;
    }

    method SetIsLoading(loading: bool)
      modifies this
      ensures State() == old(State()).(isLoading := loading)
    {
      isLoading := loading;
    }

    method SetError(e: Option<string>)
      modifies this
      ensures State() == old(State()).(error := e)
    {
      error := e;
    }

    method ResetSearch()
      modifies this
      ensures State() == InitialState
    {
      searchTerm, location, filters, results := "", "", NoFilters, [];
      isLoading, error := false, None;
      currentPage, totalResults, totalPages := 1, 0, 0;
    }

    method ClearSearch()
      modifies this
      ensures State() == Cleared(old(State()))
    {
      searchTerm, location, filters, results := "", "", NoFilters, [];
      currentPage, totalResults, totalPages := 1, 0, 0;
    }
  }

  /** `performSearch`: loading on and error cleared before the request (the
      state then is returned as `during`), then the service's answer applied,
      and loading off on every path. A failure keeps the earlier results. */
  method PerformSearch(store: Store, env: Env, term: string, loc: string, filters: Filters, page: int,
                       outcome: Response<RawSearchResponse>)
    returns (ghost during: SearchState)
    modifies store, env
    ensures during == old(store.State()).(isLoading := true, error := None)
    ensures store.State() == AfterSearch(old(store.State()), SearchService.SearchJobs(outcome))
    ensures env.log == old(env.log) + [SearchRequest(term, loc, filters, page)]
    ensures env.storage == old(env.storage) && env.authHeader == old(env.authHeader)
  {
    store.SetIsLoading(true);
    store.SetError(None);
    during := store.State();
    env.Emit(SearchRequest(term, loc, filters, page));
    match SearchService.SearchJobs(outcome) {
      case Ok(response) =>
        store.SetResults(response.jobs, response.total, response.page, response.totalPages);
      case Err(_) =>
        store.SetError(Some(SearchFailed));
    }
    store.SetIsLoading(false);
  }

  /** `handleSearch`: term and location stored, filters only when given, then
      the search (with `{}` when no filters were given), then navigation to
      `/search` with the query, whether or not the search failed. */
  method HandleSearch(store: Store, env: Env, term: string, loc: string, filters: Option<Filters>,
                      outcome: Response<RawSearchResponse>)
    modifies store, env
    ensures store.State() == AfterSearch(
      old(store.State()).(searchTerm := term, location := loc,
                          filters := if filters.Some? then filters.value else old(store.filters)),
      SearchService.SearchJobs(outcome))
    ensures env.log == old(env.log) + [SearchRequest(term, loc, filters.GetOr(NoFilters), SearchService.DefaultPage),
                                       Navigate("/search", UrlQuery(term, loc))]
    ensures env.storage == old(env.storage) && env.authHeader == old(env.authHeader)
  {
    store.SetSearchTerm(term);
    store.SetLocation(loc);
    if filters.Some? {
      store.SetFilters(filters.value);
    }
    var query := UrlQuery(term, loc);
    var _ := PerformSearch(store, env, term, loc, filters.GetOr(NoFilters), SearchService.DefaultPage, outcome);
    env.Emit(Navigate("/search", query));
  }
}
