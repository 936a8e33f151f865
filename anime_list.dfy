/**
 * The paginated, searchable list page (src/pages/Anime/index.js): its page
 * and search state read from the URL, the query it asks the cache for, the
 * next-page prefetch and the choice of what the content area shows.
 */
module AnimeList {
  import opened Wrappers
  import opened UrlParams
  import opened Decimal
  import opened Query
  import Navbar

  const ListResource: string := "animeList"
  /** Milliseconds a list result stays fresh in the cache. */
  const ListStaleTime: nat := 5000
  /** Items per page that every list request asks for. */
  const PageLimit: nat := 24
  const LoadFailedText: string := "Failed to load anime data. Please try again."

  /** `parseInt(raw || "1", 10)`; `None` stands for NaN. */
  function PageFromText(raw: string): Option<int> {
    ParseInt(if raw == "" then "1" else raw)
  }

  /**
   * `parseInt(searchParams.get("page") || "1", 10)`: with no `page` parameter,
   * or an empty one, the page reads as 1; otherwise it is the parameter's
   * text as parseInt reads it.
   */
  function PageFromQuery(query: seq<Param>): (r: Option<int>)
    ensures Lookup(query, "page").GetOr("") == "" ==> r == Some(1)
    ensures Lookup(query, "page").GetOr("") != "" ==> r == ParseInt(Lookup(query, "page").value)
  {
    ParseIntRoundTrip(1, []);
    assert IntToDecimal(1) + [] == "1";
    PageFromText(Lookup(query, "page").GetOr(""))
  }

  /**
   * Whatever integer the URL's `page` holds is the page read, zero and
   * negative numbers included: nothing clamps it to 1 or more.
   */
  lemma PageNotClamped(query: seq<Param>, n: int)
    ensures PageFromQuery(SetPair(query, "page", IntToDecimal(n))) == Some(n)
  {
    ParseIntRoundTrip(n, []);
    assert IntToDecimal(n) + [] == IntToDecimal(n);
  }

  /**
   * A non-empty page value with no number after its white space and optional
   * sign reads as NaN, which leaves the page as it was: "abc", "  abc",
   * "-abc", "+", "   " all do.
   */
  lemma PageNaN(query: seq<Param>, ws: string, rest: string)
    requires AllWhiteSpace(ws) && ws + rest != []
    requires || rest == []
             || (!IsStrWhiteSpace(rest[0]) && !IsDigit(rest[0]) && rest[0] != '+' && rest[0] != '-')
             || ((rest[0] == '+' || rest[0] == '-') && (|rest| == 1 || !IsDigit(rest[1])))
    ensures PageFromQuery(SetPair(query, "page", ws + rest)) == None
  {
    if rest != [] && (rest[0] == '+' || rest[0] == '-') {
      assert ws + [rest[0]] + rest[1..] == ws + rest;
      ParseIntBareSign(ws, rest[0], rest[1..]);
    } else {
      ParseIntNaN(ws, rest);
    }
  }

  /**
   * When the URL is edited the way `Navbar` edits it on a keystroke, the list
   * page reads the typed search on page 1 back from it: a new search always
   * starts from the first page.
   */
  lemma KeystrokeStartsAtPageOne(query: seq<Param>, value: string)
    ensures PageFromQuery(Navbar.SearchEdit(query, value)) == Some(1)
    ensures Navbar.SearchFromQuery(Navbar.SearchEdit(query, value)) == value
  {
    Navbar.SearchReadsBack(query, value);
    ParseIntRoundTrip(1, []);
    assert IntToDecimal(1) + [] == "1";
  }

  /** The abstract list request: GET /anime with q, page and limit. */
  datatype ListRequest = ListRequest(page: int, query: string, limit: nat)

  /**
   * A query: the key the cache files it under, the request that fills it and
   * how many milliseconds its result counts as fresh (0 when the caller sets
   * no `staleTime`, the cache's default).
   */
  datatype ListQuery = ListQuery(key: QueryKey, request: ListRequest, staleTime: nat)

  /** The key names the very page and search that the request fetches. */
  predicate KeyMatchesRequest(q: ListQuery) {
    q.key == [Text(ListResource), Number(q.request.page), Text(q.request.query)]
  }

  /** `queryKey: ["animeList", page, debouncedSearchQuery]` with `getListAnime(page, debouncedSearchQuery)`. */
  function ListQueryFor(page: int, search: string): (q: ListQuery)
    ensures KeyMatchesRequest(q)
    ensures q.request == ListRequest(page, search, PageLimit)
    ensures q.staleTime == ListStaleTime
  {
    ListQuery([Text(ListResource), Number(page), Text(search)], ListRequest(page, search, PageLimit), ListStaleTime)
  }

  /** Two list queries share a cache entry exactly when they ask for the same page and search. */
  lemma ListKeysDistinguish(p1: int, s1: string, p2: int, s2: string)
    ensures ListQueryFor(p1, s1).key == ListQueryFor(p2, s2).key <==> p1 == p2 && s1 == s2
  {
    var k1, k2 := ListQueryFor(p1, s1).key, ListQueryFor(p2, s2).key;
    if k1 == k2 {
      assert k1[1] == k2[1] && k1[2] == k2[2];
    }
  }

  datatype AnimeSummary = AnimeSummary(malId: int, title: string)
  datatype Pagination = Pagination(lastVisiblePage: Option<int>, hasNextPage: bool)
  /** The response body: `data` (the items) and `pagination`, either of which may be missing. */
  datatype ListResponse = ListResponse(items: Option<seq<AnimeSummary>>, pagination: Option<Pagination>)

  /** `data?.pagination?.has_next_page` */
  predicate HasNextPage(data: Option<ListResponse>) {
    data.Some? && data.value.pagination.Some? && data.value.pagination.value.hasNextPage
  }

  /**
   * The prefetch effect: the next page, under the same search, is prefetched
   * exactly when the response says there is a next page; it is never the
   * query being shown, and it sets no `staleTime` of its own.
   */
  function PrefetchFor(data: Option<ListResponse>, page: int, search: string): (r: Option<ListQuery>)
    ensures r.Some? <==> HasNextPage(data)
    ensures r.Some? ==> r.value.request == ListRequest(page + 1, search, PageLimit) && KeyMatchesRequest(r.value)
    ensures r.Some? ==> r.value.key != ListQueryFor(page, search).key
    ensures r.Some? ==> r.value.staleTime == 0
  {
    if HasNextPage(data) then
      ListKeysDistinguish(page + 1, search, page, search);
      Some(ListQueryFor(page + 1, search).(staleTime := 0))
    else None
  }

  /** `data?.pagination?.last_visible_page || 1`: a missing or zero count shows as 1. */
  function TotalPages(data: ListResponse): (n: int)
    ensures n != 0
    ensures data.pagination.Some? && data.pagination.value.lastVisiblePage.Some?
            && data.pagination.value.lastVisiblePage.value != 0
            ==> n == data.pagination.value.lastVisiblePage.value
    ensures !(data.pagination.Some? && data.pagination.value.lastVisiblePage.Some?
              && data.pagination.value.lastVisiblePage.value != 0)
            ==> n == 1
  {
    if data.pagination.Some? && data.pagination.value.lastVisiblePage.Some?
       && data.pagination.value.lastVisiblePage.value != 0
    then data.pagination.value.lastVisiblePage.value
    else 1
  }

  /** What the content area shows. */
  datatype ListView =
    | LoadingAnimation
    | ErrorState(message: string, retry: QueryKey)
    | EmptyState(searchQuery: string, offersClearSearch: bool)
    | Populated(items: seq<AnimeSummary>, totalPages: int, currentPage: int)

  predicate ShowsLoading(status: QueryStatus, isLoading: bool, data: Option<ListResponse>) {
    (status == Loading && data.None?) || isLoading
  }

  /** `data?.data` is present and non-empty. */
  predicate HasItems(data: Option<ListResponse>) {
    data.Some? && data.value.items.Some? && data.value.items.value != []
  }

  /**
   * renderContent: loading first, then error, then empty, then the list. The
   * error view retries the query being shown; the empty view offers to clear
   * the search only when a search is active.
   */
  function RenderContent(status: QueryStatus, isLoading: bool, data: Option<ListResponse>,
                         errorMessage: Option<string>, page: int, debouncedSearch: string): (v: ListView)
    ensures v.LoadingAnimation? <==> ShowsLoading(status, isLoading, data)
    ensures v.ErrorState? <==> !ShowsLoading(status, isLoading, data) && status == Error
    ensures v.EmptyState? <==> !ShowsLoading(status, isLoading, data) && status != Error && !HasItems(data)
    ensures v.Populated? <==> !ShowsLoading(status, isLoading, data) && status != Error && HasItems(data)
    ensures v.ErrorState? ==> v.message == TextOr(errorMessage, LoadFailedText)
                              && v.retry == ListQueryFor(page, debouncedSearch).key
    ensures v.EmptyState? ==> v.searchQuery == debouncedSearch && (v.offersClearSearch <==> debouncedSearch != "")
    ensures v.Populated? ==> v.items == data.value.items.value && v.items != []
                             && v.currentPage == page && v.totalPages == TotalPages(data.value)
  {
    if ShowsLoading(status, isLoading, data) then LoadingAnimation
    else if status == Error then ErrorState(TextOr(errorMessage, LoadFailedText), ListQueryFor(page, debouncedSearch).key)
    else if !HasItems(data) then EmptyState(debouncedSearch, debouncedSearch != "")
    else Populated(data.value.items.value, TotalPages(data.value), page)
  }

  /** The page's own `page` and `searchQuery` state. */
  class AnimeListPage {
    var page: int
    var searchQuery: string

    constructor ()
      ensures page == 1 && searchQuery == ""
    {
      page := 1;
      searchQuery := "";
    }

    /**
     * The effect run when the URL's query changes: the search follows the URL;
     * the page follows it too unless it reads as NaN, which leaves it unchanged.
     */
    method SyncFromUrl(query: seq<Param>)
      modifies this
      ensures searchQuery == Navbar.SearchFromQuery(query)
      ensures page == PageFromQuery(query).GetOr(old(page))
    {
      var searchParams := new SearchParams(query);
      var searchFromUrl := searchParams.Get("search").GetOr("");
      var raw := searchParams.Get("page").GetOr("");
      var pageFromUrl := PageFromText(raw);
      assert searchFromUrl == Navbar.SearchFromQuery(query);
      assert pageFromUrl == PageFromQuery(query);
      if searchFromUrl != searchQuery {
        searchQuery := searchFromUrl;
      }
      if pageFromUrl.Some? && pageFromUrl.value != page {
        page := pageFromUrl.value;
      }
    }

    /** handlePageChange: only the page changes; the URL is not rewritten. */
    method HandlePageChange(newPage: int)
      modifies this
      ensures page == newPage && searchQuery == old(searchQuery)
    {
      page := newPage;
    }

    /** handleSearchChange, passed to the page's navigation bar as `onChange`: only the search text changes. */
    method HandleSearchChange(value: string)
      modifies this
      ensures searchQuery == value && page == old(page)
    {
      searchQuery := value;
    }

    /** handleResetSearch, the empty view's "Clear Search": back to no search on page 1. */
    method HandleResetSearch()
      modifies this
      ensures searchQuery == "" && page == 1
    {
      searchQuery := "";
      page := 1;
    }
  }
}
