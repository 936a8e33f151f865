/**
 * The search box of the navigation bar (src/examples/Navbars/DefaultNavbar/index.js):
 * it mirrors the `search` query parameter and, on every keystroke or clear,
 * rewrites the URL in place of the current history entry.
 */
module Navbar {
  import opened Wrappers
  import opened UrlParams

  /** The router location: a path and its query parameters. */
  datatype Location = Location(pathname: string, query: seq<Param>)

  /** `${pathname}${qs ? `?${qs}` : ""}` with qs the serialized parameters. */
  function Url(pathname: string, query: seq<Param>): (url: string)
    ensures query == [] ==> url == pathname
    ensures query != [] ==> url == pathname + "?" + Serialize(query)
  {
    var qs := Serialize(query);
    pathname + (if qs != [] then "?" + qs else [])
  }

  /** `searchParams.get("search") || ""`: an absent and an empty parameter both read as "". */
  function SearchFromQuery(query: seq<Param>): (r: string)
    ensures Has(query, "search") ==> r == query[FirstIndex(query, "search")].value
    ensures !Has(query, "search") ==> r == ""
  {
    Lookup(query, "search").GetOr("")
  }

  /**
   * The parameter edit of a keystroke carrying `value`: a non-empty value is set
   * as `search`, an empty one deletes `search`; `page` is set to "1" either way.
   */
  function SearchEdit(query: seq<Param>, value: string): (r: seq<Param>)
    ensures Lookup(r, "page") == Some("1") && r != []
  {
    if value != "" then SetPair(SetPair(query, "search", value), "page", "1")
    else SetPair(DeleteAll(query, "search"), "page", "1")
  }

  /**
   * After a keystroke `search` holds the typed value, or is gone entirely
   * (not set to "") when the value is empty.
   */
  lemma SearchEditSetsSearch(query: seq<Param>, value: string)
    ensures value != "" ==> Lookup(SearchEdit(query, value), "search") == Some(value)
    ensures value == "" ==> !Has(SearchEdit(query, value), "search")
  {
    var mid := if value != "" then SetPair(query, "search", value) else DeleteAll(query, "search");
    LookupIgnoresOtherSets(mid, "page", "1", "search");
  }

  /**
   * A keystroke keeps every pair whose name is neither `search` nor `page`,
   * with its value and in its order.
   */
  lemma SearchEditKeepsOthers(query: seq<Param>, value: string)
    ensures DeleteAll(DeleteAll(SearchEdit(query, value), "search"), "page")
         == DeleteAll(DeleteAll(query, "search"), "page")
  {
    var r := SearchEdit(query, value);
    if value != "" {
      var mid := SetPair(query, "search", value);
      calc {
        DeleteAll(DeleteAll(r, "search"), "page");
        { DeleteAllCommutes(r, "search", "page"); }
        DeleteAll(DeleteAll(r, "page"), "search");
        { SetPairKeepsOthers(mid, "page", "1"); }
        DeleteAll(DeleteAll(mid, "page"), "search");
        { DeleteAllCommutes(mid, "search", "page"); }
        DeleteAll(DeleteAll(mid, "search"), "page");
        { SetPairKeepsOthers(query, "search", value); }
        DeleteAll(DeleteAll(query, "search"), "page");
      }
    } else {
      var mid := DeleteAll(query, "search");
      calc {
        DeleteAll(DeleteAll(r, "search"), "page");
        { DeleteAllCommutes(r, "search", "page"); }
        DeleteAll(DeleteAll(r, "page"), "search");
        { SetPairKeepsOthers(mid, "page", "1"); }
        DeleteAll(DeleteAll(mid, "page"), "search");
        { DeleteAllCommutes(mid, "search", "page"); }
        DeleteAll(DeleteAll(mid, "search"), "page");
        { DeleteAllIdempotent(query, "search"); }
        DeleteAll(DeleteAll(query, "search"), "page");
      }
    }
  }

  /** Because `page` is always set, the rebuilt URL always carries a "?" and the serialized pairs. */
  lemma EditedUrlHasQuery(pathname: string, query: seq<Param>, value: string)
    ensures Url(pathname, SearchEdit(query, value)) == pathname + "?" + Serialize(SearchEdit(query, value))
  {
  }

  /** After a keystroke, reading the URL back gives the typed value. */
  lemma SearchReadsBack(query: seq<Param>, value: string)
    ensures SearchFromQuery(SearchEdit(query, value)) == value
  {
    SearchEditSetsSearch(query, value);
  }

  class DefaultNavbar {
    /** The text shown in the search box (`localSearchValue`). */
    var localSearchValue: string
    /** The history stack; its last entry is the current location. */
    var history: seq<Location>
    /** Every value handed to the parent's `onChange`, oldest first. */
    var onChangeValues: seq<string>
    /** Whether the parent supplied an `onChange` handler. */
    const hasOnChange: bool

    ghost predicate Valid()
      reads this
    {
      history != []
    }

    function CurrentLocation(): Location
      reads this
      requires Valid()
    {
      history[|history| - 1]
    }

    /** The clear button is offered exactly when the search box is non-empty. */
    function ClearButtonShown(): (shown: bool)
      reads this
      ensures shown <==> |localSearchValue| > 0
    {
      localSearchValue != ""
    }

    constructor (entries: seq<Location>, hasOnChange: bool)
      requires entries != []
      ensures Valid() && history == entries
      ensures localSearchValue == "" && onChangeValues == [] && this.hasOnChange == hasOnChange
    {
      history := entries;
      localSearchValue := "";
      onChangeValues := [];
      this.hasOnChange := hasOnChange;
    }

    /** `onChange` is called with `value` when the parent supplied one. */
    method NotifyParent(value: string)
      modifies this
      ensures onChangeValues == old(onChangeValues) + (if hasOnChange then [value] else [])
      ensures localSearchValue == old(localSearchValue) && history == old(history)
    {
      if hasOnChange {
        onChangeValues := onChangeValues + [value];
      }
    }

    /** navigate(url, { replace: true }): the top history entry is replaced, the stack keeps its length. */
    method NavigateReplace(target: Location)
      requires Valid()
      modifies this
      ensures Valid() && |history| == |old(history)|
      ensures history[..|history| - 1] == old(history)[..|old(history)| - 1]
      ensures CurrentLocation() == target
      ensures localSearchValue == old(localSearchValue) && onChangeValues == old(onChangeValues)
    {
      history := history[..|history| - 1] + [target];
    }

    /** The effect run when the location's query changes: the box takes the URL's search value. */
    method SyncFromLocation()
      requires Valid()
      modifies this
      ensures Valid() && history == old(history)
      ensures localSearchValue == SearchFromQuery(CurrentLocation().query)
      ensures onChangeValues == old(onChangeValues) + (if hasOnChange then [localSearchValue] else [])
    {
      var searchParams := new SearchParams(CurrentLocation().query);
      var searchFromUrl := searchParams.Get("search").GetOr("");
      localSearchValue := searchFromUrl;
      NotifyParent(searchFromUrl);
    }

    /** handleSearchChange: a keystroke that leaves `newValue` in the box. */
    method HandleSearchChange(newValue: string) returns (newUrl: string)
      requires Valid()
      modifies this
      ensures Valid() && |history| == |old(history)|
      ensures history[..|history| - 1] == old(history)[..|old(history)| - 1]
      ensures CurrentLocation() == Location(old(CurrentLocation()).pathname, SearchEdit(old(CurrentLocation()).query, newValue))
      ensures newUrl == CurrentLocation().pathname + "?" + Serialize(CurrentLocation().query)
      ensures localSearchValue == newValue
      ensures onChangeValues == old(onChangeValues) + (if hasOnChange then [newValue] else [])
    {
      localSearchValue := newValue;
      NotifyParent(newValue);
      var loc := CurrentLocation();
      var searchParams := new SearchParams(loc.query);
      if newValue != "" {
        searchParams.Set("search", newValue);
        searchParams.Set("page", "1");
      } else {
        searchParams.Delete("search");
        searchParams.Set("page", "1");
      }
      var qs := searchParams.ToString();
      newUrl := loc.pathname + (if qs != [] then "?" + qs else []);
      EditedUrlHasQuery(loc.pathname, loc.query, newValue);
      NavigateReplace(Location(loc.pathname, searchParams.list));
    }

    /** clearSearch: empties the box and gives the same URL as typing "". */
    method ClearSearch() returns (newUrl: string)
      requires Valid()
      modifies this
      ensures Valid() && |history| == |old(history)|
      ensures history[..|history| - 1] == old(history)[..|old(history)| - 1]
      ensures CurrentLocation() == Location(old(CurrentLocation()).pathname, SearchEdit(old(CurrentLocation()).query, ""))
      ensures newUrl == CurrentLocation().pathname + "?" + Serialize(CurrentLocation().query)
      ensures localSearchValue == ""
      ensures onChangeValues == old(onChangeValues) + (if hasOnChange then [""] else [])
    {
      localSearchValue := "";
      NotifyParent("");
      var loc := CurrentLocation();
      var searchParams := new SearchParams(loc.query);
      searchParams.Delete("search");
      searchParams.Set("page", "1");
      var qs := searchParams.ToString();
      newUrl := loc.pathname + (if qs != [] then "?" + qs else []);
      EditedUrlHasQuery(loc.pathname, loc.query, "");
      NavigateReplace(Location(loc.pathname, searchParams.list));
    }
  }
}
