/**
 * frontend/src/stores/gitdorkerStore.js: the Pinia store behind the
 * GitHub-dork search page. Every action assigns its arguments raw.
 */
module GitdorkerStore {
  import opened Js

  /** What exportResults returns, without its timestamp. */
  datatype ExportedSearch = ExportedSearch(mainKeyword: JsValue, subKeyword: JsValue, results: JsValue)

  class GitdorkerStore {
    var mainKeyword: JsValue
    var subKeyword: JsValue
    var token: JsValue
    var searchResults: JsValue
    var isSearching: JsValue
    var searchStatus: JsValue

    /** A terminal status never goes with a search still marked running. */
    ghost predicate Valid()
      reads this
    {
      IsTerminal(searchStatus) ==> !Truthy(isSearching)
    }

    /** The state() function: empty keywords and token, no results, idle. */
    constructor ()
      ensures Valid()
      ensures mainKeyword == Str("") && subKeyword == Str("") && token == Str("")
      ensures searchResults == Null && isSearching == Bool(false) && searchStatus == Str("idle")
    {
      mainKeyword, subKeyword, token := Str(""), Str(""), Str("");
      searchResults, isSearching, searchStatus := Null, Bool(false), Str("idle");
    }

    /** resetSearch drops the results and returns to idle, keeping keywords and token. */
    method ResetSearch()
      modifies this
      ensures Valid()
      ensures searchResults == Null && isSearching == Bool(false) && searchStatus == Str("idle")
      ensures mainKeyword == old(mainKeyword) && subKeyword == old(subKeyword) && token == old(token)
    {
      searchResults := Null;
      isSearching := Bool(false);
      searchStatus := Str("idle");
    }

    /**
     * setIsSearching stores its argument; a truthy one starts a search, a
     * falsy one turns "searching" into "cancelled" and leaves any other
     * status as it was.
     */
    method SetIsSearching(value: JsValue)
      requires Valid()
      modifies this
      ensures Valid()
      ensures isSearching == value
      ensures Truthy(value) ==> searchStatus == Str("searching")
      ensures !Truthy(value) ==>
        searchStatus == (if old(searchStatus) == Str("searching") then Str("cancelled") else old(searchStatus))
      ensures searchResults == old(searchResults)
      ensures mainKeyword == old(mainKeyword) && subKeyword == old(subKeyword) && token == old(token)
    {
      isSearching := value;
      if !Truthy(value) {
        if searchStatus == Str("searching") {
          searchStatus := Str("cancelled");
        }
      } else {
        searchStatus := Str("searching");
      }
    }

    /** setSearchStatus stores the status; a terminal one also clears the running flag. */
    method SetSearchStatus(status: JsValue)
      requires Valid()
      modifies this
      ensures Valid()
      ensures searchStatus == status
      ensures IsTerminal(status) ==> isSearching == Bool(false)
      ensures !IsTerminal(status) ==> isSearching == old(isSearching)
      ensures searchResults == old(searchResults)
      ensures mainKeyword == old(mainKeyword) && subKeyword == old(subKeyword) && token == old(token)
    {
      searchStatus := status;
      if IsTerminal(status) {
        isSearching := Bool(false);
      }
    }

    /** setSearchResults replaces the results and nothing else. */
    method SetSearchResults(results: JsValue)
      modifies this
      ensures searchResults == results
      ensures isSearching == old(isSearching) && searchStatus == old(searchStatus)
      ensures mainKeyword == old(mainKeyword) && subKeyword == old(subKeyword) && token == old(token)
    {
      searchResults := results;
    }

    /** setKeywords sets exactly the two keywords. */
    method SetKeywords(main: JsValue, sub: JsValue)
      modifies this
      ensures mainKeyword == main && subKeyword == sub
      ensures token == old(token) && searchResults == old(searchResults)
      ensures isSearching == old(isSearching) && searchStatus == old(searchStatus)
    {
      mainKeyword := main;
      subKeyword := sub;
    }

    /** setToken sets exactly the token. */
    method SetToken(token: JsValue)
      modifies this
      ensures this.token == token
      ensures mainKeyword == old(mainKeyword) && subKeyword == old(subKeyword) && searchResults == old(searchResults)
      ensures isSearching == old(isSearching) && searchStatus == old(searchStatus)
    {
      this.token := token;
    }

    /** exportResults reports keywords and results, changing nothing; the token is not exported. */
    method ExportResults() returns (r: ExportedSearch)
      ensures r == ExportedSearch(mainKeyword, subKeyword, searchResults)
    {
      r := ExportedSearch(mainKeyword, subKeyword, searchResults);
    }
  }

  /**
   * A search that failed stays failed when the page clears its running flag,
   * and resetting keeps the keywords the user typed.
   */
  method ErrorThenStop(main: JsValue, sub: JsValue)
    returns (status: JsValue, afterReset: ExportedSearch)
    ensures status == Str("error")
    ensures afterReset == ExportedSearch(main, sub, Null)
  {
    var s := new GitdorkerStore();
    s.SetKeywords(main, sub);
    s.SetIsSearching(Bool(true));
    s.SetSearchResults(Obj(1));
    s.SetSearchStatus(Str("error"));
    s.SetIsSearching(Bool(false));
    status := s.searchStatus;
    s.ResetSearch();
    afterReset := s.ExportResults();
  }
}
