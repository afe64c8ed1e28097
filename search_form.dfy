/** The search box of the search page. Its text is local state; after the
    component has mounted, a `q` in the URL is copied into it; submitting a
    non-blank text navigates to the search page for it. */
module SearchForm {
  import opened Common
  import opened JsString
  import opened UrlSearchParams

  /** The URL-to-input sync: once mounted, a present and non-empty `q`
      replaces the local text; an absent or empty one leaves it. */
  function SyncedQuery(query: string, params: seq<Pair>): (r: string)
    ensures r == query || Some(r) == GetFirst(params, "q")
    ensures r == "" ==> query == ""
  {
    match GetFirst(params, "q")
    case Some(q) => if q != "" then q else query
    case None => query
  }

  /** The sync copies the URL's text exactly when it is there to copy, and
      syncing twice is syncing once. */
  lemma SyncedQuerySpec(query: string, params: seq<Pair>)
    ensures SyncedQuery(query, params) != query ==> GetFirst(params, "q") == Some(SyncedQuery(query, params))
    ensures (GetFirst(params, "q") == None || GetFirst(params, "q") == Some("")) ==> SyncedQuery(query, params) == query
    ensures SyncedQuery(SyncedQuery(query, params), params) == SyncedQuery(query, params)
  {
  }

  /** The text a search box shows for its local text: nothing before the
      component has mounted, so the first render never depends on it; the
      local text, exactly, after. */
  function ShownText(mounted: bool, query: string): (s: string)
    ensures s == "" <==> !mounted || query == ""
    ensures s != "" ==> s == query
  {
    if mounted then query else ""
  }

  /** Where submitting `query` navigates: `/search` with `q` the trimmed
      text, or nowhere when the text is blank. */
  function SubmitTarget(query: string): Option<Location> {
    if Trim(query) != "" then Some(Location("/search", [("q", Trim(query))])) else None
  }

  /** Blank text navigates nowhere; other text navigates to a search whose
      `q` is the trimmed text and which the form syncs back from; text that
      differs only in surrounding whitespace navigates to the same place. */
  lemma SubmitTargetSpec(query: string, w1: string, w2: string, local: string)
    requires AllWhitespace(w1) && AllWhitespace(w2)
    ensures SubmitTarget(query).None? <==> AllWhitespace(query)
    ensures SubmitTarget(query).Some? ==>
              && SubmitTarget(query).value.path == "/search"
              && GetFirst(SubmitTarget(query).value.query, "q") == Some(Trim(query))
              && SyncedQuery(local, SubmitTarget(query).value.query) == Trim(query)
    ensures SubmitTarget(w1 + query + w2) == SubmitTarget(query)
  {
    TrimBlank(query);
    TrimIgnoresPadding(w1, query, w2);
    if SubmitTarget(query).Some? {
      assert [("q", Trim(query))][..0] == [];
    }
  }

  /** The form's state. */
  class SearchFormState {
    /** The text in the box. */
    var query: string
    /** Whether the component has mounted. */
    var mounted: bool
    /** The current URL's search parameters. */
    var params: seq<Pair>
    /** Every navigation requested, oldest first. */
    var pushed: seq<Location>

    constructor (params: seq<Pair>)
      ensures query == "" && !mounted && this.params == params && pushed == []
    {
      query := "";
      mounted := false;
      this.params := params;
      pushed := [];
    }

    /** Mounting, and the sync that follows it. */
    method Mount()
      modifies this
      ensures mounted && query == SyncedQuery(old(query), params)
      ensures params == old(params) && pushed == old(pushed)
    {
      mounted := true;
      query := SyncedQuery(query, params);
    }

    /** The URL's parameters change, and the sync runs if mounted. */
    method UrlChanged(newParams: seq<Pair>)
      modifies this
      ensures params == newParams && mounted == old(mounted) && pushed == old(pushed)
      ensures query == if mounted then SyncedQuery(old(query), newParams) else old(query)
    {
      params := newParams;
      if mounted {
        query := SyncedQuery(query, params);
      }
    }

    /** Typing into the box. */
    method Edit(text: string)
      modifies this
      ensures query == text && mounted == old(mounted) && params == old(params) && pushed == old(pushed)
    {
      query := text;
    }

    /** `handleSubmit`. */
    method HandleSubmit()
      modifies this
      ensures query == old(query) && mounted == old(mounted) && params == old(params)
      ensures pushed == old(pushed) + if SubmitTarget(query).Some? then [SubmitTarget(query).value] else []
    {
      var text := Trim(query);
      if text != "" {
        pushed := pushed + [Location("/search", [("q", text)])];
      }
    }
  }
}
