/** The inline search box. Submitting rewrites `q` in the current URL's
    parameters and always drops `page`, so a new search starts on the first
    page; clearing drops both. */
module SearchInlineForm {
  import opened Common
  import opened JsString
  import opened UrlSearchParams
  import opened SearchForm

  /** The parameters `handleSubmit` navigates with: `q` set to the trimmed
      text, or removed when the text is blank; `page` removed either way. */
  function SubmitQuery(current: seq<Pair>, query: string): seq<Pair> {
    if Trim(query) != "" then Deleted(SetTo(current, "q", Trim(query)), "page")
    else Deleted(Deleted(current, "q"), "page")
  }

  /** The parameters `handleClear` navigates with: no `q`, no `page`. */
  function ClearQuery(current: seq<Pair>): seq<Pair> {
    Deleted(Deleted(current, "q"), "page")
  }

  /** Clearing leaves no `q` and no `page`, and every other parameter
      reads as before. */
  lemma ClearQuerySpec(current: seq<Pair>, name: string)
    requires name != "q" && name != "page"
    ensures Count(ClearQuery(current), "q") == 0 && Count(ClearQuery(current), "page") == 0
    ensures GetFirst(ClearQuery(current), name) == GetFirst(current, name)
  {
    DeletedSpec(current, "q", name);
    DeletedSpec(Deleted(current, "q"), "page", "q");
    DeletedSpec(Deleted(current, "q"), "page", name);
  }

  /** Submitting never leaves a `page`. Non-blank text leaves exactly one
      `q`, the trimmed text, which the box syncs back from; blank text does
      what clearing does. Every other parameter reads as before. */
  lemma SubmitQuerySpec(current: seq<Pair>, query: string, name: string, local: string)
    requires name != "q" && name != "page"
    ensures Count(SubmitQuery(current, query), "page") == 0
    ensures !AllWhitespace(query) ==>
              && Count(SubmitQuery(current, query), "q") == 1
              && GetFirst(SubmitQuery(current, query), "q") == Some(Trim(query))
              && SyncedQuery(local, SubmitQuery(current, query)) == Trim(query)
    ensures AllWhitespace(query) ==> SubmitQuery(current, query) == ClearQuery(current)
    ensures GetFirst(SubmitQuery(current, query), name) == GetFirst(current, name)
  {
    TrimBlank(query);
    if Trim(query) != "" {
      var t := Trim(query);
      SetToSpec(current, "q", t);
      DeletedSpec(SetTo(current, "q", t), "page", "q");
      DeletedSpec(SetTo(current, "q", t), "page", name);
      DeletedSpec(SetTo(current, "q", t), "q", name);
      DeletedSpec(current, "q", name);
    } else {
      ClearQuerySpec(current, name);
    }
  }

  /** Text that differs only in surrounding whitespace submits the same
      parameters. */
  lemma SubmitIgnoresPadding(current: seq<Pair>, w1: string, query: string, w2: string)
    requires AllWhitespace(w1) && AllWhitespace(w2)
    ensures SubmitQuery(current, w1 + query + w2) == SubmitQuery(current, query)
  {
    TrimIgnoresPadding(w1, query, w2);
  }

  /** The inline box's state. */
  class InlineFormState {
    /** The text in the box. */
    var query: string
    /** Whether the component has mounted. */
    var mounted: bool
    /** The current URL's search parameters. */
    var params: seq<Pair>
    /** Every navigation requested, oldest first. */
    var pushed: seq<Location>

    constructor (params: seq<Pair>)
      ensures query == "" && !mounted && this.params == params && pushed == []
    {
      query := "";
      mounted := false;
      this.params := params;
      pushed := [];
    }

    /** The clear button is shown while the box holds text: once mounted,
        exactly when the box shows some. */
    predicate ClearShown(): (shown: bool)
      reads this
      ensures mounted ==> (shown <==> ShownText(mounted, query) != "")
    {
      query != ""
    }

    /** Mounting, and the sync that follows it. */
    method Mount()
      modifies this
      ensures mounted && query == SyncedQuery(old(query), params)
      ensures params == old(params) && pushed == old(pushed)
    {
      mounted := true;
      query := SyncedQuery(query, params);
    }

    /** The URL's parameters change, and the sync runs if mounted. */
    method UrlChanged(newParams: seq<Pair>)
      modifies this
      ensures params == newParams && mounted == old(mounted) && pushed == old(pushed)
      ensures query == if mounted then SyncedQuery(old(query), newParams) else old(query)
    {
      params := newParams;
      if mounted {
        query := SyncedQuery(query, params);
      }
    }

    /** Typing into the box. */
    method Edit(text: string)
      modifies this
      ensures query == text && mounted == old(mounted) && params == old(params) && pushed == old(pushed)
    {
      query := text;
    }

    /** `handleSubmit`: edit a copy of the URL's parameters and navigate to
        `/` with it. */
    method HandleSubmit()
      modifies this
      ensures query == old(query) && mounted == old(mounted) && params == old(params)
      ensures pushed == old(pushed) + [Location("/", SubmitQuery(params, query))]
    {
      var edited := new SearchParams(params);
      var text := Trim(query);
      if text != "" {
        edited.Set("q", text);
        edited.Delete("page");
      } else {
        edited.Delete("q");
        edited.Delete("page");
      }
      pushed := pushed + [Location("/", edited.pairs)];
    }

    /** `handleClear`: empty the box, and navigate to `/` without `q` and
        `page`. */
    method HandleClear()
      modifies this
      ensures query == "" && mounted == old(mounted) && params == old(params)
      ensures pushed == old(pushed) + [Location("/", ClearQuery(params))]
    {
      query := "";
      var edited := new SearchParams(params);
      edited.Delete("q");
      edited.Delete("page");
      pushed := pushed + [Location("/", edited.pairs)];
    }
  }
}
