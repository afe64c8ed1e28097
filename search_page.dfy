/** The search page: it reads `q` and `page` from the URL, turns the page
    into an offset, runs one search and picks what to show. */
module SearchPage {
  import opened Common
  import opened JsString
  import opened JsNumber
  import opened Catalog
  import opened SoundCloud

  /** Results shown per page. */
  const RESULTS_PER_PAGE := 25

  /** The search text: `q` trimmed, or empty when absent. */
  function QueryOf(q: Option<string>): string {
    if q.Some? then Trim(q.value) else ""
  }

  /** The query is empty, and no search happens, exactly when `q` is absent
      or all whitespace; whitespace around `q` does not change it. */
  lemma QueryOfSpec(q: Option<string>, w1: string, w2: string)
    requires AllWhitespace(w1) && AllWhitespace(w2)
    ensures QueryOf(q) == "" <==> q.None? || AllWhitespace(q.value)
    ensures q.Some? ==> QueryOf(Some(w1 + q.value + w2)) == QueryOf(q)
    ensures QueryOf(Some(QueryOf(q))) == QueryOf(q)
  {
    if q.Some? {
      TrimBlank(q.value);
      TrimIgnoresPadding(w1, q.value, w2);
      TrimIdempotent(q.value);
    }
  }

  /** The page number: `Math.max(1, parseInt(page || '1', 10))`. An absent
      or empty `page` is 1; text that `parseInt` cannot read gives NaN, which
      `Math.max` passes on. */
  function PageOf(page: Option<string>): (r: Num)
    ensures page.None? || page.value == "" ==> r == Int(1)
    ensures r.Int? ==> r.value >= 1
    ensures r.NaN? <==> page.Some? && page.value != "" && ParseInt(page.value).NaN?
  {
    var text := if page.Some? && page.value != "" then page.value else "1";
    assert text == "1" ==> ParseInt(text) == Int(1) by {
      ParseIntOfDecimal(1, "");
      assert IntToString(1) + "" == "1";
    }
    Max(Int(1), ParseInt(text))
  }

  /** A page given in decimal, possibly followed by other text (`'3x'`), is
      read as that number, clamped to 1 from below (`'0'` and `'-2'` are
      page 1). */
  lemma PageOfDecimal(n: int, rest: string)
    requires rest == [] || !IsDigit(rest[0])
    ensures PageOf(Some(IntToString(n) + rest)) == Int(if n >= 1 then n else 1)
  {
    ParseIntOfDecimal(n, rest);
  }

  /** A page that does not start with a number is NaN, not 1: `'abc'`. */
  lemma PageOfNonNumeric()
    ensures PageOf(Some("abc")) == NaN
  {
    ParseIntNaN("abc");
  }

  /** The offset of the first result on a page: `(page - 1) * 25`. */
  function Offset(page: Num): (r: Num)
    ensures r.NaN? <==> page.NaN?
    ensures page == Int(1) ==> r == Int(0)
  {
    Mul(Add(page, -1), RESULTS_PER_PAGE)
  }

  /** Consecutive pages start exactly one page of results apart, and page
      `p` starts after the results of all earlier pages. */
  lemma OffsetSpec(p: int)
    ensures Offset(Int(p + 1)).value == Offset(Int(p)).value + RESULTS_PER_PAGE
    ensures p >= 1 ==> Offset(Int(p)).value == (p - 1) * RESULTS_PER_PAGE >= 0
  {
  }

  /** `!!nextHref`: a next page exists when `next_href` is present and not
      empty. */
  function HasNextPage(nextHref: Option<string>): (b: bool)
    ensures b <==> nextHref.Some? && |nextHref.value| > 0
  {
    match nextHref
    case Some(h) => h != ""
    case None => false
  }

  /** What the results area shows. */
  datatype View =
    | Prompt
    | NoTracks(query: string)
    | Results(query: string, tracks: seq<Track>, page: Num, hasNextPage: bool)
    | ErrorPanel(message: string)

  /** `SearchResultsContent`'s choice of view for the outcome of its
      search: the error panel with the error's message for any failure,
      "No tracks found" for an empty page, and otherwise the tracks with a
      pagination that knows whether a next page exists. */
  function ResultsView(query: string, page: Num, outcome: Result<SearchPage, Error>): (v: View)
    ensures v.ErrorPanel? <==> outcome.Failure?
    ensures v.ErrorPanel? ==> v.message == Message(outcome.error)
    ensures v.NoTracks? <==> outcome.Success? && outcome.value.tracks == []
    ensures v.Results? ==> v.tracks == outcome.value.tracks && v.tracks != []
                           && v.hasNextPage == HasNextPage(outcome.value.nextHref)
    ensures !v.Prompt?
  {
    match outcome
    case Failure(e) => ErrorPanel(Message(e))
    case Success(p) =>
      if |p.tracks| == 0 then NoTracks(query) else Results(query, p.tracks, page, HasNextPage(p.nextHref))
  }

  /** The outcome `searchTracks` gives for a run of `getAccessToken` and a
      search answer. */
  function SearchResult(run: TokenRun, response: Response<SearchBody>): Result<SearchPage, Error> {
    if run.result.Failure? then Failure(run.result.error) else SearchOutcome(response)
  }

  /** `SearchResultsContent`: one search for the page's 25 results; any
      failure becomes the error panel. */
  method SearchResultsContent(client: TokenManager, query: string, page: Num,
                              now: int, env: TokenEnv, response: Response<SearchBody>)
    returns (v: View)
    requires Sane(env)
    modifies client
    ensures var run := AccessTokenRun(old(client.store), now, env);
            && v == ResultsView(query, page, SearchResult(run, response))
            && client.store == Written(old(client.store), run.written)
            && client.trace == old(client.trace) + run.effects
                 + if run.result.Success?
                   then [SearchCall(OAuth(run.result.value), SearchQuery(query, RESULTS_PER_PAGE, Offset(page)))]
                   else []
  {
    var outcome := client.SearchTracks(now, env, response, query, RESULTS_PER_PAGE, Offset(page));
    v := ResultsView(query, page, outcome);
  }

  /** `SearchPage`: the prompt, with no search at all, for an empty query;
      otherwise the results for the parsed page. */
  method SearchPageView(client: TokenManager, q: Option<string>, page: Option<string>,
                        now: int, env: TokenEnv, response: Response<SearchBody>)
    returns (v: View)
    requires Sane(env)
    modifies client
    ensures QueryOf(q) == "" ==> v == Prompt && client.trace == old(client.trace) && client.store == old(client.store)
    ensures QueryOf(q) != "" ==>
              var run := AccessTokenRun(old(client.store), now, env);
              && v == ResultsView(QueryOf(q), PageOf(page), SearchResult(run, response))
              && client.store == Written(old(client.store), run.written)
              && client.trace == old(client.trace) + run.effects
                   + if run.result.Success?
                     then [SearchCall(OAuth(run.result.value), SearchQuery(QueryOf(q), RESULTS_PER_PAGE, Offset(PageOf(page))))]
                     else []
  {
    var query := QueryOf(q);
    if query == "" {
      return Prompt;
    }
    v := SearchResultsContent(client, query, PageOf(page), now, env, response);
  }
}
