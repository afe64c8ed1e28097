/** The pagination bar under the search results: Previous and Next buttons
    that rewrite the `page` parameter of the current URL. Both layouts of
    the bar (narrow and wide screens) use the same rules. */
module SearchPagination {
  import opened Common
  import opened JsString
  import opened JsNumber
  import opened UrlSearchParams
  import SearchPage

  /** The query `navigateToPage(page)` builds from the current one: `page`
      set to the page's decimal form for pages after the first, removed
      otherwise (also for NaN, which is not greater than 1). */
  function PageQuery(current: seq<Pair>, page: Num): seq<Pair> {
    if Greater(page, 1) then SetTo(current, "page", ToString(page)) else Deleted(current, "page")
  }

  /** After navigating, `page` is present exactly when the target page is
      after the first, once, holding the page's decimal form; every other
      parameter is carried over with its value and position among the
      others. */
  lemma PageQuerySpec(current: seq<Pair>, page: Num)
    ensures Count(PageQuery(current, page), "page") == if Greater(page, 1) then 1 else 0
    ensures Greater(page, 1) ==> GetFirst(PageQuery(current, page), "page") == Some(IntToString(page.value))
    ensures Deleted(PageQuery(current, page), "page") == Deleted(current, "page")
  {
    if Greater(page, 1) {
      SetToSpec(current, "page", ToString(page));
    } else {
      DeletedCount(current, "page");
      DeletedIdempotent(current, "page");
    }
  }

  /** Every parameter other than `page` reads as it did, `q` included. */
  lemma OtherParamsKept(current: seq<Pair>, page: Num, name: string)
    requires name != "page"
    ensures GetFirst(PageQuery(current, page), name) == GetFirst(current, name)
    ensures Count(PageQuery(current, page), name) == Count(current, name)
  {
    PageQuerySpec(current, page);
    DeletedSpec(PageQuery(current, page), "page", name);
    DeletedSpec(current, "page", name);
  }

  /** Navigating to the same page twice gives the same parameters. */
  lemma PageQueryIdempotent(current: seq<Pair>, page: Num)
    ensures PageQuery(PageQuery(current, page), page) == PageQuery(current, page)
  {
    if Greater(page, 1) {
      SetToIdempotent(current, "page", ToString(page));
    } else {
      DeletedIdempotent(current, "page");
    }
  }

  /** The search page reads back the page navigated to, with pages up to 1
      read as page 1. */
  lemma NavigateRoundTrip(current: seq<Pair>, p: int)
    ensures SearchPage.PageOf(GetFirst(PageQuery(current, Int(p)), "page")) == Int(if p >= 1 then p else 1)
  {
    PageQuerySpec(current, Int(p));
    if p > 1 {
      SearchPage.PageOfDecimal(p, "");
      assert IntToString(p) + "" == IntToString(p);
    }
  }

  /** `navigateToPage(page)`: copy the current parameters, set or delete
      `page`, and go to `/` with them. */
  method NavigateToPage(current: seq<Pair>, page: Num) returns (target: Location)
    ensures target == Location("/", PageQuery(current, page))
  {
    var params := new SearchParams(current);
    if Greater(page, 1) {
      params.Set("page", ToString(page));
    } else {
      params.Delete("page");
    }
    target := Location("/", params.pairs);
  }

  /** Previous is disabled when `currentPage <= 1`; a NaN page leaves it
      enabled. */
  predicate PreviousDisabled(currentPage: Num) {
    AtMost(currentPage, 1)
  }

  /** Next is disabled when there is no next page. */
  predicate NextDisabled(hasNextPage: bool) {
    !hasNextPage
  }

  /** Where Previous leads, when enabled: the page before. */
  function PreviousTarget(current: seq<Pair>, currentPage: Num): (t: Option<Location>)
    ensures t.None? <==> PreviousDisabled(currentPage)
  {
    if PreviousDisabled(currentPage) then None else Some(Location("/", PageQuery(current, Add(currentPage, -1))))
  }

  /** Where Next leads, when enabled: the page after. */
  function NextTarget(current: seq<Pair>, currentPage: Num, hasNextPage: bool): (t: Option<Location>)
    ensures t.None? <==> NextDisabled(hasNextPage)
  {
    if NextDisabled(hasNextPage) then None else Some(Location("/", PageQuery(current, Add(currentPage, 1))))
  }

  /** From page `p`, Previous leads to a URL the search page reads as page
      `p - 1`, and Next to one it reads as `p + 1`. */
  lemma NeighbourPages(current: seq<Pair>, p: int, hasNextPage: bool)
    requires p >= 1
    ensures p > 1 ==> SearchPage.PageOf(GetFirst(PreviousTarget(current, Int(p)).value.query, "page")) == Int(p - 1)
    ensures hasNextPage ==> SearchPage.PageOf(GetFirst(NextTarget(current, Int(p), hasNextPage).value.query, "page")) == Int(p + 1)
  {
    NavigateRoundTrip(current, p - 1);
    NavigateRoundTrip(current, p + 1);
  }

  /** On a NaN page Previous stays enabled and leads to the first page: the
      page before NaN is NaN, which removes `page`. */
  lemma PreviousFromNaN(current: seq<Pair>)
    ensures PreviousTarget(current, NaN) == Some(Location("/", Deleted(current, "page")))
  {
  }
}
