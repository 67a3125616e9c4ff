/**
 * The series details page: it fetches one page of the series' chapters (page from the URL, 20
 * per page), checks the bookmark for a signed-in reader, and offers the bookmark toggle, the
 * first and latest chapter, and the chapter list with prices and pagination.
 */
module NovelDetails {
  import opened Wrappers
  import opened Text
  import opened UrlQuery
  import opened ServerActions
  import opened Redirects
  import SeriesCatalogue

  const ChaptersPerPage := 20
  /** The price shown for a premium chapter whose price is 0 or absent. */
  const DefaultPrice := 20
  const DetailsFailedMessage := "Failed to fetch series details"
  const NotFoundMessage := "Series not found"

  datatype SeriesInfo = SeriesInfo(id: string, slug: string, title: string)

  datatype DetailsChapter = DetailsChapter(id: string, chapterNumber: int, isPremium: bool, priceInCoins: Option<int>)

  /** What a successful `getSeriesDetailsAction` carries. */
  datatype Details = Details(
    series: SeriesInfo, chapters: seq<DetailsChapter>,
    totalChapters: int, page: int, limit: int, totalPages: int)

  datatype Pagination = Pagination(totalChapters: int, page: int, limit: int, totalPages: int)

  const InitialPagination := Pagination(0, 1, 20, 1)

  /** `chapter.priceInCoins || 20` */
  function Price(c: DetailsChapter): (p: int)
    ensures p != 0
    ensures c.priceInCoins.Some? && c.priceInCoins.value != 0 ==> p == c.priceInCoins.value
    ensures c.priceInCoins.None? || c.priceInCoins.value == 0 ==> p == DefaultPrice
  {
    if c.priceInCoins.Some? && c.priceInCoins.value != 0 then c.priceInCoins.value else DefaultPrice
  }

  /** `chapters[0]`, the newest chapter of the page, or nothing for an empty page. */
  function Latest(chapters: seq<DetailsChapter>): (r: Option<DetailsChapter>)
    ensures r.None? <==> |chapters| == 0
    ensures r.Some? ==> r.value == chapters[0]
  {
    if |chapters| == 0 then None else Some(chapters[0])
  }

  /** `chapters[chapters.length - 1]`, the oldest chapter of the page, or nothing for an empty page. */
  function First(chapters: seq<DetailsChapter>): (r: Option<DetailsChapter>)
    ensures r.None? <==> |chapters| == 0
    ensures r.Some? ==> r.value == chapters[|chapters| - 1]
  {
    if |chapters| == 0 then None else Some(chapters[|chapters| - 1])
  }

  /**
   * The price beside each chapter of the list: only premium chapters show one, the chapter's
   * own price when it is set and non-zero, else the default.
   */
  function PricesOf(chapters: seq<DetailsChapter>): (r: seq<Option<int>>)
    ensures |r| == |chapters|
    ensures forall k :: 0 <= k < |chapters| ==> (r[k].Some? <==> chapters[k].isPremium)
    ensures forall k :: 0 <= k < |chapters| && r[k].Some? ==> r[k].value != 0 && r[k].value == Price(chapters[k])
  {
    seq(|chapters|, k requires 0 <= k < |chapters| => if chapters[k].isPremium then Some(Price(chapters[k])) else None)
  }

  /** Chapters as the server lists them: newest first. */
  predicate NewestFirst(chapters: seq<DetailsChapter>) {
    forall i, j :: 0 <= i < j < |chapters| ==> chapters[i].chapterNumber >= chapters[j].chapterNumber
  }

  /**
   * On a page listed newest first, "latest" has the highest chapter number of the page and
   * "first" the lowest.
   */
  lemma LatestAndFirstBound(chapters: seq<DetailsChapter>)
    requires NewestFirst(chapters) && |chapters| > 0
    ensures forall k :: 0 <= k < |chapters| ==>
      First(chapters).value.chapterNumber <= chapters[k].chapterNumber <= Latest(chapters).value.chapterNumber
  {
    forall k | 0 <= k < |chapters|
      ensures chapters[|chapters| - 1].chapterNumber <= chapters[k].chapterNumber <= chapters[0].chapterNumber
    {
      if 0 < k {
        assert chapters[0].chapterNumber >= chapters[k].chapterNumber;
      }
      if k < |chapters| - 1 {
        assert chapters[k].chapterNumber >= chapters[|chapters| - 1].chapterNumber;
      }
    }
  }

  /** The bookmark call for the current state: remove when bookmarked, add when not. */
  function ToggleCall(seriesId: string, isBookmarked: bool): Action {
    if isBookmarked then RemoveBookmarkAction(seriesId) else BookmarkSeriesAction(seriesId)
  }

  /** The flag after a toggle: flipped when the call succeeded, kept otherwise. */
  function Toggled(isBookmarked: bool, succeeded: bool): (r: bool)
    ensures r != isBookmarked <==> succeeded
  {
    if succeeded then !isBookmarked else isBookmarked
  }

  /** Two successful toggles restore the flag, and they make the two opposite calls. */
  lemma ToggleTwice(seriesId: string, isBookmarked: bool)
    ensures Toggled(Toggled(isBookmarked, true), true) == isBookmarked
    ensures {ToggleCall(seriesId, isBookmarked), ToggleCall(seriesId, Toggled(isBookmarked, true))}
      == {BookmarkSeriesAction(seriesId), RemoveBookmarkAction(seriesId)}
  {
  }

  /** What the page renders. */
  datatype DetailsView =
    | Spinner
    | Message(text: string)
    | Shown(series: SeriesInfo, latest: Option<DetailsChapter>, first: Option<DetailsChapter>,
            prices: seq<Option<int>>, paginated: bool)

  class DetailsPage {
    const slug: string
    const searchParams: Params
    const pathname: string
    var series: Option<SeriesInfo>
    var chapters: seq<DetailsChapter>
    var loading: bool
    var error: Option<string>
    var isBookmarked: bool
    var isBookmarking: bool
    var pagination: Pagination
    /** Router pushes, in order. */
    var navigations: seq<string>
    /** Server actions called, in order. */
    var calls: seq<Action>

    constructor(slug: string, searchParams: Params, pathname: string)
      ensures this.slug == slug && this.searchParams == searchParams && this.pathname == pathname
      ensures series.None? && chapters == [] && loading && error.None? && !isBookmarked && !isBookmarking
      ensures pagination == InitialPagination && navigations == [] && calls == []
    {
      this.slug := slug;
      this.searchParams := searchParams;
      this.pathname := pathname;
      series := None;
      chapters := [];
      loading := true;
      error := None;
      isBookmarked := false;
      isBookmarking := false;
      pagination := InitialPagination;
      navigations := [];
      calls := [];
    }

    /** `parseInt(searchParams.get("page") || "1", 10)`, with `None` for `NaN`. */
    function Page(): Option<int>
      reads this
    {
      SeriesCatalogue.PageOf(searchParams)
    }

    /**
     * The render: the spinner while loading, the error (or "not found") when there is no
     * series, and otherwise the series with its latest and first chapter, the price of each
     * chapter and the pagination when there is more than one page.
     */
    function View(): (r: DetailsView)
      reads this
      ensures loading <==> r.Spinner?
      ensures r.Message? <==> !loading && (error.Some? || series.None?)
      ensures r.Message? && error.Some? && error.value != "" ==> r.text == error.value
      ensures r.Message? && (error.None? || error.value == "") ==> r.text == NotFoundMessage
      ensures r.Shown? ==>
        && r.series == series.value
        && (r.latest.Some? <==> |chapters| > 0) && (r.first.Some? <==> |chapters| > 0)
        && (|chapters| > 0 ==> r.latest.value == chapters[0] && r.first.value == chapters[|chapters| - 1])
        && |r.prices| == |chapters|
        && (forall k :: 0 <= k < |chapters| ==> (r.prices[k].Some? <==> chapters[k].isPremium))
        && (forall k :: 0 <= k < |chapters| && r.prices[k].Some? ==> r.prices[k].value == Price(chapters[k]))
        && (r.paginated <==> pagination.totalPages > 1)
    {
      if loading then Spinner
      else if error.Some? || series.None? then Message(OrElse(error.GetOr(""), NotFoundMessage))
      else Shown(series.value, Latest(chapters), First(chapters),
                 PricesOf(chapters),
                 pagination.totalPages > 1)
    }

    /**
     * The success path of the fetch: the data replaces the series, the chapters and the
     * pagination, and a signed-in reader's bookmark is checked.
     */
    method Adopt(d: Details, isAuthenticated: bool, bookmarkReply: Reply<bool>)
      requires error.None?
      modifies this
      ensures navigations == old(navigations) && isBookmarking == old(isBookmarking) && loading == old(loading)
      ensures series == Some(d.series) && chapters == d.chapters
      ensures pagination == Pagination(d.totalChapters, d.page, d.limit, d.totalPages)
      ensures calls == old(calls) + (if isAuthenticated then [CheckBookmarkAction(d.series.id)] else [])
      ensures isBookmarked ==
        if isAuthenticated && Succeeded(bookmarkReply) && bookmarkReply.result.data.Some?
        then bookmarkReply.result.data.value else old(isBookmarked)
      ensures error ==
        if isAuthenticated && bookmarkReply.Threw? then Some(OrElse(bookmarkReply.message, UnexpectedErrorMessage))
        else None
    {
      series := Some(d.series);
      chapters := d.chapters;
      pagination := Pagination(d.totalChapters, d.page, d.limit, d.totalPages);
      if isAuthenticated {
        calls := calls + [CheckBookmarkAction(d.series.id)];
        match bookmarkReply {
          case Returned(check) =>
            if check.Ok? && check.data.Some? {
              isBookmarked := check.data.value;
            }
          case Threw(message) =>
            error := Some(OrElse(message, UnexpectedErrorMessage));
        }
      }
    }

    /**
     * The fetch effect, with `reply` as what awaiting the details action gave and
     * `bookmarkReply` as what the bookmark check gave. Without a slug nothing happens. Data
     * replaces the series, its chapters and the pagination; the bookmark is then checked only for
     * a signed-in reader, and its flag taken only from a check that succeeded with data. A
     * rejected check, or any failure of the details, shows an error. Loading ends in every case.
     */
    method Fetch(isAuthenticated: bool, reply: Reply<Details>, bookmarkReply: Reply<bool>)
      modifies this
      ensures navigations == old(navigations) && isBookmarking == old(isBookmarking)
      ensures slug == "" ==>
        && calls == old(calls) && loading == old(loading) && error == old(error) && series == old(series)
        && chapters == old(chapters) && pagination == old(pagination) && isBookmarked == old(isBookmarked)
      ensures slug != "" ==> !loading
      ensures slug != "" && !(Succeeded(reply) && reply.result.data.Some?) ==>
        && calls == old(calls) + [GetSeriesDetailsAction(slug, Page(), Some(ChaptersPerPage))]
        && series == old(series) && chapters == old(chapters) && pagination == old(pagination)
        && isBookmarked == old(isBookmarked)
        && error == Some(if reply.Threw? then OrElse(reply.message, UnexpectedErrorMessage)
                         else OrElse(if reply.result.Err? then reply.result.error else "", DetailsFailedMessage))
      ensures slug != "" && Succeeded(reply) && reply.result.data.Some? ==>
        var d := reply.result.data.value;
        && series == Some(d.series) && chapters == d.chapters
        && pagination == Pagination(d.totalChapters, d.page, d.limit, d.totalPages)
        && (if isAuthenticated then
              && calls == old(calls) + [GetSeriesDetailsAction(slug, Page(), Some(ChaptersPerPage)),
                                        CheckBookmarkAction(d.series.id)]
              && isBookmarked == (if Succeeded(bookmarkReply) && bookmarkReply.result.data.Some?
                                  then bookmarkReply.result.data.value else old(isBookmarked))
              && error == (if bookmarkReply.Threw? then Some(OrElse(bookmarkReply.message, UnexpectedErrorMessage))
                           else None)
            else
              calls == old(calls) + [GetSeriesDetailsAction(slug, Page(), Some(ChaptersPerPage))]
              && isBookmarked == old(isBookmarked) && error.None?)
    {
      if slug == "" {
        return;
      }
      loading := true;
      error := None;
      calls := calls + [GetSeriesDetailsAction(slug, SeriesCatalogue.PageOf(searchParams), Some(ChaptersPerPage))];
      match reply {
        case Returned(result) =>
          if result.Ok? && result.data.Some? {
            Adopt(result.data.value, isAuthenticated, bookmarkReply);
          } else {
            error := Some(OrElse(if result.Err? then result.error else "", DetailsFailedMessage));
          }
        case Threw(message) =>
          error := Some(OrElse(message, UnexpectedErrorMessage));
      }
      loading := false;
    }

    /**
     * The bookmark toggle. A signed-out reader is sent to sign in, and nothing happens before
     * the series is loaded. Otherwise one call removes or adds the bookmark, and the flag flips
     * only if it succeeds; a rejection is only logged.
     */
    method ToggleBookmark<T>(isAuthenticated: bool, reply: Reply<T>)
      modifies this
      ensures series == old(series) && chapters == old(chapters) && loading == old(loading)
      ensures error == old(error) && pagination == old(pagination)
      ensures !isAuthenticated ==>
        && navigations == old(navigations) + [LoginRedirect(pathname)]
        && calls == old(calls) && isBookmarked == old(isBookmarked) && isBookmarking == old(isBookmarking)
      ensures isAuthenticated ==> navigations == old(navigations)
      ensures isAuthenticated && series.None? ==>
        calls == old(calls) && isBookmarked == old(isBookmarked) && isBookmarking == old(isBookmarking)
      ensures isAuthenticated && series.Some? ==>
        && calls == old(calls) + [ToggleCall(series.value.id, old(isBookmarked))]
        && isBookmarked == Toggled(old(isBookmarked), Succeeded(reply))
        && !isBookmarking
    {
      if !isAuthenticated {
        navigations := navigations + [LoginRedirect(pathname)];
        return;
      }
      if series.None? {
        return;
      }
      isBookmarking := true;
      var id := series.value.id;
      if isBookmarked {
        calls := calls + [RemoveBookmarkAction(id)];
        if Succeeded(reply) {
          isBookmarked := false;
        }
      } else {
        calls := calls + [BookmarkSeriesAction(id)];
        if Succeeded(reply) {
          isBookmarked := true;
        }
      }
      isBookmarking := false;
    }
  }
}
