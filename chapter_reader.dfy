/**
 * The chapter reader page: it fetches the chapter (and, for a signed-in reader, whether the
 * series is bookmarked), gates premium chapters behind a purchase, toggles the bookmark, and
 * sizes the text between 12 and 24 pixels.
 *
 * Server actions are oracles: each handler takes the replies it would await as inputs, and the
 * page records the actions it calls and the paths it navigates to.
 */
module ChapterReader {
  import opened Wrappers
  import opened Text
  import opened ServerActions
  import opened Redirects
  import opened ChapterMarkup

  const FetchFailed := "Failed to fetch chapter"
  const InitialFontSize := 16
  const MinFontSize := 12
  const MaxFontSize := 24

  /** What the page uses of a chapter response; `seriesId` is `None` when the series is absent. */
  datatype ChapterData = ChapterData(chapterId: string, isPremium: bool, content: Option<string>,
                                     seriesId: Option<string>)

  datatype FontPress = Smaller | Larger

  /** One press of A- or A+: two pixels, clamped. */
  function FontStep(size: int, press: FontPress): int {
    if press == Smaller then (if size - 2 < MinFontSize then MinFontSize else size - 2)
    else (if size + 2 > MaxFontSize then MaxFontSize else size + 2)
  }

  function FontAfter(size: int, presses: seq<FontPress>): int
    decreases |presses|
  {
    if |presses| == 0 then size else FontAfter(FontStep(size, presses[0]), presses[1..])
  }

  /** From the initial size, any sequence of presses keeps the size an even number in [12, 24]. */
  lemma {:induction false} FontStaysInRange(size: int, presses: seq<FontPress>)
    requires MinFontSize <= size <= MaxFontSize && size % 2 == 0
    ensures MinFontSize <= FontAfter(size, presses) <= MaxFontSize
    ensures FontAfter(size, presses) % 2 == 0
    decreases |presses|
  {
    if |presses| > 0 {
      FontStaysInRange(FontStep(size, presses[0]), presses[1..]);
    }
  }

  /** A press of A- undoes a press of A+ that was not clamped, and the other way round. */
  lemma FontPressesUndo(size: int)
    requires MinFontSize + 2 <= size <= MaxFontSize - 2
    ensures FontStep(FontStep(size, Larger), Smaller) == size
    ensures FontStep(FontStep(size, Smaller), Larger) == size
  {
  }

  class ReaderPage {
    const slug: string
    /** The parsed chapter number, `None` for NaN. */
    const chapterNumber: Option<int>
    const pathname: string
    var fontSize: int
    var isBookmarked: bool
    var isBookmarking: bool
    var isPurchasing: bool
    var chapterData: Option<ChapterData>
    var loading: bool
    var error: Option<string>
    /** Router pushes, in order. */
    var navigations: seq<string>
    /** Router refreshes so far. */
    var refreshes: nat
    /** Server actions called, in order. */
    var calls: seq<Action>

    /** The page's invariant: the size in range, and chapter data only once it could be fetched. */
    predicate Valid()
      reads this
    {
      MinFontSize <= fontSize <= MaxFontSize && fontSize % 2 == 0
      && (chapterData.Some? ==> slug != "" && chapterNumber.Some?)
    }

    /** Whether the purchase gate is shown instead of the text. */
    predicate Locked()
      reads this
    {
      chapterData.Some? && IsPremiumLocked(chapterData.value.isPremium, chapterData.value.content)
    }

    constructor(slug: string, chapterNumber: Option<int>, pathname: string)
      ensures this.slug == slug && this.chapterNumber == chapterNumber && this.pathname == pathname
      ensures fontSize == InitialFontSize && !isBookmarked && !isBookmarking && !isPurchasing
      ensures chapterData == None && loading && error == None
      ensures navigations == [] && refreshes == 0 && calls == []
      ensures Valid()
    {
      this.slug := slug;
      this.chapterNumber := chapterNumber;
      this.pathname := pathname;
      fontSize := InitialFontSize;
      isBookmarked := false;
      isBookmarking := false;
      isPurchasing := false;
      chapterData := None;
      loading := true;
      error := None;
      navigations := [];
      refreshes := 0;
      calls := [];
    }

    /** A- */
    method DecreaseFont()
      requires Valid()
      modifies this
      ensures fontSize == FontStep(old(fontSize), Smaller) && fontSize <= old(fontSize)
      ensures Valid()
      ensures chapterData == old(chapterData) && calls == old(calls) && navigations == old(navigations)
      ensures isBookmarked == old(isBookmarked) && error == old(error) && loading == old(loading)
    {
      fontSize := if fontSize - 2 > MinFontSize then fontSize - 2 else MinFontSize;
    }

    /** A+ */
    method IncreaseFont()
      requires Valid()
      modifies this
      ensures fontSize == FontStep(old(fontSize), Larger) && fontSize >= old(fontSize)
      ensures Valid()
      ensures chapterData == old(chapterData) && calls == old(calls) && navigations == old(navigations)
      ensures isBookmarked == old(isBookmarked) && error == old(error) && loading == old(loading)
    {
      fontSize := if fontSize + 2 < MaxFontSize then fontSize + 2 else MaxFontSize;
    }

    /**
     * The fetch effect. Without a slug or a number it does nothing. Otherwise it fetches the
     * chapter; a chapter with a series, for a signed-in reader, is followed by the bookmark
     * check. Loading ends false in every case.
     */
    method Fetch(isAuthenticated: bool, chapterReply: Reply<ChapterData>, bookmarkReply: Reply<bool>)
      requires Valid()
      modifies this
      ensures Valid()
      ensures fontSize == old(fontSize) && navigations == old(navigations) && refreshes == old(refreshes)
      ensures slug == "" || chapterNumber.None? ==>
        chapterData == old(chapterData) && error == old(error) && loading == old(loading)
        && calls == old(calls) && isBookmarked == old(isBookmarked)
      ensures slug != "" && chapterNumber.Some? ==> !loading
      ensures slug != "" && chapterNumber.Some? && chapterReply.Returned? && FetchedChapter(chapterReply).None? ==>
        && chapterData == old(chapterData) && isBookmarked == old(isBookmarked)
        && calls == old(calls) + [GetChapterBySlugAction(slug, chapterNumber.value)]
        && error == Some(if chapterReply.result.Err? then OrElse(chapterReply.result.error, FetchFailed)
             else FetchFailed)
      ensures slug != "" && chapterNumber.Some? && chapterReply.Threw? ==>
        && chapterData == old(chapterData) && isBookmarked == old(isBookmarked)
        && calls == old(calls) + [GetChapterBySlugAction(slug, chapterNumber.value)]
        && error == Some(OrElse(chapterReply.message, UnexpectedErrorMessage))
      ensures slug != "" && chapterNumber.Some? && FetchedChapter(chapterReply).Some? ==>
        var data := FetchedChapter(chapterReply).value;
        && chapterData == Some(data)
        && (if isAuthenticated && data.seriesId.Some? then
              && calls == old(calls) + [GetChapterBySlugAction(slug, chapterNumber.value),
                                        CheckBookmarkAction(data.seriesId.value)]
              && isBookmarked == (if FetchedFlag(bookmarkReply).Some? then FetchedFlag(bookmarkReply).value
                                  else old(isBookmarked))
              && error == (if bookmarkReply.Threw? then Some(OrElse(bookmarkReply.message, UnexpectedErrorMessage)) else None)
            else
              calls == old(calls) + [GetChapterBySlugAction(slug, chapterNumber.value)]
              && isBookmarked == old(isBookmarked) && error == None)
    {
      if slug == "" || chapterNumber.None? {
        return;
      }
      loading := true;
      error := None;
      calls := calls + [GetChapterBySlugAction(slug, chapterNumber.value)];
      match chapterReply {
        case Threw(m) =>
          error := Some(OrElse(m, UnexpectedErrorMessage));
        case Returned(result) =>
          if result.Ok? && result.data.Some? {
            var data := result.data.value;
            chapterData := Some(data);
            if isAuthenticated && data.seriesId.Some? {
              calls := calls + [CheckBookmarkAction(data.seriesId.value)];
              match bookmarkReply {
                case Threw(m) =>
                  error := Some(OrElse(m, UnexpectedErrorMessage));
                case Returned(check) =>
                  if check.Ok? && check.data.Some? {
                    isBookmarked := check.data.value;
                  }
              }
            }
          } else {
            error := Some(if result.Err? then OrElse(result.error, FetchFailed) else FetchFailed);
          }
      }
      loading := false;
    }

    /**
     * The bookmark toggle. A signed-out reader is sent to sign in; without a loaded series
     * nothing happens; otherwise the bookmark is removed or added, and the flag flips only if
     * that call succeeds.
     */
    method ToggleBookmark<T>(isAuthenticated: bool, reply: Reply<T>)
      requires Valid()
      modifies this
      ensures Valid()
      ensures fontSize == old(fontSize) && chapterData == old(chapterData) && error == old(error)
      ensures !isBookmarking && loading == old(loading) && refreshes == old(refreshes)
      ensures !isAuthenticated ==>
        navigations == old(navigations) + [LoginRedirect(pathname)] && calls == old(calls)
        && isBookmarked == old(isBookmarked)
      ensures isAuthenticated ==> navigations == old(navigations)
      ensures isAuthenticated && (chapterData.None? || chapterData.value.seriesId.None?) ==>
        calls == old(calls) && isBookmarked == old(isBookmarked)
      ensures isAuthenticated && chapterData.Some? && chapterData.value.seriesId.Some? ==>
        var id := chapterData.value.seriesId.value;
        && calls == old(calls) + [if old(isBookmarked) then RemoveBookmarkAction(id) else BookmarkSeriesAction(id)]
        && isBookmarked == (if Succeeded(reply) then !old(isBookmarked) else old(isBookmarked))
    {
      if !isAuthenticated {
        navigations := navigations + [LoginRedirect(pathname)];
        isBookmarking := false;
        return;
      }
      if chapterData.None? || chapterData.value.seriesId.None? {
        isBookmarking := false;
        return;
      }
      var id := chapterData.value.seriesId.value;
      isBookmarking := true;
      if isBookmarked {
        calls := calls + [RemoveBookmarkAction(id)];
        if Succeeded(reply) {
          isBookmarked := false;
        }
      } else {
        calls := calls + [BookmarkSeriesAction(id)];
        if Succeeded(reply) {
          isBookmarked := true;
        }
      }
      isBookmarking := false;
    }

    /**
     * The purchase button. A signed-out reader is sent to sign in with no purchase; a chapter
     * without an id is left alone. A successful purchase refreshes the router and fetches the
     * chapter again, whose data replaces the old only if that fetch succeeds.
     */
    method Purchase<T>(isAuthenticated: bool, purchaseReply: Reply<T>, refreshReply: Reply<ChapterData>)
      requires Valid()
      modifies this
      ensures Valid()
      ensures fontSize == old(fontSize) && isBookmarked == old(isBookmarked) && loading == old(loading)
      ensures !isPurchasing
      ensures !isAuthenticated ==>
        navigations == old(navigations) + [LoginRedirect(pathname)] && calls == old(calls)
        && chapterData == old(chapterData) && error == old(error) && refreshes == old(refreshes)
      ensures isAuthenticated ==> navigations == old(navigations)
      ensures isAuthenticated && (old(chapterData).None? || old(chapterData).value.chapterId == "") ==>
        calls == old(calls) && chapterData == old(chapterData) && error == old(error)
        && refreshes == old(refreshes)
      ensures isAuthenticated && old(chapterData).Some? && old(chapterData).value.chapterId != "" ==>
        && error == None
        && (if Succeeded(purchaseReply) then
              && calls == old(calls) + [PurchaseChapterAction(old(chapterData).value.chapterId),
                                        GetChapterBySlugAction(slug, chapterNumber.value)]
              && refreshes == old(refreshes) + 1
              && chapterData == (if FetchedChapter(refreshReply).Some? then FetchedChapter(refreshReply)
                                 else old(chapterData))
            else
              calls == old(calls) + [PurchaseChapterAction(old(chapterData).value.chapterId)]
              && refreshes == old(refreshes) && chapterData == old(chapterData))
    {
      if !isAuthenticated {
        navigations := navigations + [LoginRedirect(pathname)];
        isPurchasing := false;
        return;
      }
      if chapterData.None? || chapterData.value.chapterId == "" {
        isPurchasing := false;
        return;
      }
      isPurchasing := true;
      error := None;
      calls := calls + [PurchaseChapterAction(chapterData.value.chapterId)];
      if Succeeded(purchaseReply) {
        refreshes := refreshes + 1;
        calls := calls + [GetChapterBySlugAction(slug, chapterNumber.value)];
        if refreshReply.Returned? && refreshReply.result.Ok? && refreshReply.result.data.Some? {
          chapterData := refreshReply.result.data;
        }
      }
      isPurchasing := false;
    }
  }

  /** The chapter of a fetch that succeeded with data. */
  function FetchedChapter(reply: Reply<ChapterData>): Option<ChapterData> {
    if reply.Returned? && reply.result.Ok? then reply.result.data else None
  }

  /** `isBookmarked` of a bookmark check that succeeded with data. */
  function FetchedFlag(reply: Reply<bool>): Option<bool> {
    if reply.Returned? && reply.result.Ok? then reply.result.data else None
  }
}
