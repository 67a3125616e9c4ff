/**
 * The reader's bookmarked series: the list fetches the bookmarks once the session is known,
 * and each card removes its bookmark and, on success, has the list drop it.
 */
module Bookmarks {
  import opened Wrappers
  import opened Text
  import opened ServerActions
  import opened TimeFormat
  import Routes

  const CardTagLimit := 3
  const BookmarksFailedMessage := "Failed to fetch bookmarks"

  datatype BookmarkedSeries = BookmarkedSeries(slug: string, title: string, categories: seq<string>)

  datatype Bookmark = Bookmark(id: string, seriesId: string, series: Option<BookmarkedSeries>, bookmarkedAt: int)

  // ---------------------------------------------------------------------------------------
  // Removal from the list
  // ---------------------------------------------------------------------------------------

  /** `bookmarks.filter((b) => b.id !== id)` */
  function Without(bookmarks: seq<Bookmark>, id: string): (r: seq<Bookmark>)
    ensures |r| <= |bookmarks|
    ensures forall k :: 0 <= k < |r| ==> r[k].id != id
  {
    if |bookmarks| == 0 then []
    else (if bookmarks[0].id == id then [] else [bookmarks[0]]) + Without(bookmarks[1..], id)
  }

  /** The removal keeps exactly the other bookmarks. */
  lemma {:induction false} WithoutMembers(bookmarks: seq<Bookmark>, id: string)
    ensures forall b :: b in Without(bookmarks, id) <==> b in bookmarks && b.id != id
  {
    if |bookmarks| > 0 {
      WithoutMembers(bookmarks[1..], id);
      assert bookmarks == [bookmarks[0]] + bookmarks[1..];
    }
  }

  /** The removal works piece by piece, so the kept bookmarks stay in their order. */
  lemma {:induction false} WithoutAppend(a: seq<Bookmark>, b: seq<Bookmark>, id: string)
    ensures Without(a + b, id) == Without(a, id) + Without(b, id)
  {
    if |a| == 0 {
      assert a + b == b;
    } else {
      assert (a + b)[1..] == a[1..] + b;
      WithoutAppend(a[1..], b, id);
    }
  }

  /** Removing an id that no bookmark has changes nothing. */
  lemma {:induction false} WithoutAbsent(bookmarks: seq<Bookmark>, id: string)
    requires forall k :: 0 <= k < |bookmarks| ==> bookmarks[k].id != id
    ensures Without(bookmarks, id) == bookmarks
  {
    if |bookmarks| > 0 {
      WithoutAbsent(bookmarks[1..], id);
      assert bookmarks == [bookmarks[0]] + bookmarks[1..];
    }
  }

  /** So removing the same bookmark twice is removing it once. */
  lemma WithoutTwice(bookmarks: seq<Bookmark>, id: string)
    ensures Without(Without(bookmarks, id), id) == Without(bookmarks, id)
  {
    WithoutAbsent(Without(bookmarks, id), id);
  }

  /** With distinct ids, the removal drops exactly one entry when the id is present. */
  lemma {:induction false} WithoutDropsOne(bookmarks: seq<Bookmark>, i: nat)
    requires i < |bookmarks|
    requires forall j, k :: 0 <= j < k < |bookmarks| ==> bookmarks[j].id != bookmarks[k].id
    ensures Without(bookmarks, bookmarks[i].id) == bookmarks[..i] + bookmarks[i + 1..]
  {
    var id := bookmarks[i].id;
    var a, c := bookmarks[..i], bookmarks[i + 1..];
    SplitAt(bookmarks, i);
    WithoutSkips(a, bookmarks[i], c);
    WithoutAbsent(a, id);
    WithoutAbsent(c, id);
  }

  /** Removing the id of `x` drops `x` and removes the id around it. */
  lemma WithoutSkips(a: seq<Bookmark>, x: Bookmark, c: seq<Bookmark>)
    ensures Without(a + [x] + c, x.id) == Without(a, x.id) + Without(c, x.id)
  {
    calc {
      Without(a + [x] + c, x.id);
      { assert a + [x] + c == a + ([x] + c); }
      Without(a + ([x] + c), x.id);
      { WithoutAppend(a, [x] + c, x.id); }
      Without(a, x.id) + Without([x] + c, x.id);
      { WithoutAppend([x], c, x.id);
        assert Without([x], x.id) == [] by { assert [x][1..] == []; } }
      Without(a, x.id) + Without(c, x.id);
    }
  }

  // ---------------------------------------------------------------------------------------
  // The card
  // ---------------------------------------------------------------------------------------

  datatype CardView = Empty | Card(title: string, href: string, bookmarked: Stamp, tags: seq<string>)

  class BookmarkCard {
    const bookmark: Bookmark
    var isRemoving: bool
    /** Server actions called, in order. */
    var calls: seq<Action>
    /** How often the card has told the list to drop it. */
    var removals: nat

    constructor(bookmark: Bookmark)
      ensures this.bookmark == bookmark && !isRemoving && calls == [] && removals == 0
    {
      this.bookmark := bookmark;
      isRemoving := false;
      calls := [];
      removals := 0;
    }

    /**
     * Nothing for a bookmark without its series; otherwise the series, when it was bookmarked
     * as of the clock reading `now` (in milliseconds), and at most three tags.
     */
    function View(now: int): (r: CardView)
      reads this
      ensures r.Empty? <==> bookmark.series.None?
      ensures r.Card? ==> r.bookmarked == FormatDate(now - bookmark.bookmarkedAt)
      ensures r.Card? ==>
        && r.title == bookmark.series.value.title
        && r.href == Routes.SeriesPage + "/" + bookmark.series.value.slug
        && |r.tags| <= CardTagLimit && |r.tags| <= |bookmark.series.value.categories|
        && r.tags == bookmark.series.value.categories[..|r.tags|]
        && (|bookmark.series.value.categories| >= CardTagLimit ==> |r.tags| == CardTagLimit)
        && (|bookmark.series.value.categories| < CardTagLimit ==> r.tags == bookmark.series.value.categories)
    {
      match bookmark.series
      case None => Empty
      case Some(s) =>
        Card(s.title, Routes.SeriesPage + "/" + s.slug, FormatDate(now - bookmark.bookmarkedAt), Take(s.categories, CardTagLimit))
    }

    /**
     * The remove button, shown only on a card with its series: one call removes the bookmark
     * by its series id, and the list is told to drop the card only if that succeeds. A
     * rejection is only logged; the button is enabled again in every case.
     */
    method HandleRemove<T>(reply: Reply<T>)
      requires bookmark.series.Some?
      modifies this
      ensures calls == old(calls) + [RemoveBookmarkAction(bookmark.seriesId)]
      ensures removals == old(removals) + (if Succeeded(reply) then 1 else 0)
      ensures !isRemoving
    {
      isRemoving := true;
      calls := calls + [RemoveBookmarkAction(bookmark.seriesId)];
      if Succeeded(reply) {
        removals := removals + 1;
      }
      isRemoving := false;
    }
  }

  // ---------------------------------------------------------------------------------------
  // The list
  // ---------------------------------------------------------------------------------------

  class BookmarkList {
    var bookmarks: seq<Bookmark>
    var loading: bool
    var error: Option<string>
    var navigations: seq<string>
    var calls: seq<Action>

    constructor()
      ensures bookmarks == [] && loading && error.None? && navigations == [] && calls == []
    {
      bookmarks := [];
      loading := true;
      error := None;
      navigations := [];
      calls := [];
    }

    /**
     * The effect, run whenever the session changes. While the session is loading nothing
     * happens; a signed-out reader is sent to sign in with no fetch. Otherwise one fetch
     * replaces the list on success, or sets the error with its fallback and keeps the list.
     */
    method Load(authLoading: bool, isAuthenticated: bool, reply: Reply<seq<Bookmark>>)
      modifies this
      ensures authLoading ==>
        bookmarks == old(bookmarks) && loading == old(loading) && error == old(error)
        && navigations == old(navigations) && calls == old(calls)
      ensures !authLoading && !isAuthenticated ==>
        bookmarks == old(bookmarks) && loading == old(loading) && error == old(error)
        && navigations == old(navigations) + [Routes.LoginPage] && calls == old(calls)
      ensures !authLoading && isAuthenticated ==>
        && navigations == old(navigations) && calls == old(calls) + [GetUserBookmarksAction] && !loading
        && (Delivered(reply) ==> bookmarks == reply.result.data.value && error.None?)
        && (!Delivered(reply) ==>
              bookmarks == old(bookmarks)
              && error == Some(if reply.Threw? then OrElse(reply.message, UnexpectedErrorMessage)
                               else OrElse(if reply.result.Err? then reply.result.error else "", BookmarksFailedMessage)))
    {
      if authLoading {
        return;
      }
      if !isAuthenticated {
        navigations := navigations + [Routes.LoginPage];
        return;
      }
      loading := true;
      error := None;
      calls := calls + [GetUserBookmarksAction];
      match reply {
        case Returned(result) =>
          if result.Ok? && result.data.Some? {
            bookmarks := result.data.value;
          } else {
            error := Some(OrElse(if result.Err? then result.error else "", BookmarksFailedMessage));
          }
        case Threw(message) =>
          error := Some(OrElse(message, UnexpectedErrorMessage));
      }
      loading := false;
    }

    /** `onRemove` of the card for bookmark `id`: the list without every entry of that id. */
    method OnRemove(id: string)
      modifies this
      ensures bookmarks == Without(old(bookmarks), id)
      ensures loading == old(loading) && error == old(error) && navigations == old(navigations) && calls == old(calls)
    {
      bookmarks := Without(bookmarks, id);
    }
  }
}
