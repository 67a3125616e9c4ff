/**
 * The server actions: each reads the request's cookies, forwards them as one `Cookie` header
 * through the API client, and flattens the client's result so that a failure carries only
 * its message.
 */
module ServerActions {
  import opened Wrappers
  import opened Text
  import opened ApiClient

  /** One entry of the incoming request's cookie store. */
  datatype Cookie = Cookie(name: string, value: string)

  function CookiePair(c: Cookie): string {
    c.name + "=" + c.value
  }

  function CookiePairs(store: seq<Cookie>): (pairs: seq<string>)
    ensures |pairs| == |store|
    ensures forall i :: 0 <= i < |store| ==> pairs[i] == CookiePair(store[i])
  {
    if |store| == 0 then [] else CookiePairs(store[..|store| - 1]) + [CookiePair(store[|store| - 1])]
  }

  /** The cookie string: every pair "name=value", in store order, joined by "; ". */
  function CookieString(store: seq<Cookie>): string {
    Join(CookiePairs(store), "; ")
  }

  /**
   * `getCookieHeader` of the series, purchase, bookmark and like actions: a `forEach` pushing
   * one pair per cookie, then a join; "" for an empty store.
   */
  method GetCookieHeader(store: seq<Cookie>) returns (header: string)
    ensures header == CookieString(store)
  {
    var pairs: seq<string> := [];
    var i := 0;
    while i < |store|
      invariant 0 <= i <= |store|
      invariant pairs == CookiePairs(store[..i])
    {
      assert store[..i + 1][..i] == store[..i];
      pairs := pairs + [store[i].name + "=" + store[i].value];
      i := i + 1;
    }
    assert store[..|store|] == store;
    header := Join(pairs, "; ");
  }

  /** `getCookieHeader` of the payment and comment actions: `undefined` for an empty store. */
  function OptionalCookieHeader(store: seq<Cookie>): (header: Option<string>)
    ensures header.None? <==> |store| == 0
  {
    if |store| == 0 then None else Some(CookieString(store))
  }

  lemma {:induction false} JoinNonEmpty(parts: seq<string>, sep: string)
    requires |parts| > 0 && parts[0] != ""
    ensures Join(parts, sep) != ""
  {
    if |parts| > 1 {
      assert Join(parts, sep) == parts[0] + sep + Join(parts[1..], sep);
    }
  }

  /** The cookie string is empty exactly when the store is: every pair holds at least "=". */
  lemma CookieStringEmpty(store: seq<Cookie>)
    ensures CookieString(store) == "" <==> |store| == 0
  {
    if |store| > 0 {
      var pairs := CookiePairs(store);
      assert pairs[0] == CookiePair(store[0]);
      assert |pairs[0]| >= 1;
      JoinNonEmpty(pairs, "; ");
    }
  }

  /**
   * Both forms of the helper lead the client to attach the same headers: a Cookie header with
   * the cookie string for a non-empty store, none at all for an empty one.
   */
  lemma CookieVariantsAgree(store: seq<Cookie>)
    ensures CookieHeaders(Some(CookieString(store))) == CookieHeaders(OptionalCookieHeader(store))
    ensures CookieHeaders(OptionalCookieHeader(store)) ==
      if |store| == 0 then None else Some(map["Cookie" := CookieString(store)])
  {
    CookieStringEmpty(store);
  }

  /** Store order is kept: a later cookie's pair comes after the pairs before it. */
  lemma CookieStringSnoc(store: seq<Cookie>, c: Cookie)
    ensures CookieString(store + [c]) ==
      if |store| == 0 then CookiePair(c) else CookieString(store) + "; " + CookiePair(c)
  {
    assert (store + [c])[..|store|] == store;
    JoinSnoc(CookiePairs(store), CookiePair(c), "; ");
  }

  /** A receiver that cuts a pair at its first "=" gets back the cookie, when the name has no "=". */
  lemma CookiePairReadBack(c: Cookie)
    requires '=' !in c.name
    ensures Find(CookiePair(c), "=", 0) == Some(|c.name|)
    ensures CookiePair(c)[..|c.name|] == c.name && CookiePair(c)[|c.name| + 1..] == c.value
  {
    FindAfterPrefix(c.name, '=', c.value);
  }

  // ---------------------------------------------------------------------------------------
  // Results
  // ---------------------------------------------------------------------------------------

  /** `{ success: true, data } | { success: false, error: message }` */
  datatype ActionResult<T> = Ok(data: Option<T>) | Err(error: string)

  /** What a page gets from awaiting an action: its result, or the error it rejected with. */
  datatype Reply<T> = Returned(result: ActionResult<T>) | Threw(message: string)

  /** The fallback the pages show for a rejection that carries no message. */
  const UnexpectedErrorMessage := "An unexpected error occurred"

  /** `result.success` of an awaited action that did not reject. */
  predicate Succeeded<T>(reply: Reply<T>) {
    reply.Returned? && reply.result.Ok?
  }

  /** `result.success && result.data` */
  predicate Delivered<T>(reply: Reply<T>) {
    reply.Returned? && reply.result.Ok? && reply.result.data.Some?
  }

  /** The mapping every action applies to a client result. */
  function Flatten<T>(r: ApiResponse<T>): ActionResult<T> {
    if r.Failure? then Err(r.error.message) else Ok(r.data)
  }

  /**
   * Flattening keeps success and the data exactly, keeps the message of a failure, and
   * forgets its status code.
   */
  lemma FlattenMeaning<T>(r: ApiResponse<T>, code: Option<int>)
    ensures Flatten(r).Ok? <==> r.Success?
    ensures r.Success? ==> Flatten(r).data == r.data
    ensures r.Failure? ==> Flatten(r).error == r.error.message
    ensures r.Failure? ==> Flatten(r) == Flatten(Failure(ApiError(r.error.message, code)))
  {
  }

  // ---------------------------------------------------------------------------------------
  // The actions
  // ---------------------------------------------------------------------------------------

  /** One call of a server action, with its arguments. */
  datatype Action =
    | GetAllSeriesAction(page: Option<int>, limit: Option<int>, filters: Option<SeriesFilters>)
    | GetCategoriesAction
    | GetSeriesDetailsAction(slug: string, page: Option<int>, limit: Option<int>)
    | GetChapterBySlugAction(slug: string, chapterNumber: int)
    | RateSeriesAction(seriesId: string, rating: int)
    | GetUserRatingAction(seriesId: string)
    | CreateCoinPurchaseOrderAction(coinAmount: int, amountPaid: int)
    | VerifyPaymentAction(orderId: string)
    | GetUserCoinPurchasesAction
    | GetCoinPurchaseAction(purchaseId: string)
    | PurchaseChapterAction(chapterId: string)
    | BookmarkSeriesAction(seriesId: string)
    | RemoveBookmarkAction(seriesId: string)
    | CheckBookmarkAction(seriesId: string)
    | GetUserBookmarksAction
    | LikeSeriesAction(seriesId: string)
    | UnlikeSeriesAction(seriesId: string)
    | CheckLikeAction(seriesId: string)
    | CreateCommentAction(payload: CommentPayload)
    | GetSeriesCommentsAction(seriesId: string)
    | GetChapterCommentsAction(chapterId: string)
    | DeleteCommentAction(commentId: string)

  /** The payment and comment actions use the helper that yields `undefined` for no cookies. */
  predicate UsesOptionalHelper(a: Action) {
    a.CreateCoinPurchaseOrderAction? || a.VerifyPaymentAction? || a.GetUserCoinPurchasesAction?
    || a.GetCoinPurchaseAction? || a.CreateCommentAction? || a.DeleteCommentAction?
  }

  /** The two actions of the series file and the two comment getters read no cookies. */
  predicate ForwardsCookies(a: Action) {
    !(a.GetAllSeriesAction? || a.GetCategoriesAction? || a.GetSeriesCommentsAction?
      || a.GetChapterCommentsAction?)
  }

  /** The client call an action makes, given the cookie argument its helper produced. */
  function ClientCall(a: Action, cookie: Option<string>): Call {
    match a
    case GetAllSeriesAction(page, limit, filters) => GetAllSeries(page, limit, filters)
    case GetCategoriesAction => GetCategories
    case GetSeriesDetailsAction(slug, page, limit) => GetSeriesDetails(slug, page, limit, cookie)
    case GetChapterBySlugAction(slug, n) => GetChapterBySlug(slug, n, cookie)
    case RateSeriesAction(id, rating) => RateSeries(id, rating, cookie)
    case GetUserRatingAction(id) => GetUserRating(id, cookie)
    case CreateCoinPurchaseOrderAction(coins, paid) => CreateCoinPurchaseOrder(coins, paid, cookie)
    case VerifyPaymentAction(orderId) => VerifyPayment(orderId, cookie)
    case GetUserCoinPurchasesAction => GetUserCoinPurchases(cookie)
    case GetCoinPurchaseAction(id) => GetCoinPurchase(id, cookie)
    case PurchaseChapterAction(id) => PurchaseChapter(id, cookie)
    case BookmarkSeriesAction(id) => BookmarkSeries(id, cookie)
    case RemoveBookmarkAction(id) => RemoveBookmark(id, cookie)
    case CheckBookmarkAction(id) => CheckBookmark(id, cookie)
    case GetUserBookmarksAction => GetUserBookmarks(cookie)
    case LikeSeriesAction(id) => LikeSeries(id, cookie)
    case UnlikeSeriesAction(id) => UnlikeSeries(id, cookie)
    case CheckLikeAction(id) => CheckLike(id, cookie)
    case CreateCommentAction(payload) => CreateComment(payload, cookie)
    case GetSeriesCommentsAction(id) => GetSeriesComments(id)
    case GetChapterCommentsAction(id) => GetChapterComments(id)
    case DeleteCommentAction(id) => DeleteComment(id, cookie)
  }

  /** The cookie argument an action's helper produces from the store. */
  function HelperCookie(a: Action, store: seq<Cookie>): Option<string> {
    if UsesOptionalHelper(a) then OptionalCookieHeader(store) else Some(CookieString(store))
  }

  /**
   * One server action: it reads the cookies (when it forwards them), makes its client call,
   * and flattens the result of the call's outcome.
   */
  method Perform<T>(a: Action, store: seq<Cookie>, outcome: Outcome<T>) returns (sent: Sent, result: ActionResult<T>)
    ensures sent == Outgoing(RequestFor(ClientCall(a, HelperCookie(a, store))))
    ensures result == Flatten(Execute(outcome))
  {
    var cookie: Option<string> := None;
    if ForwardsCookies(a) {
      if UsesOptionalHelper(a) {
        cookie := OptionalCookieHeader(store);
      } else {
        var header := GetCookieHeader(store);
        cookie := Some(header);
      }
    }
    assert ClientCall(a, cookie) == ClientCall(a, HelperCookie(a, store));
    sent := Outgoing(RequestFor(ClientCall(a, cookie)));
    result := Flatten(Execute(outcome));
  }

  /**
   * A forwarding action sends the cookie string as its only header exactly when the store is
   * non-empty, whichever helper it uses; the others send no header at all.
   */
  lemma ActionHeaders(a: Action, store: seq<Cookie>)
    ensures Outgoing(RequestFor(ClientCall(a, HelperCookie(a, store)))).headers ==
      if ForwardsCookies(a) && |store| > 0 then map["Cookie" := CookieString(store)] else map[]
  {
    ClientCallCookie(a, HelperCookie(a, store));
    CookieStringEmpty(store);
    CookieVariantsAgree(store);
    RequestForOutgoing(ClientCall(a, HelperCookie(a, store)));
  }

  /** The client call carries the helper's cookie exactly for the forwarding actions. */
  lemma ClientCallCookie(a: Action, cookie: Option<string>)
    ensures ForwardedCookie(ClientCall(a, cookie)) == if ForwardsCookies(a) then cookie else None
  {
  }

  /** The action's route carries its ids and slug unchanged. */
  lemma ActionRoutes(a: Action, cookie: Option<string>)
    ensures var sent := Outgoing(RequestFor(ClientCall(a, cookie)));
      && (a.GetSeriesDetailsAction? ==> sent.url == Routes.SeriesDetails(a.slug))
      && (a.GetChapterBySlugAction? ==> sent.url == Routes.ChapterReader(a.slug, a.chapterNumber))
      && (a.RateSeriesAction? ==> sent.url == Routes.RateSeries(a.seriesId))
      && (a.PurchaseChapterAction? ==> sent.url == Routes.PurchaseChapter(a.chapterId))
      && ((a.BookmarkSeriesAction? || a.RemoveBookmarkAction? || a.CheckBookmarkAction?) ==>
            sent.url == Routes.BookmarkSeries(a.seriesId))
      && ((a.LikeSeriesAction? || a.UnlikeSeriesAction? || a.CheckLikeAction?) ==>
            sent.url == Routes.LikeSeries(a.seriesId))
      && (a.DeleteCommentAction? ==> sent.url == Routes.DeleteComment(a.commentId))
  {
    RequestForOutgoing(ClientCall(a, cookie));
    match a {
      case GetSeriesDetailsAction(_, _, _) =>
      case GetChapterBySlugAction(_, _) =>
      case RateSeriesAction(_, _) =>
      case PurchaseChapterAction(_) =>
      case BookmarkSeriesAction(_) =>
      case RemoveBookmarkAction(_) =>
      case CheckBookmarkAction(_) =>
      case LikeSeriesAction(_) =>
      case UnlikeSeriesAction(_) =>
      case CheckLikeAction(_) =>
      case DeleteCommentAction(_) =>
      case _ =>
    }
  }

  /** The details query and the order, verify, rate and comment bodies carry the caller's values. */
  lemma ActionArguments(a: Action, cookie: Option<string>)
    ensures var sent := Outgoing(RequestFor(ClientCall(a, cookie)));
      && (a.GetSeriesDetailsAction? ==> sent.params == SeriesQuery(a.page, a.limit, None))
      && (a.RateSeriesAction? ==> sent.data == Json([("rating", Num(a.rating))]))
      && (a.CreateCoinPurchaseOrderAction? ==>
            sent.data == Json([("coinAmount", Num(a.coinAmount)), ("amountPaid", Num(a.amountPaid))]))
      && (a.VerifyPaymentAction? ==> sent.data == Json([("orderId", Str(a.orderId))]))
      && (a.CreateCommentAction? ==> sent.data == CommentBody(a.payload))
  {
    RequestForArguments(ClientCall(a, cookie));
    match a {
      case GetSeriesDetailsAction(_, _, _) =>
      case RateSeriesAction(_, _) =>
      case CreateCoinPurchaseOrderAction(_, _) =>
      case VerifyPaymentAction(_) =>
      case CreateCommentAction(_) =>
      case _ =>
    }
  }
}
