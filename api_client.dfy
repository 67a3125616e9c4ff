/**
 * The API client: every backend call goes through `execute` (or `executeWithHeaders`), which
 * normalises the path, copies the caller's headers, sends the request and folds whatever
 * happens, a reply, a transport error or an exception, into one result shape.
 *
 * The HTTP library is an oracle: a call's `Outcome` is an input. What the client hands to it
 * is the `Request` value each client method builds.
 */
module ApiClient {
  import opened Wrappers
  import opened Text
  import opened UrlQuery
  import Routes

  datatype HttpMethod = GET | POST | PUT | DELETE | PATCH

  /** A field of a JSON request body; an `Undefined` field is left out of the serialized body. */
  datatype Field = Str(s: string) | Num(n: int) | Undefined

  datatype Payload =
    | NoPayload
    | Json(fields: seq<(string, Field)>)
    | FormData(entries: seq<(string, string)>)

  type Headers = map<string, string>

  /** The argument of `execute`: method, endpoint, body, query params and headers. */
  datatype Request = Request(
    verb: HttpMethod,
    endpoint: string,
    data: Payload,
    params: Option<Params>,
    headers: Option<Headers>)

  /** What the HTTP library is asked to send. */
  datatype Sent = Sent(
    verb: HttpMethod,
    url: string,
    data: Payload,
    params: Option<Params>,
    headers: Headers)

  /** `{ message, statusCode? }` */
  datatype ApiError = ApiError(message: string, statusCode: Option<int>)

  /** `ApiResponse<T>`; `data` is `None` when the backend sent no `data` field. */
  datatype ApiResponse<T> = Success(data: Option<T>) | Failure(error: ApiError)

  /** The backend's reply body `{ success, data?, error? }`; `success` is its truthiness. */
  datatype Envelope<T> = Envelope(success: bool, data: Option<T>, error: Option<ApiError>)

  /** A response header value: a string, a list of strings, or anything else. */
  datatype HeaderValue = HeaderText(text: string) | HeaderList(items: seq<string>) | HeaderOther

  type RawHeaders = seq<(string, HeaderValue)>

  /** The body of an error reply: `error.message` and `message`, "" when absent or empty. */
  datatype ErrorBody = ErrorBody(errorMessage: string, message: string)

  datatype ErrorReply = ErrorReply(status: int, body: Option<ErrorBody>, headers: Option<RawHeaders>)

  /** How one request ends, as the HTTP library reports it. */
  datatype Outcome<T> =
      /** A reply; `body` is `None` when the reply has no body object at all. */
    | Responded(httpStatus: int, body: Option<Envelope<T>>, headers: RawHeaders)
      /** A rejection by the HTTP library, with the reply if one arrived, and the error's own status. */
    | TransportError(reply: Option<ErrorReply>, message: string, errorStatus: Option<int>)
      /** Any other exception; `isError` says whether it is an `Error` instance. */
    | Exception(isError: bool, message: string)

  const UnknownError := "Unknown error occurred"
  const UnableToComplete := "Unable to complete request call."
  const NetworkError := "Network error occurred"
  /** The TypeError raised by reading `success` of a missing reply body. */
  const MissingBodyMessage := "Cannot read properties of undefined (reading 'success')"

  // ---------------------------------------------------------------------------------------
  // The request side
  // ---------------------------------------------------------------------------------------

  /** `/${endpoint.replace(/^\//, "")}` */
  function NormalizePath(endpoint: string): (url: string)
    ensures StartsWith(url, "/")
  {
    "/" + (if StartsWith(endpoint, "/") then endpoint[1..] else endpoint)
  }

  /**
   * Exactly one leading slash is dropped before one is put back: a rooted endpoint is kept
   * as it is, an unrooted one gains a slash, and normalising twice changes nothing.
   */
  lemma NormalizePathCases(x: string)
    ensures NormalizePath(x) == (if StartsWith(x, "/") then x else "/" + x)
    ensures !StartsWith(x, "/") ==> NormalizePath("/" + x) == NormalizePath(x)
    ensures NormalizePath(NormalizePath(x)) == NormalizePath(x)
  {
    if StartsWith(x, "/") {
      assert x == "/" + x[1..];
    } else {
      assert ("/" + x)[1..] == x;
    }
    var n := NormalizePath(x);
    assert n == "/" + n[1..];
  }

  /** `{ ...headers }`, without "Content-Type" when the body is form data. */
  function RequestHeaders(headers: Option<Headers>, data: Payload): (h: Headers)
    ensures data.FormData? ==> "Content-Type" !in h
    ensures forall k :: k in h ==> k in headers.GetOr(map[]) && h[k] == headers.GetOr(map[])[k]
    ensures forall k :: k in headers.GetOr(map[]) && (k != "Content-Type" || !data.FormData?) ==> k in h
  {
    var copy := headers.GetOr(map[]);
    if data.FormData? then copy - {"Content-Type"} else copy
  }

  /** What `execute` hands to the HTTP library for a request. */
  function Outgoing(req: Request): Sent {
    Sent(req.verb, NormalizePath(req.endpoint), req.data, req.params,
      RequestHeaders(req.headers, req.data))
  }

  // ---------------------------------------------------------------------------------------
  // The result side
  // ---------------------------------------------------------------------------------------

  /** The transport-error message: `error.message`, `message`, the exception's, then a constant. */
  function TransportMessage(reply: Option<ErrorReply>, message: string): string {
    var body := if reply.Some? then reply.value.body else None;
    FirstNonEmpty(
      [if body.Some? then body.value.errorMessage else "",
       if body.Some? then body.value.message else "",
       message],
      UnableToComplete)
  }

  /** `err.response?.status || err.status || 0` */
  function TransportStatus(reply: Option<ErrorReply>, status: Option<int>): int {
    if reply.Some? && reply.value.status != 0 then reply.value.status
    else if status.Some? && status.value != 0 then status.value
    else 0
  }

  /** The result `execute` resolves to. It is total: `execute` never rejects. */
  function Execute<T>(outcome: Outcome<T>): ApiResponse<T> {
    match outcome
    case Responded(status, body, _) =>
      if body.None? then Failure(ApiError(MissingBodyMessage, Some(0)))
      else if body.value.success then Success(body.value.data)
      else Failure(body.value.error.GetOr(ApiError(UnknownError, Some(status))))
    case TransportError(reply, message, status) =>
      Failure(ApiError(TransportMessage(reply, message), Some(TransportStatus(reply, status))))
    case Exception(isError, message) =>
      Failure(ApiError(if isError then message else UnableToComplete, Some(0)))
  }

  /**
   * `execute` succeeds exactly on a reply whose body says success, and then carries that
   * body's data unchanged; a reply that says otherwise yields its own error, or the constant
   * one with the HTTP status.
   */
  lemma ExecuteSuccessIff<T>(outcome: Outcome<T>)
    ensures Execute(outcome).Success? <==> outcome.Responded? && outcome.body.Some? && outcome.body.value.success
    ensures Execute(outcome).Success? ==> Execute(outcome).data == outcome.body.value.data
    ensures outcome.Responded? && outcome.body.Some? && !outcome.body.value.success ==>
      Execute(outcome).error == (if outcome.body.value.error.Some? then outcome.body.value.error.value
        else ApiError(UnknownError, Some(outcome.httpStatus)))
  {
  }

  /**
   * A transport error reports the first non-empty message of the chain, and the first
   * non-zero status of the chain, or 0.
   */
  lemma TransportErrorFallbacks<T>(reply: Option<ErrorReply>, message: string, status: Option<int>)
    ensures var e := Execute<T>(TransportError(reply, message, status)).error;
      && (reply.Some? && reply.value.body.Some? && reply.value.body.value.errorMessage != "" ==>
            e.message == reply.value.body.value.errorMessage)
      && ((reply.Some? && reply.value.body.Some? && reply.value.body.value.errorMessage == ""
            && reply.value.body.value.message != "") ==> e.message == reply.value.body.value.message)
      && ((reply.None? || reply.value.body.None? || (reply.value.body.value.errorMessage == ""
            && reply.value.body.value.message == "")) ==>
            e.message == (if message != "" then message else UnableToComplete))
      && (reply.Some? && reply.value.status != 0 ==> e.statusCode == Some(reply.value.status))
      && ((reply.None? || reply.value.status == 0) ==>
            e.statusCode == Some(if status.Some? then status.value else 0))
  {
    var body := if reply.Some? then reply.value.body else None;
    var cs := [if body.Some? then body.value.errorMessage else "",
               if body.Some? then body.value.message else "",
               message];
    assert TransportMessage(reply, message) == FirstNonEmpty(cs, UnableToComplete);
    assert cs[1..] == [cs[1], cs[2]] && cs[2..] == [cs[2]] && cs[3..] == [];
  }

  // ---------------------------------------------------------------------------------------
  // executeWithHeaders
  // ---------------------------------------------------------------------------------------

  /** The flattened form of one header value: strings as they are, non-empty lists joined. */
  function FlatValue(v: HeaderValue): Option<string> {
    match v
    case HeaderText(t) => Some(t)
    case HeaderList(items) => if |items| > 0 then Some(Join(items, ", ")) else None
    case HeaderOther => None
  }

  /** The plain header record built from the first `|raw|` header entries. */
  function Flattened(raw: RawHeaders): Headers {
    if |raw| == 0 then map[]
    else
      var m := Flattened(raw[..|raw| - 1]);
      var (key, value) := raw[|raw| - 1];
      if FlatValue(value).Some? then m[key := FlatValue(value).value] else m
  }

  /** The `forEach` over the response's header names. */
  method FlattenHeaders(raw: RawHeaders) returns (flat: Headers)
    ensures flat == Flattened(raw)
  {
    flat := map[];
    var i := 0;
    while i < |raw|
      invariant 0 <= i <= |raw|
      invariant flat == Flattened(raw[..i])
    {
      var (key, value) := raw[i];
      match value {
        case HeaderText(t) =>
          flat := flat[key := t];
        case HeaderList(items) =>
          if |items| > 0 {
            flat := flat[key := Join(items, ", ")];
          }
        case HeaderOther =>
      }
      assert raw[..i + 1][..i] == raw[..i];
      i := i + 1;
    }
    assert raw[..|raw|] == raw;
  }

  /** Header names of a reply are distinct. */
  predicate DistinctNames(raw: RawHeaders) {
    forall i, j :: 0 <= i < j < |raw| ==> raw[i].0 != raw[j].0
  }

  /**
   * The record holds exactly the headers whose value is a string or a non-empty list, each
   * with its flattened value, and nothing else.
   */
  lemma {:induction false} FlattenedEntries(raw: RawHeaders)
    requires DistinctNames(raw)
    ensures forall i :: 0 <= i < |raw| ==> (raw[i].0 in Flattened(raw) <==> FlatValue(raw[i].1).Some?)
    ensures forall i :: 0 <= i < |raw| && FlatValue(raw[i].1).Some? ==>
      Flattened(raw)[raw[i].0] == FlatValue(raw[i].1).value
    ensures forall k :: k in Flattened(raw) ==> exists i :: 0 <= i < |raw| && raw[i].0 == k
  {
    if |raw| > 0 {
      var init := raw[..|raw| - 1];
      assert DistinctNames(init);
      FlattenedEntries(init);
      var last := raw[|raw| - 1];
      forall k | k in Flattened(raw)
        ensures exists i :: 0 <= i < |raw| && raw[i].0 == k
      {
        if k != last.0 {
          var i :| 0 <= i < |init| && init[i].0 == k;
          assert raw[i].0 == k;
        }
      }
    }
  }

  /** `executeWithHeaders`: the same result shape, plus the flattened reply headers. */
  method ExecuteWithHeaders<T>(outcome: Outcome<T>) returns (response: ApiResponse<T>, headers: Headers)
    ensures outcome.Responded? && outcome.body.Some? ==>
      response == Execute(outcome) && headers == Flattened(outcome.headers)
    ensures outcome.Responded? && outcome.body.None? ==>
      response == Failure(ApiError(NetworkError, Some(0))) && headers == map[]
    ensures outcome.TransportError? ==>
      && response == Failure(ApiError(TransportMessage(outcome.reply, outcome.message),
           if outcome.reply.Some? then Some(outcome.reply.value.status) else None))
      && headers == (if outcome.reply.Some? && outcome.reply.value.headers.Some?
           then Flattened(outcome.reply.value.headers.value) else map[])
    ensures outcome.Exception? ==> response == Failure(ApiError(NetworkError, Some(0))) && headers == map[]
  {
    match outcome {
      case Responded(status, body, raw) =>
        var flat := FlattenHeaders(raw);
        if body.None? {
          response, headers := Failure(ApiError(NetworkError, Some(0))), map[];
        } else if body.value.success {
          response, headers := Success(body.value.data), flat;
        } else {
          response := Failure(body.value.error.GetOr(ApiError(UnknownError, Some(status))));
          headers := flat;
        }
      case TransportError(reply, message, _) =>
        headers := map[];
        if reply.Some? && reply.value.headers.Some? {
          headers := FlattenHeaders(reply.value.headers.value);
        }
        response := Failure(ApiError(TransportMessage(reply, message),
          if reply.Some? then Some(reply.value.status) else None));
      case Exception(_, _) =>
        response, headers := Failure(ApiError(NetworkError, Some(0))), map[];
    }
  }

  // ---------------------------------------------------------------------------------------
  // Query parameters and cookies
  // ---------------------------------------------------------------------------------------

  /** `limit ? { limit: limit.toString() } : undefined` */
  function LimitParams(limit: Option<int>): (p: Option<Params>)
    ensures p.None? <==> limit.None? || limit.value == 0
    ensures p.Some? ==> |p.value| == 1 && Get(p.value, "limit") == Some(IntToString(limit.value))
  {
    if limit.Some? && limit.value != 0 then Some([("limit", IntToString(limit.value))]) else None
  }

  /** The limit the backend reads back out of the query is the one asked for. */
  lemma LimitReadBack(limit: int)
    requires limit != 0
    ensures ParseInt(Get(LimitParams(Some(limit)).value, "limit").value) == Some(limit)
  {
    ParseIntRoundTrip(limit);
  }

  /** The optional filters of the catalogue query; a `None` list or search was not given. */
  datatype SeriesFilters = SeriesFilters(
    status: Option<seq<string>>,
    novelType: Option<seq<string>>,
    categories: Option<seq<string>>,
    search: Option<string>)

  /** A filter list as sent: its values joined with ",", when it has any. */
  function ListParam(values: Option<seq<string>>): Option<string> {
    if values.Some? && |values.value| > 0 then Some(Join(values.value, ",")) else None
  }

  /** A truthy number, printed. */
  function NumberParam(n: Option<int>): Option<string> {
    if n.Some? && n.value != 0 then Some(IntToString(n.value)) else None
  }

  function SearchParam(filters: Option<SeriesFilters>): Option<string> {
    if filters.Some? && filters.value.search.Some? && filters.value.search.value != ""
    then filters.value.search else None
  }

  function FilterList(filters: Option<SeriesFilters>, name: string): Option<seq<string>> {
    if filters.None? then None
    else if name == "status" then filters.value.status
    else if name == "novelType" then filters.value.novelType
    else filters.value.categories
  }

  /** The value the catalogue query should carry under each name. */
  function ExpectedSeriesParam(page: Option<int>, limit: Option<int>, filters: Option<SeriesFilters>,
                               name: string): Option<string> {
    if name == "page" then NumberParam(page)
    else if name == "limit" then NumberParam(limit)
    else if name == "status" || name == "novelType" || name == "categories" then ListParam(FilterList(filters, name))
    else if name == "search" then SearchParam(filters)
    else None
  }

  /** A one-entry list for a value that is present, the empty list otherwise. */
  function Present(name: string, value: Option<string>): Params {
    if value.Some? then [(name, value.value)] else []
  }

  /** The entries `getAllSeries` puts into its params record, in insertion order. */
  function SeriesEntries(page: Option<int>, limit: Option<int>, filters: Option<SeriesFilters>): Params {
    Present("page", NumberParam(page)) + Present("limit", NumberParam(limit))
    + Present("status", ListParam(FilterList(filters, "status")))
    + Present("novelType", ListParam(FilterList(filters, "novelType")))
    + Present("categories", ListParam(FilterList(filters, "categories")))
    + Present("search", SearchParam(filters))
  }

  /** `if (value) params[name] = value`: one key added to the params record when truthy. */
  method Put(p: Params, name: string, value: Option<string>) returns (q: Params)
    ensures q == p + Present(name, value)
  {
    q := p;
    if value.Some? {
      q := q + [(name, value.value)];
    }
  }

  /** The key-by-key construction in `getAllSeries`; no params object when no key was set. */
  method BuildSeriesParams(page: Option<int>, limit: Option<int>, filters: Option<SeriesFilters>)
    returns (params: Option<Params>)
    ensures var entries := SeriesEntries(page, limit, filters);
      params == if |entries| > 0 then Some(entries) else None
  {
    var p := Put([], "page", NumberParam(page));
    assert p == Present("page", NumberParam(page));
    p := Put(p, "limit", NumberParam(limit));
    p := Put(p, "status", ListParam(FilterList(filters, "status")));
    p := Put(p, "novelType", ListParam(FilterList(filters, "novelType")));
    p := Put(p, "categories", ListParam(FilterList(filters, "categories")));
    p := Put(p, "search", SearchParam(filters));
    params := if |p| > 0 then Some(p) else None;
  }

  lemma {:induction false} GetAppend(a: Params, b: Params, name: string)
    ensures Get(a + b, name) == if Get(a, name).Some? then Get(a, name) else Get(b, name)
  {
    if |a| > 0 {
      GetAppend(a[1..], b, name);
      assert (a + b)[1..] == a[1..] + b;
    } else {
      assert a + b == b;
    }
  }

  lemma GetPresent(n: string, v: Option<string>, name: string)
    ensures Get(Present(n, v), name) == if n == name then v else None
  {
  }

  /** Each key of the catalogue query carries the value the source puts there, and only then. */
  lemma SeriesEntriesGet(page: Option<int>, limit: Option<int>, filters: Option<SeriesFilters>,
                         name: string)
    ensures Get(SeriesEntries(page, limit, filters), name) == ExpectedSeriesParam(page, limit, filters, name)
  {
    var a := Present("page", NumberParam(page));
    var b := Present("limit", NumberParam(limit));
    var c := Present("status", ListParam(FilterList(filters, "status")));
    var d := Present("novelType", ListParam(FilterList(filters, "novelType")));
    var f := Present("categories", ListParam(FilterList(filters, "categories")));
    var g := Present("search", SearchParam(filters));
    assert SeriesEntries(page, limit, filters) == a + (b + (c + (d + (f + g))));
    GetAppend(a, b + (c + (d + (f + g))), name);
    GetAppend(b, c + (d + (f + g)), name);
    GetAppend(c, d + (f + g), name);
    GetAppend(d, f + g, name);
    GetAppend(f, g, name);
    GetPresent("page", NumberParam(page), name);
    GetPresent("limit", NumberParam(limit), name);
    GetPresent("status", ListParam(FilterList(filters, "status")), name);
    GetPresent("novelType", ListParam(FilterList(filters, "novelType")), name);
    GetPresent("categories", ListParam(FilterList(filters, "categories")), name);
    GetPresent("search", SearchParam(filters), name);
  }

  /** The catalogue query is empty exactly when no key was set. */
  lemma SeriesEntriesEmpty(page: Option<int>, limit: Option<int>, filters: Option<SeriesFilters>)
    ensures |SeriesEntries(page, limit, filters)| == 0 <==>
      NumberParam(page).None? && NumberParam(limit).None? && SearchParam(filters).None?
      && ListParam(FilterList(filters, "status")).None? && ListParam(FilterList(filters, "novelType")).None?
      && ListParam(FilterList(filters, "categories")).None?
  {
  }

  /** A joined filter list, split again on ",", gives back the list (values contain no comma). */
  lemma ListParamRoundTrip(values: seq<string>)
    requires |values| > 0
    requires forall k :: 0 <= k < |values| ==> ',' !in values[k]
    ensures Split(ListParam(Some(values)).value, ",") == values
  {
    SplitJoin(values, ',');
  }

  /** `cookieHeader ? { Cookie: cookieHeader } : undefined` */
  function CookieHeaders(cookieHeader: Option<string>): (h: Option<Headers>)
    ensures h.Some? <==> cookieHeader.Some? && cookieHeader.value != ""
    ensures h.Some? ==> h.value.Keys == {"Cookie"} && h.value["Cookie"] == cookieHeader.value
  {
    if cookieHeader.Some? && cookieHeader.value != "" then Some(map["Cookie" := cookieHeader.value]) else None
  }

  /** The series query of `getAllSeries`: its entries, or no params object when there are none. */
  function SeriesQuery(page: Option<int>, limit: Option<int>, filters: Option<SeriesFilters>): Option<Params> {
    var entries := SeriesEntries(page, limit, filters);
    if |entries| > 0 then Some(entries) else None
  }

  // ---------------------------------------------------------------------------------------
  // The client methods
  // ---------------------------------------------------------------------------------------

  /** The comment body `{ content, seriesId?, chapterId?, parentCommentId? }`. */
  datatype CommentPayload = CommentPayload(
    content: string,
    seriesId: Option<string>,
    chapterId: Option<string>,
    parentCommentId: Option<string>)

  function OptionalField(v: Option<string>): Field {
    if v.Some? then Str(v.value) else Undefined
  }

  function CommentBody(c: CommentPayload): Payload {
    Json([("content", Str(c.content)), ("seriesId", OptionalField(c.seriesId)),
          ("chapterId", OptionalField(c.chapterId)), ("parentCommentId", OptionalField(c.parentCommentId))])
  }

  /** One call of a public client method, with its arguments. */
  datatype Call =
    | GetLatestChapters(limit: Option<int>)
    | GetLatestSeries(limit: Option<int>)
    | GetPopularTodaySeries(limit: Option<int>)
    | GetMostPopularSeries(limit: Option<int>)
    | GetAllSeries(page: Option<int>, limit: Option<int>, filters: Option<SeriesFilters>)
    | GetCategories
    | GetSeriesDetails(slug: string, page: Option<int>, limit: Option<int>, cookie: Option<string>)
    | LoginCall(email: string, password: string)
    | RegisterCall(username: string, email: string, password: string)
    | GetCurrentUser
    | LogoutCall
    | BookmarkSeries(seriesId: string, cookie: Option<string>)
    | RemoveBookmark(seriesId: string, cookie: Option<string>)
    | GetChapterBySlug(slug: string, chapterNumber: int, cookie: Option<string>)
    | CheckBookmark(seriesId: string, cookie: Option<string>)
    | GetUserBookmarks(cookie: Option<string>)
    | LikeSeries(seriesId: string, cookie: Option<string>)
    | UnlikeSeries(seriesId: string, cookie: Option<string>)
    | CheckLike(seriesId: string, cookie: Option<string>)
    | PurchaseChapter(chapterId: string, cookie: Option<string>)
    | CreateCoinPurchaseOrder(coinAmount: int, amountPaid: int, cookie: Option<string>)
    | VerifyPayment(orderId: string, cookie: Option<string>)
    | GetUserCoinPurchases(cookie: Option<string>)
    | GetCoinPurchase(purchaseId: string, cookie: Option<string>)
    | CreateComment(comment: CommentPayload, cookie: Option<string>)
    | GetSeriesComments(seriesId: string)
    | GetChapterComments(chapterId: string)
    | DeleteComment(commentId: string, cookie: Option<string>)
    | RateSeries(seriesId: string, rating: int, cookie: Option<string>)
    | GetUserRating(seriesId: string, cookie: Option<string>)

  /** The request each client method hands to `execute`. */
  function RequestFor(c: Call): Request {
    match c
    case GetLatestChapters(limit) => Request(GET, Routes.LatestChapters, NoPayload, LimitParams(limit), None)
    case GetLatestSeries(limit) => Request(GET, Routes.LatestSeries, NoPayload, LimitParams(limit), None)
    case GetPopularTodaySeries(limit) => Request(GET, Routes.PopularTodaySeries, NoPayload, LimitParams(limit), None)
    case GetMostPopularSeries(limit) => Request(GET, Routes.MostPopularSeries, NoPayload, LimitParams(limit), None)
    case GetAllSeries(page, limit, filters) =>
      Request(GET, Routes.AllSeries, NoPayload, SeriesQuery(page, limit, filters), None)
    case GetCategories => Request(GET, Routes.Categories, NoPayload, None, None)
    case GetSeriesDetails(slug, page, limit, cookie) =>
      Request(GET, Routes.SeriesDetails(slug), NoPayload, SeriesQuery(page, limit, None), CookieHeaders(cookie))
    case LoginCall(email, password) =>
      Request(POST, Routes.ReaderLogin, Json([("email", Str(email)), ("password", Str(password))]), None, None)
    case RegisterCall(username, email, password) =>
      Request(POST, Routes.ReaderRegister,
        Json([("username", Str(username)), ("email", Str(email)), ("password", Str(password))]), None, None)
    case GetCurrentUser => Request(GET, Routes.CurrentUser, NoPayload, None, None)
    case LogoutCall => Request(POST, Routes.Logout, NoPayload, None, None)
    case BookmarkSeries(id, cookie) => Request(POST, Routes.BookmarkSeries(id), NoPayload, None, CookieHeaders(cookie))
    case RemoveBookmark(id, cookie) => Request(DELETE, Routes.RemoveBookmark(id), NoPayload, None, CookieHeaders(cookie))
    case GetChapterBySlug(slug, n, cookie) =>
      Request(GET, Routes.ChapterReader(slug, n), NoPayload, None, CookieHeaders(cookie))
    case CheckBookmark(id, cookie) => Request(GET, Routes.CheckBookmark(id), NoPayload, None, CookieHeaders(cookie))
    case GetUserBookmarks(cookie) => Request(GET, Routes.UserBookmarks, NoPayload, None, CookieHeaders(cookie))
    case LikeSeries(id, cookie) => Request(POST, Routes.LikeSeries(id), NoPayload, None, CookieHeaders(cookie))
    case UnlikeSeries(id, cookie) => Request(DELETE, Routes.UnlikeSeries(id), NoPayload, None, CookieHeaders(cookie))
    case CheckLike(id, cookie) => Request(GET, Routes.CheckLike(id), NoPayload, None, CookieHeaders(cookie))
    case PurchaseChapter(id, cookie) => Request(POST, Routes.PurchaseChapter(id), NoPayload, None, CookieHeaders(cookie))
    case CreateCoinPurchaseOrder(coins, paid, cookie) =>
      Request(POST, Routes.CreateCoinPurchaseOrder, Json([("coinAmount", Num(coins)), ("amountPaid", Num(paid))]),
        None, CookieHeaders(cookie))
    case VerifyPayment(orderId, cookie) =>
      Request(POST, Routes.VerifyPayment, Json([("orderId", Str(orderId))]), None, CookieHeaders(cookie))
    case GetUserCoinPurchases(cookie) => Request(GET, Routes.UserCoinPurchases, NoPayload, None, CookieHeaders(cookie))
    case GetCoinPurchase(id, cookie) => Request(GET, Routes.CoinPurchase(id), NoPayload, None, CookieHeaders(cookie))
    case CreateComment(comment, cookie) =>
      Request(POST, Routes.CreateComment, CommentBody(comment), None, CookieHeaders(cookie))
    case GetSeriesComments(id) => Request(GET, Routes.SeriesComments(id), NoPayload, None, None)
    case GetChapterComments(id) => Request(GET, Routes.ChapterComments(id), NoPayload, None, None)
    case DeleteComment(id, cookie) => Request(DELETE, Routes.DeleteComment(id), NoPayload, None, CookieHeaders(cookie))
    case RateSeries(id, rating, cookie) =>
      Request(POST, Routes.RateSeries(id), Json([("rating", Num(rating))]), None, CookieHeaders(cookie))
    case GetUserRating(id, cookie) => Request(GET, Routes.UserRating(id), NoPayload, None, CookieHeaders(cookie))
  }

  /** The cookie argument a call forwards; `None` for the methods that take none. */
  function ForwardedCookie(c: Call): Option<string> {
    match c
    case GetSeriesDetails(_, _, _, cookie) => cookie
    case BookmarkSeries(_, cookie) => cookie
    case RemoveBookmark(_, cookie) => cookie
    case GetChapterBySlug(_, _, cookie) => cookie
    case CheckBookmark(_, cookie) => cookie
    case GetUserBookmarks(cookie) => cookie
    case LikeSeries(_, cookie) => cookie
    case UnlikeSeries(_, cookie) => cookie
    case CheckLike(_, cookie) => cookie
    case PurchaseChapter(_, cookie) => cookie
    case CreateCoinPurchaseOrder(_, _, cookie) => cookie
    case VerifyPayment(_, cookie) => cookie
    case GetUserCoinPurchases(cookie) => cookie
    case GetCoinPurchase(_, cookie) => cookie
    case CreateComment(_, cookie) => cookie
    case DeleteComment(_, cookie) => cookie
    case RateSeries(_, _, cookie) => cookie
    case GetUserRating(_, cookie) => cookie
    case _ => None
  }

  /** Every client endpoint is an absolute path. */
  lemma RequestRooted(c: Call)
    ensures StartsWith(RequestFor(c).endpoint, "/")
  {
    var e := RequestFor(c).endpoint;
    assert e[0] == '/';
  }

  /**
   * Every client request is sent to its route as written (routes are already rooted), and the
   * only header it sends is a Cookie, present exactly when the caller passed a non-empty cookie
   * string.
   */
  lemma RequestForOutgoing(c: Call)
    ensures Outgoing(RequestFor(c)).url == RequestFor(c).endpoint
    ensures var cookie := ForwardedCookie(c);
      Outgoing(RequestFor(c)).headers ==
        if cookie.Some? && cookie.value != "" then map["Cookie" := cookie.value] else map[]
  {
    RequestRooted(c);
    NormalizePathCases(RequestFor(c).endpoint);
    RequestForHeaders(c);
  }

  lemma RequestForHeaders(c: Call)
    ensures RequestFor(c).headers == CookieHeaders(ForwardedCookie(c))
    ensures !RequestFor(c).data.FormData?
  {
  }

  /**
   * The arguments reach the request unchanged: the catalogue and details queries carry the
   * expected keys, the listing calls send a limit only when it is truthy, and the bodies of
   * the order, verify, rate and comment calls hold the caller's values; an id the comment does
   * not name is left undefined, so it is dropped from the JSON.
   */
  lemma RequestForArguments(c: Call)
    ensures (c.GetLatestChapters? || c.GetLatestSeries? || c.GetPopularTodaySeries? || c.GetMostPopularSeries?) ==>
      RequestFor(c).params == LimitParams(c.limit)
    ensures c.GetAllSeries? ==> RequestFor(c).params == SeriesQuery(c.page, c.limit, c.filters)
    ensures c.GetSeriesDetails? ==>
      RequestFor(c).params == SeriesQuery(c.page, c.limit, None) &&
      (forall name :: name != "page" && name != "limit" ==> (RequestFor(c).params.None? ||
        Get(RequestFor(c).params.value, name).None?))
    ensures c.CreateCoinPurchaseOrder? ==>
      RequestFor(c).data == Json([("coinAmount", Num(c.coinAmount)), ("amountPaid", Num(c.amountPaid))])
    ensures c.VerifyPayment? ==> RequestFor(c).data == Json([("orderId", Str(c.orderId))])
    ensures c.RateSeries? ==> RequestFor(c).data == Json([("rating", Num(c.rating))])
    ensures c.CreateComment? ==> RequestFor(c).data == Json([
      ("content", Str(c.comment.content)),
      ("seriesId", OptionalField(c.comment.seriesId)),
      ("chapterId", OptionalField(c.comment.chapterId)),
      ("parentCommentId", OptionalField(c.comment.parentCommentId))])
    ensures c.CreateComment? ==> forall k :: 1 <= k < 4 ==>
      (RequestFor(c).data.fields[k].1.Undefined? <==>
        [c.comment.seriesId, c.comment.chapterId, c.comment.parentCommentId][k - 1].None?)
  {
    if c.GetSeriesDetails? {
      forall name | name != "page" && name != "limit"
        ensures RequestFor(c).params.None? || Get(RequestFor(c).params.value, name).None?
      {
        SeriesEntriesGet(c.page, c.limit, None, name);
      }
    }
  }
}
