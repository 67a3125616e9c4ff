# Mythoria Readers — a Dafny model of the reader front end

Mythoria Readers is the reading site of a web-novel platform: readers browse a catalogue of
series, open chapter pages, bookmark and like series, comment, buy coins and spend them on
premium chapters. The site is a Next.js front end. Persistence, access control and payment
finality live on a remote backend. This project models the logic that runs in the front end
itself.

- **The API client** (`src/api/interface.ts`). It normalises the request path and copies the
  headers. It folds every reply, transport error and exception into one result shape. It
  flattens response headers and builds the query parameters.
- **The route table** (`src/routes/server.ts`).
- **The server actions** (`src/server-actions/*.ts`). They serialise the request's cookies
  into one `Cookie` header. They flatten each client result so that a failure carries only
  its message.
- **The session holder** (`src/contexts/auth-context.tsx`). It mirrors the signed-in user
  into page state and into one `localStorage` entry (`src/utils/auth.ts`), and it fails
  closed.
- **The pages and components** with sequential logic:
  - the chapter reader: its purchase gate, markup tokenizer, font size and bookmark toggle;
  - the series details page;
  - the coin purchase and payment-return pages;
  - the catalogue page, its filter panel, the multi-select and the pagination bar;
  - the announcement banner, the login carousel and the home hero slider;
  - comments;
  - the sign-in, registration and password-reset forms;
  - the bookmarks tab;
  - the relative-time formatters.

The backend, the router, the clock, timers and toasts are not modelled. What a page receives
from the backend is a parameter of the method that handles it, typically a `Reply` (what an
awaited server action resolved to, or the error it rejected with). What a page does to the
outside world is recorded in sequence fields of its class:

- `calls`: the server actions it invoked, in order;
- `navigations`: the paths it pushed;
- `events`: other effects, in order.

JavaScript semantics are written out where the code relies on them:

- `||` over strings treats the empty string as false (`Text.OrElse`, `Text.FirstNonEmpty`);
- `split`, `join`, `slice`, `trim` and `parseInt` are modelled in `Text`;
- `URLSearchParams` serialisation and parsing, with percent-encoding over UTF-8, are in
  `UrlQuery` and `Utf8`;
- `String.length` counts UTF-16 code units (`Text.Utf16Length`).

Modules, one per file: `Wrappers`, `Text`, `Utf8`, `UrlQuery`, `Routes`, `ApiClient`,
`ServerActions`, `UserStore`, `Session`, `Redirects`, `ChapterMarkup`, `ChapterReader`,
`TimeFormat`, `CoinPurchase`, `Pagination`, `Sorting`, `MultiSelect`, `SeriesCatalogue`,
`SeriesFilter`, `Carousels`, `Comments`, `Accounts`, `NovelDetails`, `Bookmarks`,
`HomeLatest`.

## Model

| member | source | states |
|---|---|---|
| Text.FirstNonEmpty | src/api/interface.ts:141-156 | `a \|\| b \|\| … \|\| fallback` over strings is the first non-empty candidate, or the fallback when every candidate is empty |
| Text.Slice | src/components/pages/series/novel-details/chapter/index.tsx:258 | `slice` never yields more characters than the string has |
| Text.SliceDropsBothEnds | src/components/pages/series/novel-details/chapter/index.tsx:255-289 | `segment.slice(k, -k)` drops `k` characters from each end, and is empty when the segment is shorter than `2k` |
| Text.Take | src/components/pages/reading/tabs/content/bookmarked/card.tsx:82 | `slice(0, n)` on an array keeps its first `n` elements, or all of them when there are fewer |
| Text.Find | src/components/pages/series/filter/index.tsx:72 | `indexOf` finds the first occurrence at or after the start, and none is skipped; `None` exactly when there is none |
| Text.JoinSnoc | src/components/pages/series/filter/index.tsx:154 | joining one more part appends the separator and the part |
| Text.SplitNonEmpty | src/components/pages/series/filter/index.tsx:72 | `split` never yields an empty list, even for "" |
| Text.Split | src/components/pages/series/filter/index.tsx:72 | `s.split(sep)` for a non-empty separator, cutting at each occurrence from left to right; its properties are `Text.SplitNonEmpty`, `Text.SplitPiecesAvoidSeparator`, `Text.SplitWithoutSeparator` and `Text.SplitJoin` |
| Text.JoinSplit | src/components/pages/series/filter/index.tsx:72 | joining the pieces of a split with the same separator gives back the string |
| Text.SplitPiecesAvoidSeparator | src/components/pages/series/filter/index.tsx:72 | no piece of a split contains the separator |
| Text.SplitWithoutSeparator | src/components/pages/series/filter/index.tsx:72 | a string without the separator character is its own single piece |
| Text.SplitJoin | src/components/pages/series/filter/index.tsx:154 | joining pieces free of a one-character separator and splitting again gives the same pieces |
| Text.Utf16Length | src/components/pages/accounts/register/index.tsx:33 | `length` counts UTF-16 code units: between one and two per character |
| Text.TrimStartShape | src/components/pages/series/filter/index.tsx:174 | the leading part `trim` drops is all whitespace, and what remains starts with none |
| Text.Trim | src/components/pages/series/filter/index.tsx:174 | `s.trim()`, whitespace dropped at both ends; its properties are `Text.TrimStartShape`, `Text.TrimEndShape`, `Text.TrimEmptyIffBlank`, `Text.TrimmedEnds` and `Text.TrimIdempotent` |
| Text.TrimEndShape | src/components/pages/series/filter/index.tsx:174 | the trailing part `trim` drops is all whitespace, and what remains ends with none |
| Text.TrimEmptyIffBlank | src/components/pages/series/filter/index.tsx:174 | `!s.trim()` holds exactly when `s` is all whitespace |
| Text.TrimmedEnds | src/components/pages/series/filter/index.tsx:175 | the trimmed text has no whitespace at either end |
| Text.TrimIdempotent | src/components/pages/series/filter/index.tsx:187 | trimming twice is trimming once |
| Text.NatToString | src/components/utility/pagination.tsx:35 | a printed number is a non-empty run of digits with no leading zero |
| Text.DigitsRoundTrip | src/components/pages/series/index.tsx:31 | the value of the printed digits of `n` is `n` |
| Text.ParseIntRoundTrip | src/components/pages/series/index.tsx:31-32 | `parseInt(String(i), 10)` is `i` for every integer |
| Text.ParseInt | src/components/pages/series/index.tsx:31-32 | `parseInt(s, 10)` for an optional sign and decimal digits, anything else not a number; its round trip is `Text.ParseIntRoundTrip` |
| Text.IntToStringInjective | src/routes/server.ts:8-9 | different integers print differently |
| Utf8.EncodeChar | src/components/pages/series/novel-details/chapter/index.tsx:81 | a character encodes to one to four bytes, and to one byte exactly when it is below U+0080 |
| Utf8.DecodeFirst | src/components/pages/series/novel-details/chapter/index.tsx:81 | the decoder consumes at least one byte and never more than there are, an ASCII byte as itself, and at most the lead byte and the continuations it announces |
| Utf8.EncodeAppend | src/components/pages/series/novel-details/chapter/index.tsx:81 | the encoding of a concatenation is the concatenation of the encodings |
| Utf8.EncodeAscii | src/components/pages/series/novel-details/chapter/index.tsx:81 | a character below U+0080 is its own single byte |
| Utf8.DecodeFirstOfEncoded | src/components/pages/series/novel-details/chapter/index.tsx:81 | the decoder reads back exactly the first encoded character, whatever follows it |
| Utf8.DecodeEncode | src/components/pages/series/novel-details/chapter/index.tsx:81 | decoding the UTF-8 encoding of any text gives the text back |
| Utf8.TruncatedThreeByte | src/components/pages/series/novel-details/chapter/index.tsx:81 | a three-byte lead and a continuation that fits it, followed by a byte that does not continue them, decode to one U+FFFD, and decoding resumes at that byte |
| Utf8.TruncatedExample | src/components/pages/series/novel-details/chapter/index.tsx:81 | the bytes of `%E2%82A` decode to U+FFFD followed by "A" |
| UrlQuery.Get | src/components/pages/series/filter/index.tsx:61-64 | `get` is absent exactly when no entry has the name, and otherwise is the value of an entry with that name |
| UrlQuery.Delete | src/components/pages/series/filter/index.tsx:156 | after `delete` no entry has the name, and no entry was added |
| UrlQuery.GetDelete | src/components/pages/series/filter/index.tsx:156 | after `delete` the name reads as absent and every other name reads as before |
| UrlQuery.NamedDelete | src/components/pages/series/filter/index.tsx:156 | after `delete` the name has no values and every other name keeps its values in order |
| UrlQuery.SetSemantics | src/components/pages/series/filter/index.tsx:181 | after `set` the name has exactly the one new value and every other name keeps its values in order |
| UrlQuery.Set | src/components/pages/series/filter/index.tsx:181 | `params.set(name, value)`: the first entry of that name takes the value and later ones go, or the pair is appended; its meaning is `UrlQuery.SetSemantics` |
| UrlQuery.GetSet | src/components/utility/pagination.tsx:35 | `get` after `set` reads the value set; other names read as before |
| UrlQuery.ParsedBytesOfEscape | src/components/pages/series/filter/index.tsx:150 | a percent escape parses back to its byte, whatever follows |
| UrlQuery.ParsedBytesOfLiteral | src/components/pages/series/filter/index.tsx:150 | an ASCII character other than `%` parses to its own byte, and `+` to a space |
| UrlQuery.ParsedBytesOfEncoding | src/components/pages/series/filter/index.tsx:150 | the parser reads back the bytes either encoder wrote |
| UrlQuery.DecodeFormEncode | src/components/pages/series/filter/index.tsx:150 | the form parser reads back any text the form serializer wrote |
| UrlQuery.DecodeUriEncode | src/components/pages/series/novel-details/chapter/index.tsx:81 | the form parser reads back any text `encodeURIComponent` wrote |
| UrlQuery.EncodingAvoidsDelimiters | src/components/pages/series/filter/index.tsx:150 | no encoded name or value contains `&`, `=` or `?`, so it cannot cut the query |
| UrlQuery.ParsePairOfSerialized | src/components/pages/series/filter/index.tsx:150 | a serialized `name=value` pair parses back to the pair |
| UrlQuery.ParsePiecesOfSerialized | src/components/pages/series/filter/index.tsx:150 | the serialized pairs parse back to the same entries in the same order |
| UrlQuery.ParseSerialize | src/components/pages/series/filter/index.tsx:150 | `new URLSearchParams(params.toString())` has exactly the entries of `params`, in order, for every list of entries |
| UrlQuery.Parse | src/components/pages/series/filter/index.tsx:150 | `new URLSearchParams(query)`: the query cut at `&`, empty pieces skipped, each piece cut at its first `=` and both halves form-decoded; its read-back of a serialized query is `UrlQuery.ParseSerialize` |
| UrlQuery.Serialize | src/components/pages/series/filter/index.tsx:189 | `params.toString()`: each entry form-encoded as `name=value`, joined with `&`; `UrlQuery.ParseSerialize` reads it back |
| UrlQuery.SerializeSnoc | src/components/pages/series/filter/index.tsx:189 | appending an entry appends `&` and its encoded pair to the query |
| UrlQuery.RedirectRoundTrip | src/components/pages/accounts/login/index.tsx:27 | `get("redirect")` on `base?redirect=encodeURIComponent(path)` gives `path` back, for every path |
| UrlQuery.SinglePairRoundTrip | src/components/pages/purchase-coins/success/index.tsx:17 | a URL with one `word=encodeURIComponent(value)` query has exactly that one entry |
| UrlQuery.WordEncoding | src/components/utility/pagination.tsx:35 | ASCII letters and digits pass through both encoders unchanged |
| UrlQuery.DecodePlain | src/components/pages/series/filter/index.tsx:61-64 | ASCII text with no `%` and no `+` decodes to itself |
| UrlQuery.WordPathEncoding | src/components/pages/purchase-coins/index.tsx:77 | `encodeURIComponent` of a path made of `/` and word characters escapes only the slashes, each as `%2F` |
| Routes.EndpointsRooted | src/routes/server.ts:1-41 | every endpoint, constant or built from any argument, starts with `/` |
| Routes.SharedResourcePaths | src/routes/server.ts:14-24 | adding, removing and checking a bookmark address one resource; so do likes; bookmarks and likes differ |
| Routes.NoSlashInNumber | src/routes/server.ts:8-9 | a printed chapter number contains no `/` |
| Routes.ChapterReaderInjective | src/routes/server.ts:8-9 | two reader paths are equal only for the same slug and chapter number, whatever the slug holds |
| Routes.SeriesDetailsInjective | src/routes/server.ts:7 | two details paths are equal only for the same slug |
| Routes.RatingRoutes | src/routes/server.ts:39-41 | the rate and my-rating endpoints of a series differ in the last segment, and a rating never addresses any series' read-back endpoint |
| Routes.PaymentRoutes | src/routes/server.ts:25-31 | the order and verify endpoints differ and all payment endpoints live under `/payment/coins/` |
| Redirects.AfterSignIn | src/components/pages/accounts/login/index.tsx:43 | `redirect \|\| home`: a non-empty redirect is followed, otherwise the home page |
| Redirects.LoginRedirectReadBack | src/components/pages/series/novel-details/chapter/index.tsx:81 | the login page reads the reader's path back out of the redirect it was sent, and goes there after sign-in when the path is not empty |
| ApiClient.NormalizePath | src/api/interface.ts:102 | the URL handed to the HTTP library always starts with `/` |
| ApiClient.NormalizePathCases | src/api/interface.ts:102 | one leading slash is dropped and one put back: a rooted endpoint is kept, an unrooted one gains a slash, `x` and `/x` give the same URL, and normalising twice changes nothing |
| ApiClient.RequestHeaders | src/api/interface.ts:106-109 | the headers sent are the caller's headers, value for value, except that a form-data body drops `Content-Type` |
| ApiClient.ExecuteSuccessIff | src/api/interface.ts:94-169 | `execute` succeeds exactly on a reply whose body says success and then carries the body's data unchanged; a reply saying otherwise yields its own error, or the constant one with the HTTP status |
| ApiClient.Execute | src/api/interface.ts:94-169 | the result `execute` resolves to for each way a call can end; its meaning is `ApiClient.ExecuteSuccessIff` |
| ApiClient.TransportErrorFallbacks | src/api/interface.ts:141-167 | a transport error reports the first non-empty message of `error.message`, `message`, the exception's message and a constant, and the first non-zero status of the reply's and the exception's, or 0 |
| ApiClient.FlattenHeaders | src/api/interface.ts:329-337 | the `forEach` over the reply's header names builds exactly the flattened header record |
| ApiClient.FlattenedEntries | src/api/interface.ts:329-337 | the flattened record holds exactly the headers whose value is a string or a non-empty list, each with its string or its `", "`-joined list, and no other name |
| ApiClient.ExecuteWithHeaders | src/api/interface.ts:301-408 | `executeWithHeaders` resolves as `execute` does for a reply with a body and also returns its flattened headers; a transport error carries its message chain, the reply status and the error reply's flattened headers; a reply without a body and any other throw become a network error with status 0 and no headers |
| ApiClient.LimitParams | src/api/interface.ts:176 | the listing calls send a `limit` entry exactly when the limit is given and non-zero, holding its decimal form |
| ApiClient.LimitReadBack | src/api/interface.ts:176 | the backend reads back the limit that was asked for |
| ApiClient.Put | src/api/interface.ts:239-253 | setting a key only when its value is truthy appends that one entry, or nothing |
| ApiClient.BuildSeriesParams | src/api/interface.ts:229-260 | `getAllSeries` builds the entries in the order page, limit, status, novelType, categories, search, and sends no params object when none was set |
| ApiClient.SeriesEntriesGet | src/api/interface.ts:239-253 | each key of the catalogue query reads the value the caller gave (numbers printed, lists joined with `,`, search as it is) exactly when that value is truthy |
| ApiClient.SeriesEntriesEmpty | src/api/interface.ts:258 | the catalogue query is empty exactly when no argument is truthy |
| ApiClient.ListParamRoundTrip | src/api/interface.ts:242-250 | a list joined with `,` splits back into the same list when no value contains a comma |
| ApiClient.CookieHeaders | src/api/interface.ts:293 | a `Cookie` header is sent, as the only header, exactly when the cookie string is given and non-empty |
| ApiClient.RequestRooted | src/api/interface.ts:415-743 | every client method addresses an absolute path |
| ApiClient.RequestForOutgoing | src/api/interface.ts:415-743 | every client request goes to its route unchanged and its only header is the Cookie, present exactly when the caller passed a non-empty cookie string |
| ApiClient.RequestForHeaders | src/api/interface.ts:415-743 | no client method sends form data, and each sends the headers its cookie argument calls for |
| ApiClient.RequestForArguments | src/api/interface.ts:415-743 | the arguments reach the request unchanged: the catalogue and details queries, the listing limits, and the whole order, verify, rate and comment bodies, a comment's unnamed ids left undefined |
| ServerActions.CookiePairs | src/server-actions/series.ts:10-19 | one `name=value` pair per cookie, in store order |
| ServerActions.GetCookieHeader | src/server-actions/series.ts:10-19 | the `forEach` and `join("; ")` build exactly the cookie string of the whole store |
| ServerActions.OptionalCookieHeader | src/server-actions/payment.ts:16-23 | the payment and comment helper yields `undefined` exactly for an empty store, and the cookie string otherwise |
| ServerActions.CookieStringEmpty | src/server-actions/series.ts:10-19 | the cookie string is empty exactly when the store is |
| ServerActions.CookieVariantsAgree | src/server-actions/comment.ts:6-11 | both forms of the helper make the client attach the same headers: the cookie string for a non-empty store, nothing for an empty one |
| ServerActions.CookieStringSnoc | src/server-actions/series.ts:14-16 | a later cookie's pair comes after the pairs before it, separated by `; ` |
| ServerActions.CookiePairReadBack | src/server-actions/series.ts:15 | cutting a pair at its first `=` gives back the cookie's name and value when the name has no `=` |
| ServerActions.FlattenMeaning | src/server-actions/series.ts:33-43 | flattening keeps success and the data exactly, keeps the failure's message and forgets its status code |
| ServerActions.Flatten | src/server-actions/series.ts:33-43 | the mapping every action applies to a client result; its meaning is `ServerActions.FlattenMeaning` |
| ServerActions.Perform | src/server-actions/bookmark.ts:21-39 | an action sends the client request its arguments and its cookie helper call for, and resolves to the flattened client result |
| ServerActions.ActionHeaders | src/server-actions/bookmark.ts:10-39 | a forwarding action sends the cookie string as its only header exactly when the store is non-empty, whichever helper it uses; the others send no header |
| ServerActions.ClientCallCookie | src/server-actions/series.ts:62-73 | the client call carries the helper's cookie exactly for the actions that forward cookies |
| ServerActions.ActionRoutes | src/routes/server.ts:7-38 | each action's request goes to the route of its own ids and slug: bookmark add, remove and check share one path, and so do likes |
| ServerActions.ActionArguments | src/server-actions/series.ts:62-73 | the details query and the order, verify, rate and comment bodies carry exactly the values the caller passed |
| UserStore.EscapeChar | src/utils/auth.ts:21 | `JSON.stringify` writes every character of a string literal as at least one character |
| UserStore.EncodeUser | src/utils/auth.ts:21 | the stored JSON text of a user is never empty, so `getUser` never takes it for a missing entry |
| UserStore.ReadStringStep | src/utils/auth.ts:33 | the JSON parser reads each escaped character back and continues after its escape |
| UserStore.ReadEscaped | src/utils/auth.ts:33 | a JSON string literal reads back as its text, followed by whatever came after it |
| UserStore.ReadQuotedMember | src/utils/auth.ts:33 | a string member reads back as its value, followed by the rest of the object |
| UserStore.ReadBalanceOf | src/utils/auth.ts:33 | the optional `coinBalance` member reads back as the balance written, or as absent |
| UserStore.DecodeEncodeUser | src/utils/auth.ts:19-40 | `JSON.parse(JSON.stringify(user))` is the same user, for every user |
| UserStore.DecodeUser | src/utils/auth.ts:28-40 | `JSON.parse` of the stored text, for text of the shape `setUser` writes; its round trip is `UserStore.DecodeEncodeUser` |
| UserStore.StoredAfterSet | src/utils/auth.ts:19-40 | with a window, `getUser()` after `setUser(u)` returns `u` whatever else the storage holds |
| UserStore.StoredAfterRemove | src/utils/auth.ts:28-49 | after `removeUser()`, or without a window, `getUser()` returns null |
| UserStore.Storage.constructor | src/utils/auth.ts:6 | the storage starts with the entries the page already has |
| UserStore.Storage.SetUser | src/utils/auth.ts:19-23 | `setUser` writes the user's JSON under the one key and changes no other entry; nothing happens without a window; afterwards the stored user is `u` |
| UserStore.Storage.GetUser | src/utils/auth.ts:28-40 | `getUser` returns the stored user: absent without a window or for a missing, empty or malformed entry |
| UserStore.Storage.RemoveUser | src/utils/auth.ts:45-49 | `removeUser` drops the one key and no other entry; afterwards no user is stored |
| UserStore.Storage.ClearAuth | src/utils/auth.ts:54-56 | `clearAuth` does exactly what `removeUser` does |
| Session.AuthProvider.IsAuthenticated | src/contexts/auth-context.tsx:89 | signed in exactly when there is a user |
| Session.AuthProvider.constructor | src/contexts/auth-context.tsx:20-21 | the first render has no user and is loading, with no call made |
| Session.AuthProvider.Adopt | src/contexts/auth-context.tsx:28-35 | state and storage follow one `getCurrentUser` result: the confirmed user is written to both, anything else clears both |
| Session.AuthProvider.Mount | src/contexts/auth-context.tsx:23-46 | the mount effect makes one `getCurrentUser` call, keeps the user only if the reply succeeds with data, writes that user's JSON to the storage entry or removes the entry, and stops loading in every case |
| Session.AuthProvider.Login | src/contexts/auth-context.tsx:48-51 | `login` sets state and the storage entry to the user without a backend call |
| Session.AuthProvider.UpdateUser | src/contexts/auth-context.tsx:64-67 | `updateUser` does what `login` does |
| Session.AuthProvider.Logout | src/contexts/auth-context.tsx:53-62 | `logout` makes one backend call and clears state and storage whatever its outcome |
| Session.AuthProvider.RefreshUser | src/contexts/auth-context.tsx:69-83 | `refreshUser` re-adopts the current user and rewrites or removes the storage entry as the mount effect does, without touching `isLoading` |
| Session.ConfirmedOnlyBySuccess | src/contexts/auth-context.tsx:28-33 | a session is kept exactly on a reply whose body says success and carries a user, and it is that user |
| Session.UseAuth | src/contexts/auth-context.tsx:102-108 | `useAuth` throws its fixed message exactly outside a provider and otherwise returns the context |
| ChapterMarkup.ParagraphsRoundTrip | src/components/pages/series/novel-details/chapter/index.tsx:242-243 | the paragraphs are the content cut at blank lines: at least one, none containing a blank line, and joined back they give the content |
| ChapterMarkup.IsPremiumLocked | src/components/pages/series/novel-details/chapter/index.tsx:239 | `chapter.isPremium && !chapter.content`: a premium chapter sent without content |
| ChapterMarkup.Paragraphs | src/components/pages/series/novel-details/chapter/index.tsx:242-243 | the content split at blank lines, nothing without content; its properties are `ChapterMarkup.ParagraphsRoundTrip` and `ChapterMarkup.LockedIffNoParagraphs` |
| ChapterMarkup.LockedIffNoParagraphs | src/components/pages/series/novel-details/chapter/index.tsx:239-243 | a chapter is behind the purchase gate exactly when it is premium and has no paragraph to show |
| ChapterMarkup.CloseAt | src/components/pages/series/novel-details/chapter/index.tsx:253 | the lazy `.*?` stops at the nearest closing delimiter, with no line terminator and no earlier delimiter before it |
| ChapterMarkup.MatchDelimited | src/components/pages/series/novel-details/chapter/index.tsx:253 | a match of one alternative spans both delimiters and stays inside the paragraph |
| ChapterMarkup.MatchAt | src/components/pages/series/novel-details/chapter/index.tsx:253 | the alternation reports a delimiter of the pattern and an end where that alternative matches |
| ChapterMarkup.SplitFrom | src/components/pages/series/novel-details/chapter/index.tsx:253 | the `split` with one capture group always yields an odd number of pieces |
| ChapterMarkup.SplitFromConcat | src/components/pages/series/novel-details/chapter/index.tsx:253 | the pieces from any position concatenate back to the rest of the paragraph |
| ChapterMarkup.SegmentsConcat | src/components/pages/series/novel-details/chapter/index.tsx:253 | cutting a paragraph loses nothing: its pieces concatenate back to it |
| ChapterMarkup.MatchIsDelimited | src/components/pages/series/novel-details/chapter/index.tsx:253 | a match starts and ends with its delimiter, with no line terminator and no occurrence of the delimiter between |
| ChapterMarkup.SplitFromMarkup | src/components/pages/series/novel-details/chapter/index.tsx:253 | every captured piece from any position is delimited markup |
| ChapterMarkup.SegmentsMarkup | src/components/pages/series/novel-details/chapter/index.tsx:253 | the pieces alternate text and markup: odd in number, every odd-placed piece delimited markup |
| ChapterMarkup.PlainParagraph | src/components/pages/series/novel-details/chapter/index.tsx:253 | a paragraph without a markup character is one plain piece |
| ChapterMarkup.ClassifyMeaning | src/components/pages/series/novel-details/chapter/index.tsx:255-289 | a piece wrapped in `**`, `~~~`, `*` or a backtick is rendered by its outermost delimiter with the delimiters dropped, a leading `**` winning over `*`; anything else is shown as it is |
| ChapterMarkup.Classify | src/components/pages/series/novel-details/chapter/index.tsx:255-289 | the `map` over a paragraph's pieces, trying `**`, `~~~`, `*` and the backtick in that order; its meaning is `ChapterMarkup.ClassifyMeaning` |
| ChapterMarkup.Render | src/components/pages/series/novel-details/chapter/index.tsx:253-289 | rendering a paragraph classifies each of its pieces, in order |
| ChapterReader.FontStaysInRange | src/components/pages/series/novel-details/chapter/index.tsx:336-342 | from the initial 16 px, any sequence of A- and A+ presses keeps the size even and within 12 to 24 px |
| ChapterReader.FontPressesUndo | src/components/pages/series/novel-details/chapter/index.tsx:336-342 | a press of A- undoes an unclamped press of A+, and the other way round |
| ChapterReader.ReaderPage.constructor | src/components/pages/series/novel-details/chapter/index.tsx:58-81 | the page starts loading at 16 px, with no chapter, no error, no bookmark and no call |
| ChapterReader.ReaderPage.DecreaseFont | src/components/pages/series/novel-details/chapter/index.tsx:336 | A- lowers the size by two, clamped at 12, and changes nothing else |
| ChapterReader.ReaderPage.IncreaseFont | src/components/pages/series/novel-details/chapter/index.tsx:342 | A+ raises the size by two, clamped at 24, and changes nothing else |
| ChapterReader.ReaderPage.Fetch | src/components/pages/series/novel-details/chapter/index.tsx:83-120 | with a slug and a number, one chapter fetch; a chapter with data replaces the page's, followed by a bookmark check for a signed-in reader whose chapter has a series; a failure sets the error or its fallback; loading ends in every case |
| ChapterReader.ReaderPage.ToggleBookmark | src/components/pages/series/novel-details/chapter/index.tsx:122-148 | a signed-out reader is sent to the login redirect; without a loaded series nothing happens; otherwise one remove or add call, by the current flag, and the flag flips only on success |
| ChapterReader.ReaderPage.Purchase | src/components/pages/series/novel-details/chapter/index.tsx:150-213 | a signed-out reader is sent to the login redirect with no purchase; a chapter without an id is left alone; otherwise one purchase call, and on success a router refresh and a second chapter fetch whose data replaces the old |
| TimeFormat.UnitsShape | src/components/pages/series/novel-details/chapter/index.tsx:39-52 | a counted stamp is never "just now" and has a plural unit exactly from two on |
| TimeFormat.FormatDateBuckets | src/components/pages/series/novel-details/chapter/index.tsx:39-52 | under a minute is "just now"; then whole minutes 1 to 59, hours 1 to 23 or days 1 to 6; from a week on the locale date |
| TimeFormat.FormatDate | src/components/pages/series/novel-details/chapter/index.tsx:39-52 | `formatDate`, minutes, hours and days then the locale date; its properties are `TimeFormat.FormatDateBuckets` and `TimeFormat.FormatDateSingular` |
| TimeFormat.FormatDateSingular | src/components/pages/series/novel-details/chapter/index.tsx:39-52 | between a minute and a week the unit is singular exactly when the count is one |
| TimeFormat.TimeAgoCounts | src/components/comment/comment-item.tsx:17-29 | each bucket of a comment's age has its count range: minutes 1 to 59, hours 1 to 23, days 1 to 6, weeks 1 to 4, months 1 to 12, years at least one; "just now" only under a minute |
| TimeFormat.FormatTimeAgo | src/components/comment/comment-item.tsx:17-29 | `formatTimeAgo`, whole seconds bucketed up to years; its properties are `TimeFormat.TimeAgoCounts` and `TimeFormat.TimeAgoAlwaysPlural` |
| TimeFormat.TimeAgoAlwaysPlural | src/components/comment/comment-item.tsx:17-29 | every age reads "just now" or ends in "s ago": the unit is always plural, so a comment a minute old reads "1 minutes ago" |
| TimeFormat.PluralUnitsEnds | src/components/comment/comment-item.tsx:23-28 | every counted age of a comment ends in "s ago" |
| TimeFormat.DaysAgoSymmetric | src/components/pages/home/latest/index.tsx:26-46 | a date that far in the future formats as the same date in the past |
| TimeFormat.CountedIsUnits | src/components/pages/home/latest/index.tsx:33-45 | the day, week, month and year counts are singular exactly at one |
| TimeFormat.DaysAgoBuckets | src/components/pages/home/latest/index.tsx:26-46 | "Today" within a day, then days under a week, weeks 1 to 4, months 1 to 12 and years, by whole days of the absolute difference |
| TimeFormat.FormatDaysAgo | src/components/pages/home/latest/index.tsx:26-46 | `formatDaysAgo`, by whole days of the absolute difference; its properties are `TimeFormat.DaysAgoBuckets`, `TimeFormat.DaysAgoSymmetric` and `TimeFormat.CountedIsUnits` |
| HomeLatest.RecentShown | src/components/pages/home/latest/index.tsx:132 | a card shows the first four recent chapters, or all of them when there are fewer |
| HomeLatest.RecentShownMembers | src/components/pages/home/latest/index.tsx:132 | a recent chapter is shown exactly when it is among the first four, and in its place |
| CoinPurchase.PlanTable | src/components/pages/purchase-coins/index.tsx:14-50 | the five plans are numbered 1 to 5 in order, each with more coins than the one before and a lower price per coin |
| CoinPurchase.AtMostOneDisabled | src/components/pages/purchase-coins/index.tsx:12 | plan ids are distinct, so at most one plan's button is disabled at a time |
| CoinPurchase.Approval | src/components/pages/purchase-coins/index.tsx:89-119 | an order is opened exactly for a reply that succeeded with data carrying a non-empty approval URL, and it is that data |
| CoinPurchase.ApprovalTargetAsWritten | src/components/pages/purchase-coins/index.tsx:106 | the tab URL as written, `approvalUrl + "?orderId=" + orderId`; `CoinPurchase.AsWrittenLosesOrderId` shows what it does to a URL with a query |
| CoinPurchase.KeysAreWords | src/components/pages/purchase-coins/index.tsx:106 | the `orderId` and `token` keys are plain words that encode to themselves |
| CoinPurchase.AsWrittenLosesOrderId | src/components/pages/purchase-coins/index.tsx:106 | the tab URL as written, behind an approval URL that already has a query, has no `orderId` parameter and a `token` with `?orderId=…` glued to it |
| CoinPurchase.ApprovalTargetsAgree | src/components/pages/purchase-coins/index.tsx:106 | behind an approval URL without a query, the corrected tab URL is the one as written |
| CoinPurchase.ApprovalTargetCarriesOrderId | src/components/pages/purchase-coins/index.tsx:106 | behind an approval URL without a query, the tab's query is exactly the order id |
| CoinPurchase.ApprovalTargetKeepsQuery | src/components/pages/purchase-coins/index.tsx:106 | behind an approval URL with a query, the corrected tab URL keeps every entry of that query and adds the order id after them |
| CoinPurchase.PurchaseCoinsPage.constructor | src/components/pages/purchase-coins/index.tsx:12 | no plan is loading and nothing was called, opened or pushed |
| CoinPurchase.PurchaseCoinsPage.HandlePurchase | src/components/pages/purchase-coins/index.tsx:63-132 | a signed-out visitor is sent to sign in and nothing else happens; otherwise one order for the plan's coins and price; with an approval URL one tab opens at the URL as written, `approvalUrl?orderId=…`, and the plan's button stays disabled; on every failure no tab opens and the button is enabled again |
| CoinPurchase.PaymentSuccessPage.constructor | src/components/pages/purchase-coins/success/index.tsx:13-17 | the page starts verifying, not verified, with the `token` of its query |
| CoinPurchase.PaymentSuccessPage.Verify | src/components/pages/purchase-coins/success/index.tsx:16-95 | without a token it goes back to the shop and keeps the spinner; otherwise one verify call with the token as order id, and the spinner ends; a first confirmed payment marks the page verified, refreshes the session and its storage entry and schedules the way back; a repeated one changes nothing; every other outcome goes back at once |
| Pagination.Numbers | src/components/utility/pagination.tsx:49-51 | the links `lo` to `hi` in order, none when `lo > hi` |
| Pagination.NumbersSnoc | src/components/utility/pagination.tsx:64-68 | one more iteration appends the next page |
| Pagination.PushWindow | src/components/utility/pagination.tsx:64-68 | the middle loop appends exactly the window's pages to what was pushed before |
| Pagination.PageNumbers | src/components/utility/pagination.tsx:43-81 | `getPageNumbers` builds exactly the reference bar |
| Pagination.PageList | src/components/utility/pagination.tsx:43-81 | the reference bar `getPageNumbers` is held to; its properties are `Pagination.SmallBarListsAll`, `Pagination.LongBarAt`, `Pagination.BarEnds`, `Pagination.GapsIff`, `Pagination.PagesIncreasing`, `Pagination.NoSilentSkips` and `Pagination.CurrentShown` |
| Pagination.SmallBarListsAll | src/components/utility/pagination.tsx:47-51 | with two to five pages, every page is listed once, in order |
| Pagination.LongBarAt | src/components/utility/pagination.tsx:52-78 | a long bar is page 1, an ellipsis when `current > 3`, the window, an ellipsis when `current < total - 2`, and the last page |
| Pagination.WindowBounds | src/components/utility/pagination.tsx:61-62 | the window holds at most three pages, strictly between the first and the last |
| Pagination.BarEnds | src/components/utility/pagination.tsx:43-81 | the bar starts with page 1, ends with the last page, and has at most seven entries |
| Pagination.GapsIff | src/components/utility/pagination.tsx:56-71 | for a current page in range, an ellipsis follows page 1 exactly when `current > 3` and precedes the last exactly when `current < total - 2` |
| Pagination.PagesIncreasing | src/components/utility/pagination.tsx:43-81 | the links are strictly increasing and lie between 1 and the last page |
| Pagination.NoSilentSkips | src/components/utility/pagination.tsx:43-81 | neighbouring links are consecutive pages and an ellipsis stands between two links and hides at least one page |
| Pagination.CurrentShown | src/components/utility/pagination.tsx:61-77 | the current page and its existing neighbours are always links on the bar |
| Pagination.GapLabel | src/components/utility/pagination.tsx:105-116 | the tooltip reads "More pages" exactly when no page lies after the current one but the last |
| Pagination.PageHrefReadBack | src/components/utility/pagination.tsx:33-37 | a page change reads back the page number and keeps every other parameter with all its values |
| Pagination.PaginationBar.constructor | src/components/utility/pagination.tsx:25-29 | the base path defaults to `/series`, and nothing was pushed |
| Pagination.PaginationBar.ChangePage | src/components/utility/pagination.tsx:33-37 | on a rendered bar, `handlePageChange` pushes the base path with the current query, `page` set |
| Pagination.PaginationBar.Previous | src/components/utility/pagination.tsx:91-96 | on a rendered bar, the previous arrow pushes the page before, except from the first page |
| Pagination.PaginationBar.Next | src/components/utility/pagination.tsx:143-148 | on a rendered bar, the next arrow pushes the page after, except from the last page |
| Sorting.LeReflexive | src/components/pages/series/filter/index.tsx:113 | the order `sort()` uses is reflexive |
| Sorting.LeTotal | src/components/pages/series/filter/index.tsx:113 | any two strings are comparable |
| Sorting.LeAntisymmetric | src/components/pages/series/filter/index.tsx:113 | two strings each at most the other are equal |
| Sorting.LeTransitive | src/components/pages/series/filter/index.tsx:113 | the order is transitive |
| Sorting.InsertMultiset | src/components/pages/series/filter/index.tsx:113 | inserting a string adds exactly that string |
| Sorting.HeadIsLeast | src/components/pages/series/filter/index.tsx:113 | every element of a sorted list is at least its head |
| Sorting.InsertSorted | src/components/pages/series/filter/index.tsx:113 | inserting into a sorted list keeps it sorted |
| Sorting.SortSpec | src/components/pages/series/filter/index.tsx:111-136 | `sort()` yields a sorted permutation of its input |
| Sorting.Sort | src/components/pages/series/filter/index.tsx:113 | `sort()` by insertion; its meaning is `Sorting.SortSpec`, and `Sorting.SortedUnique` and `Sorting.SortEqualIff` relate two sorts |
| Sorting.SortedUnique | src/components/pages/series/filter/index.tsx:111-136 | two sorted lists with the same strings, as often, are equal |
| Sorting.SortedTail | src/components/pages/series/filter/index.tsx:113 | the tail of a sorted list is sorted |
| Sorting.TailMultiset | src/components/pages/series/filter/index.tsx:113 | the tail holds the list's strings minus its head |
| Sorting.SortEqualIff | src/components/pages/series/filter/index.tsx:111-145 | two lists sort alike exactly when they hold the same strings as often: the comparison ignores order and nothing else |
| MultiSelect.Values | src/components/pages/series/filter/index.tsx:154 | `map((s) => s.value)` keeps the length and takes each value in place |
| MultiSelect.WithoutValue | src/components/ui/multi-select.tsx:37 | filtering by value never grows the list and leaves no entry with that value |
| MultiSelect.RemoveClick | src/components/ui/multi-select.tsx:43-45 | a chip's remove button calls `onChange` exactly when the control is enabled |
| MultiSelect.Label | src/components/ui/multi-select.tsx:57-59 | the trigger reads the placeholder, `Select options` by default, for an empty selection, and `N selected` otherwise |
| MultiSelect.WithoutValueMembers | src/components/ui/multi-select.tsx:37 | filtering keeps exactly the entries with another value |
| MultiSelect.WithoutValueAppend | src/components/ui/multi-select.tsx:37 | filtering distributes over concatenation, so the kept entries stay in order |
| MultiSelect.WithoutAbsent | src/components/ui/multi-select.tsx:37 | filtering out a value no entry has changes nothing |
| MultiSelect.ToggleEffect | src/components/ui/multi-select.tsx:34-41 | an absent option is appended at the end, a present one loses every entry with its value, its selected state flips, and other values keep their entries |
| MultiSelect.ToggleTwiceAbsent | src/components/ui/multi-select.tsx:34-41 | toggling an absent option twice gives back the selection it started from |
| MultiSelect.ToggleTwicePresent | src/components/ui/multi-select.tsx:34-41 | toggling a present option twice leaves one entry with its value, now at the end |
| MultiSelect.WithoutValueDistinct | src/components/ui/multi-select.tsx:37 | filtering keeps a selection free of repeated values |
| MultiSelect.ToggleDistinct | src/components/ui/multi-select.tsx:34-41 | a click keeps a selection free of repeated values |
| MultiSelect.RemoveKeepsOthers | src/components/ui/multi-select.tsx:43-45 | removing a chip keeps every other entry and drops every entry with its value |
| SeriesFilter.Pick | src/components/pages/series/filter/index.tsx:73-75 | `options.filter((opt) => values.includes(opt.value))` keeps exactly the options whose value is listed |
| SeriesFilter.FromQuery | src/components/pages/series/filter/index.tsx:58-107 | the filters the panel reads from the URL: each list parameter picked from its options, the search as given; `SeriesFilter.SelectionRoundTrip` and `SeriesFilter.ReopenAppliedUrl` read back what the panel wrote |
| SeriesFilter.Fingerprint | src/components/pages/series/filter/index.tsx:111-136 | a selection as its sorted values joined with ","; its meaning is `SeriesFilter.FingerprintIff` |
| SeriesFilter.Unsaved | src/components/pages/series/filter/index.tsx:110-146 | `hasUnsavedChanges()`: some fingerprint differs from its applied copy, or the trimmed search does; its meaning is `SeriesFilter.UnsavedIff` |
| SeriesFilter.Count | src/components/pages/series/filter/index.tsx:192-196 | `activeFiltersCount`: one per applied option and one for a search; `SeriesFilter.NoBadgeIffNoFilterInUrl` ties it to the pushed URL |
| SeriesFilter.CategoryChoices | src/components/pages/series/filter/index.tsx:48-51 | each genre name the server returns becomes one option with that name as label and value, in order |
| SeriesFilter.SetOrDelete | src/components/pages/series/filter/index.tsx:153-178 | one filter is written into the query: `set` when it has a value, `delete` otherwise |
| SeriesFilter.ApplyUrl | src/components/pages/series/filter/index.tsx:149-189 | "Apply Filters" pushes `/series` with a copy of the current query, each filter set or deleted, and page 1 |
| SeriesFilter.Applied | src/components/pages/series/filter/index.tsx:149-181 | the query "Apply Filters" builds from the current one; its meaning is `SeriesFilter.AppliedReads` |
| SeriesFilter.ApplyHref | src/components/pages/series/filter/index.tsx:149-189 | the URL "Apply Filters" pushes: `/series?` and the built query; `SeriesFilter.ApplyHrefQuery` and `SeriesFilter.ApplyHrefReadsBack` read its query back |
| SeriesFilter.ApplyHrefReadsBack | src/components/pages/series/filter/index.tsx:149-189 | the query the router reads from the pushed URL is exactly the query the panel built |
| SeriesFilter.FilterPanel.constructor | src/components/pages/series/filter/index.tsx:27-42 | the panel starts closed and uninitialised, with empty edited and applied filters and no genres |
| SeriesFilter.FilterPanel.ToggleOpen | src/components/pages/series/filter/index.tsx:202 | the Filters button flips `isOpen` and changes nothing else |
| SeriesFilter.FilterPanel.LoadCategories | src/components/pages/series/filter/index.tsx:45-55 | one genre fetch; a successful result with data becomes the genre options, anything else keeps them |
| SeriesFilter.FilterPanel.Initialize | src/components/pages/series/filter/index.tsx:58-107 | once genres are loaded, and only the first time, both copies of the filters are set from the URL, and only an untrimmed search shows as unsaved |
| SeriesFilter.FilterPanel.ChangeStatus | src/components/pages/series/filter/index.tsx:238 | the status drop-down replaces only the edited status |
| SeriesFilter.FilterPanel.ChangeNovelType | src/components/pages/series/filter/index.tsx:249 | the type drop-down replaces only the edited type |
| SeriesFilter.FilterPanel.ChangeCategories | src/components/pages/series/filter/index.tsx:260 | the genre drop-down replaces only the edited genres |
| SeriesFilter.FilterPanel.ChangeSearch | src/components/pages/series/filter/index.tsx:278 | typing replaces only the edited search |
| SeriesFilter.FilterPanel.CatchUp | src/components/pages/series/filter/index.tsx:184-187 | the applied copy takes the selections and the trimmed search, after which nothing is unsaved |
| SeriesFilter.FilterPanel.Apply | src/components/pages/series/filter/index.tsx:149-190 | "Apply Filters" pushes the URL built from the page's current query, the page's query becomes the built one, the edited filters stay as they were and nothing is left unsaved |
| SeriesFilter.NothingUnsavedAfterApply | src/components/pages/series/filter/index.tsx:110-146 | once applied, the edited filters show no unsaved change against the applied copy |
| SeriesFilter.ListValueSplits | src/components/pages/series/filter/index.tsx:154 | a non-empty selection of plain values becomes a non-empty parameter that splits back into its values |
| SeriesFilter.FingerprintIff | src/components/pages/series/filter/index.tsx:111-136 | two selections of plain values have the same fingerprint exactly when they hold the same values as often, whatever the click order |
| SeriesFilter.SortedPlain | src/components/pages/series/filter/index.tsx:113 | sorting keeps plain values plain |
| SeriesFilter.UnsavedIff | src/components/pages/series/filter/index.tsx:110-146 | the edited filters are unsaved exactly when some selection holds other values than its applied copy, or the trimmed search differs from the applied one |
| SeriesFilter.UpdateReads | src/components/pages/series/filter/index.tsx:153-178 | after a set or delete the name reads the new value or none, and every other name reads and keeps its values as before |
| SeriesFilter.AppliedReads | src/components/pages/series/filter/index.tsx:149-181 | the built query reads page 1, each selection joined with `,`, the trimmed search when one is left, and every other parameter as before |
| SeriesFilter.ApplyHrefQuery | src/components/pages/series/filter/index.tsx:189 | the query of the pushed URL is exactly the query that was built |
| SeriesFilter.NoBadgeIffNoFilterInUrl | src/components/pages/series/filter/index.tsx:192-196 | after applying, the badge count is zero exactly when the pushed URL carries none of the four filters |
| SeriesFilter.DistinctCount | src/components/pages/series/filter/index.tsx:73-75 | a list without repeats holds each of its elements once |
| SeriesFilter.PickDistinct | src/components/pages/series/filter/index.tsx:73-75 | picking from options without repeated values yields a selection without repeated values, in option order |
| SeriesFilter.PickValues | src/components/pages/series/filter/index.tsx:73-75 | reading back a selection drawn from the options picks the same values, each once |
| SeriesFilter.OptionListsWellFormed | src/components/pages/series/filter/index.tsx:13-22 | the fixed status and type options are plain and hold each value once |
| SeriesFilter.SelectionRoundTrip | src/components/pages/series/filter/index.tsx:71-90 | a selection written into the URL and read back holds the same values as often |
| SeriesFilter.ReopenAppliedUrl | src/components/pages/series/filter/index.tsx:58-189 | opening the pushed URL in a fresh panel gives back what was applied: each selection's values, as often, and the trimmed search |
| SeriesFilter.ReopenedPanelSaved | src/components/pages/series/filter/index.tsx:58-189 | so the reopened panel shows no unsaved change against the panel that applied them |
| SeriesCatalogue.ReadFilters | src/components/pages/series/index.tsx:33-56 | the fetch fills the filters record from the URL: each list split on `,` when present and non-empty, the search when non-empty |
| SeriesCatalogue.FiltersOf | src/components/pages/series/index.tsx:33-56 | the filters record the catalogue fetch fills from the URL; its meaning is `SeriesCatalogue.ReadFilters` |
| SeriesCatalogue.CataloguePage.constructor | src/components/pages/series/index.tsx:14-22 | the page starts loading, with no series, no error, and page 1 of 24 in one page |
| SeriesCatalogue.CataloguePage.Fetch | src/components/pages/series/index.tsx:24-78 | one catalogue call with the URL's page, limit and filters; success with data replaces the list and pagination; anything else sets the error or its fallback and keeps them; loading ends in every case |
| SeriesCatalogue.Defaults | src/components/pages/series/index.tsx:31-32 | without a page or limit in the URL, or with an empty one, the fetch asks for page 1 of 24 |
| SeriesCatalogue.PageOf | src/components/pages/series/index.tsx:31 | `parseInt(searchParams.get("page") || "1", 10)`; its properties are `SeriesCatalogue.Defaults` and `SeriesCatalogue.NumberReadBack` |
| SeriesCatalogue.NumberReadBack | src/components/pages/series/index.tsx:31-32 | a number written into the URL is read back as that number |
| SeriesCatalogue.ListRejoined | src/components/pages/series/index.tsx:45-53 | a filter parameter split on `,` and joined again by the client is the parameter itself, and an empty one is not sent |
| SeriesCatalogue.RequestCarriesUrlFilters | src/components/pages/series/index.tsx:31-58 | each filter the catalogue request carries is the URL's parameter, dropped when empty |
| SeriesCatalogue.AppliedFiltersReachRequest | src/components/pages/series/index.tsx:31-58 | opening the URL the filter panel pushes, the fetch asks for page 1 and sends each filter exactly as the panel wrote it |
| SeriesCatalogue.NonEmptyListValue | src/components/pages/series/filter/index.tsx:154 | a selection of plain values never becomes an empty parameter |
| Carousels.Forward | src/components/banner/index.tsx:68 | `(i + 1) % count` stays among the slides and wraps from the last to the first |
| Carousels.Backward | src/components/banner/index.tsx:78-81 | `(i - 1 + count) % count` stays among the slides and wraps from the first to the last |
| Carousels.BackwardUndoesForward | src/components/banner/index.tsx:63-84 | the previous button undoes the next button, and the other way round |
| Carousels.Advance | src/components/pages/home/hero.tsx:60-70 | any number of rotation steps stays among the slides |
| Carousels.AdvanceWithinLap | src/components/pages/home/hero.tsx:60-70 | within one lap, `k` steps from `i` reach `i + k`, less the count once past the end |
| Carousels.RotationVisitsAll | src/components/pages/home/hero.tsx:60-70 | rotation from the first slide shows every slide in turn and is back after one lap |
| Carousels.Visible | src/components/banner/index.tsx:40-43 | the visible announcements are never more than all of them |
| Carousels.VisibleMembers | src/components/banner/index.tsx:40-43 | an announcement is visible exactly when its id is not dismissed |
| Carousels.VisibleAppend | src/components/banner/index.tsx:40-43 | filtering distributes over concatenation, so the visible ones keep their order |
| Carousels.VisibleTwice | src/components/banner/index.tsx:40-43 | earlier dismissals stay in force: filtering twice is filtering by both sets |
| Carousels.VisibleNone | src/components/banner/index.tsx:40-43 | dismissing ids no announcement has changes nothing |
| Carousels.AsWrittenOverruns | src/components/banner/index.tsx:51-61 | with two visible, dismissing the first sets the index one past the end of the one that remains |
| Carousels.DismissedIndex | src/components/banner/index.tsx:51-61 | the corrected index after a dismissal points into what remains |
| Carousels.DismissedIndexAsWritten | src/components/banner/index.tsx:57 | the index `handleDismiss` sets, as written: one on, modulo the count before the dismissal; `Carousels.AsWrittenOverruns` and `Carousels.AsWrittenSkipsNext` show what it does |
| Carousels.AsWrittenSkipsNext | src/components/banner/index.tsx:57 | as written, with distinct ids and two more announcements after the dismissed one, the banner shows the second of them and skips the one that followed |
| Carousels.VisibleDropsOne | src/components/banner/index.tsx:51-61 | dismissing an announcement drops it and filters what is around it |
| Carousels.VisibleAround | src/components/banner/index.tsx:51-61 | dismissing `visible[i]` leaves the ones before it, then the ones after it |
| Carousels.DismissedIndexFollows | src/components/banner/index.tsx:51-61 | after a dismissal the corrected index starts the announcements that followed the dismissed one, or returns to the first when none follows |
| Carousels.DismissShowsNext | src/components/banner/index.tsx:51-61 | with distinct ids, the corrected index shows the announcement one on from the dismissed one |
| Carousels.Banner.View | src/components/banner/index.tsx:45-49 | nothing when every announcement is dismissed; a render error when the index lies past the end of what remains; otherwise a visible announcement, its position and count, and controls exactly when more than one is left |
| Carousels.Banner.constructor | src/components/banner/index.tsx:19-21 | nothing dismissed and the first announcement current |
| Carousels.Banner.Dismiss | src/components/banner/index.tsx:51-61 | the current id joins the dismissed ones and the visible list loses exactly that announcement; when others were visible the index becomes `(currentIndex + 1) % n`, with `n` counted before the dismissal, as written |
| Carousels.Banner.Next | src/components/banner/index.tsx:63-71 | one on around the visible list, or nothing with at most one left; the current announcement stays defined |
| Carousels.Banner.Previous | src/components/banner/index.tsx:73-84 | one back around the visible list, or nothing with at most one left; the current announcement stays defined |
| Carousels.Banner.GoToIndex | src/components/banner/index.tsx:86-94 | a dot makes its announcement the current one |
| Carousels.LoginCarousel.constructor | src/components/pages/accounts/layout/carousel.tsx:57-58 | the first slide, with autoplay on |
| Carousels.LoginCarousel.Tick | src/components/pages/accounts/layout/carousel.tsx:60-68 | the five-second interval moves one slide on only while autoplay is on |
| Carousels.LoginCarousel.GoToSlide | src/components/pages/accounts/layout/carousel.tsx:70-73 | a dot shows its slide and stops autoplay |
| Carousels.LoginCarousel.NextSlide | src/components/pages/accounts/layout/carousel.tsx:75-78 | next moves one slide on, wrapping, and stops autoplay |
| Carousels.LoginCarousel.PrevSlide | src/components/pages/accounts/layout/carousel.tsx:80-83 | previous moves one slide back, wrapping, and stops autoplay |
| Carousels.LoginCarousel.MouseEnter | src/components/pages/accounts/layout/carousel.tsx:90 | the mouse over the carousel pauses it and keeps the slide |
| Carousels.LoginCarousel.MouseLeave | src/components/pages/accounts/layout/carousel.tsx:91 | the mouse leaving resumes it and keeps the slide |
| Carousels.HeroSlider.View | src/components/pages/home/hero.tsx:80-134 | the spinner while loading; the error or "No chapters available" when the fetch failed or found none; otherwise the active chapter with at most four of its categories, and dots exactly for several chapters |
| Carousels.HeroSlider.constructor | src/components/pages/home/hero.tsx:28-31 | loading, with no chapters, no error and the first slide |
| Carousels.HeroSlider.Fetch | src/components/pages/home/hero.tsx:34-54 | one request for five chapters; success with data replaces the chapters and shows the first; anything else sets the error or its fallback; loading ends in every case |
| Carousels.HeroSlider.Tick | src/components/pages/home/hero.tsx:57-70 | the interval moves one chapter on, wrapping, only when there is more than one |
| Carousels.HeroSlider.DotClick | src/components/pages/home/hero.tsx:72-78 | a dot makes its chapter the active slide |
| Comments.Thread | src/components/comment/comment-item.tsx:130-222 | every comment of a thread gets exactly one card, itself first at its depth and its replies deeper; a card has a reply button exactly when it is above the maximum depth and the reader is signed in, and a delete button exactly when the viewer wrote it |
| Comments.Replies | src/components/comment/comment-item.tsx:208-222 | the threads of a list of replies, one card per comment, none shallower than the replies' depth, with the same button rules |
| Comments.SignedOutCannotReply | src/components/comment/comment-item.tsx:131-132 | a signed-out reader sees no reply button anywhere in a thread |
| Comments.ReplySubmission | src/components/comment/comment-item.tsx:68-89 | sign-in first exactly when signed out, refused exactly when signed in with a blank reply, never "no target"; otherwise the trimmed text is sent to the comment's series and chapter with the comment as parent |
| Comments.FormSubmission | src/components/comment/comment-form.tsx:31-57 | the three guards in order (signed in, not blank, a series or chapter id), each exactly characterised; otherwise the trimmed text is sent with both ids and no parent |
| Comments.EnabledSubmitSends | src/components/comment/comment-form.tsx:83-88 | an enabled submit button passes the sign-in and blank guards, and sends whenever there is a series or a chapter |
| Comments.EnabledReplySends | src/components/comment/comment-item.tsx:186-192 | for a signed-in reader an enabled "Post Reply" button always sends |
| Comments.CommentItem.constructor | src/components/comment/comment-item.tsx:61-64 | the reply box closed and empty, nothing submitting or deleting, nothing called |
| Comments.CommentItem.ToggleReplying | src/components/comment/comment-item.tsx:164-170 | the reply button, offered only where a reply is allowed, opens or closes the box and keeps its text |
| Comments.CommentItem.EditReply | src/components/comment/comment-item.tsx:183 | typing replaces the reply text and changes nothing else |
| Comments.CommentItem.CancelReply | src/components/comment/comment-item.tsx:197-201 | cancel closes the box and clears its text |
| Comments.CommentItem.HandleReply | src/components/comment/comment-item.tsx:68-104 | a signed-out reader is sent to sign in; a blank reply does nothing; otherwise one create call, and only a posted reply clears and closes the box and tells the thread; submitting ends in every sent case |
| Comments.CommentItem.HandleDelete | src/components/comment/comment-item.tsx:106-128 | nothing without the confirmation; otherwise one delete call by the comment's id, the thread told only on success, deleting ended in every case |
| Comments.CommentForm.constructor | src/components/comment/comment-form.tsx:26-27 | an empty text, nothing submitting, nothing called |
| Comments.CommentForm.Edit | src/components/comment/comment-form.tsx:80 | typing replaces the text and changes nothing else |
| Comments.CommentForm.HandleSubmit | src/components/comment/comment-form.tsx:31-72 | the guards of FormSubmission in order, sending to sign in only when signed out; one create call when they pass, and the text cleared and the list told only on success |
| Accounts.SixCharactersPass | src/components/pages/accounts/register/index.tsx:33 | a password of six characters or more is never refused for its length, since each character is at least one UTF-16 unit |
| Accounts.FailureMessage | src/components/pages/accounts/login/index.tsx:46-51 | a thrown error shows its message or the generic one; a returned error shows its text or the page's fallback; a reply without data shows the fallback; the message is never empty |
| Accounts.NoRedirect | src/components/pages/accounts/login/index.tsx:27 | a page path with no query reads back no redirect parameter |
| Accounts.WithRedirect | src/components/pages/accounts/login/index.tsx:143 | `page + (redirect ? "?redirect=" + redirect : "")`; its meaning is `Accounts.WithRedirectKeepsTarget` |
| Accounts.RegisterLink | src/components/pages/accounts/login/index.tsx:143 | the sign-in page's link to registration; its meaning is `Accounts.RegisterLinkKeepsRedirect` |
| Accounts.LoginLinkAsWritten | src/components/pages/accounts/register/index.tsx:157 | the registration page's link to sign in as written, `login + "?redirect=" + redirect`; `Accounts.LoginLinkAsWrittenSendsToNull` shows it without a redirect |
| Accounts.LoginLink | src/components/pages/accounts/register/index.tsx:157 | the link evidently meant, passing the redirect on only when there is one; its meaning is `Accounts.LoginLinkKeepsRedirect` |
| Accounts.RawRedirectReadBack | src/components/pages/accounts/login/index.tsx:143 | a redirect appended as it is after a path with no query reads back unchanged when it is plain text without `&` |
| Accounts.WithRedirectKeepsTarget | src/components/pages/accounts/login/index.tsx:143 | following a link that passes the redirect on and signing in there ends where the redirect pointed, or at home when there was none |
| Accounts.RegisterLinkKeepsRedirect | src/components/pages/accounts/login/index.tsx:143 | the sign-in page's registration link keeps the redirect for the registration page |
| Accounts.LoginLinkKeepsRedirect | src/components/pages/accounts/register/index.tsx:157 | the corrected registration page's sign-in link keeps the redirect for the sign-in page, and sends home when there was none |
| Accounts.LoginLinkAsWrittenSendsToNull | src/components/pages/accounts/register/index.tsx:157 | as written, a registration page opened without a redirect links to sign in with `redirect=null`, and signing in there goes to the path "null" instead of home |
| Accounts.LoginForm.constructor | src/components/pages/accounts/login/index.tsx:21-27 | the form starts with the page's redirect, not loading, no error and nothing done |
| Accounts.LoginForm.RegisterHref | src/components/pages/accounts/login/index.tsx:141-144 | the link to registration passes the redirect on: registering there ends where signing in here would, or at home without a redirect |
| Accounts.LoginForm.HandleSubmit | src/components/pages/accounts/login/index.tsx:29-56 | one sign-in call; with data the session takes the user and its stored copy before the router moves to the redirect or home and refreshes; otherwise the failure message shows and the session and storage are untouched; loading ends in every case |
| Accounts.RegisterForm.constructor | src/components/pages/accounts/register/index.tsx:19-26 | the form starts with the page's redirect, not loading, no error and nothing done |
| Accounts.RegisterForm.LoginHref | src/components/pages/accounts/register/index.tsx:155-158 | the link to sign in as written: a redirect of plain text without `&` reads back unchanged, and no redirect reads back as the text "null" |
| Accounts.RegisterForm.HandleSubmit | src/components/pages/accounts/register/index.tsx:28-59 | a password under six UTF-16 units is refused with its message and no call; otherwise one register call, then the redirect or home on success, or the failure message, and loading ends |
| Accounts.ResetCheck | src/components/pages/accounts/reset-password/index.tsx:34-50 | the validations in order, each one characterised exactly: a missing token, then a short password, then a mismatch; nothing when all pass |
| Accounts.ConfirmedPasswordPasses | src/components/pages/accounts/reset-password/index.tsx:42-50 | with a token, a confirmed password of six characters or more passes every check |
| Accounts.ResetPasswordForm.constructor | src/components/pages/accounts/reset-password/index.tsx:17-30 | the first render and its effect: a missing token shows the invalid-link message at once |
| Accounts.ResetPasswordForm.View | src/components/pages/accounts/reset-password/index.tsx:99-164 | the success notice exactly after a successful reset; the error exactly when it is set and non-empty; the form exactly while there is a token and no success; the link back to sign in with the form, or alone without a token |
| Accounts.ResetPasswordForm.HandleSubmit | src/components/pages/accounts/reset-password/index.tsx:32-72 | a failed check shows its message and calls nothing; otherwise one reset call with the token and password; success is shown and the router moves to sign in, failure shows its message; loading ends after the call |
| NovelDetails.Price | src/components/pages/series/novel-details/index.tsx:462 | the shown price is never 0: a chapter's own non-zero price, otherwise the default of 20 coins |
| NovelDetails.Latest | src/components/pages/series/novel-details/index.tsx:174 | the newest chapter of the page, the first entry, exactly when the page has chapters |
| NovelDetails.First | src/components/pages/series/novel-details/index.tsx:175 | the oldest chapter of the page, the last entry, exactly when the page has chapters |
| NovelDetails.PricesOf | src/components/pages/series/novel-details/index.tsx:459-463 | a price beside exactly the premium chapters, in order: the chapter's own price when it is set and non-zero, else 20 |
| NovelDetails.LatestAndFirstBound | src/components/pages/series/novel-details/index.tsx:174-175 | on a page listed newest first, "latest" has the highest chapter number of the page and "first" the lowest |
| NovelDetails.Toggled | src/components/pages/series/novel-details/index.tsx:136-146 | the bookmark flag changes exactly when the toggle's call succeeded |
| NovelDetails.ToggleTwice | src/components/pages/series/novel-details/index.tsx:136-146 | two successful toggles restore the flag and make one add call and one remove call |
| NovelDetails.DetailsPage.constructor | src/components/pages/series/novel-details/index.tsx:64-78 | the first render: loading, no series, no chapters, no error, not bookmarked, the initial pagination of page 1 of 1 with 20 per page |
| NovelDetails.DetailsPage.View | src/components/pages/series/novel-details/index.tsx:153-476 | the spinner exactly while loading; the error or "Series not found" exactly when there is an error or no series; otherwise the series, the latest and first chapter, a price beside exactly the premium chapters, and the pagination exactly when there are several pages |
| NovelDetails.DetailsPage.Adopt | src/components/pages/series/novel-details/index.tsx:93-111 | the data replaces series, chapters and pagination; only a signed-in reader's bookmark is checked, and only a check that succeeds with data sets the flag; a thrown check is the page's error |
| NovelDetails.DetailsPage.Fetch | src/components/pages/series/novel-details/index.tsx:83-124 | nothing without a slug; otherwise one details call for the URL's page with 20 per page; data is adopted, anything else keeps the old state and sets the error or its fallback; loading ends in every case |
| NovelDetails.DetailsPage.ToggleBookmark | src/components/pages/series/novel-details/index.tsx:126-151 | a signed-out reader is sent to sign in with this page as the redirect; before the series is loaded nothing happens; otherwise one remove or add call by the bookmark state, the flag flips only on success, and bookmarking ends |
| Bookmarks.Without | src/components/pages/reading/tabs/content/bookmarked/index.tsx:113 | the filtered list is no longer than the old one and keeps no bookmark with the removed id |
| Bookmarks.WithoutMembers | src/components/pages/reading/tabs/content/bookmarked/index.tsx:113 | a bookmark stays in the list exactly when it was there and its id is not the removed one |
| Bookmarks.WithoutAppend | src/components/pages/reading/tabs/content/bookmarked/index.tsx:113 | the removal works piece by piece, so the kept bookmarks keep their order |
| Bookmarks.WithoutAbsent | src/components/pages/reading/tabs/content/bookmarked/index.tsx:113 | removing an id that no bookmark has changes nothing |
| Bookmarks.WithoutTwice | src/components/pages/reading/tabs/content/bookmarked/index.tsx:113 | removing the same bookmark twice is removing it once |
| Bookmarks.WithoutDropsOne | src/components/pages/reading/tabs/content/bookmarked/index.tsx:113 | with distinct ids, removing a listed bookmark's id drops exactly that entry and keeps the rest around it |
| Bookmarks.WithoutSkips | src/components/pages/reading/tabs/content/bookmarked/index.tsx:113 | removing the id of one bookmark removes it and that id on each side of it |
| Bookmarks.BookmarkCard.constructor | src/components/pages/reading/tabs/content/bookmarked/card.tsx:36 | a new card is not removing, has called nothing and has told the list nothing |
| Bookmarks.BookmarkCard.View | src/components/pages/reading/tabs/content/bookmarked/card.tsx:14-95 | nothing exactly when the bookmark has no series; otherwise its title, the link to the series page by slug, the "Bookmarked" stamp of the time since it was bookmarked, and the first three of its categories, or all of them when there are fewer |
| Bookmarks.BookmarkCard.HandleRemove | src/components/pages/reading/tabs/content/bookmarked/card.tsx:43-55 | one remove call by the series id; the list is told to drop the card only on success; the button is enabled again in every case |
| Bookmarks.BookmarkList.constructor | src/components/pages/reading/tabs/content/bookmarked/index.tsx:35-37 | no bookmarks, loading, no error, nothing done |
| Bookmarks.BookmarkList.Load | src/components/pages/reading/tabs/content/bookmarked/index.tsx:39-68 | nothing while the session loads; a signed-out reader is sent to sign in with no fetch; otherwise one fetch whose data replaces the list, or whose failure sets the error or its fallback and keeps the list; loading ends |
| Bookmarks.BookmarkList.OnRemove | src/components/pages/reading/tabs/content/bookmarked/index.tsx:111-114 | the list becomes the old list without every bookmark of that id, and nothing else changes |

## Left out

- The network, the backend and the router: every remote call is an oracle whose reply is a method parameter, and navigation, refreshes and opened tabs are recorded, not performed. What the backend enforces (atomic chapter purchase, idempotent payment verification, withholding premium content) is not part of this model.
- The axios library itself: its error classification is modelled by the shape of the `Outcome` a call yields, not by its code.
- The authentication server actions (`loginAction`, `registerAction`, `resetPasswordAction`): `src/server-actions/auth.ts` is not part of this model, so the forms receive their replies as oracle results.
- Timers and transitions: the 100 ms and 300 ms waits, the 2 s and 3 s delayed redirects, the 50 ms and 150 ms transition flags and the 5 s intervals are each one immediate step; an interval is a `Tick` method the caller invokes.
- The clock and the locale: elapsed time is an integer parameter. The `toLocaleDateString` branch of the formatters is an opaque `LocaleDate` result.
- Floating point: line height, `averageRating.toFixed` and the star rating of the details page are rendering only.
- Toasts, `console` output and `confirm`: the toasts carry no state the pages read back; `confirm` is a boolean parameter.
- Rendering and styling beyond the decisions the pages make (which element shows, which button is enabled, what text and links appear).
- The details page's "Read a chapter" select, which only assigns `window.location.href`; the chapter number it parses is not modelled.
- The login carousel's commented-out arrow and dot controls are not rendered; the handlers are still modelled, since the source defines them.
- The banner's announcement fetch: it calls a client method that `src/api/interface.ts` does not define, so the banner's list is a parameter.
- Forgot-password, the comment and review sections, the OAuth buttons, the editor, navigation bars, footers, static test data and mock reading lists: fetch-and-display plumbing or rendering only.
- `src/server-actions/chapter.ts`: it delegates to the client with the same result flattening as the other actions; `src/routes/client.ts` is constants only and its paths are inlined in `Routes`.
- Concurrency: overlapping requests, "last response wins" and stale closures are not modelled. For example, a bookmark card's `onRemove` filters the list as it was when the card rendered; the model filters the current list.
- Character positions: strings are sequences of Unicode scalar values, so `slice`, `indexOf`, `trim` and `split` positions count code points where JavaScript counts UTF-16 units; they agree on text without characters above U+FFFF. Only the password length check counts UTF-16 units (`Text.Utf16Length`).
- Sorting.Sort: compares characters by code point, where JavaScript's default sort compares UTF-16 units; the two orders differ only between characters above U+FFFF and those in U+E000–U+FFFF.
- Text.ParseInt: accepts exactly an optional sign and decimal digits; JavaScript's `parseInt` also skips leading whitespace and reads a digit prefix of longer text ("12ab" is 12), which the model treats as not a number.
- UserStore.DecodeUser: reads back exactly the text `JSON.stringify` writes for the stored user shape; other valid JSON for the same user (other key order, extra spaces, other escapes) reads as unparsable, which `getUser` then treats as no user.
- SeriesFilter.FingerprintIff: proved for non-empty option values without a comma, since the source compares the sorted values joined with ","; an empty value or one containing a comma can make two different selections compare equal (`[""]` and `[]`, `["a,b"]` and `["a", "b"]`).
- ApiClient.ListParamRoundTrip: the split of a joined filter list gives the list back only for values without a comma, since the client joins with "," and the catalogue splits on it.
- The error message of the `TypeError` thrown when a reply has no body depends on the JavaScript engine; the model uses one fixed message.

## Findings

The page members follow the code as written (`CoinPurchase.PurchaseCoinsPage.HandlePurchase`,
`Carousels.Banner.Dismiss`, `Accounts.RegisterForm.LoginHref`); the corrected definitions stand
beside them with the intended property proved.

| source | as written | input that shows it | evidently intended | confidence | as-written member | corrected member |
|---|---|---|---|---|---|---|
| src/components/pages/purchase-coins/index.tsx:106 | the tab opened is `approvalUrl + "?orderId=" + orderId`, whatever the approval URL already holds | an approval URL with a query, such as `https://pay.example/checkoutnow?token=EC1`: the tab's URL then has no `orderId` parameter, and its `token` reads back as `EC1?orderId=…` | the order id is added as one more query parameter, with `&` when the URL already has a query | medium, not executed | CoinPurchase.ApprovalTargetAsWritten, CoinPurchase.AsWrittenLosesOrderId | CoinPurchase.ApprovalTarget, CoinPurchase.ApprovalTargetKeepsQuery |
| src/components/banner/index.tsx:51-61 | dismissing the current announcement sets the index to `(currentIndex + 1) % visibleAnnouncements.length`, computed on the list as it was before the dismissal | two visible announcements A and B, A current: dismissing A sets the index to 1, but only B remains, so `visibleAnnouncements[1]` is undefined and reading its `id` throws while rendering; with A, B and C, A current, the banner shows C and skips B | the index of the announcement that followed the dismissed one in the list that remains, or the first when none followed | high, not executed | Carousels.DismissedIndexAsWritten, Carousels.AsWrittenOverruns, Carousels.AsWrittenSkipsNext | Carousels.DismissedIndex, Carousels.DismissShowsNext |
| src/components/pages/accounts/register/index.tsx:157 | the link to sign in is `login + "?redirect=" + redirect`, also when the page has no redirect | the registration page opened with no `redirect` parameter: the link is `/account/login?redirect=null`, and signing in there goes to the relative path `null` instead of home | pass the redirect on only when there is one, as the sign-in page's registration link does | high, not executed | Accounts.LoginLinkAsWritten, Accounts.LoginLinkAsWrittenSendsToNull | Accounts.LoginLink, Accounts.LoginLinkKeepsRedirect |
