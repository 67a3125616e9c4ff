/**
 * The backend endpoints the client calls, and the handful of page paths the front end
 * navigates to.
 */
module Routes {
  import opened Text

  // ---------------------------------------------------------------------------------------
  // Backend endpoints
  // ---------------------------------------------------------------------------------------

  const LatestChapters := "/chapter/public/latest"
  const LatestSeries := "/series/public/latest"
  const PopularTodaySeries := "/series/public/popular-today"
  const MostPopularSeries := "/series/public/most-popular"
  const AllSeries := "/series/public/all"
  const Categories := "/category"
  const ReaderLogin := "/account/reader/login"
  const ReaderRegister := "/account/reader/register"
  const CurrentUser := "/account/me"
  const Logout := "/account/logout"
  const UserBookmarks := "/bookmark/series"
  const CreateCoinPurchaseOrder := "/payment/coins/create-order"
  const VerifyPayment := "/payment/coins/verify"
  const UserCoinPurchases := "/payment/coins/purchases"
  const CreateComment := "/comment"

  function SeriesDetails(slug: string): string {
    "/series/public/" + slug
  }

  function ChapterReader(slug: string, chapterNumber: int): string {
    "/chapter/public/series/" + slug + "/chapter/" + IntToString(chapterNumber)
  }

  function BookmarkSeries(seriesId: string): string {
    "/bookmark/series/" + seriesId
  }

  function RemoveBookmark(seriesId: string): string {
    "/bookmark/series/" + seriesId
  }

  function CheckBookmark(seriesId: string): string {
    "/bookmark/series/" + seriesId
  }

  function LikeSeries(seriesId: string): string {
    "/like/series/" + seriesId
  }

  function UnlikeSeries(seriesId: string): string {
    "/like/series/" + seriesId
  }

  function CheckLike(seriesId: string): string {
    "/like/series/" + seriesId
  }

  function PurchaseChapter(chapterId: string): string {
    "/chapter/purchase/" + chapterId
  }

  function CoinPurchase(purchaseId: string): string {
    "/payment/coins/purchase/" + purchaseId
  }

  function SeriesComments(seriesId: string): string {
    "/comment/series/" + seriesId
  }

  function ChapterComments(chapterId: string): string {
    "/comment/chapter/" + chapterId
  }

  function DeleteComment(commentId: string): string {
    "/comment/" + commentId
  }

  function RateSeries(seriesId: string): string {
    "/series/" + seriesId + "/rate"
  }

  function UserRating(seriesId: string): string {
    "/series/" + seriesId + "/my-rating"
  }

  // ---------------------------------------------------------------------------------------
  // Page paths the front end navigates to
  // ---------------------------------------------------------------------------------------

  const HomePage := "/"
  const SeriesPage := "/series"
  const LoginPage := "/account/login"
  const RegisterPage := "/account/register"
  const PurchasePage := "/purchase"

  // ---------------------------------------------------------------------------------------
  // Properties
  // ---------------------------------------------------------------------------------------

  /** Every endpoint, constant or built from any argument, is an absolute path. */
  lemma EndpointsRooted(s: string, n: int)
    ensures forall r :: (r in [LatestChapters, LatestSeries, PopularTodaySeries, MostPopularSeries,
        AllSeries, Categories, ReaderLogin, ReaderRegister, CurrentUser, Logout, UserBookmarks,
        CreateCoinPurchaseOrder, VerifyPayment, UserCoinPurchases, CreateComment,
        SeriesDetails(s), ChapterReader(s, n), BookmarkSeries(s), RemoveBookmark(s),
        CheckBookmark(s), LikeSeries(s), UnlikeSeries(s), CheckLike(s), PurchaseChapter(s),
        CoinPurchase(s), SeriesComments(s), ChapterComments(s), DeleteComment(s),
        RateSeries(s), UserRating(s)]) ==> StartsWith(r, "/")
  {
  }

  /** Adding, removing and checking a bookmark all address the same resource; so do likes. */
  lemma SharedResourcePaths(seriesId: string)
    ensures BookmarkSeries(seriesId) == RemoveBookmark(seriesId) == CheckBookmark(seriesId)
    ensures LikeSeries(seriesId) == UnlikeSeries(seriesId) == CheckLike(seriesId)
    ensures BookmarkSeries(seriesId) != LikeSeries(seriesId)
  {
    assert BookmarkSeries(seriesId)[1] == 'b' && LikeSeries(seriesId)[1] == 'l';
  }

  /** The printed chapter number contains no `/`. */
  lemma NoSlashInNumber(n: int)
    ensures '/' !in IntToString(n)
  {
    var d := NatToString(if n < 0 then -n else n);
    assert forall i :: 0 <= i < |d| ==> IsDigit(d[i]);
    if n < 0 {
      assert IntToString(n) == "-" + d;
    }
  }

  /**
   * A reader path names one chapter of one series: different (slug, number) pairs never share
   * a path, whatever the slug contains.
   */
  lemma ChapterReaderInjective(slug1: string, n1: int, slug2: string, n2: int)
    requires ChapterReader(slug1, n1) == ChapterReader(slug2, n2)
    ensures slug1 == slug2 && n1 == n2
  {
    var t1 := IntToString(n1);
    var t2 := IntToString(n2);
    var p1 := "/chapter/public/series/" + slug1 + "/chapter/";
    var p2 := "/chapter/public/series/" + slug2 + "/chapter/";
    var s := p1 + t1;
    assert s == p2 + t2;
    NoSlashInNumber(n1);
    NoSlashInNumber(n2);
    assert s[|p1| - 1] == '/' && s[|p2| - 1] == '/';
    assert t1 == s[|p1|..] == t2;
    IntToStringInjective(n1, n2);
    assert p1[23..|p1| - 9] == slug1;
    assert p2[23..|p2| - 9] == slug2;
  }

  /** Series details paths are distinct per slug. */
  lemma SeriesDetailsInjective(slug1: string, slug2: string)
    requires SeriesDetails(slug1) == SeriesDetails(slug2)
    ensures slug1 == slug2
  {
    assert slug1 == SeriesDetails(slug1)[15..];
  }

  /**
   * The rating endpoints of one series differ only in the last segment, and a rating
   * submission never addresses the read-back endpoint of any series.
   */
  lemma RatingRoutes(seriesId: string, otherId: string)
    ensures RateSeries(seriesId) == "/series/" + seriesId + "/" + "rate"
    ensures UserRating(seriesId) == "/series/" + seriesId + "/" + "my-rating"
    ensures RateSeries(seriesId) != UserRating(otherId)
  {
    var a := RateSeries(seriesId);
    var b := UserRating(otherId);
    assert a[|a| - 1] == 'e';
    assert b[|b| - 1] == 'g';
  }

  /** The payment endpoints are distinct and all live under "/payment/coins/". */
  lemma PaymentRoutes(purchaseId: string)
    ensures CreateCoinPurchaseOrder != VerifyPayment
    ensures StartsWith(CreateCoinPurchaseOrder, "/payment/coins/")
    ensures StartsWith(VerifyPayment, "/payment/coins/")
    ensures StartsWith(CoinPurchase(purchaseId), "/payment/coins/")
    ensures PurchaseChapter(purchaseId) == "/chapter/purchase/" + purchaseId
  {
  }
}
