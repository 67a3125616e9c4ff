/**
 * The latest-novels section of the home page: each novel card lists its most recent chapters,
 * at most four of them.
 */
module HomeLatest {
  import opened Text

  const RecentChapterLimit := 4

  datatype RecentChapter = RecentChapter(id: string, chapterNumber: int, isPremium: bool, publishedAt: int)

  /** `novel.recentChapters.slice(0, 4)` */
  function RecentShown(recentChapters: seq<RecentChapter>): (r: seq<RecentChapter>)
    ensures |r| <= RecentChapterLimit && |r| <= |recentChapters|
    ensures r == recentChapters[..|r|]
    ensures |recentChapters| >= RecentChapterLimit ==> |r| == RecentChapterLimit
    ensures |recentChapters| < RecentChapterLimit ==> r == recentChapters
  {
    Take(recentChapters, RecentChapterLimit)
  }

  /** A card shows a chapter exactly when it is among the first four the server sent. */
  lemma RecentShownMembers(recentChapters: seq<RecentChapter>, k: nat)
    requires k < |recentChapters|
    ensures k < |RecentShown(recentChapters)| <==> k < RecentChapterLimit
    ensures k < RecentChapterLimit ==> RecentShown(recentChapters)[k] == recentChapters[k]
  {
  }
}
