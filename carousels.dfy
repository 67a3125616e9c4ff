/**
 * The three rotating displays: the announcement banner above every page, the carousel beside
 * the sign-in forms and the hero slider on the home page. Each keeps one index into a list and
 * moves it around that list modulo its length.
 */
module Carousels {
  import opened Wrappers
  import opened Text
  import opened ServerActions

  // ---------------------------------------------------------------------------------------
  // Cyclic indexes
  // ---------------------------------------------------------------------------------------

  /** The remainder of a number below twice the divisor: itself, or one divisor less. */
  lemma WrapMod(x: int, n: int)
    requires n > 0 && 0 <= x < 2 * n
    ensures x % n == if x < n then x else x - n
  {
    var q, r := x / n, x % n;
    assert x == q * n + r && 0 <= r < n;
    MulOrder(-1, q, n);
    MulOrder(q, 2, n);
    assert q == 0 || q == 1;
  }

  /** Multiplying by a positive number keeps the order. */
  lemma MulOrder(a: int, b: int, n: int)
    requires n > 0
    ensures a * n < b * n <==> a < b
  {
    assert b * n - a * n == (b - a) * n;
  }

  /** `(i + 1) % count`: one slide on, from the last back to the first. */
  function Forward(count: nat, i: int): (r: int)
    requires count > 0 && 0 <= i < count
    ensures 0 <= r < count
    ensures r == if i + 1 < count then i + 1 else 0
  {
    WrapMod(i + 1, count);
    (i + 1) % count
  }

  /** `(i - 1 + count) % count`: one slide back, from the first round to the last. */
  function Backward(count: nat, i: int): (r: int)
    requires count > 0 && 0 <= i < count
    ensures 0 <= r < count
    ensures r == if i > 0 then i - 1 else count - 1
  {
    WrapMod(i - 1 + count, count);
    (i - 1 + count) % count
  }

  /** Going back undoes going on, and going on undoes going back. */
  lemma BackwardUndoesForward(count: nat, i: int)
    requires count > 0 && 0 <= i < count
    ensures Backward(count, Forward(count, i)) == i
    ensures Forward(count, Backward(count, i)) == i
  {
  }

  /** Where `k` steps forward from `i` lead, one step at a time. */
  function Advance(count: nat, i: int, k: nat): (r: int)
    requires count > 0 && 0 <= i < count
    ensures 0 <= r < count
    decreases k
  {
    if k == 0 then i else Forward(count, Advance(count, i, k - 1))
  }

  /** Within one lap, `k` steps forward from `i` are `i + k`, less `count` once past the end. */
  lemma {:induction false} AdvanceWithinLap(count: nat, i: int, k: nat)
    requires count > 0 && 0 <= i < count && k <= count
    ensures Advance(count, i, k) == if i + k < count then i + k else i + k - count
    decreases k
  {
    if k > 0 {
      AdvanceWithinLap(count, i, k - 1);
    }
  }

  /** Rotation shows every slide in turn, starting from the first, and is back after `count` steps. */
  lemma RotationVisitsAll(count: nat, i: int, j: int)
    requires count > 0 && 0 <= i < count && 0 <= j < count
    ensures Advance(count, 0, j) == j
    ensures Advance(count, i, count) == i
  {
    AdvanceWithinLap(count, 0, j);
    AdvanceWithinLap(count, i, count);
  }

  // ---------------------------------------------------------------------------------------
  // The announcement banner
  // ---------------------------------------------------------------------------------------

  datatype Kind = Info | Warning | Success | Error

  /** An announcement as the banner shows it. */
  datatype Announcement = Announcement(id: string, title: string, content: string, kind: Kind)

  /** `announcements.filter((a) => !dismissedIds.has(a.id))` */
  function Visible(announcements: seq<Announcement>, dismissed: set<string>): (r: seq<Announcement>)
    ensures |r| <= |announcements|
  {
    if |announcements| == 0 then []
    else
      (if announcements[0].id in dismissed then [] else [announcements[0]])
        + Visible(announcements[1..], dismissed)
  }

  /** The visible announcements are exactly those whose id is not dismissed. */
  lemma {:induction false} VisibleMembers(announcements: seq<Announcement>, dismissed: set<string>, a: Announcement)
    ensures a in Visible(announcements, dismissed) <==> a in announcements && a.id !in dismissed
  {
    if |announcements| > 0 {
      VisibleMembers(announcements[1..], dismissed, a);
      assert announcements == [announcements[0]] + announcements[1..];
    }
  }

  /** No two announcements share an id. */
  predicate DistinctIds(s: seq<Announcement>) {
    forall i, j :: 0 <= i < j < |s| ==> s[i].id != s[j].id
  }

  /** Filtering keeps the order: it distributes over concatenation. */
  lemma {:induction false} VisibleAppend(a: seq<Announcement>, b: seq<Announcement>, d: set<string>)
    ensures Visible(a + b, d) == Visible(a, d) + Visible(b, d)
  {
    if |a| == 0 {
      assert a + b == b;
    } else {
      var head := if a[0].id in d then [] else [a[0]];
      assert (a + b)[0] == a[0] && (a + b)[1..] == a[1..] + b;
      assert Visible(a + b, d) == head + Visible(a[1..] + b, d);
      VisibleAppend(a[1..], b, d);
      assert Visible(a, d) == head + Visible(a[1..], d);
    }
  }

  /** Dismissing more filters the visible list further: earlier dismissals stay in force. */
  lemma {:induction false} VisibleTwice(s: seq<Announcement>, d: set<string>, e: set<string>)
    ensures Visible(Visible(s, d), e) == Visible(s, d + e)
  {
    if |s| > 0 {
      var head := if s[0].id in d then [] else [s[0]];
      VisibleAppend(head, Visible(s[1..], d), e);
      VisibleTwice(s[1..], d, e);
    }
  }

  /** Filtering out ids nobody has changes nothing. */
  lemma {:induction false} VisibleNone(s: seq<Announcement>, d: set<string>)
    requires forall k :: 0 <= k < |s| ==> s[k].id !in d
    ensures Visible(s, d) == s
  {
    if |s| > 0 {
      VisibleNone(s[1..], d);
      assert s == [s[0]] + s[1..];
    }
  }

  /**
   * The index `handleDismiss` sets on dismissing `visible[i]`: one on from `i`, modulo the
   * length of the list as it was before the dismissal.
   */
  function DismissedIndexAsWritten(visible: seq<Announcement>, i: int): int
    requires |visible| > 1 && 0 <= i < |visible|
  {
    Forward(|visible|, i)
  }

  /**
   * Dismissing the second-to-last of the visible announcements leaves the index one past the
   * end of the list that remains: with two visible, dismissing the first points at a second
   * one that no longer exists.
   */
  lemma AsWrittenOverruns(a: Announcement, b: Announcement)
    requires a.id != b.id
    ensures Visible([a, b], {a.id}) == [b]
    ensures DismissedIndexAsWritten([a, b], 0) == |Visible([a, b], {a.id})|
  {
    assert [a, b][1..] == [b];
    assert [b][1..] == [];
  }

  /**
   * The index that shows the announcement that followed the dismissed one `visible[i]`: the
   * number of announcements before it that remain, or the first when none follows.
   */
  function DismissedIndex(visible: seq<Announcement>, i: int): (r: int)
    requires 0 <= i < |visible|
    ensures 0 <= r && (|Visible(visible, {visible[i].id})| > 0 ==> r < |Visible(visible, {visible[i].id})|)
  {
    var k := |Visible(visible[..i], {visible[i].id})|;
    if k < |Visible(visible, {visible[i].id})| then k else 0
  }

  /** Filtering out the id of `x` drops `x` and filters what is around it. */
  lemma VisibleDropsOne(a: seq<Announcement>, x: Announcement, c: seq<Announcement>)
    ensures Visible(a + [x] + c, {x.id}) == Visible(a, {x.id}) + Visible(c, {x.id})
  {
    var d := {x.id};
    calc {
      Visible(a + [x] + c, d);
      { assert a + [x] + c == a + ([x] + c); }
      Visible(a + ([x] + c), d);
      { VisibleAppend(a, [x] + c, d); }
      Visible(a, d) + Visible([x] + c, d);
      { VisibleAppend([x], c, d);
        assert Visible([x], d) == [] by { assert [x][1..] == []; } }
      Visible(a, d) + Visible(c, d);
    }
  }

  /** Dismissing `visible[i]` leaves the ones before it, then the ones after it, each filtered. */
  lemma VisibleAround(visible: seq<Announcement>, i: int)
    requires 0 <= i < |visible|
    ensures var id := visible[i].id;
      Visible(visible, {id}) == Visible(visible[..i], {id}) + Visible(visible[i + 1..], {id})
  {
    SplitAt(visible, i);
    VisibleDropsOne(visible[..i], visible[i], visible[i + 1..]);
  }

  /**
   * After dismissing `visible[i]`, the new index starts the announcements that came after it,
   * in order; when none remains after it, the index returns to the first.
   */
  lemma DismissedIndexFollows(visible: seq<Announcement>, i: int)
    requires 0 <= i < |visible|
    ensures var id := visible[i].id; var w := Visible(visible, {id});
      var after := Visible(visible[i + 1..], {id});
      && (after != [] ==> DismissedIndex(visible, i) <= |w| && w[DismissedIndex(visible, i)..] == after)
      && (after == [] ==> DismissedIndex(visible, i) == 0)
  {
    var id := visible[i].id;
    var before, after := Visible(visible[..i], {id}), Visible(visible[i + 1..], {id});
    VisibleAround(visible, i);
    assert (before + after)[|before|..] == after;
  }

  /** With distinct ids, the new index shows exactly the announcement one on from the dismissed one. */
  lemma DismissShowsNext(visible: seq<Announcement>, i: int)
    requires DistinctIds(visible) && |visible| > 1 && 0 <= i < |visible|
    ensures var w := Visible(visible, {visible[i].id});
      |w| == |visible| - 1 && w[DismissedIndex(visible, i)] == visible[Forward(|visible|, i)]
  {
    var id := visible[i].id;
    VisibleNone(visible[..i], {id});
    VisibleNone(visible[i + 1..], {id});
    VisibleAround(visible, i);
    var w := visible[..i] + visible[i + 1..];
    if i + 1 < |visible| {
      assert w[i] == visible[i + 1];
    } else {
      assert w[0] == visible[0];
    }
  }

  /**
   * As written, with distinct ids and a later announcement after the next one, a dismissal
   * skips the next announcement and shows the one after it.
   */
  lemma AsWrittenSkipsNext(visible: seq<Announcement>, i: int)
    requires DistinctIds(visible) && 0 <= i && i + 2 < |visible|
    ensures var w := Visible(visible, {visible[i].id});
      DismissedIndexAsWritten(visible, i) < |w| && w[DismissedIndexAsWritten(visible, i)] == visible[i + 2]
  {
    var id := visible[i].id;
    VisibleNone(visible[..i], {id});
    VisibleNone(visible[i + 1..], {id});
    VisibleAround(visible, i);
    var w := visible[..i] + visible[i + 1..];
    assert w[i + 1] == visible[i + 2];
  }

  /**
   * What the banner renders. `Broken` is a current index past the end of the visible list:
   * `currentAnnouncement` is then undefined and rendering its id throws.
   */
  datatype BannerView =
    | Hidden
    | Broken
    | Showing(current: Announcement, position: int, count: int, controls: bool)

  class Banner {
    /** The announcements the mount fetch delivered. */
    var announcements: seq<Announcement>
    var dismissed: set<string>
    var currentIndex: int

    /** The announcements not dismissed, in their original order. */
    function Shown(): seq<Announcement>
      reads this
    {
      Visible(announcements, dismissed)
    }

    /** The index is never negative. */
    predicate Valid()
      reads this
    {
      0 <= currentIndex
    }

    /** The current announcement exists: the banner renders and its buttons can be pressed. */
    predicate Current()
      reads this
    {
      Valid() && currentIndex < |Shown()|
    }

    /**
     * Nothing when every announcement is dismissed; a render error when the index is past the
     * end of what is left; otherwise the current one, the counter "position / count", and the
     * controls when more than one is left.
     */
    function View(): (r: BannerView)
      requires Valid()
      reads this
      ensures r.Hidden? <==> |Shown()| == 0
      ensures r.Broken? <==> 0 < |Shown()| <= currentIndex
      ensures r.Showing? ==> r.current in announcements && r.current.id !in dismissed
      ensures r.Showing? ==> 1 <= r.position <= r.count == |Shown()| && (r.controls <==> r.count > 1)
    {
      var visible := Shown();
      if |visible| == 0 then Hidden
      else if currentIndex >= |visible| then Broken
      else
        VisibleMembers(announcements, dismissed, visible[currentIndex]);
        Showing(visible[currentIndex], currentIndex + 1, |visible|, |visible| > 1)
    }

    constructor(announcements: seq<Announcement>)
      ensures this.announcements == announcements && dismissed == {} && currentIndex == 0
      ensures Valid()
    {
      this.announcements := announcements;
      dismissed := {};
      currentIndex := 0;
    }

    /**
     * The current announcement's close button: its id joins the dismissed ones, and when
     * others were visible the index moves one on, modulo the number visible before the
     * dismissal.
     */
    method Dismiss()
      requires Current()
      modifies this
      ensures announcements == old(announcements)
      ensures dismissed == old(dismissed) + {old(Shown()[currentIndex].id)}
      ensures Shown() == Visible(old(Shown()), {old(Shown()[currentIndex].id)})
      ensures |old(Shown())| > 1 ==> currentIndex == DismissedIndexAsWritten(old(Shown()), old(currentIndex))
      ensures |old(Shown())| == 1 ==> Shown() == [] && currentIndex == old(currentIndex)
      ensures Valid()
    {
      var visible := Shown();
      var id := visible[currentIndex].id;
      VisibleTwice(announcements, dismissed, {id});
      dismissed := dismissed + {id};
      assert Shown() == Visible(visible, {id});
      if |visible| > 1 {
        currentIndex := DismissedIndexAsWritten(visible, currentIndex);
      } else {
        assert visible == [visible[0]];
        assert [visible[0]][1..] == [];
      }
    }

    /** The next button: one on, around the visible list, or nothing when at most one is left. */
    method Next()
      requires Current()
      modifies this
      ensures announcements == old(announcements) && dismissed == old(dismissed)
      ensures |Shown()| <= 1 ==> currentIndex == old(currentIndex)
      ensures |Shown()| > 1 ==> currentIndex == Forward(|Shown()|, old(currentIndex))
      ensures Current()
    {
      var count := |Shown()|;
      if count <= 1 {
        return;
      }
      currentIndex := Forward(count, currentIndex);
    }

    /** The previous button: one back, around the visible list, or nothing when at most one is left. */
    method Previous()
      requires Current()
      modifies this
      ensures announcements == old(announcements) && dismissed == old(dismissed)
      ensures |Shown()| <= 1 ==> currentIndex == old(currentIndex)
      ensures |Shown()| > 1 ==> currentIndex == Backward(|Shown()|, old(currentIndex))
      ensures Current()
    {
      var count := |Shown()|;
      if count <= 1 {
        return;
      }
      currentIndex := Backward(count, currentIndex);
    }

    /** A dot, one per visible announcement: afterwards that dot's announcement is the current one. */
    method GoToIndex(index: int)
      requires Current() && 0 <= index < |Shown()|
      modifies this
      ensures announcements == old(announcements) && dismissed == old(dismissed)
      ensures currentIndex == index
      ensures Current()
    {
      if index == currentIndex || |Shown()| <= 1 {
        return;
      }
      currentIndex := index;
    }
  }

  // ---------------------------------------------------------------------------------------
  // The sign-in carousel
  // ---------------------------------------------------------------------------------------

  /** The carousel's static list holds four novels. */
  const NovelCount := 4

  class LoginCarousel {
    var currentIndex: int
    var isAutoPlay: bool

    predicate Valid()
      reads this
    {
      0 <= currentIndex < NovelCount
    }

    constructor()
      ensures currentIndex == 0 && isAutoPlay
      ensures Valid()
    {
      currentIndex := 0;
      isAutoPlay := true;
    }

    /** The five-second interval, which runs only while autoplay is on. */
    method Tick()
      requires Valid()
      modifies this
      ensures isAutoPlay == old(isAutoPlay)
      ensures currentIndex == if isAutoPlay then Forward(NovelCount, old(currentIndex)) else old(currentIndex)
      ensures Valid()
    {
      if !isAutoPlay {
        return;
      }
      currentIndex := Forward(NovelCount, currentIndex);
    }

    /** A dot: that slide, and autoplay stops. */
    method GoToSlide(index: int)
      requires Valid() && 0 <= index < NovelCount
      modifies this
      ensures currentIndex == index && !isAutoPlay
      ensures Valid()
    {
      currentIndex := index;
      isAutoPlay := false;
    }

    method NextSlide()
      requires Valid()
      modifies this
      ensures currentIndex == Forward(NovelCount, old(currentIndex)) && !isAutoPlay
      ensures Valid()
    {
      currentIndex := Forward(NovelCount, currentIndex);
      isAutoPlay := false;
    }

    method PrevSlide()
      requires Valid()
      modifies this
      ensures currentIndex == Backward(NovelCount, old(currentIndex)) && !isAutoPlay
      ensures Valid()
    {
      currentIndex := Backward(NovelCount, currentIndex);
      isAutoPlay := false;
    }

    /** The mouse over the carousel pauses it, and keeps the slide. */
    method MouseEnter()
      modifies this
      ensures currentIndex == old(currentIndex) && !isAutoPlay
    {
      isAutoPlay := false;
    }

    /** The mouse leaving resumes it, and keeps the slide. */
    method MouseLeave()
      modifies this
      ensures currentIndex == old(currentIndex) && isAutoPlay
    {
      isAutoPlay := true;
    }
  }

  // ---------------------------------------------------------------------------------------
  // The hero slider
  // ---------------------------------------------------------------------------------------

  /** The series a latest chapter belongs to. */
  datatype SeriesSummary = SeriesSummary(id: string, title: string, slug: string, featuredImage: string, categories: seq<string>)

  datatype LatestChapter = LatestChapter(
    id: string, title: string, chapterNumber: int, publishDate: string, seriesId: string,
    series: SeriesSummary, contentPreview: string)

  /** The hero asks for the five latest chapters. */
  const LatestChaptersRequested := 5
  const LatestFailedMessage := "Failed to fetch latest chapters"
  const NoChaptersMessage := "No chapters available"
  /** The hero shows at most this many of a series' categories. */
  const HeroTagLimit := 4

  /** What the hero renders. */
  datatype HeroView =
    | Spinner
    | Notice(message: string)
    | Slide(chapter: LatestChapter, tags: seq<string>, dots: bool)

  class HeroSlider {
    var chapters: seq<LatestChapter>
    var loading: bool
    var error: Option<string>
    var activeSlide: int
    /** The limits `getLatestChaptersAction` was called with, in order. */
    var requests: seq<int>

    /**
     * The slide points into the chapters whenever there are some; while the spinner shows
     * there are none yet and the slide is the first.
     */
    predicate Valid()
      reads this
    {
      0 <= activeSlide
      && (loading ==> chapters == [] && activeSlide == 0)
      && (|chapters| > 0 ==> activeSlide < |chapters|)
    }

    /** `error` as a JavaScript condition: set and non-empty. */
    predicate Failed()
      reads this
    {
      error.Some? && error.value != ""
    }

    /**
     * The spinner while loading; a message when the fetch failed or found no chapters; else the
     * active chapter with at most four of its series' categories and, for several chapters, dots.
     */
    function View(): (r: HeroView)
      requires Valid()
      reads this
      ensures r.Spinner? <==> loading
      ensures r.Notice? <==> !loading && (Failed() || chapters == [])
      ensures r.Notice? ==> r.message == if Failed() then error.value else NoChaptersMessage
      ensures r.Slide? ==> r.chapter in chapters && (r.dots <==> |chapters| > 1)
      ensures r.Slide? ==>
        |r.tags| <= HeroTagLimit && |r.tags| <= |r.chapter.series.categories|
        && r.tags == r.chapter.series.categories[..|r.tags|]
      ensures r.Slide? && |r.tags| < HeroTagLimit ==> r.tags == r.chapter.series.categories
    {
      if loading then Spinner
      else if Failed() || |chapters| == 0 then Notice(if Failed() then error.value else NoChaptersMessage)
      else
        var chapter := chapters[activeSlide];
        Slide(chapter, Take(chapter.series.categories, HeroTagLimit), |chapters| > 1)
    }

    constructor()
      ensures chapters == [] && loading && error.None? && activeSlide == 0 && requests == []
      ensures Valid()
    {
      chapters := [];
      loading := true;
      error := None;
      activeSlide := 0;
      requests := [];
    }

    /**
     * The mount fetch, with `reply` as what awaiting the latest-chapters action gave. Success
     * with data replaces the chapters and shows the first of them; anything else sets an error
     * with a fallback. Loading ends in every case.
     */
    method Fetch(reply: Reply<seq<LatestChapter>>)
      requires Valid() && loading
      modifies this
      ensures requests == old(requests) + [LatestChaptersRequested]
      ensures !loading && activeSlide == 0 && Valid()
      ensures reply.Returned? && reply.result.Ok? && reply.result.data.Some? ==>
        chapters == reply.result.data.value && error.None?
      ensures reply.Returned? && reply.result.Ok? && reply.result.data.Some? && reply.result.data.value != [] ==>
        View().Slide? && View().chapter == reply.result.data.value[0]
      ensures reply.Returned? && reply.result.Ok? && reply.result.data.None? ==>
        chapters == [] && error == Some(LatestFailedMessage)
      ensures reply.Returned? && reply.result.Err? ==>
        chapters == [] && error == Some(OrElse(reply.result.error, LatestFailedMessage))
      ensures reply.Threw? ==>
        chapters == [] && error == Some(OrElse(reply.message, UnexpectedErrorMessage))
    {
      error := None;
      requests := requests + [LatestChaptersRequested];
      match reply {
        case Returned(result) =>
          if result.Ok? && result.data.Some? {
            chapters := result.data.value;
          } else {
            error := Some(OrElse(if result.Err? then result.error else "", LatestFailedMessage));
          }
        case Threw(message) =>
          error := Some(OrElse(message, UnexpectedErrorMessage));
      }
      loading := false;
    }

    /** The five-second interval, set up only when there is more than one chapter. */
    method Tick()
      requires Valid()
      modifies this
      ensures chapters == old(chapters) && loading == old(loading) && error == old(error)
      ensures |chapters| <= 1 ==> activeSlide == old(activeSlide)
      ensures |chapters| > 1 ==> activeSlide == Forward(|chapters|, old(activeSlide))
      ensures Valid()
    {
      if |chapters| <= 1 {
        return;
      }
      activeSlide := Forward(|chapters|, activeSlide);
    }

    /** A dot, one per chapter: afterwards that chapter is the active slide. */
    method DotClick(index: int)
      requires Valid() && 0 <= index < |chapters|
      modifies this
      ensures chapters == old(chapters) && loading == old(loading) && error == old(error)
      ensures activeSlide == index
      ensures Valid()
    {
      activeSlide := index;
    }
  }
}
