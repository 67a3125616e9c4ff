/**
 * The chapter text as the reader renders it: the content is cut into paragraphs at blank
 * lines, each paragraph is cut at inline markup (`**strong**`, `~~~centred~~~`, `*emphasis*`,
 * `` `code` ``), and each piece is classified by its delimiters.
 *
 * The cutting is the JavaScript `split` with a capturing, global, lazy regular expression,
 * written out: at each position the four alternatives are tried in order, each closing at its
 * nearest delimiter without crossing a line terminator.
 */
module ChapterMarkup {
  import opened Wrappers
  import opened Text

  /** Whether a chapter is shown behind the purchase gate: premium, with no content sent. */
  predicate IsPremiumLocked(isPremium: bool, content: Option<string>) {
    isPremium && (content.None? || content.value == "")
  }

  const ParagraphBreak := "\n\n"

  /** The paragraphs of a chapter's content; no paragraphs at all when it has none. */
  function Paragraphs(content: Option<string>): seq<string> {
    if content.None? || content.value == "" then [] else Split(content.value, ParagraphBreak)
  }

  /** The paragraphs are the content cut at blank lines: joined back, they give the content. */
  lemma ParagraphsRoundTrip(content: string)
    requires content != ""
    ensures |Paragraphs(Some(content))| >= 1
    ensures Join(Paragraphs(Some(content)), ParagraphBreak) == content
    ensures forall k :: 0 <= k < |Paragraphs(Some(content))| ==> !Contains(Paragraphs(Some(content))[k], ParagraphBreak)
  {
    SplitNonEmpty(content, ParagraphBreak);
    JoinSplit(content, ParagraphBreak);
    forall k | 0 <= k < |Paragraphs(Some(content))|
      ensures !Contains(Paragraphs(Some(content))[k], ParagraphBreak)
    {
      SplitPiecesAvoidSeparator(content, ParagraphBreak, k);
    }
  }

  /** A premium chapter is behind the gate exactly when it has no paragraph to show. */
  lemma LockedIffNoParagraphs(isPremium: bool, content: Option<string>)
    ensures IsPremiumLocked(isPremium, content) <==> isPremium && Paragraphs(content) == []
  {
    if content.Some? && content.value != "" {
      SplitNonEmpty(content.value, ParagraphBreak);
    }
  }

  /** What `.` does not match. */
  predicate IsLineTerminator(c: char) {
    c == '\n' || c == '\r' || c == 0x2028 as char || c == 0x2029 as char
  }

  /** The lazy `.*?` followed by `d`, from `k`: the nearest `d` with no line terminator before it. */
  function CloseAt(s: string, k: nat, d: string): (r: Option<nat>)
    requires |d| > 0
    ensures r.Some? ==> k <= r.value && OccursAt(s, d, r.value)
    ensures r.Some? ==> forall j :: k <= j < r.value ==> !IsLineTerminator(s[j]) && !OccursAt(s, d, j)
    decreases |s| - k
  {
    if k + |d| > |s| then None
    else if OccursAt(s, d, k) then Some(k)
    else if IsLineTerminator(s[k]) then None
    else CloseAt(s, k + 1, d)
  }

  /** One alternative `d.*?d` at position `q`: the end of its match. */
  function MatchDelimited(s: string, q: nat, d: string): (r: Option<nat>)
    requires |d| > 0
    ensures r.Some? ==> q + 2 * |d| <= r.value <= |s|
  {
    if OccursAt(s, d, q) then
      match CloseAt(s, q + |d|, d)
      case Some(k) => Some(k + |d|)
      case None => None
    else None
  }

  const Delimiters: seq<string> := ["**", "~~~", "*", "`"]

  /** The alternation at position `q`, tried in order: the delimiter that matched and the end. */
  function MatchAt(s: string, q: nat): (r: Option<(string, nat)>)
    ensures r.Some? ==> r.value.0 in Delimiters && q + 2 * |r.value.0| <= r.value.1 <= |s|
    ensures r.Some? ==> MatchDelimited(s, q, r.value.0) == Some(r.value.1)
  {
    if MatchDelimited(s, q, "**").Some? then Some(("**", MatchDelimited(s, q, "**").value))
    else if MatchDelimited(s, q, "~~~").Some? then Some(("~~~", MatchDelimited(s, q, "~~~").value))
    else if MatchDelimited(s, q, "*").Some? then Some(("*", MatchDelimited(s, q, "*").value))
    else if MatchDelimited(s, q, "`").Some? then Some(("`", MatchDelimited(s, q, "`").value))
    else None
  }

  /**
   * The `split` loop from the end `p` of the last match, trying a match at `q`: the text
   * before each match, then the match itself, and finally the text after the last match.
   */
  function SplitFrom(s: string, p: nat, q: nat): (pieces: seq<string>)
    requires p <= q <= |s|
    ensures |pieces| % 2 == 1
    decreases |s| - q
  {
    if q == |s| then [s[p..]]
    else
      var m := MatchAt(s, q);
      if m.Some? then [s[p..q], s[q..m.value.1]] + SplitFrom(s, m.value.1, m.value.1)
      else SplitFrom(s, p, q + 1)
  }

  /** `paragraph.split(/(\*\*.*?\*\*|~~~.*?~~~|\*.*?\*|`.*?`)/g)` */
  function Segments(paragraph: string): seq<string> {
    SplitFrom(paragraph, 0, 0)
  }

  function Concat(pieces: seq<string>): string {
    if |pieces| == 0 then "" else pieces[0] + Concat(pieces[1..])
  }

  lemma {:induction false} SplitFromConcat(s: string, p: nat, q: nat)
    requires p <= q <= |s|
    ensures Concat(SplitFrom(s, p, q)) == s[p..]
    decreases |s| - q
  {
    if q < |s| {
      var r := MatchAt(s, q);
      if r.Some? {
        var e := r.value.1;
        SplitFromConcat(s, e, e);
        assert SplitFrom(s, p, q) == [s[p..q], s[q..e]] + SplitFrom(s, e, e);
        ConcatPair(s[p..q], s[q..e], SplitFrom(s, e, e));
        SliceThree(s, p, q, e);
      } else {
        SplitFromConcat(s, p, q + 1);
      }
    }
  }

  /** Two leading pieces concatenate in front of the rest. */
  lemma ConcatPair(x: string, y: string, rest: seq<string>)
    ensures Concat([x, y] + rest) == x + (y + Concat(rest))
  {
    var pieces := [x, y] + rest;
    assert pieces[1..] == [y] + rest;
    assert ([y] + rest)[1..] == rest;
  }

  lemma SliceThree(s: string, p: nat, q: nat, e: nat)
    requires p <= q <= e <= |s|
    ensures s[p..] == s[p..q] + (s[q..e] + s[e..])
  {
  }

  /** Cutting a paragraph loses nothing: its pieces concatenate back to it. */
  lemma SegmentsConcat(paragraph: string)
    ensures Concat(Segments(paragraph)) == paragraph
  {
    SplitFromConcat(paragraph, 0, 0);
    assert paragraph[0..] == paragraph;
  }

  /**
   * The captured pieces, at the odd positions, are delimited markup: a delimiter at each end,
   * with no line terminator between, closed at the nearest delimiter.
   */
  predicate IsMarkup(m: string) {
    exists d :: d in Delimiters && IsDelimitedBy(m, d)
  }

  predicate IsDelimitedBy(m: string, d: string) {
    |d| > 0 && |m| >= 2 * |d| && StartsWith(m, d) && EndsWith(m, d)
    && (forall j :: |d| <= j < |m| - |d| ==> !IsLineTerminator(m[j]) && !OccursAt(m, d, j))
  }

  lemma MatchIsDelimited(s: string, q: nat, d: string, e: nat)
    requires |d| > 0 && MatchDelimited(s, q, d) == Some(e)
    ensures IsDelimitedBy(s[q..e], d)
  {
    var k := CloseAt(s, q + |d|, d).value;
    assert e == k + |d|;
    var m := s[q..e];
    assert StartsWith(m, d) by {
      assert m[..|d|] == s[q..q + |d|];
    }
    assert EndsWith(m, d) by {
      assert m[|m| - |d|..] == s[k..k + |d|];
    }
    forall j | |d| <= j < |m| - |d|
      ensures !IsLineTerminator(m[j]) && !OccursAt(m, d, j)
    {
      OccursInSlice(s, q, e, d, j);
    }
  }

  /** An occurrence inside a slice is an occurrence in the whole string. */
  lemma OccursInSlice(s: string, lo: nat, hi: nat, d: string, j: nat)
    requires lo <= hi <= |s|
    ensures OccursAt(s[lo..hi], d, j) ==> OccursAt(s, d, lo + j)
  {
    if j + |d| <= hi - lo {
      var t, u := s[lo..hi][j..j + |d|], s[lo + j..lo + j + |d|];
      assert |t| == |u|;
      forall i | 0 <= i < |t| ensures t[i] == u[i] {
        assert t[i] == s[lo + j + i];
      }
      assert t == u;
    }
  }

  lemma {:induction false} SplitFromMarkup(s: string, p: nat, q: nat)
    requires p <= q <= |s|
    ensures forall i :: 0 <= i < |SplitFrom(s, p, q)| && i % 2 == 1 ==> IsMarkup(SplitFrom(s, p, q)[i])
    decreases |s| - q
  {
    if q < |s| {
      var m := MatchAt(s, q);
      if m.Some? {
        var e := m.value.1;
        SplitFromMarkup(s, e, e);
        MatchIsDelimited(s, q, m.value.0, e);
        MarkupPair(s[p..q], s[q..e], SplitFrom(s, e, e));
      } else {
        SplitFromMarkup(s, p, q + 1);
      }
    }
  }

  /** Putting a plain piece and a markup piece in front keeps the captured pieces at odd places. */
  lemma MarkupPair(x: string, y: string, rest: seq<string>)
    requires IsMarkup(y)
    requires forall i :: 0 <= i < |rest| && i % 2 == 1 ==> IsMarkup(rest[i])
    ensures forall i :: 0 <= i < |[x, y] + rest| && i % 2 == 1 ==> IsMarkup(([x, y] + rest)[i])
  {
    var pieces := [x, y] + rest;
    forall i | 0 <= i < |pieces| && i % 2 == 1
      ensures IsMarkup(pieces[i])
    {
      if i > 1 {
        assert pieces[i] == rest[i - 2];
      }
    }
  }

  /** Every captured piece of a paragraph is delimited markup. */
  lemma SegmentsMarkup(paragraph: string)
    ensures |Segments(paragraph)| % 2 == 1
    ensures forall i :: 0 <= i < |Segments(paragraph)| && i % 2 == 1 ==> IsMarkup(Segments(paragraph)[i])
  {
    SplitFromMarkup(paragraph, 0, 0);
  }

  /** A paragraph with no markup character is one plain piece. */
  lemma {:induction false} PlainParagraph(s: string, p: nat, q: nat)
    requires p <= q <= |s|
    requires forall j :: 0 <= j < |s| ==> s[j] != '*' && s[j] != '~' && s[j] != '`'
    ensures SplitFrom(s, p, q) == [s[p..]]
    decreases |s| - q
  {
    if q < |s| {
      assert s[q] != '*' && s[q] != '~' && s[q] != '`';
      assert !OccursAt(s, "**", q) && !OccursAt(s, "~~~", q) && !OccursAt(s, "*", q) && !OccursAt(s, "`", q);
      PlainParagraph(s, p, q + 1);
    }
  }

  // ---------------------------------------------------------------------------------------
  // Classification
  // ---------------------------------------------------------------------------------------

  datatype Piece = Strong(inner: string) | Centred(inner: string) | Emphasis(inner: string)
                 | Code(inner: string) | Plain(text: string)

  /** The `map` over the pieces: delimiters tried in this order, inner text by `slice`. */
  function Classify(segment: string): Piece {
    if StartsWith(segment, "**") && EndsWith(segment, "**") then Strong(Slice(segment, 2, -2))
    else if StartsWith(segment, "~~~") && EndsWith(segment, "~~~") then Centred(Slice(segment, 3, -3))
    else if StartsWith(segment, "*") && EndsWith(segment, "*") then Emphasis(Slice(segment, 1, -1))
    else if StartsWith(segment, "`") && EndsWith(segment, "`") then Code(Slice(segment, 1, -1))
    else Plain(segment)
  }

  /**
   * A piece delimited by one of the markups is rendered by its outermost delimiter with the
   * delimiters dropped; a leading "**" wins over "*", and text without a delimiter pair is
   * shown as it is.
   */
  lemma ClassifyMeaning(segment: string)
    ensures var n := |segment|;
      && (IsDelimitedBy(segment, "**") ==> Classify(segment) == Strong(segment[2..n - 2]))
      && (IsDelimitedBy(segment, "~~~") ==> Classify(segment) == Centred(segment[3..n - 3]))
      && (IsDelimitedBy(segment, "`") ==> Classify(segment) == Code(segment[1..n - 1]))
      && (IsDelimitedBy(segment, "*") && !StartsWith(segment, "**") ==>
            Classify(segment) == Emphasis(segment[1..n - 1]))
      && ((!(StartsWith(segment, "*") && EndsWith(segment, "*"))
           && !(StartsWith(segment, "~~~") && EndsWith(segment, "~~~"))
           && !(StartsWith(segment, "`") && EndsWith(segment, "`"))) ==> Classify(segment) == Plain(segment))
  {
    SliceDropsBothEnds(segment, 1);
    SliceDropsBothEnds(segment, 2);
    SliceDropsBothEnds(segment, 3);
  }

  /** Rendering a paragraph: each piece classified, in order. */
  function Render(paragraph: string): (pieces: seq<Piece>)
    ensures |pieces| == |Segments(paragraph)|
    ensures forall i :: 0 <= i < |pieces| ==> pieces[i] == Classify(Segments(paragraph)[i])
  {
    var segs := Segments(paragraph);
    seq(|segs|, i requires 0 <= i < |segs| => Classify(segs[i]))
  }
}
