/**
 * Comments under a series or a chapter: the thread of nested replies with its reply and delete
 * controls, the reply box of one comment, and the form that posts a new comment.
 */
module Comments {
  import opened Wrappers
  import opened Text
  import opened ApiClient
  import opened ServerActions
  import TimeFormat
  import Routes

  datatype CommentUser = CommentUser(id: string, username: string)

  /** A comment with its replies; `createdAt` is a time in milliseconds. */
  datatype CommentData = CommentData(
    id: string, content: string, createdAt: int, user: CommentUser, replies: seq<CommentData>,
    seriesId: Option<string>, chapterId: Option<string>)

  /** Replies can be opened on comments above this depth only. */
  const MaxDepth := 3

  /** `depth < maxDepth`, shown to signed-in readers only. */
  predicate CanReply(depth: int, isAuthenticated: bool) {
    depth < MaxDepth && isAuthenticated
  }

  /** `currentUserId === comment.user.id`: an absent viewer owns nothing. */
  predicate IsOwnComment(currentUserId: Option<string>, comment: CommentData) {
    currentUserId == Some(comment.user.id)
  }

  // ---------------------------------------------------------------------------------------
  // The thread
  // ---------------------------------------------------------------------------------------

  /** One rendered comment card. */
  datatype Card = Card(
    id: string, authorId: string, time: string, depth: int, replyButton: bool, deleteButton: bool)

  /** The number of comments in a thread, replies included. */
  function Size(c: CommentData): nat
    decreases c, 1
  {
    1 + SizeAll(c.replies)
  }

  function SizeAll(rs: seq<CommentData>): nat
    decreases rs, 0
  {
    if |rs| == 0 then 0 else Size(rs[0]) + SizeAll(rs[1..])
  }

  /**
   * The cards a comment renders, itself first and then each reply's thread one level deeper.
   * Every comment of the thread gets one card; a card has a reply button exactly when it is
   * above the maximum depth and the reader is signed in, and a delete button exactly when
   * the viewer wrote it.
   */
  function Thread(c: CommentData, viewer: Option<string>, isAuthenticated: bool, depth: int, now: int): (r: seq<Card>)
    ensures |r| == Size(c) && r[0].id == c.id && r[0].depth == depth
    ensures forall k :: 0 < k < |r| ==> r[k].depth > depth
    ensures forall k :: 0 <= k < |r| ==> (r[k].replyButton <==> CanReply(r[k].depth, isAuthenticated))
    ensures forall k :: 0 <= k < |r| ==> (r[k].deleteButton <==> viewer == Some(r[k].authorId))
    decreases c, 1
  {
    var card := Card(c.id, c.user.id, TimeFormat.FormatTimeAgo(now - c.createdAt), depth,
                     CanReply(depth, isAuthenticated), IsOwnComment(viewer, c));
    [card] + Replies(c.replies, viewer, isAuthenticated, depth + 1, now)
  }

  /** The threads of a list of replies, all at `depth`, one after another. */
  function Replies(rs: seq<CommentData>, viewer: Option<string>, isAuthenticated: bool, depth: int, now: int): (r: seq<Card>)
    ensures |r| == SizeAll(rs)
    ensures forall k :: 0 <= k < |r| ==> r[k].depth >= depth
    ensures forall k :: 0 <= k < |r| ==> (r[k].replyButton <==> CanReply(r[k].depth, isAuthenticated))
    ensures forall k :: 0 <= k < |r| ==> (r[k].deleteButton <==> viewer == Some(r[k].authorId))
    decreases rs, 0
  {
    if |rs| == 0 then []
    else
      var first, rest := Thread(rs[0], viewer, isAuthenticated, depth, now), Replies(rs[1..], viewer, isAuthenticated, depth, now);
      assert forall k :: 0 <= k < |rest| ==> (first + rest)[|first| + k] == rest[k];
      first + rest
  }

  /** A reader who is not signed in never sees a reply button anywhere in a thread. */
  lemma SignedOutCannotReply(c: CommentData, viewer: Option<string>, depth: int, now: int, k: int)
    requires 0 <= k < Size(c)
    ensures !Thread(c, viewer, false, depth, now)[k].replyButton
  {
  }

  // ---------------------------------------------------------------------------------------
  // Posting
  // ---------------------------------------------------------------------------------------

  /** What a submit does: one of the guards stops it, or the comment is sent. */
  datatype Submission = SignInFirst | Blank | NoTarget | Send(payload: CommentPayload)

  /**
   * The reply guards: a signed-out reader is sent to sign in, a blank reply is refused, and
   * otherwise the trimmed reply goes to the comment's series and chapter with the comment as
   * its parent.
   */
  function ReplySubmission(isAuthenticated: bool, comment: CommentData, replyContent: string): (r: Submission)
    ensures r.SignInFirst? <==> !isAuthenticated
    ensures r.Blank? <==> isAuthenticated && IsBlank(replyContent)
    ensures !r.NoTarget?
    ensures r.Send? ==>
      && r.payload.content == Trim(replyContent) && r.payload.content != ""
      && !IsWhitespace(r.payload.content[0]) && !IsWhitespace(r.payload.content[|r.payload.content| - 1])
      && r.payload.parentCommentId == Some(comment.id)
      && r.payload.seriesId == comment.seriesId && r.payload.chapterId == comment.chapterId
  {
    TrimEmptyIffBlank(replyContent);
    TrimmedEnds(replyContent);
    var content := Trim(replyContent);
    if !isAuthenticated then SignInFirst
    else if content == "" then Blank
    else Send(CommentPayload(content, comment.seriesId, comment.chapterId, Some(comment.id)))
  }

  /**
   * The comment form's guards, in order: signed in, then not blank, then a series or a chapter
   * to comment on. The trimmed text is sent with both ids as given and no parent.
   */
  function FormSubmission(isAuthenticated: bool, content: string, seriesId: Option<string>, chapterId: Option<string>): (r: Submission)
    ensures r.SignInFirst? <==> !isAuthenticated
    ensures r.Blank? <==> isAuthenticated && IsBlank(content)
    ensures r.NoTarget? <==> isAuthenticated && !IsBlank(content) && Missing(seriesId) && Missing(chapterId)
    ensures r.Send? ==>
      && r.payload.content == Trim(content) && r.payload.content != ""
      && !IsWhitespace(r.payload.content[0]) && !IsWhitespace(r.payload.content[|r.payload.content| - 1])
      && r.payload.seriesId == seriesId && r.payload.chapterId == chapterId
      && r.payload.parentCommentId.None?
  {
    TrimEmptyIffBlank(content);
    TrimmedEnds(content);
    var text := Trim(content);
    if !isAuthenticated then SignInFirst
    else if text == "" then Blank
    else if Missing(seriesId) && Missing(chapterId) then NoTarget
    else Send(CommentPayload(text, seriesId, chapterId, None))
  }

  /** `isSubmitting || !content.trim() || !isAuthenticated` */
  predicate SubmitDisabled(isSubmitting: bool, content: string, isAuthenticated: bool) {
    isSubmitting || Trim(content) == "" || !isAuthenticated
  }

  /** An enabled submit button passes the first two guards: it sends, unless there is no target. */
  lemma EnabledSubmitSends(content: string, seriesId: Option<string>, chapterId: Option<string>)
    requires !SubmitDisabled(false, content, true)
    ensures var r := FormSubmission(true, content, seriesId, chapterId);
      r.Send? || (r.NoTarget? && Missing(seriesId) && Missing(chapterId))
    ensures !Missing(seriesId) || !Missing(chapterId) ==> FormSubmission(true, content, seriesId, chapterId).Send?
  {
    TrimEmptyIffBlank(content);
  }

  /** `isSubmitting || !replyContent.trim()` */
  predicate ReplyDisabled(isSubmitting: bool, replyContent: string) {
    isSubmitting || Trim(replyContent) == ""
  }

  /** For a signed-in reader, an enabled "Post Reply" button always sends. */
  lemma EnabledReplySends(comment: CommentData, replyContent: string)
    requires !ReplyDisabled(false, replyContent)
    ensures ReplySubmission(true, comment, replyContent).Send?
  {
    TrimEmptyIffBlank(replyContent);
  }

  /** The action call succeeded: `result.success`. */
  predicate Posted<T>(reply: Reply<T>) {
    reply.Returned? && reply.result.Ok?
  }

  // ---------------------------------------------------------------------------------------
  // One comment's controls
  // ---------------------------------------------------------------------------------------

  class CommentItem {
    const comment: CommentData
    const depth: int
    const currentUserId: Option<string>
    var isReplying: bool
    var replyContent: string
    var isSubmitting: bool
    var isDeleting: bool
    /** Router pushes, in order. */
    var navigations: seq<string>
    /** Server actions called, in order. */
    var calls: seq<Action>
    /** How often `onCommentAdded` and `onCommentDeleted` were called. */
    var added: nat
    var deleted: nat

    constructor(comment: CommentData, depth: int, currentUserId: Option<string>)
      ensures this.comment == comment && this.depth == depth && this.currentUserId == currentUserId
      ensures !isReplying && replyContent == "" && !isSubmitting && !isDeleting
      ensures navigations == [] && calls == [] && added == 0 && deleted == 0
    {
      this.comment := comment;
      this.depth := depth;
      this.currentUserId := currentUserId;
      isReplying := false;
      replyContent := "";
      isSubmitting := false;
      isDeleting := false;
      navigations := [];
      calls := [];
      added := 0;
      deleted := 0;
    }

    /** The "Reply" button, shown only where a reply is allowed, opens or closes the box. */
    method ToggleReplying(isAuthenticated: bool)
      requires CanReply(depth, isAuthenticated)
      modifies this
      ensures isReplying == !old(isReplying) && replyContent == old(replyContent)
      ensures navigations == old(navigations) && calls == old(calls)
    {
      isReplying := !isReplying;
    }

    method EditReply(text: string)
      modifies this
      ensures replyContent == text && isReplying == old(isReplying)
      ensures navigations == old(navigations) && calls == old(calls)
    {
      replyContent := text;
    }

    /** "Cancel" closes the box and forgets the text. */
    method CancelReply()
      modifies this
      ensures !isReplying && replyContent == ""
      ensures navigations == old(navigations) && calls == old(calls)
    {
      isReplying := false;
      replyContent := "";
    }

    /**
     * "Post Reply", with `reply` as what awaiting the create action gave. The guards of
     * `ReplySubmission` decide whether the reader is sent to sign in or the reply is sent; a
     * posted reply clears and closes the box, and anything else keeps them.
     */
    method HandleReply<T>(isAuthenticated: bool, reply: Reply<T>)
      modifies this
      ensures var s := ReplySubmission(isAuthenticated, comment, old(replyContent));
        && navigations == old(navigations) + (if s.SignInFirst? then [Routes.LoginPage] else [])
        && calls == old(calls) + (if s.Send? then [CreateCommentAction(s.payload)] else [])
        && (s.Send? ==> !isSubmitting)
        && (!s.Send? ==> isSubmitting == old(isSubmitting))
        && (s.Send? && Posted(reply) ==> replyContent == "" && !isReplying && added == old(added) + 1)
        && (!(s.Send? && Posted(reply)) ==>
              replyContent == old(replyContent) && isReplying == old(isReplying) && added == old(added))
      ensures isDeleting == old(isDeleting) && deleted == old(deleted)
    {
      var s := ReplySubmission(isAuthenticated, comment, replyContent);
      if !isAuthenticated {
        navigations := navigations + [Routes.LoginPage];
        return;
      }
      if s.Blank? {
        return;
      }
      isSubmitting := true;
      calls := calls + [CreateCommentAction(s.payload)];
      if Posted(reply) {
        replyContent := "";
        isReplying := false;
        added := added + 1;
      }
      isSubmitting := false;
    }

    /**
     * The delete button, shown on the viewer's own comments only: after the confirmation the
     * comment is deleted by id, and a success is reported to the thread.
     */
    method HandleDelete<T>(confirmed: bool, reply: Reply<T>)
      requires IsOwnComment(currentUserId, comment)
      modifies this
      ensures calls == old(calls) + (if confirmed then [DeleteCommentAction(comment.id)] else [])
      ensures deleted == old(deleted) + (if confirmed && Posted(reply) then 1 else 0)
      ensures confirmed ==> !isDeleting
      ensures !confirmed ==> isDeleting == old(isDeleting)
      ensures navigations == old(navigations) && replyContent == old(replyContent) && added == old(added)
    {
      if !confirmed {
        return;
      }
      isDeleting := true;
      calls := calls + [DeleteCommentAction(comment.id)];
      if Posted(reply) {
        deleted := deleted + 1;
      }
      isDeleting := false;
    }
  }

  // ---------------------------------------------------------------------------------------
  // The comment form
  // ---------------------------------------------------------------------------------------

  class CommentForm {
    const seriesId: Option<string>
    const chapterId: Option<string>
    var content: string
    var isSubmitting: bool
    var navigations: seq<string>
    var calls: seq<Action>
    /** How often `onCommentAdded` was called. */
    var added: nat

    constructor(seriesId: Option<string>, chapterId: Option<string>)
      ensures this.seriesId == seriesId && this.chapterId == chapterId
      ensures content == "" && !isSubmitting && navigations == [] && calls == [] && added == 0
    {
      this.seriesId := seriesId;
      this.chapterId := chapterId;
      content := "";
      isSubmitting := false;
      navigations := [];
      calls := [];
      added := 0;
    }

    method Edit(text: string)
      modifies this
      ensures content == text && navigations == old(navigations) && calls == old(calls)
    {
      content := text;
    }

    /**
     * The form's submit, with `reply` as what awaiting the create action gave: the guards of
     * `FormSubmission` in order, then the call; the text is cleared on success only.
     */
    method HandleSubmit<T>(isAuthenticated: bool, reply: Reply<T>)
      modifies this
      ensures var s := FormSubmission(isAuthenticated, old(content), seriesId, chapterId);
        && navigations == old(navigations) + (if s.SignInFirst? then [Routes.LoginPage] else [])
        && calls == old(calls) + (if s.Send? then [CreateCommentAction(s.payload)] else [])
        && (s.Send? ==> !isSubmitting)
        && (!s.Send? ==> isSubmitting == old(isSubmitting))
        && (s.Send? && Posted(reply) ==> content == "" && added == old(added) + 1)
        && (!(s.Send? && Posted(reply)) ==> content == old(content) && added == old(added))
    {
      var s := FormSubmission(isAuthenticated, content, seriesId, chapterId);
      if !isAuthenticated {
        navigations := navigations + [Routes.LoginPage];
        return;
      }
      if s.Blank? || s.NoTarget? {
        return;
      }
      isSubmitting := true;
      calls := calls + [CreateCommentAction(s.payload)];
      if Posted(reply) {
        content := "";
        added := added + 1;
      }
      isSubmitting := false;
    }
  }
}
