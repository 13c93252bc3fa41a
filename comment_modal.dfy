/**
 * The comment modal: how it splits a confession's flat comment list into threads
 * one reply deep, and its reply form.
 */
module CommentModal {
  import opened Wrappers
  import opened Records
  import Lists
  import Text
  import Server

  /** `!c.parent_id`: no parent, or the falsy parent 0. */
  predicate IsTopLevel(cm: Comment): (b: bool)
    ensures b <==> forall p: int :: p != 0 ==> cm.parentId != Some(p)
  {
    !IsSet(cm.parentId)
  }

  /** `topLevelComments`: the comments without a parent, in their order. */
  function TopLevel(cms: seq<Comment>): (r: seq<Comment>)
    ensures forall cm :: cm in r <==> cm in cms && !IsSet(cm.parentId)
    ensures Lists.IsSubseq(r, cms)
    ensures forall cm :: multiset(r)[cm] == if !IsSet(cm.parentId) then multiset(cms)[cm] else 0
  {
    Lists.FilterSubseq(cms, IsTopLevel);
    Lists.FilterCounts(cms, IsTopLevel);
    Lists.Filter(cms, IsTopLevel)
  }

  function RepliesOf(parentId: int): Comment -> bool
  {
    (cm: Comment) => cm.parentId == Some(parentId)
  }

  /** `getReplies(parentId)`: the comments whose parent is parentId, in their order. */
  function Replies(cms: seq<Comment>, parentId: int): (r: seq<Comment>)
    ensures forall cm :: cm in r <==> cm in cms && cm.parentId == Some(parentId)
    ensures Lists.IsSubseq(r, cms)
    ensures forall cm :: multiset(r)[cm] == if cm.parentId == Some(parentId) then multiset(cms)[cm] else 0
  {
    Lists.FilterSubseq(cms, RepliesOf(parentId));
    Lists.FilterCounts(cms, RepliesOf(parentId));
    Lists.Filter(cms, RepliesOf(parentId))
  }

  /** For a non-zero parent id, no comment is both top-level and one of its replies. */
  lemma TopLevelIsNoReply(cms: seq<Comment>, cm: Comment, parentId: int)
    requires parentId != 0
    ensures !(cm in TopLevel(cms) && cm in Replies(cms, parentId))
  {
  }

  /** A comment is a reply to at most one parent. */
  lemma OneParent(cms: seq<Comment>, cm: Comment, p1: int, p2: int)
    requires p1 != p2
    ensures !(cm in Replies(cms, p1) && cm in Replies(cms, p2))
  {
  }

  /** One rendered thread: a top-level comment and the replies shown under it. */
  datatype Thread = Thread(comment: Comment, replies: seq<Comment>)

  /**
   * The threads the modal renders, one per top-level comment, in order; under each,
   * its replies in list order (so exactly the comments whose parent it is).
   */
  function Threads(cms: seq<Comment>): (ts: seq<Thread>)
    ensures |ts| == |TopLevel(cms)|
    ensures forall i :: 0 <= i < |ts| ==>
      ts[i].comment == TopLevel(cms)[i] && ts[i].replies == Replies(cms, ts[i].comment.id)
  {
    var tops := TopLevel(cms);
    seq(|tops|, i requires 0 <= i < |tops| => Thread(tops[i], Replies(cms, tops[i].id)))
  }

  /** cm appears somewhere in the rendered threads. */
  ghost predicate Shown(ts: seq<Thread>, cm: Comment)
  {
    exists i :: 0 <= i < |ts| && (ts[i].comment == cm || cm in ts[i].replies)
  }

  /**
   * Exactly the top-level comments and the replies to a top-level comment are
   * rendered; nothing else in the list is.
   */
  lemma ShownExactly(cms: seq<Comment>, cm: Comment)
    ensures Shown(Threads(cms), cm) <==>
      cm in cms && (IsTopLevel(cm) || exists t :: t in cms && IsTopLevel(t) && cm.parentId == Some(t.id))
  {
    ShownIsThreaded(cms, cm);
    if cm in cms && (IsTopLevel(cm) || exists t :: t in cms && IsTopLevel(t) && cm.parentId == Some(t.id)) {
      ThreadedIsShown(cms, cm);
    }
  }

  /** A rendered comment is top-level or replies to a top-level comment. */
  lemma ShownIsThreaded(cms: seq<Comment>, cm: Comment)
    ensures Shown(Threads(cms), cm) ==>
      cm in cms && (IsTopLevel(cm) || exists t :: t in cms && IsTopLevel(t) && cm.parentId == Some(t.id))
  {
    if Shown(Threads(cms), cm) {
      var tops := TopLevel(cms);
      var ts := Threads(cms);
      var i :| 0 <= i < |ts| && (ts[i].comment == cm || cm in ts[i].replies);
      assert tops[i] in tops;
    }
  }

  /** Every top-level comment and every reply to one is rendered. */
  lemma ThreadedIsShown(cms: seq<Comment>, cm: Comment)
    requires cm in cms && (IsTopLevel(cm) || exists t :: t in cms && IsTopLevel(t) && cm.parentId == Some(t.id))
    ensures Shown(Threads(cms), cm)
  {
    if IsTopLevel(cm) {
      TopLevelIsShown(cms, cm);
    } else {
      var t :| t in cms && IsTopLevel(t) && cm.parentId == Some(t.id);
      ReplyIsShown(cms, cm, t);
    }
  }

  /** A top-level comment heads its own thread. */
  lemma TopLevelIsShown(cms: seq<Comment>, cm: Comment)
    requires cm in cms && IsTopLevel(cm)
    ensures Shown(Threads(cms), cm)
  {
    var tops := TopLevel(cms);
    var i :| 0 <= i < |tops| && tops[i] == cm;
    assert Threads(cms)[i].comment == cm;
  }

  /** A reply to a top-level comment t is rendered under t's thread. */
  lemma ReplyIsShown(cms: seq<Comment>, cm: Comment, t: Comment)
    requires cm in cms && t in cms && IsTopLevel(t) && cm.parentId == Some(t.id)
    ensures Shown(Threads(cms), cm)
  {
    var tops := TopLevel(cms);
    assert t in tops;
    var i :| 0 <= i < |tops| && tops[i] == t;
    assert cm in Threads(cms)[i].replies;
  }

  /** Distinct comments have distinct ids, as the server hands them out. */
  ghost predicate UniqueIds(cms: seq<Comment>)
  {
    forall i, j :: 0 <= i < j < |cms| ==> cms[i].id != cms[j].id
  }

  /** With unique ids, a comment of the list is determined by its id. */
  lemma SameId(cms: seq<Comment>, a: Comment, b: Comment)
    requires UniqueIds(cms) && a in cms && b in cms && a.id == b.id
    ensures a == b
  {
    var i :| 0 <= i < |cms| && cms[i] == a;
    var j :| 0 <= j < |cms| && cms[j] == b;
    assert i == j;
  }

  /**
   * A reply to a reply (to a comment with a server-issued, so positive, id) is in
   * the list, and so in the modal's comment count, but it is rendered nowhere.
   */
  lemma NestedReplyHidden(cms: seq<Comment>, cm: Comment, parent: Comment)
    requires UniqueIds(cms)
    requires cm in cms && parent in cms && parent.id > 0
    requires IsSet(parent.parentId) && cm.parentId == Some(parent.id)
    ensures !Shown(Threads(cms), cm)
  {
    ShownExactly(cms, cm);
    assert IsSet(cm.parentId);
    forall t | t in cms && IsTopLevel(t) ensures cm.parentId != Some(t.id) {
      if t.id == parent.id {
        SameId(cms, t, parent);
      }
    }
  }

  /** "No comments yet." is shown exactly when no comment is top-level, replies or not. */
  function ShowsNoComments(cms: seq<Comment>): (b: bool)
    ensures b <==> forall cm :: cm in cms ==> IsSet(cm.parentId)
  {
    var tops := TopLevel(cms);
    assert tops != [] ==> tops[0] in tops;
    |tops| == 0
  }

  /** The body of the comment request: the text as typed and the comment replied to. */
  datatype CommentPost = CommentPost(content: string, parentId: Option<int>)

  /**
   * What the modal sends, the server accepts: the content is not empty, and a reply
   * to a comment the server created keeps its parent, while no reply stays top-level.
   */
  lemma PostAccepted(post: CommentPost)
    requires !Text.Blank(post.content)
    requires post.parentId.Some? ==> post.parentId.value > 0
    ensures Filled(Some(post.content))
    ensures Server.StoredParent(post.parentId) == post.parentId
  {
  }

  /** The modal's form state. */
  class CommentBox {
    var comments: seq<Comment>
    var newComment: string
    var isSubmitting: bool
    var replyingTo: Option<int>

    constructor ()
      ensures comments == [] && newComment == "" && !isSubmitting && replyingTo == None
    {
      comments, newComment, isSubmitting, replyingTo := [], "", false, None;
    }

    /** The Reply button of a top-level comment. */
    method StartReply(id: int)
      modifies this
      ensures replyingTo == Some(id)
      ensures comments == old(comments) && newComment == old(newComment) && isSubmitting == old(isSubmitting)
    {
      replyingTo := Some(id);
    }

    /** The Cancel button of the "Replying to comment..." banner. */
    method CancelReply()
      modifies this
      ensures replyingTo == None
      ensures comments == old(comments) && newComment == old(newComment) && isSubmitting == old(isSubmitting)
    {
      replyingTo := None;
    }

    /** The send button is disabled while the text is blank or a post is in flight. */
    function SubmitDisabled(): (b: bool)
      reads this
      ensures b <==> Text.Blank(newComment) || isSubmitting
    {
      Text.Trim(newComment) == [] || isSubmitting
    }

    /**
     * `handleSubmit`: a blank text sends nothing and changes nothing. Otherwise it
     * sends the text with replyingTo as its parent; once the request went through,
     * the text is cleared and the reply target dropped; either way the form is no
     * longer submitting. `delivered` says whether the request went through.
     */
    method HandleSubmit(delivered: bool) returns (post: Option<CommentPost>)
      modifies this
      ensures comments == old(comments)
      ensures Text.Blank(old(newComment)) ==>
        && post == None
        && newComment == old(newComment) && replyingTo == old(replyingTo) && isSubmitting == old(isSubmitting)
      ensures !Text.Blank(old(newComment)) ==>
        && post == Some(CommentPost(old(newComment), old(replyingTo)))
        && !isSubmitting
        && (delivered ==> newComment == "" && replyingTo == None)
        && (!delivered ==> newComment == old(newComment) && replyingTo == old(replyingTo))
    {
      if Text.Trim(newComment) == [] {
        return None;
      }
      isSubmitting := true;
      post := Some(CommentPost(newComment, replyingTo));
      if delivered {
        newComment := "";
        replyingTo := None;
      }
      isSubmitting := false;
    }
  }
}
