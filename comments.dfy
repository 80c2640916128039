/**
  The comments hook (components/hooks/useComments.tsx): the comments of
  one active post, the draft comment text, and the operations on them. The
  post-count bookkeeping happens in the caller through the callbacks, whose
  argument each method returns.
*/
module CommentsThread {
  import opened Wrappers
  import opened Entities
  import Likes
  import Strings

  /** What `createComment` sends: the post and the trimmed text. */
  datatype CommentRequest = CommentRequest(postId: string, content: string)

  /** `[created, ...prev]`. */
  function Prepend(created: Comment, comments: seq<Comment>): (r: seq<Comment>)
    ensures |r| == |comments| + 1 && r[0] == created && r[1..] == comments
  {
    [created] + comments
  }

  /** The optimistic like update of the matching comments. */
  function ToggleCommentLikeIn(comments: seq<Comment>, commentId: string, userId: string): (r: seq<Comment>)
    ensures |r| == |comments|
    ensures forall i :: 0 <= i < |comments| && comments[i].id != commentId ==> r[i] == comments[i]
    ensures forall i :: 0 <= i < |comments| && comments[i].id == commentId ==>
      r[i] == comments[i].(likes := Likes.FlipLike(comments[i].likes, userId))
  {
    if comments == [] then []
    else
      var c := comments[0];
      var d := if c.id == commentId then c.(likes := Likes.FlipLike(c.likes, userId)) else c;
      [d] + ToggleCommentLikeIn(comments[1..], commentId, userId)
  }

  /** Toggling a comment's like twice restores the user's membership
      everywhere, and restores the list exactly when the user had not
      liked any matching comment. */
  lemma ToggleCommentLikeTwice(comments: seq<Comment>, commentId: string, userId: string)
    ensures var twice := ToggleCommentLikeIn(ToggleCommentLikeIn(comments, commentId, userId), commentId, userId);
      |twice| == |comments| &&
      forall i :: 0 <= i < |comments| ==> (userId in twice[i].likes <==> userId in comments[i].likes)
    ensures (forall i :: 0 <= i < |comments| && comments[i].id == commentId ==> userId !in comments[i].likes) ==>
      ToggleCommentLikeIn(ToggleCommentLikeIn(comments, commentId, userId), commentId, userId) == comments
  {
    var twice := ToggleCommentLikeIn(ToggleCommentLikeIn(comments, commentId, userId), commentId, userId);
    forall i | 0 <= i < |comments|
      ensures userId in twice[i].likes <==> userId in comments[i].likes
      ensures comments[i].id == commentId && userId !in comments[i].likes ==> twice[i] == comments[i]
      ensures comments[i].id != commentId ==> twice[i] == comments[i]
    {
      Likes.FlipTwice(comments[i].likes, userId);
    }
  }

  /** `comments.filter((c) => c._id !== commentId)`. */
  function RemoveComment(comments: seq<Comment>, commentId: string): (r: seq<Comment>)
    ensures forall c :: c in r <==> c in comments && c.id != commentId
    ensures |r| <= |comments|
  {
    if comments == [] then []
    else (if comments[0].id == commentId then [] else [comments[0]]) + RemoveComment(comments[1..], commentId)
  }

  /** Deletion keeps the order of the comments it keeps. */
  lemma {:induction false} RemoveCommentAppend(a: seq<Comment>, b: seq<Comment>, commentId: string)
    ensures RemoveComment(a + b, commentId) == RemoveComment(a, commentId) + RemoveComment(b, commentId)
  {
    if a != [] {
      assert (a + b)[1..] == a[1..] + b;
      RemoveCommentAppend(a[1..], b, commentId);
    } else {
      assert a + b == b;
    }
  }

  /** Deleting a comment that is not in the list changes nothing. */
  lemma {:induction false} RemoveAbsentComment(comments: seq<Comment>, commentId: string)
    requires forall i :: 0 <= i < |comments| ==> comments[i].id != commentId
    ensures RemoveComment(comments, commentId) == comments
  {
    if comments != [] {
      RemoveAbsentComment(comments[1..], commentId);
    }
  }

  /** Deleting the comment just prepended gives back the list it was
      prepended to, when its id was new. */
  lemma RemovePrepended(created: Comment, comments: seq<Comment>)
    requires forall i :: 0 <= i < |comments| ==> comments[i].id != created.id
    ensures RemoveComment(Prepend(created, comments), created.id) == comments
  {
    RemoveAbsentComment(comments, created.id);
    assert Prepend(created, comments)[1..] == comments;
  }

  /** The comments hook's state; `currentUserId` is the hook's argument. */
  class Thread {
    const currentUserId: Option<string>
    var showCommentsModal: bool
    var activePost: Option<Post>
    var comments: seq<Comment>
    var loading: bool
    var newCommentText: string

    constructor (currentUserId: Option<string>)
      ensures this.currentUserId == currentUserId
      ensures !showCommentsModal && activePost == None && comments == [] && !loading && newCommentText == ""
    {
      this.currentUserId := currentUserId;
      showCommentsModal, activePost, comments, loading, newCommentText := false, None, [], false, "";
    }

    /** `loadComments`: a successful fetch replaces the list, a failed one
        keeps it. */
    method LoadComments(fetched: Fetch<seq<Comment>>)
      modifies this`comments, this`loading
      ensures comments == if fetched.Fetched? then fetched.value else old(comments)
      ensures !loading
    {
      loading := true;
      if fetched.Fetched? {
        comments := fetched.value;
      }
      loading := false;
    }

    /** `openCommentsModal`: the previous list is not cleared first, so a
        failed fetch leaves the comments of the previously open post. */
    method OpenCommentsModal(post: Post, fetched: Fetch<seq<Comment>>) returns (fetchedFor: string)
      modifies this
      ensures fetchedFor == post.id
      ensures activePost == Some(post) && showCommentsModal && newCommentText == ""
      ensures comments == if fetched.Fetched? then fetched.value else old(comments)
      ensures !loading
    {
      activePost := Some(post);
      showCommentsModal := true;
      newCommentText := "";
      fetchedFor := post.id;
      LoadComments(fetched);
    }

    method CloseCommentsModal()
      modifies this`showCommentsModal, this`activePost, this`comments, this`newCommentText
      ensures !showCommentsModal && activePost == None && comments == [] && newCommentText == ""
    {
      showCommentsModal := false;
      activePost := None;
      comments := [];
      newCommentText := "";
    }

    /** `setNewCommentText`, the input's change handler. */
    method SetNewCommentText(text: string)
      modifies this`newCommentText
      ensures newCommentText == text
    {
      newCommentText := text;
    }

    /** `createComment`: nothing happens without an active post or with
        blank text. Otherwise the input is cleared before the call, the
        created comment is put first, and the callback receives the active
        post's id; on failure the list stays and the text is not restored. */
    method CreateComment(created: Fetch<Comment>) returns (request: Option<CommentRequest>, callback: Option<string>)
      modifies this`newCommentText, this`comments
      ensures activePost.None? || Strings.Trim(old(newCommentText)) == "" ==>
        && request == None && callback == None
        && comments == old(comments) && newCommentText == old(newCommentText)
      ensures activePost.Some? && Strings.Trim(old(newCommentText)) != "" ==>
        && request == Some(CommentRequest(activePost.value.id, Strings.Trim(old(newCommentText))))
        && newCommentText == ""
        && (created.Fetched? ==> comments == Prepend(created.value, old(comments)) && callback == Some(activePost.value.id))
        && (created.Threw? ==> comments == old(comments) && callback == None)
    {
      request, callback := None, None;
      if activePost.None? {
        return;
      }
      var content := Strings.Trim(newCommentText);
      if content == "" {
        return;
      }
      var postId := activePost.value.id;
      newCommentText := "";
      request := Some(CommentRequest(postId, content));
      if created.Fetched? {
        comments := Prepend(created.value, comments);
        callback := Some(postId);
      }
    }

    /** `toggleLike` on a comment: no user means no change and no call; a
        refused toggle reloads the active post's comments, and with no
        active post the optimistic list stays. */
    method ToggleLike(commentId: string, likeOk: bool, reload: Fetch<seq<Comment>>)
      returns (called: bool, reloadedFor: Option<string>)
      modifies this`comments, this`loading
      ensures called == Truthy(currentUserId)
      ensures !called ==> comments == old(comments) && reloadedFor == None && loading == old(loading)
      ensures called && likeOk ==>
        comments == ToggleCommentLikeIn(old(comments), commentId, currentUserId.value) && reloadedFor == None
      ensures called && (likeOk || activePost.None?) ==> loading == old(loading)
      ensures called && !likeOk && activePost.Some? ==> !loading
      ensures called && !likeOk ==>
        && reloadedFor == (if activePost.Some? then Some(activePost.value.id) else None)
        && comments == if activePost.Some? && reload.Fetched? then reload.value
                       else ToggleCommentLikeIn(old(comments), commentId, currentUserId.value)
    {
      called, reloadedFor := false, None;
      if !Truthy(currentUserId) {
        return;
      }
      comments := ToggleCommentLikeIn(comments, commentId, currentUserId.value);
      called := true;
      if !likeOk && activePost.Some? {
        reloadedFor := Some(activePost.value.id);
        LoadComments(reload);
      }
    }

    /** `deleteComment`: on success the comment is filtered out and the
        callback runs whenever a post is active, even if the id was not in
        the list; on failure nothing changes and there is no callback. */
    method DeleteComment(commentId: string, deleteOk: bool) returns (callback: Option<string>)
      modifies this`comments
      ensures deleteOk ==> comments == RemoveComment(old(comments), commentId)
      ensures deleteOk ==> callback == if activePost.Some? then Some(activePost.value.id) else None
      ensures !deleteOk ==> comments == old(comments) && callback == None
    {
      callback := None;
      if deleteOk {
        comments := RemoveComment(comments, commentId);
        if activePost.Some? {
          callback := Some(activePost.value.id);
        }
      }
    }
  }
}
