/**
  The feed hook (components/hooks/usePosts.tsx): the list of posts shown,
  with the `loading` and `refreshing` flags, and the operations that change
  it. Each awaited backend call is one atomic step whose outcome is a
  parameter.
*/
module PostsFeed {
  import opened Wrappers
  import opened Entities
  import Likes

  /** The page the feed asks for: `getFeed(20, 0)`. */
  const FeedLimit: nat := 20
  const FeedOffset: nat := 0

  datatype FeedQuery = FeedQuery(limit: nat, offset: nat)

  /** The optimistic like update: every post whose id matches has the
      user's like flipped; nothing else changes. */
  function ToggleLikeIn(posts: seq<Post>, postId: string, userId: string): (r: seq<Post>)
    ensures |r| == |posts|
    ensures forall i :: 0 <= i < |posts| && posts[i].id != postId ==> r[i] == posts[i]
    ensures forall i :: 0 <= i < |posts| && posts[i].id == postId ==>
      r[i] == posts[i].(likes := Likes.FlipLike(posts[i].likes, userId))
  {
    if posts == [] then []
    else
      var p := posts[0];
      var q := if p.id == postId then p.(likes := Likes.FlipLike(p.likes, userId)) else p;
      [q] + ToggleLikeIn(posts[1..], postId, userId)
  }

  /** Toggling twice restores every user's membership, and restores the
      list exactly when the user had not liked any matching post. */
  lemma {:induction false} ToggleLikeTwice(posts: seq<Post>, postId: string, userId: string)
    ensures var twice := ToggleLikeIn(ToggleLikeIn(posts, postId, userId), postId, userId);
      |twice| == |posts| &&
      forall i :: 0 <= i < |posts| ==> (userId in twice[i].likes <==> userId in posts[i].likes)
    ensures (forall i :: 0 <= i < |posts| && posts[i].id == postId ==> userId !in posts[i].likes) ==>
      ToggleLikeIn(ToggleLikeIn(posts, postId, userId), postId, userId) == posts
  {
    var twice := ToggleLikeIn(ToggleLikeIn(posts, postId, userId), postId, userId);
    forall i | 0 <= i < |posts|
      ensures userId in twice[i].likes <==> userId in posts[i].likes
      ensures posts[i].id == postId && userId !in posts[i].likes ==> twice[i] == posts[i]
      ensures posts[i].id != postId ==> twice[i] == posts[i]
    {
      Likes.FlipTwice(posts[i].likes, userId);
    }
  }

  /** `posts.filter((p) => p._id !== postId)`. */
  function RemovePost(posts: seq<Post>, postId: string): (r: seq<Post>)
    ensures forall p :: p in r <==> p in posts && p.id != postId
    ensures |r| <= |posts|
  {
    if posts == [] then []
    else (if posts[0].id == postId then [] else [posts[0]]) + RemovePost(posts[1..], postId)
  }

  /** Removal keeps the order of the posts it keeps. */
  lemma {:induction false} RemovePostAppend(a: seq<Post>, b: seq<Post>, postId: string)
    ensures RemovePost(a + b, postId) == RemovePost(a, postId) + RemovePost(b, postId)
  {
    if a != [] {
      assert (a + b)[1..] == a[1..] + b;
      RemovePostAppend(a[1..], b, postId);
    } else {
      assert a + b == b;
    }
  }

  /** Removing an id no post carries leaves the list as it was. */
  lemma {:induction false} RemoveAbsentPost(posts: seq<Post>, postId: string)
    requires forall i :: 0 <= i < |posts| ==> posts[i].id != postId
    ensures RemovePost(posts, postId) == posts
  {
    if posts != [] {
      RemoveAbsentPost(posts[1..], postId);
    }
  }

  /** `Math.max(0, p.commentsCount + change)` on the matching posts. */
  function AdjustCommentsCount(posts: seq<Post>, postId: string, change: int): (r: seq<Post>)
    ensures |r| == |posts|
    ensures forall i :: 0 <= i < |posts| && posts[i].id != postId ==> r[i] == posts[i]
    ensures forall i :: 0 <= i < |posts| && posts[i].id == postId ==>
      && r[i].(commentsCount := posts[i].commentsCount) == posts[i]
      && r[i].commentsCount >= 0
      && (posts[i].commentsCount + change >= 0 ==> r[i].commentsCount == posts[i].commentsCount + change)
      && (posts[i].commentsCount + change < 0 ==> r[i].commentsCount == 0)
  {
    if posts == [] then []
    else
      var p := posts[0];
      var q := if p.id == postId then p.(commentsCount := if p.commentsCount + change < 0 then 0 else p.commentsCount + change) else p;
      [q] + AdjustCommentsCount(posts[1..], postId, change)
  }

  /** A comment created and then deleted leaves every non-negative count as
      it was. */
  lemma AdjustUpThenDown(posts: seq<Post>, postId: string)
    requires forall i :: 0 <= i < |posts| ==> posts[i].commentsCount >= 0
    ensures AdjustCommentsCount(AdjustCommentsCount(posts, postId, 1), postId, -1) == posts
  {
    var twice := AdjustCommentsCount(AdjustCommentsCount(posts, postId, 1), postId, -1);
    assert forall i :: 0 <= i < |posts| ==> twice[i] == posts[i];
  }

  /** The feed hook's state. */
  class Feed {
    var posts: seq<Post>
    var loading: bool
    var refreshing: bool

    constructor ()
      ensures posts == [] && loading && !refreshing
    {
      posts, loading, refreshing := [], true, false;
    }

    /** `loadPosts`: asks for the first page and replaces the list with the
        answer; a failed fetch keeps the list as it was. */
    method LoadPosts(fetched: Fetch<seq<Post>>) returns (query: FeedQuery)
      modifies this
      ensures query == FeedQuery(FeedLimit, FeedOffset)
      ensures posts == if fetched.Fetched? then fetched.value else old(posts)
      ensures !loading && refreshing == old(refreshing)
    {
      loading := true;
      query := FeedQuery(FeedLimit, FeedOffset);
      if fetched.Fetched? {
        posts := fetched.value;
      }
      loading := false;
    }

    /** `handleRefresh`: the load runs with `refreshing` set. */
    method HandleRefresh(fetched: Fetch<seq<Post>>)
      modifies this
      ensures posts == if fetched.Fetched? then fetched.value else old(posts)
      ensures !loading && !refreshing
    {
      refreshing := true;
      var _ := LoadPosts(fetched);
      assert refreshing;
      refreshing := false;
    }

    /** `toggleLike`: no acting user means no change and no call. Otherwise
        the like is flipped optimistically; if the backend refuses, the list
        is reloaded, and a reload that fails too leaves the optimistic list. */
    method ToggleLike(postId: string, currentUserId: Option<string>, likeOk: bool, reload: Fetch<seq<Post>>)
      returns (called: bool, reloaded: bool)
      modifies this
      ensures called == Truthy(currentUserId)
      ensures !called ==> posts == old(posts) && loading == old(loading) && !reloaded
      ensures called && likeOk ==>
        posts == ToggleLikeIn(old(posts), postId, currentUserId.value) && loading == old(loading) && !reloaded
      ensures called && !likeOk ==>
        && reloaded && !loading
        && posts == if reload.Fetched? then reload.value else ToggleLikeIn(old(posts), postId, currentUserId.value)
      ensures refreshing == old(refreshing)
    {
      called, reloaded := false, false;
      if !Truthy(currentUserId) {
        return;
      }
      posts := ToggleLikeIn(posts, postId, currentUserId.value);
      called := true;
      if !likeOk {
        var _ := LoadPosts(reload);
        reloaded := true;
      }
    }

    /** `deletePost`: the post leaves the list only once the backend has
        deleted it. */
    method DeletePost(postId: string, deleteOk: bool)
      modifies this
      ensures posts == if deleteOk then RemovePost(old(posts), postId) else old(posts)
      ensures loading == old(loading) && refreshing == old(refreshing)
    {
      if deleteOk {
        posts := RemovePost(posts, postId);
      }
    }

    /** `updatePostCommentsCount`, the callback the comments hook calls. */
    method UpdatePostCommentsCount(postId: string, change: int)
      modifies this
      ensures posts == AdjustCommentsCount(old(posts), postId, change)
      ensures loading == old(loading) && refreshing == old(refreshing)
    {
      posts := AdjustCommentsCount(posts, postId, change);
    }
  }
}
