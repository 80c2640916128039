/**
  The posts screen (app/posts.tsx): the helpers that decide whom a post or
  comment belongs to and whether the user liked it, the relative-time
  label, the location label, and the screen's own create-post,
  create-comment and delete-comment handlers, which differ from the hooks'
  versions in small ways.
*/
module PostsScreen {
  import opened Wrappers
  import opened Entities
  import Strings
  import PostsFeed
  import CommentsThread
  import CreatePost

  const CurrentLocationLabel := "Ubicación actual"
  const MinuteMs: nat := 60000
  const HourMs: nat := 3600000
  const DayMs: nat := 86400000

  // ---------------------------------------------------------------------
  // Identities and likes

  /** `getCurrentUserId`: `user.id || user._id`. */
  function CurrentUserId(user: Option<User>): (r: Option<string>)
    ensures user.None? ==> r.None?
    ensures user.Some? && user.value.id != "" ==> r == Some(user.value.id)
    ensures user.Some? && user.value.id == "" ==> r == user.value.dbId
  {
    match user
    case None => None
    case Some(u) => if u.id != "" then Some(u.id) else u.dbId
  }

  /** `getPostAuthorId` / `getCommentAuthorId`: no id for a missing or
      empty author, the string itself for a bare id, `_id || id` for a
      record. */
  function AuthorId(author: AuthorRef): (r: Option<string>)
    ensures author.NoAuthor? ==> r.None?
    ensures author.AuthorIdText? ==> (r.Some? <==> author.text != "") && (r.Some? ==> r.value == author.text)
    ensures author.AuthorRecord? && Truthy(author.dbId) ==> r == author.dbId
    ensures author.AuthorRecord? && !Truthy(author.dbId) ==> r == author.id
  {
    match author
    case NoAuthor => None
    case AuthorIdText(text) => if text != "" then Some(text) else None
    case AuthorRecord(dbId, id, _, _, _) => if Truthy(dbId) then dbId else id
  }

  /** An author sent as a bare id and one sent as a record with that `_id`
      have the same id. */
  lemma AuthorIdUniform(x: string, id: Option<string>, name: string, email: string, avatar: Option<string>)
    requires x != ""
    ensures AuthorId(AuthorIdText(x)) == AuthorId(AuthorRecord(Some(x), id, name, email, avatar)) == Some(x)
  {
  }

  /** `isMyPost` / `isMyComment`: false when either id is missing,
      otherwise whether they are equal. */
  function OwnedBy(user: Option<User>, author: AuthorRef): (r: bool)
    ensures r <==> Truthy(CurrentUserId(user)) && AuthorId(author) == CurrentUserId(user)
  {
    var me := CurrentUserId(user);
    var them := AuthorId(author);
    if !Truthy(me) || !Truthy(them) then false else them.value == me.value
  }

  function IsMyPost(user: Option<User>, post: Post): (r: bool)
    ensures r <==> Truthy(CurrentUserId(user)) && AuthorId(post.author) == CurrentUserId(user)
  {
    OwnedBy(user, post.author)
  }

  function IsMyComment(user: Option<User>, comment: Comment): (r: bool)
    ensures r <==> Truthy(CurrentUserId(user)) && AuthorId(comment.author) == CurrentUserId(user)
  {
    OwnedBy(user, comment.author)
  }

  /** `hasLikedPost` / `hasLikedComment`: false without a user id,
      otherwise membership in the like list. */
  function LikedBy(user: Option<User>, likes: seq<string>): (r: bool)
    ensures r <==> Truthy(CurrentUserId(user)) && CurrentUserId(user).value in likes
  {
    var me := CurrentUserId(user);
    if !Truthy(me) then false else me.value in likes
  }

  function HasLikedPost(user: Option<User>, post: Post): (r: bool)
    ensures r <==> Truthy(CurrentUserId(user)) && CurrentUserId(user).value in post.likes
  {
    LikedBy(user, post.likes)
  }

  function HasLikedComment(user: Option<User>, comment: Comment): (r: bool)
    ensures r <==> Truthy(CurrentUserId(user)) && CurrentUserId(user).value in comment.likes
  {
    LikedBy(user, comment.likes)
  }

  /** A post whose author record is the user's own is the user's post iff
      `id` and `_id` do not disagree: the user's id is read `id` first and
      the author's `_id` first, so a user whose two ids differ does not
      own it. */
  lemma OwnRecordOwned(u: User, name: string, email: string, avatar: Option<string>)
    requires Truthy(CurrentUserId(Some(u)))
    ensures OwnedBy(Some(u), AuthorRecord(u.dbId, Some(u.id), name, email, avatar))
      <==> !Truthy(u.dbId) || u.id == "" || u.dbId == Some(u.id)
  {
  }

  /** The optimistic toggle, applied with the screen user's id, flips what
      the heart shows on the matching posts and on no other. */
  lemma ToggleFlipsHeart(user: Option<User>, posts: seq<Post>, postId: string, i: int)
    requires Truthy(CurrentUserId(user)) && 0 <= i < |posts|
    ensures var toggled := PostsFeed.ToggleLikeIn(posts, postId, CurrentUserId(user).value);
      && (posts[i].id == postId ==> (HasLikedPost(user, toggled[i]) <==> !HasLikedPost(user, posts[i])))
      && (posts[i].id != postId ==> (HasLikedPost(user, toggled[i]) <==> HasLikedPost(user, posts[i])))
  {
  }

  // ---------------------------------------------------------------------
  // Relative time

  /** The integer part of `formatDate`: which label a time difference in
      milliseconds gets. `Older` is the locale date. */
  datatype Bucket = Now | Minutes(n: nat) | Hours(n: nat) | Days(n: nat) | Older

  /** `Math.floor(diffMs / 60000)` and so on, checked in order. */
  function BucketOf(diffMs: int): (b: Bucket)
    ensures b == Now <==> diffMs < MinuteMs
    ensures b.Minutes? ==> 1 <= b.n < 60 && b.n * MinuteMs <= diffMs < (b.n + 1) * MinuteMs
    ensures b.Hours? ==> 1 <= b.n < 24 && b.n * HourMs <= diffMs < (b.n + 1) * HourMs
    ensures b.Days? ==> 1 <= b.n < 7 && b.n * DayMs <= diffMs < (b.n + 1) * DayMs
    ensures b == Older <==> diffMs >= 7 * DayMs
    ensures MinuteMs <= diffMs < HourMs ==> b.Minutes?
    ensures HourMs <= diffMs < DayMs ==> b.Hours?
    ensures DayMs <= diffMs < 7 * DayMs ==> b.Days?
  {
    var mins := diffMs / MinuteMs;
    var hours := diffMs / HourMs;
    var days := diffMs / DayMs;
    if mins < 1 then Now
    else if mins < 60 then Minutes(mins)
    else if hours < 24 then Hours(hours)
    else if days < 7 then Days(days)
    else Older
  }

  /** The label; `None` where the source falls back to the locale date. */
  function FormatDate(diffMs: int): (r: Option<string>)
    ensures r.None? <==> diffMs >= 7 * DayMs
    ensures diffMs < MinuteMs ==> r == Some("Ahora")
    ensures BucketOf(diffMs).Minutes? ==> r == Some("Hace " + Strings.NatToString(BucketOf(diffMs).n) + "m")
    ensures BucketOf(diffMs).Hours? ==> r == Some("Hace " + Strings.NatToString(BucketOf(diffMs).n) + "h")
    ensures BucketOf(diffMs).Days? ==> r == Some("Hace " + Strings.NatToString(BucketOf(diffMs).n) + "d")
  {
    match BucketOf(diffMs)
    case Now => Some("Ahora")
    case Minutes(n) => Some("Hace " + Strings.NatToString(n) + "m")
    case Hours(n) => Some("Hace " + Strings.NatToString(n) + "h")
    case Days(n) => Some("Hace " + Strings.NatToString(n) + "d")
    case Older => None
  }

  /** Ninety seconds ago reads "Hace 1m"; two and a half hours, "Hace 2h". */
  lemma FormatDateExamples()
    ensures FormatDate(90000) == Some("Hace 1m")
    ensures FormatDate(9000000) == Some("Hace 2h")
  {
    assert BucketOf(90000) == Minutes(1);
    assert BucketOf(9000000) == Hours(2);
    assert Strings.DigitChar(1) == '1' && Strings.DigitChar(2) == '2';
    assert Strings.NatToString(1) == "1";
    assert Strings.NatToString(2) == "2";
    assert FormatDate(90000) == Some("Hace " + "1" + "m");
    assert "Hace " + "1" + "m" == "Hace 1m";
    assert FormatDate(9000000) == Some("Hace " + "2" + "h");
    assert "Hace " + "2" + "h" == "Hace 2h";
  }

  // ---------------------------------------------------------------------
  // Location label

  /** `\d+(\.\d+)?`. */
  function IsUnsignedDecimal(t: string): (r: bool)
    ensures r ==> t != "" && Strings.IsDigit(t[0]) && Strings.IsDigit(t[|t| - 1])
    ensures t != "" && Strings.AllDigits(t) ==> r
  {
    var parts := Strings.Split(t, '.');
    assert Strings.AllDigits(t) ==> '.' !in t by {
      if Strings.AllDigits(t) { DigitsHaveNoDot(t); }
    }
    assert |parts| == 2 ==> t == parts[0] + ['.'] + parts[1] by {
      if |parts| == 2 { Strings.SplitInTwo(t, '.'); }
    }
    if |parts| == 1 then t != "" && Strings.AllDigits(t)
    else |parts| == 2 && parts[0] != "" && parts[1] != "" && Strings.AllDigits(parts[0]) && Strings.AllDigits(parts[1])
  }

  /** `-?\d+(\.\d+)?`. */
  function IsDecimal(t: string): (r: bool)
    ensures r ==> t != "" && (t[0] == '-' || Strings.IsDigit(t[0])) && Strings.IsDigit(t[|t| - 1])
  {
    if |t| > 0 && t[0] == '-' then IsUnsignedDecimal(t[1..]) else IsUnsignedDecimal(t)
  }

  /** `^-?\d+(\.\d+)?\s*,\s*-?\d+(\.\d+)?$`: two decimals around one comma,
      with optional blanks beside the comma. */
  function IsCoordinatePair(s: string): (r: bool)
    ensures r ==> s != "" && (s[0] == '-' || Strings.IsDigit(s[0])) && Strings.IsDigit(s[|s| - 1])
  {
    var parts := Strings.Split(s, ',');
    assert |parts| == 2 ==> s == parts[0] + [','] + parts[1] by {
      if |parts| == 2 { Strings.SplitInTwo(s, ','); }
    }
    |parts| == 2 && IsDecimal(Strings.TrimEnd(parts[0])) && IsDecimal(Strings.TrimStart(parts[1]))
  }

  /** `getLocationLabel`: nothing without a location; the trimmed address
      when it is non-empty and not a pair of coordinates; otherwise the
      generic label. */
  function LocationLabel(loc: Option<Location>): (r: string)
    ensures r == "" <==> loc.None?
    ensures loc.Some? && Truthy(loc.value.address)
      && Strings.Trim(loc.value.address.value) != ""
      && !IsCoordinatePair(Strings.Trim(loc.value.address.value))
      ==> r == Strings.Trim(loc.value.address.value)
    ensures r != "" && r != CurrentLocationLabel ==>
      && loc.value.address.Some?
      && r == Strings.Trim(loc.value.address.value)
      && Strings.IsTrimmed(r)
      && !IsCoordinatePair(r)
  {
    match loc
    case None => ""
    case Some(l) =>
      var addr := if l.address.Some? then Some(Strings.Trim(l.address.value)) else None;
      if Truthy(addr) && !IsCoordinatePair(addr.value) then addr.value else CurrentLocationLabel
  }

  lemma DigitsHaveNoDot(t: string)
    requires Strings.AllDigits(t)
    ensures '.' !in t
  {
    assert forall k :: 0 <= k < |t| ==> Strings.IsDigit(t[k]);
  }

  /** Every whole number is a decimal, with or without a minus sign. */
  lemma WholeNumberIsDecimal(n: nat)
    ensures IsDecimal(Strings.NatToString(n))
    ensures IsDecimal("-" + Strings.NatToString(n))
  {
    var t := Strings.NatToString(n);
    DigitsHaveNoDot(t);
    assert Strings.IsDigit(t[0]);
    assert ("-" + t)[1..] == t;
  }

  /** Digits, a dot and digits: the unsigned form. */
  lemma DigitsDotDigits(t: string, w: string, f: string)
    requires Strings.AllDigits(w) && Strings.AllDigits(f) && w != "" && f != ""
    requires t == w + ['.'] + f
    ensures IsUnsignedDecimal(t)
  {
    DigitsHaveNoDot(w);
    DigitsHaveNoDot(f);
    Strings.SplitTwo(t, w, f, '.');
  }

  /** An unsigned decimal is a decimal, and so is its negation. */
  lemma SignedDecimal(t: string)
    requires IsUnsignedDecimal(t) && t != [] && t[0] != '-'
    ensures IsDecimal(t) && IsDecimal("-" + t)
  {
    assert ("-" + t)[1..] == t;
  }

  /** A whole part, a dot and a fractional part form a decimal, with or
      without a minus sign. */
  lemma FractionIsDecimal(whole: nat, fraction: nat)
    ensures IsDecimal(Strings.NatToString(whole) + "." + Strings.NatToString(fraction))
    ensures IsDecimal("-" + (Strings.NatToString(whole) + "." + Strings.NatToString(fraction)))
  {
    var w := Strings.NatToString(whole);
    var f := Strings.NatToString(fraction);
    var t := w + "." + f;
    DigitsDotDigits(t, w, f);
    assert t[0] == w[0] && Strings.IsDigit(w[0]);
    SignedDecimal(t);
  }

  /** Two decimals around one comma, with blanks beside it. */
  lemma CoordinatePairAt(s: string, a: string, b: string)
    requires ',' !in a && ',' !in b && s == a + [','] + b
    requires IsDecimal(Strings.TrimEnd(a)) && IsDecimal(Strings.TrimStart(b))
    ensures IsCoordinatePair(s)
  {
    Strings.SplitTwo(s, a, b, ',');
  }

  /** An address that, once trimmed, is two decimals around a comma shows
      the generic label instead of the address. */
  lemma CoordinatesAreHidden(l: Location, a: string, b: string)
    requires l.address.Some? && Strings.Trim(l.address.value) == a + [','] + b
    requires ',' !in a && ',' !in b
    requires IsDecimal(Strings.TrimEnd(a)) && IsDecimal(Strings.TrimStart(b))
    ensures LocationLabel(Some(l)) == CurrentLocationLabel
  {
    CoordinatePairAt(Strings.Trim(l.address.value), a, b);
  }

  // ---------------------------------------------------------------------
  // Comment counter and uploads of the screen's own handlers

  /** `commentsCount + 1` on the matching posts, with no clamp. */
  function IncrementCommentsCount(posts: seq<Post>, postId: string): (r: seq<Post>)
    ensures |r| == |posts|
    ensures forall i :: 0 <= i < |posts| && posts[i].id != postId ==> r[i] == posts[i]
    ensures forall i :: 0 <= i < |posts| && posts[i].id == postId ==>
      r[i] == posts[i].(commentsCount := posts[i].commentsCount + 1)
  {
    if posts == [] then []
    else
      var p := posts[0];
      var q := if p.id == postId then p.(commentsCount := p.commentsCount + 1) else p;
      [q] + IncrementCommentsCount(posts[1..], postId)
  }

  /** The unclamped increment agrees with the hook's clamped one wherever
      the count is at least -1. */
  lemma IncrementAgreesWithAdjust(posts: seq<Post>, postId: string)
    requires forall i :: 0 <= i < |posts| ==> posts[i].commentsCount >= -1
    ensures IncrementCommentsCount(posts, postId) == PostsFeed.AdjustCommentsCount(posts, postId, 1)
  {
    var a := IncrementCommentsCount(posts, postId);
    var b := PostsFeed.AdjustCommentsCount(posts, postId, 1);
    assert forall i :: 0 <= i < |posts| ==> a[i] == b[i];
  }

  /** A comment created and then deleted on this screen leaves every
      non-negative count as it was. */
  lemma CreateThenDeleteRestoresCounts(posts: seq<Post>, postId: string)
    requires forall i :: 0 <= i < |posts| ==> posts[i].commentsCount >= 0
    ensures PostsFeed.AdjustCommentsCount(IncrementCommentsCount(posts, postId), postId, -1) == posts
  {
    var twice := PostsFeed.AdjustCommentsCount(IncrementCommentsCount(posts, postId), postId, -1);
    assert forall i :: 0 <= i < |posts| ==> twice[i] == posts[i];
  }

  /** The URLs this screen's loop collects: every image is uploaded, remote
      or not, and failures are dropped. */
  function UploadEvery(images: seq<string>, upload: string -> Option<string>): (r: seq<string>)
    ensures |r| <= |images|
  {
    if images == [] then []
    else
      var last := upload(images[|images| - 1]);
      UploadEvery(images[..|images| - 1], upload) + (if last.Some? then [last.value] else [])
  }

  /** On local images this loop and the hook's loop collect the same URLs. */
  lemma {:induction false} UploadEveryOnLocalImages(images: seq<string>, upload: string -> Option<string>)
    requires forall k :: 0 <= k < |images| ==> !CreatePost.IsRemote(images[k])
    ensures UploadEvery(images, upload) == CreatePost.UploadedUrls(images, upload)
  {
    if images != [] {
      UploadEveryOnLocalImages(images[..|images| - 1], upload);
    }
  }

  /** A remote image whose re-upload fails is lost here, where the hook
      would have kept it. */
  lemma RemoteImageLostOnFailedUpload(uri: string, upload: string -> Option<string>)
    requires CreatePost.IsRemote(uri) && upload(uri).None?
    ensures UploadEvery([uri], upload) == []
    ensures CreatePost.UploadedUrls([uri], upload) == [uri]
  {
    assert [uri][..0] == [];
  }

  /** The upload loop of `handleCreatePost`. */
  method UploadAll(images: seq<string>, upload: string -> Option<string>) returns (uploadedUrls: seq<string>)
    ensures uploadedUrls == UploadEvery(images, upload)
  {
    uploadedUrls := [];
    for i := 0 to |images|
      invariant uploadedUrls == UploadEvery(images[..i], upload)
    {
      assert images[..i + 1][..i] == images[..i];
      match upload(images[i])
      case Some(url) =>
        uploadedUrls := uploadedUrls + [url];
      case None =>
    }
    assert images[..|images|] == images;
  }

  /** The request `handleCreatePost` sends for a draft. */
  function ScreenRequest(content: string, images: seq<string>, location: Option<Location>,
                         editingPostId: Option<string>, upload: string -> Option<string>): (r: CreatePost.SaveRequest)
    ensures r.payload.content == Strings.Trim(content) && r.payload.location == location
    ensures r.UpdateRequest? <==> Truthy(editingPostId)
    ensures r.UpdateRequest? ==> r.postId == editingPostId.value
    ensures images == [] ==> r.payload.mediaUrls.None?
    ensures (forall k :: 0 <= k < |images| ==> !CreatePost.IsRemote(images[k])) ==>
      r == CreatePost.DraftRequest(content, images, location, editingPostId, upload)
  {
    if forall k :: 0 <= k < |images| ==> !CreatePost.IsRemote(images[k]) then
      UploadEveryOnLocalImages(images, upload);
      CreatePost.RequestFor(editingPostId, CreatePost.BuildPayload(content, UploadEvery(images, upload), location))
    else CreatePost.RequestFor(editingPostId, CreatePost.BuildPayload(content, UploadEvery(images, upload), location))
  }

  /** The uploads and the request building of `handleCreatePost`. */
  method PrepareRequest(content: string, images: seq<string>, location: Option<Location>,
                        editingPostId: Option<string>, upload: string -> Option<string>)
    returns (request: CreatePost.SaveRequest)
    ensures request == ScreenRequest(content, images, location, editingPostId, upload)
  {
    var uploadedUrls: seq<string> := [];
    if |images| > 0 {
      uploadedUrls := UploadAll(images, upload);
    }
    request := CreatePost.RequestFor(editingPostId, CreatePost.BuildPayload(content, uploadedUrls, location));
  }

  // ---------------------------------------------------------------------
  // The screen

  /** The state of the posts screen that its own handlers change. `user`
      is the session user the auth guard hands the screen. */
  class Screen {
    const user: Option<User>
    var posts: seq<Post>
    var loading: bool
    var creating: bool
    var showCreateModal: bool
    var editingPostId: Option<string>
    var newPostContent: string
    var selectedImages: seq<string>
    var currentLocation: Option<Location>
    var activePost: Option<Post>
    var comments: seq<Comment>
    var newCommentText: string

    constructor (user: Option<User>)
      ensures this.user == user && posts == [] && loading && !creating && !showCreateModal
      ensures editingPostId == None && newPostContent == "" && selectedImages == [] && currentLocation == None
      ensures activePost == None && comments == [] && newCommentText == ""
    {
      this.user := user;
      posts, loading, creating, showCreateModal := [], true, false, false;
      editingPostId, newPostContent, selectedImages, currentLocation := None, "", [], None;
      activePost, comments, newCommentText := None, [], "";
    }

    /** `loadPosts`, as this screen writes it. */
    method LoadPosts(fetched: Fetch<seq<Post>>) returns (query: PostsFeed.FeedQuery)
      modifies this`posts, this`loading
      ensures query == PostsFeed.FeedQuery(PostsFeed.FeedLimit, PostsFeed.FeedOffset)
      ensures posts == if fetched.Fetched? then fetched.value else old(posts)
      ensures !loading
    {
      loading := true;
      query := PostsFeed.FeedQuery(PostsFeed.FeedLimit, PostsFeed.FeedOffset);
      if fetched.Fetched? {
        posts := fetched.value;
      }
      loading := false;
    }

    /** What a saved post does to the screen: `resetForm()`, the modal
        closed, then `loadPosts()`. */
    method CloseAndReload(reload: Fetch<seq<Post>>)
      modifies this`newPostContent, this`selectedImages, this`currentLocation, this`editingPostId
      modifies this`showCreateModal, this`posts, this`loading
      ensures newPostContent == "" && selectedImages == [] && currentLocation == None && editingPostId == None
      ensures !showCreateModal && !loading
      ensures posts == if reload.Fetched? then reload.value else old(posts)
    {
      newPostContent, selectedImages, currentLocation, editingPostId := "", [], None, None;
      showCreateModal := false;
      var _ := LoadPosts(reload);
    }

    /** `handleCreatePost` past its blank-text check: every image is
        uploaded in order, the request is built from what came back and
        sent; success resets and closes the form and reloads the feed,
        failure keeps the form. */
    method SubmitDraft(upload: string -> Option<string>, outcome: CreatePost.SaveOutcome, reload: Fetch<seq<Post>>)
      returns (result: CreatePost.SubmitResult)
      modifies this`creating, this`newPostContent, this`selectedImages, this`currentLocation, this`editingPostId
      modifies this`showCreateModal, this`posts, this`loading
      ensures !creating
      ensures outcome.SaveOk? ==>
        && result == CreatePost.Saved(ScreenRequest(old(newPostContent), old(selectedImages), old(currentLocation), old(editingPostId), upload))
        && newPostContent == "" && selectedImages == [] && currentLocation == None && editingPostId == None
        && !showCreateModal && !loading
        && posts == (if reload.Fetched? then reload.value else old(posts))
      ensures outcome.SaveError? ==>
        && result == CreatePost.SaveFailed(
             ScreenRequest(old(newPostContent), old(selectedImages), old(currentLocation), old(editingPostId), upload),
             CreatePost.SaveErrorMessage(outcome.serverMessage))
        && posts == old(posts) && newPostContent == old(newPostContent) && selectedImages == old(selectedImages)
        && currentLocation == old(currentLocation) && editingPostId == old(editingPostId)
        && showCreateModal == old(showCreateModal) && loading == old(loading)
    {
      var request := PrepareRequest(newPostContent, selectedImages, currentLocation, editingPostId, upload);
      result := SendRequest(request, outcome, reload);
    }

    /** The backend call with `creating` raised around it: success resets
        and closes the form and reloads the feed, failure keeps the form. */
    method SendRequest(request: CreatePost.SaveRequest, outcome: CreatePost.SaveOutcome, reload: Fetch<seq<Post>>)
      returns (result: CreatePost.SubmitResult)
      modifies this`creating, this`newPostContent, this`selectedImages, this`currentLocation, this`editingPostId
      modifies this`showCreateModal, this`posts, this`loading
      ensures !creating
      ensures outcome.SaveOk? ==>
        && result == CreatePost.Saved(request)
        && newPostContent == "" && selectedImages == [] && currentLocation == None && editingPostId == None
        && !showCreateModal && !loading
        && posts == (if reload.Fetched? then reload.value else old(posts))
      ensures outcome.SaveError? ==>
        && result == CreatePost.SaveFailed(request, CreatePost.SaveErrorMessage(outcome.serverMessage))
        && posts == old(posts) && newPostContent == old(newPostContent) && selectedImages == old(selectedImages)
        && currentLocation == old(currentLocation) && editingPostId == old(editingPostId)
        && showCreateModal == old(showCreateModal) && loading == old(loading)
    {
      creating := true;
      if outcome.SaveOk? {
        CloseAndReload(reload);
        result := CreatePost.Saved(request);
      } else {
        result := CreatePost.SaveFailed(request, CreatePost.SaveErrorMessage(outcome.serverMessage));
      }
      creating := false;
    }

    /** `handleCreatePost`: blank text is refused before any upload or
        call and changes nothing; any other draft is submitted. */
    method HandleCreatePost(upload: string -> Option<string>, outcome: CreatePost.SaveOutcome, reload: Fetch<seq<Post>>)
      returns (result: CreatePost.SubmitResult)
      modifies this`creating, this`newPostContent, this`selectedImages, this`currentLocation, this`editingPostId
      modifies this`showCreateModal, this`posts, this`loading
      ensures Strings.Trim(old(newPostContent)) == "" ==>
        && result == CreatePost.Rejected(CreatePost.EmptyContentMessage)
        && posts == old(posts) && newPostContent == old(newPostContent) && selectedImages == old(selectedImages)
        && currentLocation == old(currentLocation) && editingPostId == old(editingPostId)
        && showCreateModal == old(showCreateModal) && creating == old(creating) && loading == old(loading)
      ensures Strings.Trim(old(newPostContent)) != "" && outcome.SaveOk? ==>
        && !creating
        && result == CreatePost.Saved(ScreenRequest(old(newPostContent), old(selectedImages), old(currentLocation), old(editingPostId), upload))
        && newPostContent == "" && selectedImages == [] && currentLocation == None && editingPostId == None
        && !showCreateModal && !loading
        && posts == (if reload.Fetched? then reload.value else old(posts))
      ensures Strings.Trim(old(newPostContent)) != "" && outcome.SaveError? ==>
        && !creating
        && result == CreatePost.SaveFailed(
             ScreenRequest(old(newPostContent), old(selectedImages), old(currentLocation), old(editingPostId), upload),
             CreatePost.SaveErrorMessage(outcome.serverMessage))
        && posts == old(posts) && newPostContent == old(newPostContent) && selectedImages == old(selectedImages)
        && currentLocation == old(currentLocation) && editingPostId == old(editingPostId)
        && showCreateModal == old(showCreateModal) && loading == old(loading)
    {
      if Strings.Trim(newPostContent) == "" {
        return CreatePost.Rejected(CreatePost.EmptyContentMessage);
      }
      result := SubmitDraft(upload, outcome, reload);
    }

    /** `handleCreateComment`: nothing without an active post or with blank
        text; otherwise the text is cleared before the call, and a created
        comment is prepended while the post's count goes up by exactly one. */
    method HandleCreateComment(created: Fetch<Comment>) returns (request: Option<CommentsThread.CommentRequest>)
      modifies this`newCommentText, this`comments, this`posts
      ensures old(activePost).None? || Strings.Trim(old(newCommentText)) == "" ==>
        && request.None? && newCommentText == old(newCommentText)
        && comments == old(comments) && posts == old(posts)
      ensures activePost.Some? && Strings.Trim(old(newCommentText)) != "" ==>
        && request == Some(CommentsThread.CommentRequest(activePost.value.id, Strings.Trim(old(newCommentText))))
        && newCommentText == ""
        && comments == (if created.Fetched? then CommentsThread.Prepend(created.value, old(comments)) else old(comments))
        && posts == (if created.Fetched? then IncrementCommentsCount(old(posts), activePost.value.id) else old(posts))
    {
      if activePost.None? {
        return None;
      }
      var content := Strings.Trim(newCommentText);
      if content == "" {
        return None;
      }
      var postId := activePost.value.id;
      newCommentText := "";
      request := Some(CommentsThread.CommentRequest(postId, content));
      if created.Fetched? {
        comments := CommentsThread.Prepend(created.value, comments);
        posts := IncrementCommentsCount(posts, postId);
      }
    }

    /** `handleDeleteComment`, once confirmed: on success the comment goes
        and the active post's count drops by one, never below zero; on
        failure nothing changes. */
    method HandleDeleteComment(commentId: string, deleteOk: bool)
      modifies this`comments, this`posts
      ensures deleteOk ==> comments == CommentsThread.RemoveComment(old(comments), commentId)
      ensures deleteOk && activePost.Some? ==> posts == PostsFeed.AdjustCommentsCount(old(posts), activePost.value.id, -1)
      ensures !deleteOk || activePost.None? ==> posts == old(posts)
      ensures !deleteOk ==> comments == old(comments)
    {
      if deleteOk {
        comments := CommentsThread.RemoveComment(comments, commentId);
        if activePost.Some? {
          posts := PostsFeed.AdjustCommentsCount(posts, activePost.value.id, -1);
        }
      }
    }
  }
}
