/**
  The composition draft hook (components/hooks/useCreatePost.tsx): the
  text, the picked images, the attached location and the id of the post
  being edited, and the submit procedure that uploads the local images one
  after another before creating or updating the post.
*/
module CreatePost {
  import opened Wrappers
  import opened Entities
  import Strings

  /** At most this many images are kept in a draft. */
  const MaxImages: nat := 4

  const EmptyContentMessage := "Escribe algo antes de publicar"
  const DefaultSaveError := "No se pudo crear la publicación"

  /** The body sent to the backend. */
  datatype Payload = Payload(content: string, mediaUrls: Option<seq<string>>, location: Option<Location>)

  /** Which backend call a submit makes. */
  datatype SaveRequest = CreateRequest(payload: Payload) | UpdateRequest(postId: string, payload: Payload)

  /** How the create or update call ended; a failure may carry the server's
      `response.data.message`. */
  datatype SaveOutcome = SaveOk | SaveError(serverMessage: Option<string>)

  /** What a submit did: refused the draft before any call, or sent a
      request that succeeded (and asked the feed to reload) or failed with
      the message shown. */
  datatype SubmitResult =
    | Rejected(message: string)
    | Saved(request: SaveRequest)
    | SaveFailed(request: SaveRequest, message: string)

  /** `[...prev, ...picked].slice(0, 4)`. */
  function MergeImages(prev: seq<string>, picked: seq<string>): (r: seq<string>)
    ensures |r| <= MaxImages
    ensures |r| == if |prev| + |picked| < MaxImages then |prev| + |picked| else MaxImages
    ensures r == (prev + picked)[..|r|]
  {
    var all := prev + picked;
    if |all| <= MaxImages then all else all[..MaxImages]
  }

  /** The first images of the draft stay where they were. */
  lemma MergeKeepsPrefix(prev: seq<string>, picked: seq<string>)
    ensures var r := MergeImages(prev, picked);
      |prev| <= MaxImages ==> r[..|prev|] == prev
  {
    var r := MergeImages(prev, picked);
    if |prev| <= MaxImages {
      assert r[..|prev|] == (prev + picked)[..|r|][..|prev|];
    }
  }

  /** Two images already in the draft and three newly picked give four:
      the first two unchanged, then the first two of the new ones. */
  lemma MergeTwoAndThree(a: string, b: string, x: string, y: string, z: string)
    ensures MergeImages([a, b], [x, y, z]) == [a, b, x, y]
  {
    assert [a, b] + [x, y, z] == [a, b, x, y, z];
  }

  /** `prev.filter((_, i) => i !== index)`, written as a walk that counts
      positions down to the one dropped. */
  function RemoveAt(images: seq<string>, index: int): (r: seq<string>)
    ensures 0 <= index < |images| ==> r == images[..index] + images[index + 1..]
    ensures !(0 <= index < |images|) ==> r == images
  {
    if images == [] then []
    else
      var rest := RemoveAt(images[1..], index - 1);
      assert 0 <= index - 1 < |images| - 1 ==> images[1..][..index - 1] + images[1..][index..] == images[1..index] + images[index + 1..];
      (if index == 0 then [] else [images[0]]) + rest
  }

  /** One image of the submit loop: an `http…` URI is kept as it is, any
      other is uploaded and replaced by the returned URL, or dropped when
      its upload fails. */
  function UploadStep(uri: string, upload: string -> Option<string>): (r: seq<string>)
    ensures IsRemote(uri) ==> r == [uri]
    ensures !IsRemote(uri) && upload(uri).Some? ==> r == [upload(uri).value]
    ensures !IsRemote(uri) && upload(uri).None? ==> r == []
  {
    if IsRemote(uri) then [uri]
    else match upload(uri)
      case Some(url) => [url]
      case None => []
  }

  /** The URLs the submit loop collects, in image order. */
  function UploadedUrls(images: seq<string>, upload: string -> Option<string>): (r: seq<string>)
    ensures |r| <= |images|
  {
    if images == [] then []
    else UploadedUrls(images[..|images| - 1], upload) + UploadStep(images[|images| - 1], upload)
  }

  function IsRemote(uri: string): (r: bool)
    ensures r <==> |uri| >= 4 && uri[..4] == "http"
  {
    Strings.StartsWith(uri, "http")
  }

  /** The loop handles each image on its own, in order. */
  lemma {:induction false} UploadedUrlsAppend(a: seq<string>, b: seq<string>, upload: string -> Option<string>)
    ensures UploadedUrls(a + b, upload) == UploadedUrls(a, upload) + UploadedUrls(b, upload)
    decreases |b|
  {
    if b == [] {
      assert a + b == a;
    } else {
      var front, last := b[..|b| - 1], b[|b| - 1];
      assert b == front + [last];
      UploadedUrlsAppend(a, front, upload);
      AppendLastStep(a, front, last, upload);
    }
  }

  lemma AppendLastStep(a: seq<string>, front: seq<string>, last: string, upload: string -> Option<string>)
    requires UploadedUrls(a + front, upload) == UploadedUrls(a, upload) + UploadedUrls(front, upload)
    ensures UploadedUrls(a + (front + [last]), upload) == UploadedUrls(a, upload) + UploadedUrls(front + [last], upload)
  {
    Associative(a, front, [last]);
    UnfoldLast(a + front, last, upload);
    UnfoldLast(front, last, upload);
    Associative(UploadedUrls(a, upload), UploadedUrls(front, upload), UploadStep(last, upload));
  }

  lemma Associative<T>(x: seq<T>, y: seq<T>, z: seq<T>)
    ensures x + (y + z) == (x + y) + z
  {
  }

  /** The loop's last image contributes its own step at the end. */
  lemma UnfoldLast(front: seq<string>, last: string, upload: string -> Option<string>)
    ensures UploadedUrls(front + [last], upload) == UploadedUrls(front, upload) + UploadStep(last, upload)
  {
    var b := front + [last];
    assert b[..|b| - 1] == front && b[|b| - 1] == last;
  }

  /** A local image whose upload fails is skipped; the images around it
      keep their URLs and their order. */
  lemma FailedUploadSkipped(a: seq<string>, u: string, b: seq<string>, upload: string -> Option<string>)
    requires !IsRemote(u) && upload(u).None?
    ensures UploadedUrls(a + [u] + b, upload) == UploadedUrls(a, upload) + UploadedUrls(b, upload)
  {
    assert UploadStep(u, upload) == [];
    assert UploadedUrls([u], upload) == [] by {
      assert [u][..0] == [];
    }
    UploadedUrlsAppend(a, [u], upload);
    UploadedUrlsAppend(a + [u], b, upload);
  }

  /** A draft made only of remote images is submitted with those URLs, in
      order, and nothing is uploaded. */
  lemma {:induction false} RemoteImagesPassThrough(images: seq<string>, upload: string -> Option<string>)
    requires forall k :: 0 <= k < |images| ==> IsRemote(images[k])
    ensures UploadedUrls(images, upload) == images
  {
    if images != [] {
      RemoteImagesPassThrough(images[..|images| - 1], upload);
      assert images == images[..|images| - 1] + [images[|images| - 1]];
    }
  }

  /** When no upload fails, every image yields exactly one URL at its own
      position: the URI itself if remote, the upload's URL otherwise. */
  lemma {:induction false} UploadedUrlsAllSucceed(images: seq<string>, upload: string -> Option<string>)
    requires forall k :: 0 <= k < |images| && !IsRemote(images[k]) ==> upload(images[k]).Some?
    ensures |UploadedUrls(images, upload)| == |images|
    ensures forall k :: 0 <= k < |images| ==>
      UploadedUrls(images, upload)[k] == if IsRemote(images[k]) then images[k] else upload(images[k]).value
  {
    if images != [] {
      var init := images[..|images| - 1];
      UploadedUrlsAllSucceed(init, upload);
      assert forall k :: 0 <= k < |init| ==> init[k] == images[k];
    }
  }

  /** The loop of `submitPost`: images are handled one at a time, in
      order. */
  method UploadImages(images: seq<string>, upload: string -> Option<string>) returns (uploadedUrls: seq<string>)
    ensures uploadedUrls == UploadedUrls(images, upload)
  {
    uploadedUrls := [];
    var i := 0;
    while i < |images|
      invariant 0 <= i <= |images|
      invariant uploadedUrls == UploadedUrls(images[..i], upload)
    {
      assert images[..i + 1][..i] == images[..i];
      var uri := images[i];
      if Strings.StartsWith(uri, "http") {
        uploadedUrls := uploadedUrls + [uri];
      } else {
        match upload(uri)
        case Some(url) =>
          uploadedUrls := uploadedUrls + [url];
        case None =>
      }
      i := i + 1;
    }
    assert images[..|images|] == images;
  }

  /** The request body: trimmed text, the URLs only when there are some, the
      location only when one is attached. */
  function BuildPayload(content: string, uploadedUrls: seq<string>, location: Option<Location>): (p: Payload)
    ensures p.content == Strings.Trim(content)
    ensures p.mediaUrls.Some? <==> uploadedUrls != []
    ensures p.mediaUrls.Some? ==> p.mediaUrls.value == uploadedUrls
    ensures p.location == location
  {
    Payload(Strings.Trim(content), if |uploadedUrls| > 0 then Some(uploadedUrls) else None, location)
  }

  /** An update when the draft edits a post (a non-empty id), a create
      otherwise. */
  function RequestFor(editingPostId: Option<string>, payload: Payload): (r: SaveRequest)
    ensures r.payload == payload
    ensures r.UpdateRequest? <==> Truthy(editingPostId)
    ensures r.UpdateRequest? ==> r.postId == editingPostId.value
  {
    if Truthy(editingPostId) then UpdateRequest(editingPostId.value, payload) else CreateRequest(payload)
  }

  /** The message shown when the save fails. */
  function SaveErrorMessage(serverMessage: Option<string>): (m: string)
    ensures m != ""
    ensures Truthy(serverMessage) ==> m == serverMessage.value
  {
    if Truthy(serverMessage) then serverMessage.value else DefaultSaveError
  }

  /** Opening a post for editing and submitting it unchanged reproduces its
      content, its remote media URLs and its location, as an update of that
      post. */
  lemma EditRoundTrip(post: Post, upload: string -> Option<string>)
    requires post.id != "" && Strings.IsTrimmed(post.content)
    requires post.mediaUrls.Some? ==> forall k :: 0 <= k < |post.mediaUrls.value| ==> IsRemote(post.mediaUrls.value[k])
    ensures var images := if post.mediaUrls.Some? then post.mediaUrls.value else [];
      var p := BuildPayload(post.content, UploadedUrls(images, upload), post.location);
      && RequestFor(Some(post.id), p) == UpdateRequest(post.id, p)
      && p.content == post.content
      && p.location == post.location
      && p.mediaUrls == if post.mediaUrls.Some? && post.mediaUrls.value != [] then post.mediaUrls else None
  {
    Strings.TrimOfTrimmed(post.content);
    if post.mediaUrls.Some? {
      RemoteImagesPassThrough(post.mediaUrls.value, upload);
    }
  }

  /** The request `submitPost` sends for a draft: trimmed text, the URLs
      the upload loop collected, the attached location, to the update
      endpoint when a post is being edited. */
  function DraftRequest(content: string, images: seq<string>, location: Option<Location>,
                        editingPostId: Option<string>, upload: string -> Option<string>): (r: SaveRequest)
    ensures r.payload.content == Strings.Trim(content) && r.payload.location == location
    ensures r.UpdateRequest? <==> Truthy(editingPostId)
    ensures r.UpdateRequest? ==> r.postId == editingPostId.value
    ensures images == [] ==> r.payload.mediaUrls.None?
    ensures r.payload.mediaUrls.Some? ==> |r.payload.mediaUrls.value| <= |images|
    ensures images != [] && (forall k :: 0 <= k < |images| ==> IsRemote(images[k])) ==>
      r.payload.mediaUrls == Some(images)
  {
    if forall k :: 0 <= k < |images| ==> IsRemote(images[k]) then
      RemoteImagesPassThrough(images, upload);
      RequestFor(editingPostId, BuildPayload(content, UploadedUrls(images, upload), location))
    else RequestFor(editingPostId, BuildPayload(content, UploadedUrls(images, upload), location))
  }

  /** The uploads and the request building of `submitPost`. */
  method PrepareRequest(content: string, images: seq<string>, location: Option<Location>,
                        editingPostId: Option<string>, upload: string -> Option<string>)
    returns (request: SaveRequest)
    ensures request == DraftRequest(content, images, location, editingPostId, upload)
  {
    var uploadedUrls: seq<string> := [];
    if |images| > 0 {
      uploadedUrls := UploadImages(images, upload);
    }
    request := RequestFor(editingPostId, BuildPayload(content, uploadedUrls, location));
  }

  /** The draft hook's state; `userLocation` is `user?.location` of the
      hook's `user` argument. */
  class Composer {
    const userLocation: Option<Location>
    var showCreateModal: bool
    var editingPostId: Option<string>
    var content: string
    var selectedImages: seq<string>
    var location: Option<Location>
    var creating: bool

    constructor (userLocation: Option<Location>)
      ensures this.userLocation == userLocation
      ensures !showCreateModal && editingPostId == None && content == "" && selectedImages == []
      ensures location == None && !creating
    {
      this.userLocation := userLocation;
      showCreateModal, editingPostId, content, selectedImages, location, creating := false, None, "", [], None, false;
    }

    method ResetForm()
      modifies this`content, this`selectedImages, this`location, this`editingPostId
      ensures content == "" && selectedImages == [] && location == None && editingPostId == None
    {
      content := "";
      selectedImages := [];
      location := None;
      editingPostId := None;
    }

    /** `openCreateModal`: the location comes from the freshly fetched
        profile, else from the session user, else none; when the profile
        fetch throws, from the session user, else none. */
    method OpenCreateModal(profileLocation: Fetch<Option<Location>>)
      modifies this`content, this`selectedImages, this`location, this`editingPostId, this`showCreateModal
      ensures content == "" && selectedImages == [] && editingPostId == None && showCreateModal
      ensures profileLocation.Fetched? && profileLocation.value.Some? ==> location == profileLocation.value
      ensures (profileLocation.Threw? || profileLocation.value.None?) ==> location == userLocation
    {
      ResetForm();
      if profileLocation.Fetched? && profileLocation.value.Some? {
        location := profileLocation.value;
      } else if userLocation.Some? {
        location := userLocation;
      } else {
        location := None;
      }
      showCreateModal := true;
    }

    /** `openEditModal`: the draft is seeded from the post. */
    method OpenEditModal(post: Post)
      modifies this`content, this`selectedImages, this`location, this`editingPostId, this`showCreateModal
      ensures editingPostId == Some(post.id) && content == post.content
      ensures selectedImages == (if post.mediaUrls.Some? then post.mediaUrls.value else [])
      ensures location == post.location && showCreateModal
    {
      editingPostId := Some(post.id);
      content := post.content;
      selectedImages := if post.mediaUrls.Some? then post.mediaUrls.value else [];
      if post.location.Some? {
        location := post.location;
      } else {
        location := None;
      }
      showCreateModal := true;
    }

    method CloseModal()
      modifies this`content, this`selectedImages, this`location, this`editingPostId, this`showCreateModal
      ensures content == "" && selectedImages == [] && location == None && editingPostId == None
      ensures !showCreateModal
    {
      ResetForm();
      showCreateModal := false;
    }

    /** `setContent`, the text input's change handler. */
    method SetContent(text: string)
      modifies this`content
      ensures content == text
    {
      content := text;
    }

    /** `pickImages`: `None` stands for a cancelled pick or a denied
        permission, which change nothing. */
    method PickImages(picked: Option<seq<string>>)
      modifies this`selectedImages
      ensures selectedImages == if picked.Some? then MergeImages(old(selectedImages), picked.value) else old(selectedImages)
    {
      if picked.Some? {
        selectedImages := MergeImages(selectedImages, picked.value);
      }
    }

    method RemoveImage(index: int)
      modifies this`selectedImages
      ensures selectedImages == RemoveAt(old(selectedImages), index)
    {
      selectedImages := RemoveAt(selectedImages, index);
    }

    /** `submitPost` past its blank-text check: the images are uploaded in
        order, the request is built and sent; success resets and closes the
        draft (and the caller's `onSuccess` reloads the feed), failure keeps
        the draft for a retry. */
    method SubmitDraft(upload: string -> Option<string>, outcome: SaveOutcome) returns (result: SubmitResult)
      modifies this`content, this`selectedImages, this`location, this`editingPostId, this`showCreateModal, this`creating
      ensures !creating
      ensures outcome.SaveOk? ==>
        && result == Saved(DraftRequest(old(content), old(selectedImages), old(location), old(editingPostId), upload))
        && content == "" && selectedImages == [] && location == None && editingPostId == None
        && !showCreateModal
      ensures outcome.SaveError? ==>
        && result == SaveFailed(DraftRequest(old(content), old(selectedImages), old(location), old(editingPostId), upload),
                                SaveErrorMessage(outcome.serverMessage))
        && content == old(content) && selectedImages == old(selectedImages) && location == old(location)
        && editingPostId == old(editingPostId) && showCreateModal == old(showCreateModal)
    {
      var request := PrepareRequest(content, selectedImages, location, editingPostId, upload);
      result := SendRequest(request, outcome);
    }

    /** The backend call with `creating` raised around it: success resets
        and closes the draft, failure keeps it. */
    method SendRequest(request: SaveRequest, outcome: SaveOutcome) returns (result: SubmitResult)
      modifies this`content, this`selectedImages, this`location, this`editingPostId, this`showCreateModal, this`creating
      ensures !creating
      ensures outcome.SaveOk? ==>
        && result == Saved(request)
        && content == "" && selectedImages == [] && location == None && editingPostId == None
        && !showCreateModal
      ensures outcome.SaveError? ==>
        && result == SaveFailed(request, SaveErrorMessage(outcome.serverMessage))
        && content == old(content) && selectedImages == old(selectedImages) && location == old(location)
        && editingPostId == old(editingPostId) && showCreateModal == old(showCreateModal)
    {
      creating := true;
      if outcome.SaveOk? {
        CloseModal();
        result := Saved(request);
      } else {
        result := SaveFailed(request, SaveErrorMessage(outcome.serverMessage));
      }
      creating := false;
    }

    /** `submitPost`: blank text is refused before any upload or call and
        changes nothing; any other draft is submitted. */
    method SubmitPost(upload: string -> Option<string>, outcome: SaveOutcome) returns (result: SubmitResult)
      modifies this`content, this`selectedImages, this`location, this`editingPostId, this`showCreateModal, this`creating
      ensures Strings.Trim(old(content)) == "" ==>
        && result == Rejected(EmptyContentMessage)
        && content == old(content) && selectedImages == old(selectedImages) && location == old(location)
        && editingPostId == old(editingPostId) && showCreateModal == old(showCreateModal)
        && creating == old(creating)
      ensures Strings.Trim(old(content)) != "" && outcome.SaveOk? ==>
        && !creating
        && result == Saved(DraftRequest(old(content), old(selectedImages), old(location), old(editingPostId), upload))
        && content == "" && selectedImages == [] && location == None && editingPostId == None
        && !showCreateModal
      ensures Strings.Trim(old(content)) != "" && outcome.SaveError? ==>
        && !creating
        && result == SaveFailed(DraftRequest(old(content), old(selectedImages), old(location), old(editingPostId), upload),
                                SaveErrorMessage(outcome.serverMessage))
        && content == old(content) && selectedImages == old(selectedImages) && location == old(location)
        && editingPostId == old(editingPostId) && showCreateModal == old(showCreateModal)
    {
      if Strings.Trim(content) == "" {
        return Rejected(EmptyContentMessage);
      }
      result := SubmitDraft(upload, outcome);
    }
  }
}
