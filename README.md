# base-app client core in Dafny

This project models the client-side state logic of the base-app mobile
client, a React Native/Expo social app with posts, comments, likes and a
user profile. The model covers:

- the feed of posts, with optimistic likes, deletion and comment counts;
- the comment thread of the post whose comments are open;
- the draft of a post being created or edited, with its image-upload loop;
- the inline handlers of the posts screen;
- the image upload service's string and URL logic;
- the profile screen, with its form, round trips and save procedure;
- the session store, with the check, merge, logout and route guard;
- the validation of the registration form;
- the derivation of the API and WebSocket URLs.

Each awaited backend call is one atomic step. Its outcome is a parameter:

- `Fetch<T>` is either a fetched value or a throw;
- a `bool` success flag;
- a function from a local URI to the uploaded URL, or `None` when the
  upload fails;
- a small outcome datatype per call.

React state hooks become classes whose fields the methods update. The list
transformations the hooks apply (`map`, `filter`, prepend, `slice`) are
functions on `seq`. The `for` loops that upload images are methods with
loop invariants, proved equal to a recursive specification function.

Modules, one per file:

- `Wrappers`: `Option` and `Result`.
- `Entities`: posts, comments, users, locations, alerts and fetch outcomes.
  JavaScript falsiness of an optional string is `Truthy`.
- `Strings`: the string built-ins the code uses.
- `Likes`: the like flip shared by posts and comments.
- `PostsFeed`: `components/hooks/usePosts.tsx`.
- `CommentsThread`: `components/hooks/useComments.tsx`.
- `CreatePost`: `components/hooks/useCreatePost.tsx`.
- `PostsScreen`: `app/posts.tsx`.
- `Upload`: `services/upload.service.ts`.
- `Profile`: `app/profile.tsx`.
- `Session`: `contexts/UserContext.tsx`.
- `Register`: `app/register.tsx`.
- `Config`: `services/config.ts`.

## Quirks kept from the code

The model keeps these behaviours of the code as they are:

- Opening a post's comments does not clear the previous list before the
  load. A failed load leaves the old post's comments in place.
- When a like is refused, the feed is reloaded. If that reload fails too,
  the optimistic list stays.
- A successful comment delete reports the active post to the count callback
  even when the id was not in the local list. The count then drops by one.
- Two like toggles always restore the user's membership. They restore the
  list exactly only when the user was absent at first. When the user was
  present, every occurrence is filtered out and a single one is appended at
  the end.
- The posts screen handles its own submit:
  - It uploads every selected image, `http` URLs included, so a remote
    image whose re-upload fails is lost.
  - It adds one to the comment count without the clamp at zero.

  The hook versions do pass remote images through and clamp the count.
  Both versions are modelled, and lemmas relate them:
  `UploadEveryOnLocalImages`, `RemoteImageLostOnFailedUpload` and
  `IncrementAgreesWithAdjust`.
- Opening a post for editing does not reset the draft first. It sets all
  four draft fields, so the result is the same.
- A successful profile save replaces the session user. The screen's
  `[user]` effect, `Profile.Screen.LoadForm`, then runs again and refills
  the whole form from the merged user. This supersedes the handler's own
  update of the avatar and cover fields. Saved values come back in their
  saved form, so a typed website "example.com" reappears as
  "https://example.com". The model keeps the two as separate steps:
  `HandleSaveProfile`, then `LoadForm`.
- The posts screen reads the user's id as `id || _id`, but an author
  record's as `_id || id`. A user whose `id` and `_id` differ does not own
  posts whose author record carries both (`OwnRecordOwned`).

## Model

| member | source | states |
|---|---|---|
| Likes.Without | components/hooks/usePosts.tsx:41 | the user is absent afterwards, every other id keeps its multiplicity, and the list never grows |
| Likes.WithoutAppend | components/hooks/usePosts.tsx:41 | filtering distributes over concatenation, so the kept ids stay in order |
| Likes.WithoutAbsent | components/hooks/usePosts.tsx:41 | filtering out a user who is not there returns the list unchanged |
| Likes.FlipLike | components/hooks/usePosts.tsx:37-42 | the user is a member afterwards iff not before; if absent, the user is appended at the end; other ids keep their counts |
| Likes.FlipTwice | components/hooks/usePosts.tsx:37-42 | two flips restore membership, and restore the list exactly when the user was absent |
| PostsFeed.ToggleLikeIn | components/hooks/usePosts.tsx:34-47 | same length; only posts with the given id change, and only their likes, by the flip |
| PostsFeed.ToggleLikeTwice | components/hooks/usePosts.tsx:34-47 | toggling twice restores every post's membership, and restores the list exactly when no matching post held the like |
| PostsFeed.RemovePost | components/hooks/usePosts.tsx:61 | a post is kept iff it was there and has another id; the list never grows |
| PostsFeed.RemovePostAppend | components/hooks/usePosts.tsx:61 | removal distributes over concatenation, so the order of the rest is kept |
| PostsFeed.RemoveAbsentPost | components/hooks/usePosts.tsx:61 | removing an id no post carries leaves the list unchanged |
| PostsFeed.AdjustCommentsCount | components/hooks/usePosts.tsx:69-80 | only matching posts change, and only their count, which becomes count + change, or 0 if that is negative; never negative |
| PostsFeed.AdjustUpThenDown | components/hooks/usePosts.tsx:69-80 | +1 then -1 restores a list of non-negative counts exactly |
| PostsFeed.Feed.LoadPosts | components/hooks/usePosts.tsx:10-21 | asks for page (20, 0); replaces the list on success, keeps it on failure; loading ends false |
| PostsFeed.Feed.HandleRefresh | components/hooks/usePosts.tsx:23-27 | the list as after a load; both loading and refreshing end false |
| PostsFeed.Feed.ToggleLike | components/hooks/usePosts.tsx:29-56 | no call and no change without a user id; otherwise the optimistic toggle, and on refusal a reload that replaces the list if it succeeds |
| PostsFeed.Feed.DeletePost | components/hooks/usePosts.tsx:58-67 | the post is removed only when the backend delete succeeded |
| PostsFeed.Feed.UpdatePostCommentsCount | components/hooks/usePosts.tsx:69-80 | the list becomes the clamped adjustment of the old one |
| CommentsThread.Prepend | components/hooks/useComments.tsx:50 | the created comment comes first, followed by the old list unchanged |
| CommentsThread.ToggleCommentLikeIn | components/hooks/useComments.tsx:62-75 | only comments with the given id change, and only their likes, by the flip |
| CommentsThread.ToggleCommentLikeTwice | components/hooks/useComments.tsx:62-75 | toggling twice restores every comment's membership, and restores the list exactly when no matching comment held the like |
| CommentsThread.RemoveComment | components/hooks/useComments.tsx:89 | a comment is kept iff it was there and has another id |
| CommentsThread.RemoveCommentAppend | components/hooks/useComments.tsx:89 | deletion distributes over concatenation, so the kept comments stay in order |
| CommentsThread.RemoveAbsentComment | components/hooks/useComments.tsx:88-93 | deleting an id absent from the list leaves the list unchanged |
| CommentsThread.RemovePrepended | components/hooks/useComments.tsx:50 | deleting a fresh comment right after creating it restores the list |
| CommentsThread.Thread.LoadComments | components/hooks/useComments.tsx:13-25 | replaces the list on success, keeps it on failure; loading ends false |
| CommentsThread.Thread.OpenCommentsModal | components/hooks/useComments.tsx:27-33 | sets the active post, shows the modal, empties the text and loads that post's comments, without clearing the old list first |
| CommentsThread.Thread.CloseCommentsModal | components/hooks/useComments.tsx:35-40 | hides the modal; no active post, no comments, empty text |
| CommentsThread.Thread.SetNewCommentText | components/hooks/useComments.tsx:11 | the text becomes the typed one |
| CommentsThread.Thread.CreateComment | components/hooks/useComments.tsx:42-56 | no request without an active post or with blank text; otherwise the trimmed text is sent and the input cleared; on success the comment is prepended and the callback gets the post id; on failure nothing else changes |
| CommentsThread.Thread.ToggleLike | components/hooks/useComments.tsx:58-84 | no change without a user id; otherwise the optimistic toggle; on refusal, the active post's comments are reloaded if there is one, and loading then ends false; otherwise loading is untouched |
| CommentsThread.Thread.DeleteComment | components/hooks/useComments.tsx:86-98 | on success the id is filtered out and the callback gets the active post id if there is one; on failure no change and no callback |
| CreatePost.MergeImages | components/hooks/useCreatePost.tsx:117 | the first min(4, total) images of old followed by picked |
| CreatePost.MergeKeepsPrefix | components/hooks/useCreatePost.tsx:117 | a draft of at most 4 images keeps them as its prefix |
| CreatePost.MergeTwoAndThree | components/hooks/useCreatePost.tsx:115-117 | 2 kept and 3 picked give exactly the 2 and the first 2 picked |
| CreatePost.RemoveAt | components/hooks/useCreatePost.tsx:124-126 | removes exactly that position and keeps the order; an index out of range changes nothing |
| CreatePost.UploadedUrls | components/hooks/useCreatePost.tsx:151-162 | never more URLs than images |
| CreatePost.UploadStep | components/hooks/useCreatePost.tsx:151-161 | one body of the loop: an `http` URI is kept as is; a local one yields its uploaded URL, or nothing when the upload fails |
| CreatePost.IsRemote | components/hooks/useCreatePost.tsx:152 | `startsWith('http')`: the URI's first four characters are "http" |
| CreatePost.RemoteImagesPassThrough | components/hooks/useCreatePost.tsx:151-155 | remote images are kept as they are, in order, and nothing is uploaded |
| CreatePost.UploadedUrlsAllSucceed | components/hooks/useCreatePost.tsx:151-162 | when every upload succeeds, position k holds the remote image or its uploaded URL |
| CreatePost.UploadedUrlsAppend | components/hooks/useCreatePost.tsx:151-162 | the loop handles each image on its own: the URLs of a concatenation are the URLs of each part, in order |
| CreatePost.FailedUploadSkipped | components/hooks/useCreatePost.tsx:156-161 | a local image whose upload fails is skipped, and the images around it keep their URLs and order |
| CreatePost.UploadImages | components/hooks/useCreatePost.tsx:138-163 | the loop's result equals the specification function |
| CreatePost.BuildPayload | components/hooks/useCreatePost.tsx:165-183 | trimmed content; media URLs present iff some URL exists; the location as it was |
| CreatePost.RequestFor | components/hooks/useCreatePost.tsx:185-191 | an update of the edited id iff an id is set, else a create, with the payload |
| CreatePost.SaveErrorMessage | components/hooks/useCreatePost.tsx:197-198 | the server's message when it is non-empty, else a non-empty default |
| CreatePost.EditRoundTrip | components/hooks/useCreatePost.tsx:76-88 | submitting an unchanged edited post with remote images reproduces its content, images and location in an update of its id |
| CreatePost.PrepareRequest | components/hooks/useCreatePost.tsx:138-191 | the upload loop and the payload yield the draft's request |
| CreatePost.DraftRequest | components/hooks/useCreatePost.tsx:138-190 | the request of a submit: trimmed content, the location, the update endpoint iff the edited id is truthy; no media without images, never more URLs than images, and a draft of remote images sends exactly those images |
| CreatePost.Composer.ResetForm | components/hooks/useCreatePost.tsx:22-27 | empty content and images, no location, no edited id |
| CreatePost.Composer.OpenCreateModal | components/hooks/useCreatePost.tsx:29-74 | draft reset and modal shown; the location is the profile's, else the session user's, else none, and the user's when the profile fetch throws |
| CreatePost.Composer.OpenEditModal | components/hooks/useCreatePost.tsx:76-88 | seeds id, content, images (or none) and location from the post, and shows the modal |
| CreatePost.Composer.CloseModal | components/hooks/useCreatePost.tsx:90-93 | draft reset and modal hidden |
| CreatePost.Composer.SetContent | components/hooks/useCreatePost.tsx:17 | the content becomes the typed text |
| CreatePost.Composer.PickImages | components/hooks/useCreatePost.tsx:115-118 | a pick merges with the 4-image cap; a cancelled pick changes nothing |
| CreatePost.Composer.RemoveImage | components/hooks/useCreatePost.tsx:124-126 | the images lose exactly that position |
| CreatePost.Composer.SubmitDraft | components/hooks/useCreatePost.tsx:134-202 | sends the draft's request; on success the draft is reset and closed; on failure the draft is kept and the message shown; creating ends false |
| CreatePost.Composer.SendRequest | components/hooks/useCreatePost.tsx:185-202 | on success the draft is reset and closed; on failure it is kept and the message is reported; creating ends false |
| CreatePost.Composer.SubmitPost | components/hooks/useCreatePost.tsx:128-203 | blank content is rejected with no call and no change; otherwise as the submit of the draft |
| PostsScreen.CurrentUserId | app/posts.tsx:143-147 | none without a user; the `id`, or `_id` when `id` is empty |
| PostsScreen.AuthorId | app/posts.tsx:149-161 | none when absent; a non-empty string itself; for a record `_id`, else `id` |
| PostsScreen.AuthorIdUniform | app/posts.tsx:149-154 | a bare id and a record with that `_id` give the same author id |
| PostsScreen.OwnedBy | app/posts.tsx:486-504 | true iff the user id is non-empty and equals the author id |
| PostsScreen.IsMyPost | app/posts.tsx:486-491 | a post is mine iff the user has a truthy id and the post's author id equals it |
| PostsScreen.IsMyComment | app/posts.tsx:499-504 | a comment is mine iff the user has a truthy id and the comment's author id equals it |
| PostsScreen.OwnRecordOwned | app/posts.tsx:143-154 | an author record carrying the user's own `_id` and `id` counts as the user's iff the two ids do not disagree, because the user id is read `id` first and the author id `_id` first |
| PostsScreen.LikedBy | app/posts.tsx:493-510 | true iff the user id is non-empty and in the like list |
| PostsScreen.HasLikedPost | app/posts.tsx:493-497 | the heart is filled iff the user has a truthy id that is in the post's likes |
| PostsScreen.HasLikedComment | app/posts.tsx:506-510 | the heart is filled iff the user has a truthy id that is in the comment's likes |
| PostsScreen.ToggleFlipsHeart | app/posts.tsx:318-337 | the optimistic toggle flips the heart shown on matching posts and keeps it on the others |
| PostsScreen.BucketOf | app/posts.tsx:467-478 | the minute, hour or day bucket holds the floor of the elapsed time, within the bucket's range |
| PostsScreen.FormatDate | app/posts.tsx:467-484 | "Ahora" under a minute, "Hace Nm/Nh/Nd" by bucket, none (locale date) from 7 days |
| PostsScreen.FormatDateExamples | app/posts.tsx:475-477 | 90 s reads "Hace 1m" and 2.5 h reads "Hace 2h" |
| PostsScreen.LocationLabel | app/posts.tsx:125-140 | empty iff no location; a trimmed non-coordinate address is shown; any other non-generic label is such an address |
| PostsScreen.IsUnsignedDecimal | app/posts.tsx:133 | `\d+(\.\d+)?`: a match is non-empty and starts and ends with a digit; every non-empty digit string matches |
| PostsScreen.IsDecimal | app/posts.tsx:133 | `-?\d+(\.\d+)?`: a match is non-empty, starts with "-" or a digit and ends with a digit |
| PostsScreen.IsCoordinatePair | app/posts.tsx:133 | the anchored coordinate pattern: a match is non-empty, starts with "-" or a digit and ends with a digit, so it has no blanks at either end |
| PostsScreen.WholeNumberIsDecimal | app/posts.tsx:133 | every natural, signed or not, matches the number pattern |
| PostsScreen.FractionIsDecimal | app/posts.tsx:133 | every w.f decimal, signed or not, matches the number pattern |
| PostsScreen.CoordinatesAreHidden | app/posts.tsx:132-139 | an address that trims to two numbers around a comma is shown as "Ubicación actual" |
| PostsScreen.IncrementCommentsCount | app/posts.tsx:385-391 | matching posts gain exactly one comment, with no clamp; others unchanged |
| PostsScreen.IncrementAgreesWithAdjust | app/posts.tsx:385-391 | the unclamped +1 equals the hook's clamped +1 for counts of at least -1 |
| PostsScreen.CreateThenDeleteRestoresCounts | app/posts.tsx:439-447 | the screen's +1 followed by the clamped -1 restores non-negative counts |
| PostsScreen.UploadEvery | app/posts.tsx:222-232 | never more URLs than images |
| PostsScreen.UploadEveryOnLocalImages | app/posts.tsx:224-231 | on local images the screen's loop agrees with the hook's |
| PostsScreen.RemoteImageLostOnFailedUpload | app/posts.tsx:224-231 | a remote image whose re-upload fails is dropped by the screen and kept by the hook |
| PostsScreen.UploadAll | app/posts.tsx:222-232 | the loop's result equals the specification function |
| PostsScreen.PrepareRequest | app/posts.tsx:218-268 | the screen's upload loop and payload yield its request |
| PostsScreen.ScreenRequest | app/posts.tsx:222-267 | the screen's request: trimmed content, the location, the update endpoint iff the edited id is truthy, no media without images; on local images it is the hook's `DraftRequest` |
| PostsScreen.Screen.LoadPosts | app/posts.tsx:75-86 | asks for page (20, 0); replaces the list on success, keeps it on failure; loading ends false |
| PostsScreen.Screen.CloseAndReload | app/posts.tsx:270-272 | draft reset, modal hidden, feed reloaded |
| PostsScreen.Screen.SubmitDraft | app/posts.tsx:218-280 | sends the request; on success the draft is reset and closed and the feed reloaded; on failure nothing but the message |
| PostsScreen.Screen.SendRequest | app/posts.tsx:262-280 | on success reset, close and reload; on failure the state is kept and the message reported |
| PostsScreen.Screen.HandleCreatePost | app/posts.tsx:212-281 | blank content is rejected with no call and no change; otherwise as the submit |
| PostsScreen.Screen.HandleCreateComment | app/posts.tsx:371-396 | no request without an active post or with blank text; otherwise the text is cleared, and on success the comment is prepended and the post gains one comment |
| PostsScreen.Screen.HandleDeleteComment | app/posts.tsx:433-449 | on success the comment is removed and the active post's count drops with the clamp; on failure nothing changes |
| Upload.FixUri | services/upload.service.ts:15-16 | unchanged on Android; elsewhere the first `file://` is cut out |
| Upload.FixFileUri | services/upload.service.ts:16 | a `file://` URI loses exactly its scheme off Android |
| Upload.FileName | services/upload.service.ts:19 | the segment after the last "/", or the fallback name when empty; never empty, never holds "/" |
| Upload.FallbackName | services/upload.service.ts:19 | `image-${Date.now()}.jpg`: starts with "image-", has no "/", and its last "."-segment is "jpg" |
| Upload.FileNameIsTail | services/upload.service.ts:19 | a name taken from the URI is its suffix |
| Upload.Extension | services/upload.service.ts:20 | the segment after the last ".", lower-cased, or "jpg" when that segment is empty; never empty, no ".", no upper-case ASCII letter |
| Upload.ExtensionOfName | services/upload.service.ts:20 | a name ending in "." and a dot-free extension has that extension, lower-cased, whatever precedes it |
| Upload.ExtensionOfTrailingDot | services/upload.service.ts:20 | a name ending in "." has the extension "jpg" |
| Upload.MimeType | services/upload.service.ts:22-24 | png iff "png", webp iff "webp", otherwise jpeg |
| Upload.UpperCasePngIsPng | services/upload.service.ts:20-24 | a name ending in ".PNG" is sent as image/png |
| Upload.PrepareFile | services/upload.service.ts:15-34 | the file part carries the fixed URI, its name and the matching MIME type |
| Upload.RawUrl | services/upload.service.ts:58-63 | `url`, else `path`, else `location`; none iff all are empty |
| Upload.ResolveUrl | services/upload.service.ts:66-68 | an `http` URL unchanged; otherwise base, one "/" and the path; an `http` base gives an `http` URL |
| Upload.ResolveIdempotent | services/upload.service.ts:66-68 | resolving twice equals resolving once for an `http` base |
| Upload.ClassifyFailure | services/upload.service.ts:81-101 | an error status, else no response (network), else the error's own message or the default |
| Upload.ResultOf | services/upload.service.ts:58-101 | the resolved URL, the missing-URL error, or the classified failure |
| Upload.UploadImage | services/upload.service.ts:7-103 | an empty URI fails before anything is sent; otherwise the prepared file is sent and the result is as classified |
| Upload.ErrorMessage | services/upload.service.ts:86-101 | never empty; an HTTP error reads "No se pudo subir la imagen (HTTP " and so on |
| Profile.FindLabel | app/profile.tsx:36 | none iff no option matches; the first matching option's label otherwise |
| Profile.GenderLabel | app/profile.tsx:34-38 | "No especificado" iff the value is empty or unknown; otherwise the option's label |
| Profile.IsLocalUri | app/profile.tsx:133-138 | true iff the URI starts with neither `http://` nor `https://` |
| Profile.UploadImageIfNeeded | app/profile.tsx:141-163 | uploads iff local; a server URI comes back unchanged; a failed upload becomes that kind's error |
| Profile.UploadFailure | app/profile.tsx:161 | the thrown error starts "No se pudo subir la " and differs from the alert the save shows |
| Profile.SocialUrl | app/profile.tsx:213-230 | none iff the handle is empty; otherwise the prefix followed by the handle |
| Profile.StripSocial | app/profile.tsx:84-93 | empty without a link; otherwise the first occurrence of the prefix is cut out wherever it is, a leading prefix leaving the rest; a link without it is kept |
| Profile.SocialRoundTrip | app/profile.tsx:84-93 | stripping a saved link gives the handle back |
| Profile.SocialLinkRoundTrip | app/profile.tsx:213-230 | saving a loaded link with a non-empty handle gives the link back |
| Profile.CleanPieces | app/profile.tsx:207-211 | each kept piece is non-empty, trimmed and comma-free |
| Profile.ParseInterests | app/profile.tsx:207-211 | every parsed interest is non-empty, trimmed and comma-free |
| Profile.InterestsText | app/profile.tsx:82 | "" without interests; a single interest is shown as itself; a list of clean interests parses back to itself |
| Profile.InterestsForSave | app/profile.tsx:246 | the parsed list when non-empty, otherwise none |
| Profile.ParseJoinRoundTrip | app/profile.tsx:82 | parsing the ", "-joined text of clean interests gives them back |
| Profile.ParseIsStable | app/profile.tsx:207-211 | parsing the text of a parsed list gives the same list |
| Profile.WebsiteForSave | app/profile.tsx:240-245 | none iff empty; an `http` value unchanged; otherwise "https://" is prefixed; the result starts with `http` |
| Profile.WebsiteIdempotent | app/profile.tsx:240-245 | applying the rule twice equals applying it once |
| Profile.DateStringReadsBack | app/profile.tsx:487-492 | the date text splits at "-" into the year and two 2-digit fields that read back as month and day |
| Profile.DateString | app/profile.tsx:487-492 | the year's digits, then a "-" and exactly two characters twice, so month and day are fixed-width; reading back is `DateStringReadsBack` |
| Profile.NonEmpty | app/profile.tsx:234-239 | none iff empty, otherwise the value |
| Profile.FormFromUser | app/profile.tsx:72-97 | the form of the `[user]` effect and of `handleCancelEdit`: each text field is the user's value, or "" when missing or empty; the interests text and the four handles come from `InterestsText` and `StripSocial`; round trips in `LoadSaveRoundTrip` |
| Profile.OrEmpty | app/profile.tsx:75 | `value || ""`: "" exactly when the value is missing or empty, the value otherwise |
| Profile.BuildPayload | app/profile.tsx:207-258 | the name as typed; bio, phone, date of birth, gender, occupation and company as none when empty; the website and interests by their rules; all four links as prefix plus handle or none; avatar and cover as the final URL, or none when empty |
| Profile.WebsiteLoadSave | app/profile.tsx:81 | a stored `http` website survives a load and save |
| Profile.InterestsLoadSave | app/profile.tsx:246 | a stored non-empty list of clean interests survives a load and save |
| Profile.LinkLoadSave | app/profile.tsx:84-93 | a stored link with its prefix and a handle survives a load and save |
| Profile.LoadSaveRoundTrip | app/profile.tsx:70-99 | loading a user into the form and saving it keeps name, website, interests and links |
| Profile.SaveImage | app/profile.tsx:181-191 | an unchanged image is kept and not uploaded; a changed one goes through the conditional upload |
| Profile.ImageChanged | app/profile.tsx:181-194 | an image is uploaded only when the form value is non-empty and differs from the stored one; with no user, whenever it is non-empty |
| Profile.AbortMessage | app/profile.tsx:187-200 | the alert starts "No se pudo subir la foto de " and ends with ". Intenta de nuevo." |
| Profile.ImagesFor | app/profile.tsx:176-204 | nothing changed means nothing uploaded; an abort carries one of the two alerts; kept images stay; at most two uploads |
| Profile.RemoteImagesNotUploaded | app/profile.tsx:141-146 | server URLs in the form are never uploaded again |
| Profile.AvatarFailureStopsSave | app/profile.tsx:181-191 | a failed new local avatar aborts with the avatar alert before the cover is tried |
| Profile.CoverFailureStopsSave | app/profile.tsx:194-204 | with the avatar kept, a failed new local cover aborts with the cover alert |
| Profile.NewImagesUploaded | app/profile.tsx:176-204 | two new local images are uploaded avatar first and their URLs are used |
| Profile.SaveFailureMessage | app/profile.tsx:279 | the response's message, else the error's message, else a non-empty default |
| Profile.UploadChangedImages | app/profile.tsx:176-204 | the image step yields the plan of the specification function |
| Profile.Screen.LoadForm | app/profile.tsx:70-99 | a signed-in user fills the form; otherwise it is kept |
| Profile.Screen.CancelEdit | app/profile.tsx:287-315 | without a user nothing changes; otherwise the form is reloaded and editing ends |
| Profile.Screen.PickDate | app/profile.tsx:484-495 | a picked date is stored as its text; a dismissed picker changes nothing |
| Profile.Screen.SelectGender | app/profile.tsx:166-169 | the form holds the option's value, which is then shown as its label |
| Profile.Screen.HandleSaveProfile | app/profile.tsx:172-284 | uploads as planned; an abort leaves everything, with its alert; otherwise the payload is sent; success merges the answer into the session, refreshes the images and ends editing; failure shows the message; saving ends false; the session's loading, error and initialised flags are kept |
| Profile.Screen.ApplySaveOutcome | app/profile.tsx:263-280 | success merges the server's user, refreshes the form's images and ends editing with the success alert; failure changes nothing but the alert; the session's loading, error and initialised flags are kept |
| Session.MergeUser | contexts/UserContext.tsx:117-124 | a signed-out store stays signed out; every key present in the patch overrides, every other field is kept |
| Session.PatchFrom | app/profile.tsx:266 | the server's user as a patch: id, name and email always; each of the fourteen optional keys present exactly when the field is set, holding its value |
| Session.MergeEmpty | contexts/UserContext.tsx:117-124 | an empty patch changes nothing |
| Session.MergeIdempotent | contexts/UserContext.tsx:117-124 | merging the same patch twice equals merging it once |
| Session.MergeBackendRecord | app/profile.tsx:263-266 | after a save, id, name and email are the server's; bio and avatar are the server's when sent, else kept |
| Session.MergeCompleteRecord | app/profile.tsx:263-266 | a server user with every field set replaces the session user entirely |
| Session.ShouldRedirect | contexts/UserContext.tsx:187-195 | redirect iff not loading, no user, and the path is neither "/" nor "/register" |
| Session.IsAuthenticated | contexts/UserContext.tsx:197 | `!!user`: authenticated exactly when a user is stored |
| Session.RedirectSettles | contexts/UserContext.tsx:192-193 | the login screen itself never redirects |
| Session.Store.CheckSession | contexts/UserContext.tsx:85-112 | true iff a user is set; no token or no profile clears the user; a throw sets the session error and clears the user |
| Session.Store.UpdateUser | contexts/UserContext.tsx:117-124 | the user becomes the merge; nothing else changes |
| Session.Store.RefreshUser | contexts/UserContext.tsx:129-139 | the session check's outcome, and loading ends false |
| Session.Store.Logout | contexts/UserContext.tsx:144-159 | always signed out, not loading, sent to "/"; the error is set only when the backend call threw |
| Session.Store.Initialize | contexts/UserContext.tsx:67-83 | runs iff not yet initialised; then initialised; a run ends not loading with the session check's outcome for the user and the error; a later call changes nothing |
| Session.InitializeOnce | contexts/UserContext.tsx:67-83 | a second initialisation does nothing |
| Register.CollectErrors | app/register.tsx:16-25 | the error map the four fields deserve; empty iff the form is clean |
| Register.ReportsIsUnique | app/register.tsx:16-25 | the error rules determine the map uniquely |
| Register.Form.EditField | app/register.tsx:80-121 | only the edited field changes, and its error entry becomes "" |
| Register.Form.HandleRegister | app/register.tsx:15-56 | an unclean form gets its error map and alert with no call; a clean one clears the map, calls with name, email and password, and reports success, refusal or a connection error |
| Config.HostOf | services/config.ts:11 | the text before the first ":", or the whole host URI when it has no ":" |
| Config.BaseUrl | services/config.ts:7-22 | "http://" + host + ":3000" with a host URI, else the environment URL, else the emulator URL |
| Config.WebSocketScheme | services/config.ts:25 | `http://` becomes `ws://`, `https://` becomes `wss://` |
| Config.WebSocketUrl | services/config.ts:25 | `replace("http", "ws")`: a URL starting with "http" gets "ws" in place of it; one without "http" is unchanged |
| Config.WebSocketForHost | services/config.ts:8-13 | with a host URI the WebSocket URL is "ws://" + host + ":3000" |
| Config.ApiConfigFor | services/config.ts:27-31 | a 10000 ms timeout, the derived base URL and its WebSocket URL |
| Strings.Trim | components/hooks/useComments.tsx:43-45 | the input with whitespace cut from each end, so that neither end of the result is whitespace; never longer |
| Strings.TrimEmpty | components/hooks/useComments.tsx:43 | trimming gives "" iff the text is all whitespace |
| Strings.TrimIdempotent | components/hooks/useComments.tsx:45 | trimming twice equals trimming once |
| Strings.TrimKeepsAbsent | app/profile.tsx:210 | trimming adds no character |
| Strings.FindChar | services/config.ts:11 | the first position of the character, none iff absent |
| Strings.Split | app/profile.tsx:209 | never empty; pieces hold no separator; a text without one is its own piece |
| Strings.JoinSplit | app/profile.tsx:209 | joining the pieces with the separator gives the text back |
| Strings.SplitJoin | app/profile.tsx:82 | splitting a join of separator-free pieces gives the pieces back |
| Strings.LastSegment | services/upload.service.ts:19 | the last piece is separator-free, and the whole text when there is no separator |
| Strings.LastSegmentIsSuffix | services/upload.service.ts:19 | the last piece is a suffix, preceded by the separator when there is one |
| Strings.LastSegmentAfter | services/upload.service.ts:19-20 | the last piece is whatever follows the last separator |
| Strings.IndexOf | services/upload.service.ts:16 | the first occurrence of the pattern, none iff it never occurs |
| Strings.ReplaceFirst | services/config.ts:25 | only the first occurrence is replaced; unchanged without one |
| Strings.ReplacePrefix | app/profile.tsx:85 | replacing a leading pattern swaps exactly that prefix |
| Strings.ToLowerAscii | services/upload.service.ts:20 | same length, each ASCII capital lowered |
| Strings.NatToString | app/profile.tsx:487 | decimal digits without leading zero that read back as the number |
| Strings.PadStart2 | app/profile.tsx:488-489 | at least 2 long, the text at the end, zeros before it |
| Strings.PaddedNumberValue | app/profile.tsx:488-489 | a number under 100 pads to two digits that read back as it |

## Left out

- Backend calls, token storage, axios and fetch are not modelled. Each call's outcome is a parameter.
- Concurrency is not modelled. Each handler runs as one atomic step, so overlapping requests and stale responses are out of scope.
- Confirmation dialogs in front of the deletes count as confirmed.
- Success and error alerts that only report an outcome are not modelled in the feed, comments, draft and posts-screen code. The profile and registration screens return their alerts, because there the alert is the result.
- Image-picker permissions are not modelled. The picked URIs are inputs, and a cancelled pick is `None`.
- The profile screen's image picking is a direct assignment of the picked URI into the form, so it is not modelled separately.
- The posts screen's inline duplicates of the hook handlers are modelled once, in the hooks. These are the comment loading and opening, the like toggles, opening for edit or create, and the post delete. The screen class keeps the handlers whose code differs.
- The UI-only flags are not modelled: the modal, date-picker and gender-modal visibility in the profile, and `setEditing(true)` on the edit button.
- `Date.now()` in the fallback file name is the parameter `now`.
- `Platform.OS` is the parameter `isAndroid`.
- In `formatDate`, the elapsed milliseconds are the input. Date parsing and the clock are not modelled.
- `toLocaleDateString`, used from 7 days on, is not modelled. It is returned as `None`.
- The coordinate regular expression is an explicit predicate on `Split`, `TrimStart` and `TrimEnd`. Its `\s` is the whitespace set of `Strings.IsWhitespace`.
- Strings.Trim: strips the common whitespace characters only, because the less common Unicode spaces (U+1680, U+2000–U+200A, U+202F, U+205F, U+3000) are not in `IsWhitespace`.
- Strings.ToLowerAscii: lowers ASCII letters only, because `toLowerCase` on other scripts is locale data.
- Upload.ErrorMessage: states only the prefix of the HTTP-status message, because `JSON.stringify` of the response body is not modelled. The body is taken as text.
- Upload.UploadImage: the bearer token is not modelled, because it only affects a request header. The 20000 ms timeout is the constant `UploadTimeoutMs` and has no effect in the model.
- Profile.ImagesFor: the contract states the plan's general shape. Its per-case outcomes are the lemmas AvatarFailureStopsSave, CoverFailureStopsSave, NewImagesUploaded and RemoteImagesNotUploaded.
- The message of a failed profile save comes from the outcome parameter. `updateProfile` lives in services/user.service.ts, which is not part of this model.
- Profile.Screen.SelectGender: takes the option's index, because the screen only offers the listed options.
- The `catch` branches of `initializeUser` and `refreshUser` are not modelled separately, because `checkSession` catches every error itself and never throws.
- `useUser`'s provider check is not modelled: it only throws when a component is used outside the provider.
- Latitude and longitude are `real` and are only copied, never computed with.
