/**
  The records the client exchanges with the backend: posts and comments
  (services/posts-service.ts), the session user (contexts/UserContext.tsx)
  and a post's location.
*/
module Entities {
  import opened Wrappers

  /** JavaScript truthiness of an optional string: both `undefined` and ""
      are falsy. */
  predicate Truthy(o: Option<string>) {
    o.Some? && o.value != ""
  }

  /** An `Alert.alert(title, message)` shown to the user. */
  datatype Alert = Alert(title: string, message: string)

  /** The outcome of an awaited backend call that may throw. */
  datatype Fetch<+T> = Fetched(value: T) | Threw

  datatype Location = Location(latitude: real, longitude: real, address: Option<string>)

  /** The author of a post or comment. The declared type is an embedded
      record carrying `_id` (here `dbId`); the screens also accept a bare id
      string and a record that only carries `id`. */
  datatype AuthorRef =
    | NoAuthor
    | AuthorIdText(text: string)
    | AuthorRecord(dbId: Option<string>, id: Option<string>, name: string, email: string, avatar: Option<string>)

  /** A post; `id` is the server's `_id`. */
  datatype Post = Post(
    id: string,
    content: string,
    mediaUrls: Option<seq<string>>,
    location: Option<Location>,
    author: AuthorRef,
    likes: seq<string>,
    commentsCount: int,
    createdAt: string,
    updatedAt: string,
    isDeleted: bool)

  /** A comment; `id` is the server's `_id`. */
  datatype Comment = Comment(
    id: string,
    postId: string,
    author: AuthorRef,
    content: string,
    likes: seq<string>,
    parentCommentId: Option<string>,
    createdAt: string,
    isDeleted: bool)

  datatype SocialMedia = SocialMedia(
    facebook: Option<string>,
    instagram: Option<string>,
    twitter: Option<string>,
    linkedin: Option<string>)

  /** The session user. `dbId` is the `_id` the backend may also send. */
  datatype User = User(
    id: string,
    dbId: Option<string>,
    name: string,
    email: string,
    isOnline: Option<bool>,
    bio: Option<string>,
    phone: Option<string>,
    dateOfBirth: Option<string>,
    gender: Option<string>,
    occupation: Option<string>,
    company: Option<string>,
    website: Option<string>,
    interests: Option<seq<string>>,
    avatar: Option<string>,
    coverPhoto: Option<string>,
    socialMedia: Option<SocialMedia>,
    location: Option<Location>)

  /** A `Partial<User>`: a field is `Some` when the key is present. For an
      optional field the present value may itself be `undefined`. */
  datatype UserPatch = UserPatch(
    id: Option<string>,
    dbId: Option<Option<string>>,
    name: Option<string>,
    email: Option<string>,
    isOnline: Option<Option<bool>>,
    bio: Option<Option<string>>,
    phone: Option<Option<string>>,
    dateOfBirth: Option<Option<string>>,
    gender: Option<Option<string>>,
    occupation: Option<Option<string>>,
    company: Option<Option<string>>,
    website: Option<Option<string>>,
    interests: Option<Option<seq<string>>>,
    avatar: Option<Option<string>>,
    coverPhoto: Option<Option<string>>,
    socialMedia: Option<Option<SocialMedia>>,
    location: Option<Option<Location>>)
}
