/**
  The session store (contexts/UserContext.tsx): the signed-in user, the
  loading flag, the last error and the once-only initialisation, with the
  session check, the partial profile merge, the refresh, the logout, and
  the route guard built on them.
*/
module Session {
  import opened Wrappers
  import opened Entities

  const SessionErrorMessage := "Error al verificar sesión"
  const LogoutErrorMessage := "Error al cerrar sesión"
  const LoginPath := "/"
  const RegisterPath := "/register"

  /** One key of `{ ...current, ...patch }`: the patch's value when the key
      is present, the current one otherwise. */
  function Pick<T>(current: T, patch: Option<T>): (r: T)
    ensures patch.Some? ==> r == patch.value
    ensures patch.None? ==> r == current
  {
    if patch.Some? then patch.value else current
  }

  /** `updateUser`: a signed-out store stays signed out; otherwise every key
      present in the patch overrides and every other field is kept. */
  function MergeUser(current: Option<User>, patch: UserPatch): (r: Option<User>)
    ensures r.None? <==> current.None?
    ensures current.Some? ==>
      && r.value.id == Pick(current.value.id, patch.id)
      && r.value.dbId == Pick(current.value.dbId, patch.dbId)
      && r.value.name == Pick(current.value.name, patch.name)
      && r.value.email == Pick(current.value.email, patch.email)
      && r.value.isOnline == Pick(current.value.isOnline, patch.isOnline)
      && r.value.bio == Pick(current.value.bio, patch.bio)
      && r.value.phone == Pick(current.value.phone, patch.phone)
      && r.value.dateOfBirth == Pick(current.value.dateOfBirth, patch.dateOfBirth)
      && r.value.gender == Pick(current.value.gender, patch.gender)
      && r.value.occupation == Pick(current.value.occupation, patch.occupation)
      && r.value.company == Pick(current.value.company, patch.company)
      && r.value.website == Pick(current.value.website, patch.website)
      && r.value.interests == Pick(current.value.interests, patch.interests)
      && r.value.avatar == Pick(current.value.avatar, patch.avatar)
      && r.value.coverPhoto == Pick(current.value.coverPhoto, patch.coverPhoto)
      && r.value.socialMedia == Pick(current.value.socialMedia, patch.socialMedia)
      && r.value.location == Pick(current.value.location, patch.location)
  {
    match current
    case None => None
    case Some(u) =>
      Some(User(
        Pick(u.id, patch.id), Pick(u.dbId, patch.dbId), Pick(u.name, patch.name), Pick(u.email, patch.email),
        Pick(u.isOnline, patch.isOnline), Pick(u.bio, patch.bio), Pick(u.phone, patch.phone),
        Pick(u.dateOfBirth, patch.dateOfBirth), Pick(u.gender, patch.gender), Pick(u.occupation, patch.occupation),
        Pick(u.company, patch.company), Pick(u.website, patch.website), Pick(u.interests, patch.interests),
        Pick(u.avatar, patch.avatar), Pick(u.coverPhoto, patch.coverPhoto), Pick(u.socialMedia, patch.socialMedia),
        Pick(u.location, patch.location)))
  }

  /** The patch with no keys. */
  const EmptyPatch := UserPatch(None, None, None, None, None, None, None, None, None, None, None, None, None, None, None, None, None)

  /** A user record from the backend as a patch: its required keys, and the
      optional ones it carries (JSON has no `undefined`, so an absent field
      is an absent key). */
  function PatchFrom(u: User): (p: UserPatch)
    ensures p.id == Some(u.id) && p.name == Some(u.name) && p.email == Some(u.email)
    ensures Carries(p.dbId, u.dbId) && Carries(p.isOnline, u.isOnline) && Carries(p.bio, u.bio)
    ensures Carries(p.phone, u.phone) && Carries(p.dateOfBirth, u.dateOfBirth) && Carries(p.gender, u.gender)
    ensures Carries(p.occupation, u.occupation) && Carries(p.company, u.company) && Carries(p.website, u.website)
    ensures Carries(p.interests, u.interests) && Carries(p.avatar, u.avatar) && Carries(p.coverPhoto, u.coverPhoto)
    ensures Carries(p.socialMedia, u.socialMedia) && Carries(p.location, u.location)
  {
    UserPatch(
      Some(u.id), Present(u.dbId), Some(u.name), Some(u.email), Present(u.isOnline), Present(u.bio),
      Present(u.phone), Present(u.dateOfBirth), Present(u.gender), Present(u.occupation), Present(u.company),
      Present(u.website), Present(u.interests), Present(u.avatar), Present(u.coverPhoto),
      Present(u.socialMedia), Present(u.location))
  }

  /** A patch key carries an optional field: the key is present exactly
      when the field is set, and then holds the field's value. */
  predicate Carries<T(==)>(key: Option<Option<T>>, field: Option<T>) {
    (key.Some? <==> field.Some?) && (key.Some? ==> key.value == field)
  }

  /** An optional field that is set becomes a present key. */
  function Present<T>(o: Option<T>): (r: Option<Option<T>>)
    ensures r.Some? <==> o.Some?
    ensures r.Some? ==> r.value == o
  {
    if o.Some? then Some(o) else None
  }

  /** Merging nothing keeps the user. */
  lemma MergeEmpty(current: Option<User>)
    ensures MergeUser(current, EmptyPatch) == current
  {
  }

  /** Merging the same patch twice is merging it once. */
  lemma MergeIdempotent(current: Option<User>, patch: UserPatch)
    ensures MergeUser(MergeUser(current, patch), patch) == MergeUser(current, patch)
  {
  }

  /** Merging a backend record over a signed-in user takes all the record
      has and keeps the user's own values only where the record has none. */
  lemma MergeBackendRecord(current: User, u: User)
    ensures var m := MergeUser(Some(current), PatchFrom(u)).value;
      && m.id == u.id && m.name == u.name && m.email == u.email
      && (u.bio.Some? ==> m.bio == u.bio) && (u.bio.None? ==> m.bio == current.bio)
      && (u.avatar.Some? ==> m.avatar == u.avatar) && (u.avatar.None? ==> m.avatar == current.avatar)
  {
  }

  /** A complete record replaces the user entirely. */
  lemma MergeCompleteRecord(current: User, u: User)
    requires u.dbId.Some? && u.isOnline.Some? && u.bio.Some? && u.phone.Some? && u.dateOfBirth.Some?
    requires u.gender.Some? && u.occupation.Some? && u.company.Some? && u.website.Some? && u.interests.Some?
    requires u.avatar.Some? && u.coverPhoto.Some? && u.socialMedia.Some? && u.location.Some?
    ensures MergeUser(Some(current), PatchFrom(u)) == Some(u)
  {
  }

  /** The guard's only exemptions. */
  predicate IsPublicPath(path: string) {
    path == LoginPath || path == RegisterPath
  }

  /** `isAuthenticated: !!user`: signed in exactly when a user is stored. */
  function IsAuthenticated(user: Option<User>): (r: bool)
    ensures r <==> user != None
  {
    user.Some?
  }

  /** `useAuthGuard`'s effect: when to send the user to the login screen. */
  function ShouldRedirect(loading: bool, user: Option<User>, path: string): (r: bool)
    ensures r ==> !IsAuthenticated(user) && !IsPublicPath(path) && !loading
    ensures !loading && !IsAuthenticated(user) && !IsPublicPath(path) ==> r
  {
    !loading && user.None? && path != LoginPath && path != RegisterPath
  }

  /** Once redirected to the login screen, the guard stays quiet: the
      redirect never loops. */
  lemma RedirectSettles(loading: bool, user: Option<User>)
    ensures !ShouldRedirect(loading, user, LoginPath)
  {
  }

  /** The session store. */
  class Store {
    var user: Option<User>
    var loading: bool
    var error: Option<string>
    var initialized: bool

    constructor ()
      ensures user == None && loading && error == None && !initialized
    {
      user, loading, error, initialized := None, true, None, false;
    }

    /** `checkSession`, given how reading the token and fetching the profile
        ended: the error is cleared first; no token or no profile signs the
        user out; a profile signs them in; a throw records the session
        error and signs them out. */
    method CheckSession(token: Fetch<Option<string>>, profile: Fetch<Option<User>>) returns (ok: bool)
      modifies this
      ensures ok <==> user.Some?
      ensures token.Threw? || (Truthy(token.value) && profile.Threw?) <==> error == Some(SessionErrorMessage)
      ensures error.Some? ==> error == Some(SessionErrorMessage) && user.None?
      ensures token.Fetched? && !Truthy(token.value) ==> user.None? && error.None?
      ensures token.Fetched? && Truthy(token.value) && profile.Fetched? ==> user == profile.value && error.None?
      ensures loading == old(loading) && initialized == old(initialized)
    {
      error := None;
      if token.Threw? {
        error := Some(SessionErrorMessage);
        user := None;
        return false;
      }
      if !Truthy(token.value) {
        user := None;
        return false;
      }
      if profile.Threw? {
        error := Some(SessionErrorMessage);
        user := None;
        return false;
      }
      if profile.value.None? {
        user := None;
        return false;
      }
      user := profile.value;
      return true;
    }

    method UpdateUser(patch: UserPatch)
      modifies this
      ensures user == MergeUser(old(user), patch)
      ensures loading == old(loading) && error == old(error) && initialized == old(initialized)
    {
      user := MergeUser(user, patch);
    }

    /** `refreshUser`: the session check with `loading` raised around it.
        The check never throws, so the refresh's own error path is never
        taken. */
    method RefreshUser(token: Fetch<Option<string>>, profile: Fetch<Option<User>>)
      modifies this
      ensures !loading && initialized == old(initialized)
      ensures token.Fetched? && Truthy(token.value) && profile.Fetched? ==> user == profile.value && error.None?
      ensures token.Fetched? && !Truthy(token.value) ==> user.None? && error.None?
      ensures token.Threw? || (Truthy(token.value) && profile.Threw?) ==> user.None? && error == Some(SessionErrorMessage)
    {
      loading := true;
      var _ := CheckSession(token, profile);
      loading := false;
    }

    /** `logout`: whatever the backend says, the user is signed out and sent
        to the login screen; a failure leaves the logout error. */
    method Logout(logoutOk: bool) returns (redirect: string)
      modifies this
      ensures user.None? && !loading && redirect == LoginPath
      ensures error == if logoutOk then None else Some(LogoutErrorMessage)
      ensures initialized == old(initialized)
    {
      loading := true;
      if logoutOk {
        user := None;
        error := None;
      } else {
        error := Some(LogoutErrorMessage);
        user := None;
      }
      redirect := LoginPath;
      loading := false;
    }

    /** The mount effect and `initializeUser`: the first run marks the store
        initialised, checks the session and lowers `loading`; later runs do
        nothing. */
    method Initialize(token: Fetch<Option<string>>, profile: Fetch<Option<User>>) returns (ran: bool)
      modifies this
      ensures ran <==> !old(initialized)
      ensures initialized
      ensures ran ==> !loading && (user.Some? <==> token.Fetched? && Truthy(token.value) && profile.Fetched? && profile.value.Some?)
      ensures ran && token.Fetched? && Truthy(token.value) && profile.Fetched? ==> user == profile.value && error.None?
      ensures ran && token.Fetched? && !Truthy(token.value) ==> user.None? && error.None?
      ensures ran && (token.Threw? || (Truthy(token.value) && profile.Threw?)) ==>
        user.None? && error == Some(SessionErrorMessage)
      ensures !ran ==> user == old(user) && loading == old(loading) && error == old(error)
    {
      if initialized {
        return false;
      }
      initialized := true;
      var _ := CheckSession(token, profile);
      loading := false;
      return true;
    }
  }

  /** On a fresh store the first initialisation runs and a second one
      does not. */
  method InitializeOnce(token: Fetch<Option<string>>, profile: Fetch<Option<User>>)
    returns (first: bool, second: bool)
    ensures first && !second
  {
    var s := new Store();
    first := s.Initialize(token, profile);
    second := s.Initialize(token, profile);
  }
}
