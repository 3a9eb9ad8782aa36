/**
 * src/context/UserContext.tsx: the current user, replaced by
 * `setUser(prev => ({...prev, ...updates}))`, and the `useUser` guard.
 */
module UserContext {
  import opened Wrappers
  import opened Types

  /**
   * `Partial<User>`: `None` is an absent property. For the optional
   * properties, `Some(None)` is a property present with value undefined,
   * which the spread copies over.
   */
  datatype UserUpdate = UserUpdate(
    id: Option<string>,
    name: Option<string>,
    email: Option<string>,
    role: Option<string>,
    avatar: Option<Option<string>>,
    lastInspectionDate: Option<Option<string>>,
    avatarUrl: Option<Option<string>>)

  const NoChanges := UserUpdate(None, None, None, None, None, None, None)

  /** One property of an object spread: the later object wins when it has the property. */
  function Spread<T>(previous: T, update: Option<T>): T {
    match update
    case Some(v) => v
    case None => previous
  }

  /** `{...prev, ...updates}`. */
  function Merge(prev: User, updates: UserUpdate): (u: User)
    ensures updates.id.Some? ==> u.id == updates.id.value
    ensures updates.id.None? ==> u.id == prev.id
    ensures updates.name.Some? ==> u.name == updates.name.value
    ensures updates.name.None? ==> u.name == prev.name
    ensures updates.email.Some? ==> u.email == updates.email.value
    ensures updates.email.None? ==> u.email == prev.email
    ensures updates.role.Some? ==> u.role == updates.role.value
    ensures updates.role.None? ==> u.role == prev.role
    ensures updates.avatar.Some? ==> u.avatar == updates.avatar.value
    ensures updates.avatar.None? ==> u.avatar == prev.avatar
    ensures updates.lastInspectionDate.Some? ==> u.lastInspectionDate == updates.lastInspectionDate.value
    ensures updates.lastInspectionDate.None? ==> u.lastInspectionDate == prev.lastInspectionDate
    ensures updates.avatarUrl.Some? ==> u.avatarUrl == updates.avatarUrl.value
    ensures updates.avatarUrl.None? ==> u.avatarUrl == prev.avatarUrl
  {
    User(
      Spread(prev.id, updates.id),
      Spread(prev.name, updates.name),
      Spread(prev.email, updates.email),
      Spread(prev.role, updates.role),
      Spread(prev.avatar, updates.avatar),
      Spread(prev.lastInspectionDate, updates.lastInspectionDate),
      Spread(prev.avatarUrl, updates.avatarUrl))
  }

  /** `{...a, ...b}` on two partial users. */
  function Combine(a: UserUpdate, b: UserUpdate): UserUpdate {
    UserUpdate(
      if b.id.Some? then b.id else a.id,
      if b.name.Some? then b.name else a.name,
      if b.email.Some? then b.email else a.email,
      if b.role.Some? then b.role else a.role,
      if b.avatar.Some? then b.avatar else a.avatar,
      if b.lastInspectionDate.Some? then b.lastInspectionDate else a.lastInspectionDate,
      if b.avatarUrl.Some? then b.avatarUrl else a.avatarUrl)
  }

  /** `updateUser({})` changes nothing. */
  lemma MergeNoChanges(u: User)
    ensures Merge(u, NoChanges) == u
  {
  }

  /** Applying the same update twice is applying it once. */
  lemma MergeIdempotent(u: User, updates: UserUpdate)
    ensures Merge(Merge(u, updates), updates) == Merge(u, updates)
  {
  }

  /** Two updates in a row equal one update with the second's properties winning. */
  lemma MergeSequential(u: User, a: UserUpdate, b: UserUpdate)
    ensures Merge(Merge(u, a), b) == Merge(u, Combine(a, b))
  {
  }

  /** `updateUser({ avatarUrl: url })`, the profile page's avatar upload handler. */
  function AvatarUpload(url: string): UserUpdate {
    NoChanges.(avatarUrl := Some(Some(url)))
  }

  /** The avatar upload changes the avatar URL and nothing else. */
  lemma AvatarUploadChangesOnlyAvatarUrl(u: User, url: string)
    ensures Merge(u, AvatarUpload(url)) == u.(avatarUrl := Some(url))
  {
  }

  /** The provider's state. */
  class UserProvider {
    var user: User

    /** The state starts as the seed user. */
    constructor(seed: User)
      ensures user == seed
    {
      user := seed;
    }

    method UpdateUser(updates: UserUpdate)
      modifies this
      ensures user == Merge(old(user), updates)
    {
      user := Merge(user, updates);
    }
  }

  const OutsideProviderMessage := "useUser must be used within a UserProvider"

  /** `useUser()`: the context, or the error it throws when there is no provider above. */
  function UseUser(context: Option<UserProvider>): (r: Result<UserProvider, string>)
    ensures r.Err? <==> context.None?
    ensures r.Err? ==> r.error == OutsideProviderMessage
    ensures r.Ok? ==> r.value == context.value
  {
    match context
    case None => Err(OutsideProviderMessage)
    case Some(provider) => Ok(provider)
  }
}
