/** The authentication provider: the signed-in user, the profile row with
    its copy in local storage, and the guard against fetching the same
    profile twice. */
module AuthContext {
  import opened Wrappers
  import opened Types
  import Api

  /** The local-storage key of the cached profile. */
  const CacheKey := "ikram_user_profile"

  const OutsideProvider := "useAuth must be used within an AuthProvider"

  /** The profile read from storage on start: the cached entry, or none. */
  function CachedProfile(storage: map<string, User>): (r: Option<User>)
    ensures r.Some? <==> CacheKey in storage
    ensures r.Some? ==> r.value == storage[CacheKey]
  {
    if CacheKey in storage then Some(storage[CacheKey]) else None
  }

  /** What the provider hands to its consumers. */
  datatype AuthValue = AuthValue(user: Option<string>, userProfile: Option<User>, loading: bool)

  /** `useAuth`: the provided value, or an error outside a provider. */
  function UseAuth(context: Option<AuthValue>): (r: Result<AuthValue>)
    ensures r.Failure? <==> context.None?
    ensures r.Failure? ==> r.message == OutsideProvider
    ensures r.Success? ==> r.value == context.value
  {
    if context.None? then Failure(OutsideProvider) else Success(context.value)
  }

  class AuthProvider {
    /** The session user, by id. */
    var user: Option<string>
    var userProfile: Option<User>
    var loading: bool
    var lastFetchedId: Option<string>
    /** Local storage, with each stored profile as a value. */
    var storage: map<string, User>

    /** The cached entry is exactly the profile in memory. */
    predicate CacheMatches()
      reads this
    {
      CachedProfile(storage) == userProfile
    }

    /** A profile is loaded from the cache at once, before any session is
        known; loading starts true. */
    constructor (initialStorage: map<string, User>)
      ensures storage == initialStorage && userProfile == CachedProfile(initialStorage)
      ensures user.None? && loading && lastFetchedId.None?
      ensures CacheMatches()
    {
      storage := initialStorage;
      userProfile := CachedProfile(initialStorage);
      user := None;
      loading := true;
      lastFetchedId := None;
    }

    function Value(): AuthValue
      reads this
    {
      AuthValue(user, userProfile, loading)
    }

    /** `updateProfile`: a profile is stored in memory and in the cache;
        none clears both and forgets the last fetched id. Other storage
        entries are untouched. */
    method UpdateProfile(profile: Option<User>)
      modifies this`userProfile, this`storage, this`lastFetchedId
      ensures userProfile == profile && CacheMatches()
      ensures profile.Some? ==> storage == old(storage)[CacheKey := profile.value] && lastFetchedId == old(lastFetchedId)
      ensures profile.None? ==> storage == old(storage) - {CacheKey} && lastFetchedId.None?
    {
      userProfile := profile;
      if profile.Some? {
        storage := storage[CacheKey := profile.value];
      } else {
        storage := storage - {CacheKey};
        lastFetchedId := None;
      }
    }

    /** `fetchProfile`: without `force`, a request for the id fetched last
        does nothing. Otherwise the row is requested; a row returned without
        error becomes the profile (cached) and the id is remembered, while
        an error or an empty answer changes neither. Loading ends false once
        a request was made. */
    method FetchProfile(userId: string, force: bool, response: Api.Response<User>) returns (requested: bool)
      modifies this`userProfile, this`storage, this`lastFetchedId, this`loading
      ensures requested <==> force || old(lastFetchedId) != Some(userId)
      ensures !requested ==>
        userProfile == old(userProfile) && storage == old(storage) &&
        lastFetchedId == old(lastFetchedId) && loading == old(loading)
      ensures requested ==> !loading
      ensures requested && response.error.None? && response.data.Some? ==>
        lastFetchedId == Some(userId) && userProfile == response.data && CacheMatches() &&
        storage == old(storage)[CacheKey := response.data.value]
      ensures requested && (response.error.Some? || response.data.None?) ==>
        userProfile == old(userProfile) && storage == old(storage) && lastFetchedId == old(lastFetchedId)
    {
      if !force && lastFetchedId == Some(userId) {
        return false;
      }
      requested := true;
      if response.error.None? && response.data.Some? {
        lastFetchedId := Some(userId);
        UpdateProfile(response.data);
      }
      loading := false;
    }

    /** `refreshProfile`: nothing without a user, otherwise a forced fetch
        of the user's profile. */
    method RefreshProfile(response: Api.Response<User>) returns (requested: bool)
      modifies this`userProfile, this`storage, this`lastFetchedId, this`loading
      ensures requested <==> old(user).Some?
      ensures !requested ==>
        userProfile == old(userProfile) && storage == old(storage) &&
        lastFetchedId == old(lastFetchedId) && loading == old(loading)
      ensures requested ==> !loading
      ensures requested && response.error.None? && response.data.Some? ==>
        lastFetchedId == user && userProfile == response.data && CacheMatches() &&
        storage == old(storage)[CacheKey := response.data.value]
      ensures requested && (response.error.Some? || response.data.None?) ==>
        userProfile == old(userProfile) && storage == old(storage) && lastFetchedId == old(lastFetchedId)
    {
      if user.None? {
        return false;
      }
      requested := FetchProfile(user.value, true, response);
    }

    /** The session found on start: its user is set and the profile fetched
        (unless already fetched); with no session, loading just ends. */
    method OnInitialSession(sessionUser: Option<string>, response: Api.Response<User>) returns (requested: bool)
      modifies this`user, this`userProfile, this`storage, this`lastFetchedId, this`loading
      ensures sessionUser.None? ==>
        !requested && !loading && user == old(user) && userProfile == old(userProfile) && storage == old(storage)
      ensures sessionUser.Some? ==>
        user == sessionUser && (requested <==> old(lastFetchedId) != sessionUser)
      ensures sessionUser.Some? && !requested ==>
        userProfile == old(userProfile) && storage == old(storage) &&
        lastFetchedId == old(lastFetchedId) && loading == old(loading)
      ensures requested ==> !loading
      ensures requested && response.error.None? && response.data.Some? ==>
        lastFetchedId == sessionUser && userProfile == response.data && CacheMatches() &&
        storage == old(storage)[CacheKey := response.data.value]
      ensures requested && (response.error.Some? || response.data.None?) ==>
        userProfile == old(userProfile) && storage == old(storage) && lastFetchedId == old(lastFetchedId)
    {
      if sessionUser.None? {
        loading := false;
        return false;
      }
      user := sessionUser;
      requested := FetchProfile(sessionUser.value, false, response);
    }

    /** The auth-event handler. A sign-out clears the user, the profile and
        the cache and ends loading. Any other event carrying a user sets it
        and fetches its profile unless that id was fetched last; an event
        without a user changes nothing. */
    method OnAuthStateChange(event: string, sessionUser: Option<string>, response: Api.Response<User>) returns (requested: bool)
      modifies this`user, this`userProfile, this`storage, this`lastFetchedId, this`loading
      ensures event == "SIGNED_OUT" ==>
        !requested && user.None? && userProfile.None? && CacheKey !in storage &&
        storage == old(storage) - {CacheKey} && lastFetchedId.None? && !loading
      ensures event != "SIGNED_OUT" && sessionUser.Some? ==>
        user == sessionUser && (requested <==> old(lastFetchedId) != sessionUser)
      ensures event != "SIGNED_OUT" && sessionUser.Some? && !requested ==>
        userProfile == old(userProfile) && storage == old(storage) &&
        lastFetchedId == old(lastFetchedId) && loading == old(loading)
      ensures requested ==> !loading
      ensures requested && response.error.None? && response.data.Some? ==>
        lastFetchedId == sessionUser && userProfile == response.data && CacheMatches() &&
        storage == old(storage)[CacheKey := response.data.value]
      ensures requested && (response.error.Some? || response.data.None?) ==>
        userProfile == old(userProfile) && storage == old(storage) && lastFetchedId == old(lastFetchedId)
      ensures event != "SIGNED_OUT" && sessionUser.None? ==>
        !requested && user == old(user) && userProfile == old(userProfile) && storage == old(storage) &&
        lastFetchedId == old(lastFetchedId) && loading == old(loading)
    {
      if event == "SIGNED_OUT" {
        user := None;
        UpdateProfile(None);
        loading := false;
        return false;
      }
      requested := false;
      if sessionUser.Some? {
        user := sessionUser;
        requested := FetchProfile(sessionUser.value, false, response);
      }
    }

    /** `signOut`: on success and on failure alike the user and the profile
        are cleared in memory and loading ends. It bypasses `UpdateProfile`,
        so the cached entry and the last fetched id stay as they were. */
    method SignOut(outcome: Outcome)
      modifies this`user, this`userProfile, this`loading
      ensures user.None? && userProfile.None? && !loading
      ensures old(CacheKey in storage) ==> !CacheMatches()
    {
      loading := true;
      user := None;
      userProfile := None;
      loading := false;
    }
  }
}
