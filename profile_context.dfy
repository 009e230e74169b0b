/**
 * `ProfileProvider` (src/contexts/ProfileContext.tsx, lines 13-29): a cache of
 * one profile, looked up by login.
 */
module ProfileContext {
  import opened Maybe
  import opened ApiTypes

  class ProfileCache {
    var cachedProfile: Option<User>

    constructor ()
      ensures cachedProfile == None
    {
      cachedProfile := None;
    }

    /** `getCachedProfile(login)`: the cached profile when its login is the one asked for, else `null`. */
    function GetCachedProfile(login: string): (r: Option<User>)
      reads this
      ensures r.Some? <==> cachedProfile.Some? && cachedProfile.value.login == login
      ensures r.Some? ==> r == cachedProfile
    {
      if cachedProfile.Some? && cachedProfile.value.login == login then cachedProfile else None
    }

    /** `cacheProfile(user)`: the slot now holds `user`, which replaces any earlier profile. */
    method CacheProfile(user: User)
      modifies this
      ensures cachedProfile == Some(user)
      ensures GetCachedProfile(user.login) == Some(user)
      ensures forall login :: login != user.login ==> GetCachedProfile(login) == None
    {
      cachedProfile := Some(user);
    }

    /** `clearCache()`: the slot is emptied and every lookup misses. */
    method ClearCache()
      modifies this
      ensures cachedProfile == None
      ensures forall login :: GetCachedProfile(login) == None
    {
      cachedProfile := None;
    }
  }
}
