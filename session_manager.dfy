/**
 * The per-user Garmin session layer: an in-memory cache from user id to a logged-in
 * client with a one-hour lifetime, an in-memory map from issued access token to user id,
 * and one token directory per user id on disk from which clients are restored.
 */
module Sessions {
  import opened Wrappers

  /** Seconds a cached client stays usable before it is restored from disk again. */
  const CACHE_TTL: int := 3600

  /** The two garth tokens that make up an upstream session, as dumped into a token directory. */
  datatype GarthTokens = GarthTokens(oauth1: string, oauth2: string)

  /** A Garmin Connect client, known by the session tokens it logged in with. */
  datatype Garmin = Garmin(tokens: GarthTokens)

  /** A cached client and the instant after which it must no longer be served. */
  datatype CachedClient = CachedClient(client: Garmin, expiresAt: int)
  {
    /** Expired strictly after `expiresAt`: an entry is still served at exactly that instant. */
    predicate IsExpired(now: int)
    {
      now > expiresAt
    }
  }

  /** A client cached at time `now` for `ttl` seconds. */
  function NewCachedClient(client: Garmin, ttl: int, now: int): (c: CachedClient)
    ensures c.client == client
    ensures !c.IsExpired(now + ttl) && c.IsExpired(now + ttl + 1)
  {
    CachedClient(client, now + ttl)
  }

  /** Once expired, a cache entry stays expired. */
  lemma ExpiryIsPermanent(c: CachedClient, t: int, t': int)
    requires t <= t' && c.IsExpired(t)
    ensures c.IsExpired(t')
  {
  }

  class SessionManager {
    /** `_cache`: user id to cached client. */
    var cache: map<string, CachedClient>
    /** `_token_user_map`: access token to user id. */
    var tokenUserMap: map<string, string>
    /** The token directories under the storage path, by user id, with the tokens each holds. */
    var stored: map<string, GarthTokens>

    /** Every cached client was logged in with the tokens currently stored for its user. */
    ghost predicate Valid()
      reads this`cache, this`stored
    {
      forall u :: u in cache ==> u in stored && cache[u].client.tokens == stored[u]
    }

    /** A manager over a storage path that already holds the token directories in `existing`. */
    constructor (existing: map<string, GarthTokens>)
      ensures Valid()
      ensures cache == map[] && tokenUserMap == map[] && stored == existing
    {
      cache := map[];
      tokenUserMap := map[];
      stored := existing;
    }

    /** `get_user_id_for_token`: the user an access token was mapped to, if any. */
    function GetUserIdForToken(token: string): (u: Option<string>)
      reads this`tokenUserMap
      ensures u.Some? <==> token in tokenUserMap
      ensures u.Some? ==> u.value == tokenUserMap[token]
    {
      if token in tokenUserMap then Some(tokenUserMap[token]) else None
    }

    /** `set_token_user_mapping`: last write wins; every other token keeps its mapping. */
    method SetTokenUserMapping(token: string, userId: string)
      requires Valid()
      modifies this`tokenUserMap
      ensures Valid()
      ensures tokenUserMap == old(tokenUserMap)[token := userId]
      ensures GetUserIdForToken(token) == Some(userId)
      ensures forall t :: t != token ==> GetUserIdForToken(t) == old(GetUserIdForToken(t))
    {
      tokenUserMap := tokenUserMap[token := userId];
    }

    /** Whether `GetClient` would serve `userId` from the cache at time `now`. */
    predicate CacheHit(userId: string, now: int)
      reads this`cache
    {
      userId in cache && !cache[userId].IsExpired(now)
    }

    /**
     * The client `GetClient` returns: the cached one while its entry is live, otherwise one
     * restored from the user's token directory when there is one and restoring succeeds.
     */
    function ClientFor(userId: string, restoreSucceeds: bool, now: int): (c: Option<Garmin>)
      requires Valid()
      reads this`cache, this`stored
      ensures c.Some? ==> userId in stored && c.value.tokens == stored[userId]
      ensures c.None? <==> !CacheHit(userId, now) && (userId !in stored || !restoreSucceeds)
      ensures CacheHit(userId, now) ==> c == Some(cache[userId].client)
    {
      if CacheHit(userId, now) then Some(cache[userId].client)
      else if userId in stored && restoreSucceeds then Some(Garmin(stored[userId]))
      else None
    }

    /**
     * `get_client`: serves a live cache entry untouched; otherwise restores from disk
     * (`restoreSucceeds` says whether `Garmin().login(token_dir)` returns) and caches the
     * restored client for an hour. A missing directory or a failed restore returns nothing
     * and leaves the cache as it was, an expired entry included.
     */
    method GetClient(userId: string, restoreSucceeds: bool, now: int) returns (c: Option<Garmin>)
      requires Valid()
      modifies this`cache
      ensures Valid()
      ensures c == old(ClientFor(userId, restoreSucceeds, now))
      ensures old(CacheHit(userId, now)) || c.None? ==> cache == old(cache)
      ensures !old(CacheHit(userId, now)) && c.Some? ==>
                cache == old(cache)[userId := NewCachedClient(c.value, CACHE_TTL, now)]
    {
      var cached := if userId in cache then Some(cache[userId]) else None;
      if cached.Some? && !cached.value.IsExpired(now) {
        return Some(cached.value.client);
      }
      if userId !in stored {
        return None;
      }
      if !restoreSucceeds {
        return None;
      }
      var garmin := Garmin(stored[userId]);
      cache := cache[userId := NewCachedClient(garmin, CACHE_TTL, now)];
      return Some(garmin);
    }

    /**
     * `create_session`: logs in with the user's credentials (`login` is the tokens that login
     * yields, or None when it raises), dumps the tokens into the user's directory and caches
     * the new client. A failed login changes nothing.
     */
    method CreateSession(userId: string, login: Option<GarthTokens>, now: int) returns (r: Option<Garmin>)
      requires Valid()
      modifies this`cache, this`stored
      ensures Valid()
      ensures login.None? ==> r.None? && cache == old(cache) && stored == old(stored)
      ensures login.Some? ==>
                && r == Some(Garmin(login.value))
                && stored == old(stored)[userId := login.value]
                && cache == old(cache)[userId := NewCachedClient(r.value, CACHE_TTL, now)]
    {
      if login.None? {
        return None;
      }
      var garmin := Garmin(login.value);
      stored := stored[userId := login.value];
      cache := cache[userId := NewCachedClient(garmin, CACHE_TTL, now)];
      return Some(garmin);
    }

    /**
     * `create_session_from_garth_tokens`: writes fresh tokens into the user's directory and
     * evicts the user's cache entry, so that the next `GetClient` restores from the new tokens.
     */
    method CreateSessionFromGarthTokens(userId: string, oauth1: string, oauth2: string)
      requires Valid()
      modifies this`cache, this`stored
      ensures Valid()
      ensures stored == old(stored)[userId := GarthTokens(oauth1, oauth2)]
      ensures cache == old(cache) - {userId}
      ensures HasSession(userId)
      ensures forall now :: !CacheHit(userId, now)
      ensures forall now :: ClientFor(userId, true, now) == Some(Garmin(GarthTokens(oauth1, oauth2)))
    {
      stored := stored[userId := GarthTokens(oauth1, oauth2)];
      cache := cache - {userId};
    }

    /**
     * `remove_session`: drops the cache entry and deletes the token directory; reports
     * whether either existed.
     */
    method RemoveSession(userId: string) returns (removed: bool)
      requires Valid()
      modifies this`cache, this`stored
      ensures Valid()
      ensures cache == old(cache) - {userId} && stored == old(stored) - {userId}
      ensures removed <==> userId in old(cache) || userId in old(stored)
      ensures !HasSession(userId) && forall now :: ClientFor(userId, true, now).None?
    {
      removed := false;
      if userId in cache {
        cache := cache - {userId};
        removed := true;
      }
      if userId in stored {
        stored := stored - {userId};
        removed := true;
      }
    }

    /** `has_session`: whether the user has a token directory; the cache is not consulted. */
    function HasSession(userId: string): (b: bool)
      reads this`stored
      ensures b <==> userId in stored
    {
      userId in stored
    }
  }
}
