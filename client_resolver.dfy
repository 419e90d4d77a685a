/**
 * The client resolver every tool calls: in remote mode the Garmin client of the user the
 * request's OAuth access token belongs to, otherwise the single global client of stdio
 * mode. The two module globals become the fields of one resolver object.
 */
module Resolver {
  import opened Wrappers
  import Sessions

  /** Why no client could be resolved, each with the message the tool call fails with. */
  datatype ResolveError = ReAuthenticate | NotAvailable
  {
    function Message(): string
    {
      match this
      case ReAuthenticate => "Garmin session expired or not available. Please re-authenticate."
      case NotAvailable => "Garmin client not available. Please authenticate first."
    }
  }

  class ClientResolver {
    /** `_global_client`: the stdio-mode client. */
    var globalClient: Option<Sessions.Garmin>
    /** `_session_manager`: the remote-mode session layer. */
    var sessionManager: Sessions.SessionManager?

    /** The session layer as a frame: nothing when there is none. */
    function ManagerFrame(): set<object>
      reads this`sessionManager
    {
      if sessionManager == null then {} else {sessionManager}
    }

    ghost predicate Valid()
      reads this`sessionManager, ManagerFrame()
    {
      sessionManager != null ==> sessionManager.Valid()
    }

    /** Both globals unset, as at import time. */
    constructor ()
      ensures globalClient == None && sessionManager == null
    {
      globalClient := None;
      sessionManager := null;
    }

    /** `set_global_client`. */
    method SetGlobalClient(client: Sessions.Garmin)
      modifies this`globalClient
      ensures globalClient == Some(client)
    {
      globalClient := Some(client);
    }

    /** `set_session_manager`. */
    method SetSessionManager(manager: Sessions.SessionManager?)
      modifies this`sessionManager
      ensures sessionManager == manager
    {
      sessionManager := manager;
    }

    /**
     * The user the request speaks for in remote mode: there is a request context, a session
     * layer has been set, the request carries an access token, and that token maps to a
     * non-empty user id.
     */
    function RemoteUser(hasContext: bool, accessToken: Option<string>): (u: Option<string>)
      reads this`sessionManager, ManagerFrame()
      ensures u.Some? <==>
                && hasContext && sessionManager != null && accessToken.Some?
                && accessToken.value in sessionManager.tokenUserMap
                && sessionManager.tokenUserMap[accessToken.value] != ""
      ensures u.Some? ==> u.value == sessionManager.tokenUserMap[accessToken.value]
    {
      if hasContext && sessionManager != null && accessToken.Some? then
        var u := sessionManager.GetUserIdForToken(accessToken.value);
        if Truthy(u) then u else None
      else None
    }

    /**
     * What `get_client` resolves to. A request that speaks for a user gets that user's
     * client, logged in with the tokens stored for that user, or fails asking to
     * re-authenticate; it never falls back to the global client. Any other request gets the
     * global client, or fails because there is none.
     */
    function Resolve(hasContext: bool, accessToken: Option<string>, restoreSucceeds: bool, now: int)
      : (r: Result<Sessions.Garmin, ResolveError>)
      requires Valid()
      reads this, ManagerFrame()
      ensures var u := RemoteUser(hasContext, accessToken);
              u.Some? ==>
                && (r.Ok? ==> u.value in sessionManager.stored && r.value.tokens == sessionManager.stored[u.value])
                && (r.Err? <==> !sessionManager.CacheHit(u.value, now)
                                && (u.value !in sessionManager.stored || !restoreSucceeds))
                && (r.Err? ==> r.error == ReAuthenticate)
      ensures RemoteUser(hasContext, accessToken).None? ==>
                r == (if globalClient.Some? then Ok(globalClient.value) else Err(NotAvailable))
      ensures !hasContext ==> r == (if globalClient.Some? then Ok(globalClient.value) else Err(NotAvailable))
    {
      var u := RemoteUser(hasContext, accessToken);
      if u.Some? then
        match sessionManager.ClientFor(u.value, restoreSucceeds, now)
        case Some(c) => Ok(c)
        case None => Err(ReAuthenticate)
      else if globalClient.Some? then Ok(globalClient.value)
      else Err(NotAvailable)
    }

    /**
     * `get_client`. `hasContext` says whether a request context was passed, `accessToken`
     * is what the auth middleware reports for the request, and `restoreSucceeds` whether
     * restoring the user's client from disk would succeed. Only the cache of the session
     * layer can change, and only as the session layer's own `get_client` changes it.
     */
    method GetClient(hasContext: bool, accessToken: Option<string>, restoreSucceeds: bool, now: int)
      returns (r: Result<Sessions.Garmin, ResolveError>)
      requires Valid()
      modifies ManagerFrame()
      ensures Valid()
      ensures r == old(Resolve(hasContext, accessToken, restoreSucceeds, now))
      ensures sessionManager != null ==>
                && sessionManager.tokenUserMap == old(sessionManager.tokenUserMap)
                && sessionManager.stored == old(sessionManager.stored)
                && var u := old(RemoteUser(hasContext, accessToken));
                   (u.None? || old(sessionManager.CacheHit(u.value, now)) || r.Err? ==>
                      sessionManager.cache == old(sessionManager.cache))
                   && (u.Some? && !old(sessionManager.CacheHit(u.value, now)) && r.Ok? ==>
                      sessionManager.cache ==
                        old(sessionManager.cache)[u.value := Sessions.NewCachedClient(r.value, Sessions.CACHE_TTL, now)])
    {
      if hasContext && sessionManager != null && accessToken.Some? {
        var userId := sessionManager.GetUserIdForToken(accessToken.value);
        if Truthy(userId) {
          var client := sessionManager.GetClient(userId.value, restoreSucceeds, now);
          if client.Some? {
            return Ok(client.value);
          }
          return Err(ReAuthenticate);
        }
      }
      if globalClient.Some? {
        return Ok(globalClient.value);
      }
      return Err(NotAvailable);
    }
  }
}
