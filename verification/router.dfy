/**
 The worker's `fetch` entry point: which handler a request reaches, the
 catch-all 404, and what a whole login followed by later requests looks
 like from the store's point of view.
 */
module Router {
  import opened Common
  import opened Text
  import opened Tokens
  import opened Kv
  import opened Http
  import opened SessionCookie
  import opened OAuth
  import opened Drive
  import opened Enrichment
  import opened Chat

  const PingPath: string := "/api/ping"
  const StartPath: string := "/auth/google/start"
  const DriveListPrefix: string := "/api/drive/list"
  const ChatPath: string := "/api/chat/gemini"
  const NotFound: string := "Not found"

  datatype Route = PingRoute | StartRoute | CallbackRoute | DriveListRoute | ChatRoute | NoRoute

  /**
   The routes in the order the worker tries them. Every route but the chat
   accepts any method; the Drive listing matches any path that begins with
   its prefix.
   */
  function RouteOf(path: string, verb: string): (r: Route)
    ensures r == PingRoute <==> path == PingPath
    ensures r == StartRoute <==> path == StartPath
    ensures r == CallbackRoute <==> path == CallbackPath
    ensures r == DriveListRoute <==> StartsWith(path, DriveListPrefix)
    ensures r == ChatRoute <==> path == ChatPath && verb == "POST"
  {
    assert !StartsWith(StartPath, DriveListPrefix) by { assert StartPath[2] != DriveListPrefix[2]; }
    assert !StartsWith(CallbackPath, DriveListPrefix) by { assert CallbackPath[2] != DriveListPrefix[2]; }
    assert !StartsWith(ChatPath, DriveListPrefix) by { assert ChatPath[5] != DriveListPrefix[5]; }
    if path == PingPath then PingRoute
    else if path == StartPath then StartRoute
    else if path == CallbackPath then CallbackRoute
    else if StartsWith(path, DriveListPrefix) then DriveListRoute
    else if path == ChatPath && verb == "POST" then ChatRoute
    else NoRoute
  }

  /**
   Everything outside the request that a handler depends on: the clock, the
   two UUIDs the worker draws, and the answers of the services it calls.
   */
  datatype World = World(
    now: int,
    state: string,
    sessionId: string,
    exchange: Net<TokenReply>,
    user: Net<UserInfo>,
    first: Net<Listing>,
    refresh: Net<TokenReply>,
    retry: Net<Listing>,
    chatListing: Net<Listing>,
    contents: seq<Net<string>>,
    completion: Net<string>)

  /** The worker's `fetch` handler. */
  function Handle(env: Env, req: Request, store: Store, w: World): (o: Outcome)
    ensures RouteOf(req.path, req.verb) == PingRoute ==>
              o == Outcome(Response(200, Pong(w.now), None), store, [])
    ensures RouteOf(req.path, req.verb) == NoRoute ==>
              o == Outcome(Response(404, Plain(NotFound), None), store, [])
  {
    match RouteOf(req.path, req.verb)
    case PingRoute => Outcome(Response(200, Pong(w.now), None), store, [])
    case StartRoute => Start(env, req, store, w.state)
    case CallbackRoute => Callback(env, req, store, w.now, w.sessionId, w.exchange, w.user)
    case DriveListRoute => DriveList(env, req, store, w.now, w.first, w.refresh, w.retry)
    case ChatRoute => Proxy(env, req, store, w.chatListing, w.contents, w.completion)
    case NoRoute => Outcome(Response(404, Plain(NotFound), None), store, [])
  }

  /** Only the OAuth callback and the Drive listing write to the store. */
  lemma HandleWrites(env: Env, req: Request, store: Store, w: World)
    ensures Handle(env, req, store, w).store != store ==>
              RouteOf(req.path, req.verb) == CallbackRoute || RouteOf(req.path, req.verb) == DriveListRoute
  {
  }

  /** Only the callback sets a cookie, and it is the cookie of the session it drew. */
  lemma HandleSetsCookie(env: Env, req: Request, store: Store, w: World)
    ensures var o := Handle(env, req, store, w);
            o.response.setCookie.Some? ==>
              RouteOf(req.path, req.verb) == CallbackRoute && o.response.setCookie == Some(SetCookieHeader(w.sessionId))
  {
  }

  /** A request refreshes a Google token at most once, and only on the Drive listing. */
  lemma HandleRefreshes(env: Env, req: Request, store: Store, w: World)
    ensures var o := Handle(env, req, store, w);
            && Refreshes(o.calls) <= 1
            && (Refreshes(o.calls) == 1 ==> RouteOf(req.path, req.verb) == DriveListRoute)
  {
    if RouteOf(req.path, req.verb) == CallbackRoute {
      NoRefreshInEnrichment(Handle(env, req, store, w).calls);
    }
  }

  /** Handling a request keeps session keys holding text. */
  lemma HandleKeepsWellFormed(env: Env, req: Request, store: Store, w: World)
    requires WellFormed(store)
    ensures WellFormed(Handle(env, req, store, w).store)
  {
    if RouteOf(req.path, req.verb) == CallbackRoute {
      CallbackKeepsWellFormed(env, req, store, w.now, w.sessionId, w.exchange, w.user);
    } else if RouteOf(req.path, req.verb) == DriveListRoute {
      var o := DriveList(env, req, store, w.now, w.first, w.refresh, w.retry);
      if o.store != store {
        var key := GoogleKey(DriveIdentity(env, store, req).value);
        forall id | SessionKey(id) in o.store ensures o.store[SessionKey(id)].Text? {
          KeyFamilies(DriveIdentity(env, store, req).value, id, DriveIdentity(env, store, req).value, id);
        }
      }
    }
  }

  /**
   A login, then a later request. Once the callback has succeeded with the
   namespace bound, a browser that sends back the issued cookie (alone, after
   other cookies, or followed by them) is recognised as the account that logged in,
   by the Drive listing and by the chat proxy, and that account's tokens are
   the ones the callback stored.
   */
  lemma LoginThenRequest(env: Env, login: Request, store: Store, w: World, later: Request,
                          pre: string, others: string)
    requires env.kvBound && ValidSessionId(w.sessionId)
    requires RouteOf(login.path, login.verb) == CallbackRoute
    requires LoginSucceeds(login, w.exchange, w.user)
    requires others == [] || others[0] == ';'
    requires pre == [] || OthersBefore(pre)
    requires later.cookie == Some(pre + CookieName + w.sessionId + others)
    ensures var after := Handle(env, login, store, w).store;
            var email := Identity(w.user.answer);
            && SessionOf(env, after, later.cookie) == Some(email)
            && DriveIdentity(env, after, later) == Some(email)
            && LookupTokens(env.kvBound, after, email) == Found(NewRecord(email, w.exchange.answer, w.now))
  {
    SessionIdOfSentCookie(pre, w.sessionId, others);
  }
}
