/**
 The OAuth2 authorization-code flow: `/auth/google/start` redirects to
 Google's consent screen, and `/auth/google/callback` exchanges the code,
 identifies the account, stores its tokens and opens a session.

 The provider's answers, the clock and the session UUID are parameters.
 */
module OAuth {
  import opened Common
  import opened Tokens
  import opened Kv
  import opened Http
  import opened SessionCookie

  const MissingCode: string := "Missing code"

  /**
   `/auth/google/start`: a 302 redirect to the consent screen, carrying the
   client id, the callback URI and a fresh `state`. The state is not stored
   anywhere, and nothing else happens.
   */
  function Start(env: Env, req: Request, store: Store, state: string): (o: Outcome)
    ensures o.response.status == 302 && o.response.setCookie.None?
    ensures o.response.body.AuthRedirect? && o.response.body.state == state
    ensures o.response.body.clientId == env.clientId
    ensures o.response.body.redirectUri == req.origin + "/auth/google/callback"
    ensures o.store == store && o.calls == []
  {
    Outcome(Response(302, AuthRedirect(env.clientId, RedirectUri(req), state), None), store, [])
  }

  /** The callback gets as far as a session: a code, a token answer without `error`, and a userinfo answer. */
  predicate LoginSucceeds(req: Request, exchange: Net<TokenReply>, user: Net<UserInfo>) {
    && Truthy(Get(req.query, "code"))
    && exchange.Answered? && !Truthy(exchange.answer.error)
    && user.Answered?
  }

  /**
   What a successful callback leaves behind: the auth page with the session
   cookie, and (when the namespace is bound) exactly two new entries,
   `google:{email}` holding the token record and `session:{id}` holding the
   email, with every other key as it was.
   */
  ghost predicate LoggedIn(env: Env, store: Store, now: int, sessionId: string,
                           reply: TokenReply, email: string, o: Outcome)
  {
    && o.response == Response(200, AuthPage(email), Some(SetCookieHeader(sessionId)))
    && (env.kvBound ==>
          && o.store.Keys == store.Keys + {GoogleKey(email), SessionKey(sessionId)}
          && o.store[GoogleKey(email)] == Record(NewRecord(email, reply, now))
          && o.store[SessionKey(sessionId)] == Text(email)
          && forall k :: k in store && k != GoogleKey(email) && k != SessionKey(sessionId) ==> o.store[k] == store[k])
    && (!env.kvBound ==> o.store == store)
  }

  /**
   `/auth/google/callback?code&state`. Without a code: 400 and nothing else.
   A token answer carrying `error`: 500 with that answer as the body, nothing
   written. A rejected call: 500 from the catch-all. Otherwise the login is
   filed under `Identity(userinfo)` and a session is opened for it.
   */
  function Callback(env: Env, req: Request, store: Store, now: int, sessionId: string,
                    exchange: Net<TokenReply>, user: Net<UserInfo>): (o: Outcome)
    ensures !Truthy(Get(req.query, "code")) ==>
              o == Outcome(Response(400, Plain(MissingCode), None), store, [])
    ensures Truthy(Get(req.query, "code")) ==>
              1 <= |o.calls| <= 2 && o.calls[0] == ExchangeCode(Get(req.query, "code").value, RedirectUri(req))
    ensures Truthy(Get(req.query, "code")) && exchange.Answered? && Truthy(exchange.answer.error) ==>
              o.response == Response(500, ProviderError(exchange.answer), None)
    ensures Truthy(Get(req.query, "code")) && exchange.Answered? && !Truthy(exchange.answer.error) ==>
              |o.calls| == 2 && o.calls[1] == FetchUserInfo(exchange.answer.accessToken)
    ensures Truthy(Get(req.query, "code")) && (exchange.Failed? || (!Truthy(exchange.answer.error) && user.Failed?)) ==>
              o.response == Response(500, WorkerError, None)
    ensures o.response.status != 200 ==> o.store == store && o.response.setCookie.None?
    ensures o.response.status == 200 <==> LoginSucceeds(req, exchange, user)
    ensures LoginSucceeds(req, exchange, user) ==>
              LoggedIn(env, store, now, sessionId, exchange.answer, Identity(user.answer), o)
  {
    var code := Get(req.query, "code");
    if !Truthy(code) then
      Outcome(Response(400, Plain(MissingCode), None), store, [])
    else
      var exchangeCall := [ExchangeCode(code.value, RedirectUri(req))];
      match exchange
      case Failed => Outcome(Response(500, WorkerError, None), store, exchangeCall)
      case Answered(tokenJson) =>
        if Truthy(tokenJson.error) then
          Outcome(Response(500, ProviderError(tokenJson), None), store, exchangeCall)
        else
          var calls := exchangeCall + [FetchUserInfo(tokenJson.accessToken)];
          match user
          case Failed => Outcome(Response(500, WorkerError, None), store, calls)
          case Answered(userJson) =>
            var email := Identity(userJson);
            var saved := Put(env.kvBound, store, GoogleKey(email), Record(NewRecord(email, tokenJson, now)));
            var stored := Put(env.kvBound, saved, SessionKey(sessionId), Text(email));
            KeyFamilies(email, sessionId, email, sessionId);
            Outcome(Response(200, AuthPage(email), Some(SetCookieHeader(sessionId))), stored, calls)
  }

  /**
   The `state` parameter is read but never checked: two callbacks that differ
   only in `state` have the same outcome.
   */
  lemma CallbackIgnoresState(env: Env, req: Request, store: Store, now: int, sessionId: string,
                             exchange: Net<TokenReply>, user: Net<UserInfo>, state: string)
    ensures var req' := req.(query := req.query["state" := state]);
            Callback(env, req', store, now, sessionId, exchange, user)
            == Callback(env, req, store, now, sessionId, exchange, user)
  {
    var req' := req.(query := req.query["state" := state]);
    assert Get(req'.query, "code") == Get(req.query, "code");
  }

  /** A callback keeps session keys holding text: it writes an email under `session:{id}`. */
  lemma CallbackKeepsWellFormed(env: Env, req: Request, store: Store, now: int, sessionId: string,
                                exchange: Net<TokenReply>, user: Net<UserInfo>)
    requires WellFormed(store)
    ensures WellFormed(Callback(env, req, store, now, sessionId, exchange, user).store)
  {
    var o := Callback(env, req, store, now, sessionId, exchange, user);
    if LoginSucceeds(req, exchange, user) && env.kvBound {
      var email := Identity(user.answer);
      forall id | SessionKey(id) in o.store ensures o.store[SessionKey(id)].Text? {
        KeyFamilies(email, id, email, sessionId);
      }
    }
  }
}
