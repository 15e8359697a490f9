/**
 `/api/drive/list`: who is asking (session cookie first, `email` query
 parameter as the fallback), whose tokens to use, and the
 list-refresh-retry sequence when Drive answers 401.
 */
module Drive {
  import opened Common
  import opened Tokens
  import opened Kv
  import opened Http
  import opened SessionCookie

  const MissingIdentity: string := "Missing authenticated session or email param"
  const NoTokensStored: string := "No tokens for this user. Authenticate first."
  /** `pageSize=20` on the listing URL. */
  const ListPageSize: nat := 20

  /**
   The email behind the request's `ca_session` cookie: the id taken from the
   `Cookie` header (`|| ''` when there is none), looked up under
   `session:{id}`. Shared by the Drive listing and the chat proxy.
   */
  function SessionOf(env: Env, store: Store, cookie: Option<string>): (r: Option<string>)
    ensures r.Some? ==> SessionId(cookie.GetOr("")).Some?
    ensures SessionId(cookie.GetOr("")).Some? ==> r == SessionEmail(env.kvBound, store, SessionId(cookie.GetOr("")).value)
  {
    match SessionId(cookie.GetOr(""))
    case None => None
    case Some(id) => SessionEmail(env.kvBound, store, id)
  }

  /** The identity a Drive listing is made for: a non-empty session email, else a non-empty `email` parameter. */
  function DriveIdentity(env: Env, store: Store, req: Request): (r: Option<string>)
    ensures r.Some? ==> r.value != ""
  {
    var session := SessionOf(env, store, req.cookie);
    if Truthy(session) then session
    else
      var param := Get(req.query, "email");
      if Truthy(param) then param else None
  }

  /**
   The session wins: whenever the cookie names a session whose stored email is
   non-empty, that email is the identity, whatever the query says. Only when
   the session yields nothing is a non-empty `email` parameter used, and with
   neither there is no identity.
   */
  lemma IdentityPriority(env: Env, store: Store, req: Request)
    ensures forall id, e :: SessionId(req.cookie.GetOr("")) == Some(id) && env.kvBound
                && SessionKey(id) in store && store[SessionKey(id)] == Text(e) && e != ""
                ==> DriveIdentity(env, store, req) == Some(e)
    ensures !Truthy(SessionOf(env, store, req.cookie)) ==>
              (DriveIdentity(env, store, req).Some? <==> "email" in req.query && req.query["email"] != "")
    ensures !Truthy(SessionOf(env, store, req.cookie)) && DriveIdentity(env, store, req).Some? ==>
              DriveIdentity(env, store, req) == Some(req.query["email"])
  {
  }

  /** The reply once the final listing is in: its JSON with status 200, whatever Drive's status was. */
  function Respond(listing: Listing, store: Store, calls: seq<Call>): (o: Outcome)
    ensures o.store == store && o.calls == calls
    ensures listing.json.Some? ==> o.response == Response(200, FilesJson(listing.json.value), None)
    ensures listing.json.None? ==> o.response == Response(500, WorkerError, None)
  {
    match listing.json
    case None => Outcome(Response(500, WorkerError, None), store, calls)
    case Some(json) => Outcome(Response(200, FilesJson(json), None), store, calls)
  }

  /**
   List with the stored access token; when Drive answers 401 and the record
   has a refresh token, refresh once, store the merged record, and list once
   more with the new access token. A refresh that fails answers 500 and
   leaves the record alone.
   */
  function ListWithRefresh(env: Env, store: Store, email: string, token: TokenRecord, now: int,
                           first: Net<Listing>, refresh: Net<TokenReply>, retry: Net<Listing>): (o: Outcome)
    ensures 1 <= |o.calls| <= 3
    ensures Listings(o.calls) <= 2 && Refreshes(o.calls) <= 1
    ensures o.calls[0] == ListFiles(ListPageSize, token.accessToken)
    ensures forall k :: k != GoogleKey(email) ==> (k in o.store <==> k in store) && (k in o.store ==> o.store[k] == store[k])
    ensures o.store != store ==>
              && Refreshes(o.calls) == 1 && GoogleKey(email) in o.store
              && o.store == store[GoogleKey(email) := o.store[GoogleKey(email)]]
    ensures first.Failed? ==>
              o == Outcome(Response(500, WorkerError, None), store, [ListFiles(ListPageSize, token.accessToken)])
    ensures first.Answered? && !(first.answer.status == 401 && Truthy(token.refreshToken)) ==>
              && o.store == store && o.calls == [ListFiles(ListPageSize, token.accessToken)]
              && (first.answer.json.Some? ==> o.response == Response(200, FilesJson(first.answer.json.value), None))
              && (first.answer.json.None? ==> o.response == Response(500, WorkerError, None))
    ensures first.Answered? && first.answer.status == 401 && Truthy(token.refreshToken)
            && RefreshGoogleToken(token.refreshToken.value, refresh, now).None? ==>
              o == Outcome(Response(500, RefreshFailure, None), store,
                           [ListFiles(ListPageSize, token.accessToken), RefreshToken(token.refreshToken.value)])
    ensures first.Answered? && first.answer.status == 401 && Truthy(token.refreshToken)
            && RefreshGoogleToken(token.refreshToken.value, refresh, now).Some? ==>
              var updated := Merge(token, RefreshGoogleToken(token.refreshToken.value, refresh, now).value, now);
              && o.store == Put(env.kvBound, store, GoogleKey(email), Record(updated))
              && o.calls == [ListFiles(ListPageSize, token.accessToken), RefreshToken(token.refreshToken.value),
                             ListFiles(ListPageSize, updated.accessToken)]
              && (retry.Failed? ==> o.response == Response(500, RefreshFailure, None))
              && (retry.Answered? && retry.answer.json.Some? ==>
                    o.response == Response(200, FilesJson(retry.answer.json.value), None))
              && (retry.Answered? && retry.answer.json.None? ==> o.response == Response(500, WorkerError, None))
  {
    var firstCall := [ListFiles(ListPageSize, token.accessToken)];
    assert Listings(firstCall) == 1 && Refreshes(firstCall) == 0;
    match first
    case Failed => Outcome(Response(500, WorkerError, None), store, firstCall)
    case Answered(listing) =>
      if listing.status == 401 && Truthy(token.refreshToken) then
        var refreshCalls := firstCall + [RefreshToken(token.refreshToken.value)];
        CountsAppend(firstCall, [RefreshToken(token.refreshToken.value)]);
        assert Refreshes([RefreshToken(token.refreshToken.value)]) == 1;
        assert Listings([RefreshToken(token.refreshToken.value)]) == 0;
        match RefreshGoogleToken(token.refreshToken.value, refresh, now)
        case None => Outcome(Response(500, RefreshFailure, None), store, refreshCalls)
        case Some(refreshed) =>
          var updated := Merge(token, refreshed, now);
          var saved := Put(env.kvBound, store, GoogleKey(email), Record(updated));
          var retryCalls := refreshCalls + [ListFiles(ListPageSize, updated.accessToken)];
          CountsAppend(refreshCalls, [ListFiles(ListPageSize, updated.accessToken)]);
          assert Refreshes([ListFiles(ListPageSize, updated.accessToken)]) == 0;
          assert Listings([ListFiles(ListPageSize, updated.accessToken)]) == 1;
          match retry
          case Failed => Outcome(Response(500, RefreshFailure, None), saved, retryCalls)
          case Answered(again) => Respond(again, saved, retryCalls)
      else
        Respond(listing, store, firstCall)
  }

  /**
   `/api/drive/list`. No identity: 401. No token record for it: 401. A stored
   value that is not a record: 500 from the catch-all. Otherwise the
   list-refresh-retry sequence, which at most rewrites `google:{email}`.
   */
  function DriveList(env: Env, req: Request, store: Store, now: int,
                     first: Net<Listing>, refresh: Net<TokenReply>, retry: Net<Listing>): (o: Outcome)
    ensures DriveIdentity(env, store, req).None? ==>
              o == Outcome(Response(401, Plain(MissingIdentity), None), store, [])
    ensures DriveIdentity(env, store, req).Some?
            && LookupTokens(env.kvBound, store, DriveIdentity(env, store, req).value).NoTokens? ==>
              o == Outcome(Response(401, Plain(NoTokensStored), None), store, [])
    ensures DriveIdentity(env, store, req).Some?
            && LookupTokens(env.kvBound, store, DriveIdentity(env, store, req).value).Unparseable? ==>
              o == Outcome(Response(500, WorkerError, None), store, [])
    ensures |o.calls| <= 3 && Listings(o.calls) <= 2 && Refreshes(o.calls) <= 1
    ensures o.store != store ==>
              && DriveIdentity(env, store, req).Some?
              && var key := GoogleKey(DriveIdentity(env, store, req).value);
              && key in store && key in o.store
              && o.store == store[key := o.store[key]]
  {
    match DriveIdentity(env, store, req)
    case None => Outcome(Response(401, Plain(MissingIdentity), None), store, [])
    case Some(email) =>
      match LookupTokens(env.kvBound, store, email)
      case NoTokens => Outcome(Response(401, Plain(NoTokensStored), None), store, [])
      case Unparseable => Outcome(Response(500, WorkerError, None), store, [])
      case Found(token) => ListWithRefresh(env, store, email, token, now, first, refresh, retry)
  }

  /**
   A refresh happens exactly when the first listing answers 401 and the
   stored record has a refresh token.
   */
  lemma RefreshOnlyAfter401(env: Env, req: Request, store: Store, now: int,
                            first: Net<Listing>, refresh: Net<TokenReply>, retry: Net<Listing>,
                            email: string, token: TokenRecord)
    requires DriveIdentity(env, store, req) == Some(email)
    requires LookupTokens(env.kvBound, store, email) == Found(token)
    ensures var o := DriveList(env, req, store, now, first, refresh, retry);
            Refreshes(o.calls) == 1 <==> first.Answered? && first.answer.status == 401 && Truthy(token.refreshToken)
  {
    var firstCall := [ListFiles(ListPageSize, token.accessToken)];
    assert Refreshes(firstCall) == 0;
    if first.Answered? && first.answer.status == 401 && Truthy(token.refreshToken) {
      var refreshCalls := firstCall + [RefreshToken(token.refreshToken.value)];
      CountsAppend(firstCall, [RefreshToken(token.refreshToken.value)]);
      assert Refreshes([RefreshToken(token.refreshToken.value)]) == 1;
      match RefreshGoogleToken(token.refreshToken.value, refresh, now)
      case None =>
      case Some(refreshed) =>
        var updated := Merge(token, refreshed, now);
        CountsAppend(refreshCalls, [ListFiles(ListPageSize, updated.accessToken)]);
        assert Refreshes([ListFiles(ListPageSize, updated.accessToken)]) == 0;
    }
  }

  /**
   After a successful refresh the merged record is stored, the listing is
   retried with the new access token, and the retried answer is returned
   with status 200 whatever its own status was.
   */
  lemma RetriedAnswerReturned(env: Env, req: Request, store: Store, now: int,
                              listing: Listing, refresh: Net<TokenReply>, again: Listing,
                              email: string, token: TokenRecord)
    requires DriveIdentity(env, store, req) == Some(email)
    requires LookupTokens(env.kvBound, store, email) == Found(token)
    requires listing.status == 401 && Truthy(token.refreshToken)
    requires RefreshGoogleToken(token.refreshToken.value, refresh, now).Some?
    requires again.json.Some?
    ensures var o := DriveList(env, req, store, now, Answered(listing), refresh, Answered(again));
            var updated := Merge(token, RefreshGoogleToken(token.refreshToken.value, refresh, now).value, now);
            && o.response == Response(200, FilesJson(again.json.value), None)
            && o.store == store[GoogleKey(email) := Record(updated)]
            && o.calls == [ListFiles(ListPageSize, token.accessToken),
                           RefreshToken(token.refreshToken.value),
                           ListFiles(ListPageSize, updated.accessToken)]
  {
  }

  /**
   Once a refresh succeeds the merged record is stored whatever the retried
   listing brings: a rejected retry answers 500 with the refresh-failure
   body, a retry that is not JSON answers 500, and the three calls are
   the first listing, the refresh and the retry with the new access token.
   */
  lemma RetryAfterRefresh(env: Env, req: Request, store: Store, now: int,
                          listing: Listing, refresh: Net<TokenReply>, retry: Net<Listing>,
                          email: string, token: TokenRecord)
    requires DriveIdentity(env, store, req) == Some(email)
    requires LookupTokens(env.kvBound, store, email) == Found(token)
    requires listing.status == 401 && Truthy(token.refreshToken)
    requires RefreshGoogleToken(token.refreshToken.value, refresh, now).Some?
    ensures var o := DriveList(env, req, store, now, Answered(listing), refresh, retry);
            var updated := Merge(token, RefreshGoogleToken(token.refreshToken.value, refresh, now).value, now);
            && o.store == store[GoogleKey(email) := Record(updated)]
            && o.calls == [ListFiles(ListPageSize, token.accessToken),
                           RefreshToken(token.refreshToken.value),
                           ListFiles(ListPageSize, updated.accessToken)]
            && (retry.Failed? ==> o.response == Response(500, RefreshFailure, None))
            && (retry.Answered? && retry.answer.json.None? ==> o.response == Response(500, WorkerError, None))
            && (retry.Answered? && retry.answer.json.Some? ==>
                  o.response == Response(200, FilesJson(retry.answer.json.value), None))
  {
  }

  /**
   Without a refresh, the first listing is the answer: its JSON with status
   200 (500 when it is not JSON, or when the fetch itself is rejected), one
   call to Drive, and the store untouched.
   */
  lemma ListedWithoutRefresh(env: Env, req: Request, store: Store, now: int,
                             first: Net<Listing>, refresh: Net<TokenReply>, retry: Net<Listing>,
                             email: string, token: TokenRecord)
    requires DriveIdentity(env, store, req) == Some(email)
    requires LookupTokens(env.kvBound, store, email) == Found(token)
    requires first.Failed? || first.answer.status != 401 || !Truthy(token.refreshToken)
    ensures var o := DriveList(env, req, store, now, first, refresh, retry);
            && o.store == store && o.calls == [ListFiles(ListPageSize, token.accessToken)]
            && (first.Answered? && first.answer.json.Some? <==> o.response.status == 200)
            && (o.response.status == 200 ==> o.response.body == FilesJson(first.answer.json.value))
            && (o.response.status != 200 ==> o.response == Response(500, WorkerError, None))
  {
  }

  /**
   A refresh that itself fails answers 500 and leaves the stored record as
   it was. (A retry rejected after a successful refresh also answers with
   the refresh-failure body, but the merged record is stored by then; see
   `RetryAfterRefresh`.)
   */
  lemma FailedRefreshKeepsRecord(env: Env, req: Request, store: Store, now: int,
                                 listing: Listing, refresh: Net<TokenReply>, retry: Net<Listing>,
                                 email: string, token: TokenRecord)
    requires DriveIdentity(env, store, req) == Some(email)
    requires LookupTokens(env.kvBound, store, email) == Found(token)
    requires listing.status == 401 && Truthy(token.refreshToken)
    requires refresh.Failed? || Truthy(refresh.answer.error)
    ensures var o := DriveList(env, req, store, now, Answered(listing), refresh, retry);
            o.response == Response(500, RefreshFailure, None) && o.store == store
  {
  }
}
