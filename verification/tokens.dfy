/**
 Google OAuth token records: the record the callback stores, the provider's
 token-endpoint answer, `refreshGoogleToken`, and the merge the Drive
 listing performs after a successful refresh.

 Record fields that come straight from provider JSON may be missing
 (`undefined`); they are `Option`s here. `JSON.stringify` drops missing
 fields, so a missing field stays missing when the record is stored.
 */
module Tokens {
  import opened Common

  /** The JSON object stored under `google:{email}`. */
  datatype TokenRecord = TokenRecord(
    email: string,
    accessToken: Option<string>,
    refreshToken: Option<string>,
    scope: Option<string>,
    expiresIn: Option<int>,
    obtainedAt: int)

  /** The JSON answer of Google's token endpoint, both for the code exchange and for a refresh. */
  datatype TokenReply = TokenReply(
    error: Option<string>,
    accessToken: Option<string>,
    refreshToken: Option<string>,
    scope: Option<string>,
    expiresIn: Option<int>)

  /** The JSON answer of Google's userinfo endpoint, as far as the worker reads it. */
  datatype UserInfo = UserInfo(email: Option<string>, sub: Option<string>)

  /** What `refreshGoogleToken` resolves with. */
  datatype Refreshed = Refreshed(
    accessToken: Option<string>,
    refreshToken: Option<string>,
    expiresIn: Option<int>,
    obtainedAt: int)

  /**
   The identity a login is filed under: `userJson.email || userJson.sub || 'unknown'`.
   It is never empty, so it always counts as a signed-in identity.
   */
  function Identity(u: UserInfo): (email: string)
    ensures email != ""
    ensures Truthy(u.email) ==> email == u.email.value
    ensures !Truthy(u.email) && Truthy(u.sub) ==> email == u.sub.value
    ensures !Truthy(u.email) && !Truthy(u.sub) ==> email == "unknown"
  {
    Or(u.email, Or(u.sub, Some("unknown"))).value
  }

  /** The record saved after a successful code exchange. */
  function NewRecord(email: string, reply: TokenReply, now: int): (t: TokenRecord)
    ensures t.email == email && t.obtainedAt == now
    ensures t.accessToken == reply.accessToken && t.refreshToken == reply.refreshToken
    ensures t.scope == reply.scope && t.expiresIn == reply.expiresIn
  {
    TokenRecord(email, reply.accessToken, reply.refreshToken, reply.scope, reply.expiresIn, now)
  }

  /**
   `refreshGoogleToken(refreshToken, ...)` given the provider's answer:
   `None` when the promise rejects (the call failed, or the answer carries
   `error`); otherwise the new access token, with the refresh token the
   provider sent or, failing that, the one that was used.
   */
  function RefreshGoogleToken(refreshToken: string, reply: Net<TokenReply>, now: int): (r: Option<Refreshed>)
    ensures r.None? <==> reply.Failed? || Truthy(reply.answer.error)
    ensures r.Some? ==> r.value.accessToken == reply.answer.accessToken
    ensures r.Some? ==> r.value.expiresIn == reply.answer.expiresIn
    ensures r.Some? ==> r.value.obtainedAt == now
    ensures r.Some? && Truthy(reply.answer.refreshToken) ==> r.value.refreshToken == reply.answer.refreshToken
    ensures r.Some? && !Truthy(reply.answer.refreshToken) ==> r.value.refreshToken == Some(refreshToken)
  {
    match reply
    case Failed => None
    case Answered(json) =>
      if Truthy(json.error) then None
      else Some(Refreshed(json.accessToken, Or(json.refreshToken, Some(refreshToken)), json.expiresIn, now))
  }

  /**
   `Object.assign({}, token, {access_token, expires_in, obtained_at, refresh_token})`:
   the identity and the granted scope are kept, the access credential and its
   lifetime are replaced, and the refresh token is the refreshed one when it
   is set, the stored one otherwise.
   */
  function Merge(token: TokenRecord, refreshed: Refreshed, now: int): (r: TokenRecord)
    ensures r.email == token.email
    ensures r.scope == token.scope
    ensures r.accessToken == refreshed.accessToken
    ensures r.expiresIn == refreshed.expiresIn
    ensures r.obtainedAt == now
    ensures Truthy(refreshed.refreshToken) ==> r.refreshToken == refreshed.refreshToken
    ensures !Truthy(refreshed.refreshToken) ==> r.refreshToken == token.refreshToken
  {
    token.(
      accessToken := refreshed.accessToken,
      expiresIn := refreshed.expiresIn,
      obtainedAt := now,
      refreshToken := Or(refreshed.refreshToken, token.refreshToken))
  }

  /**
   Refreshing with the stored refresh token and merging the result: the new
   record holds the provider's new refresh token if it sent one, the stored
   one otherwise, so a record that could be refreshed stays refreshable.
   */
  lemma RefreshThenMerge(token: TokenRecord, reply: Net<TokenReply>, now: int, later: int)
    requires Truthy(token.refreshToken)
    requires RefreshGoogleToken(token.refreshToken.value, reply, now).Some?
    ensures var r := Merge(token, RefreshGoogleToken(token.refreshToken.value, reply, now).value, later);
      && r.email == token.email && r.scope == token.scope
      && r.accessToken == reply.answer.accessToken
      && r.expiresIn == reply.answer.expiresIn
      && r.obtainedAt == later
      && r.refreshToken == (if Truthy(reply.answer.refreshToken) then reply.answer.refreshToken else token.refreshToken)
      && Truthy(r.refreshToken)
  {
  }

  /** Merging the same refresh a second time changes nothing. */
  lemma MergeIdempotent(token: TokenRecord, refreshed: Refreshed, now: int)
    ensures Merge(Merge(token, refreshed, now), refreshed, now) == Merge(token, refreshed, now)
  {
  }
}
