/**
 The worker's `TOKENS` key-value namespace as a map, with the two key
 families the worker uses: `google:{email}` for token records and
 `session:{id}` for the email a browser session belongs to.

 A value is either plain text or a token record; `Record(t)` stands for the
 JSON text of `t`, which is what the worker writes with `JSON.stringify`.
 The namespace binding itself may be absent (`env.TOKENS` unset), in which
 case every read finds nothing and every write is skipped.
 */
module Kv {
  import opened Common
  import opened Tokens

  datatype Value = Text(text: string) | Record(token: TokenRecord)

  type Store = map<string, Value>

  function GoogleKey(email: string): string {
    "google:" + email
  }

  function SessionKey(id: string): string {
    "session:" + id
  }

  /** The two key families never collide, and each is one-to-one. */
  lemma KeyFamilies(email: string, id: string, email': string, id': string)
    ensures GoogleKey(email) != SessionKey(id)
    ensures GoogleKey(email) == GoogleKey(email') <==> email == email'
    ensures SessionKey(id) == SessionKey(id') <==> id == id'
  {
    assert GoogleKey(email)[0] == 'g';
    assert SessionKey(id)[0] == 's';
    if GoogleKey(email) == GoogleKey(email') {
      assert email == GoogleKey(email)[7..] == GoogleKey(email')[7..] == email';
    }
    if SessionKey(id) == SessionKey(id') {
      assert id == SessionKey(id)[8..] == SessionKey(id')[8..] == id';
    }
  }

  /** A write to the namespace: only `key` changes, and nothing at all when the namespace is unbound. */
  function Put(bound: bool, store: Store, key: string, v: Value): (s: Store)
    ensures bound ==> key in s && s[key] == v
    ensures bound ==> s.Keys == store.Keys + {key}
    ensures !bound ==> s == store
    ensures forall k :: k != key ==> (k in s <==> k in store) && (k in s ==> s[k] == store[k])
  {
    if bound then store[key := v] else store
  }

  /**
   `await env.TOKENS.get('session:' + id)` read as an email: the stored text,
   or nothing when the namespace is unbound, the key is missing, or the entry
   is a token record (the worker never writes one under a session key).
   */
  function SessionEmail(bound: bool, store: Store, id: string): (r: Option<string>)
    ensures r.Some? <==> bound && SessionKey(id) in store && store[SessionKey(id)].Text?
    ensures r.Some? ==> store[SessionKey(id)] == Text(r.value)
  {
    if bound && SessionKey(id) in store && store[SessionKey(id)].Text? then
      Some(store[SessionKey(id)].text)
    else
      None
  }

  /** How a `google:{email}` read turns out once the worker has looked at it. */
  datatype TokenLookup =
    | NoTokens              // nothing stored, or an empty string: the listing answers 401
    | Unparseable           // text that does not parse as a token record: the request fails
    | Found(token: TokenRecord)

  /**
   The token record filed under an email: read only when the namespace is
   bound, an empty or missing value counting as none, and the stored text
   parsed as a record.
   */
  function LookupTokens(bound: bool, store: Store, email: string): (r: TokenLookup)
    ensures r.Found? <==> bound && GoogleKey(email) in store && store[GoogleKey(email)].Record?
    ensures r.Found? ==> store[GoogleKey(email)] == Record(r.token)
    ensures r.NoTokens? <==> !bound || GoogleKey(email) !in store || store[GoogleKey(email)] == Text("")
  {
    if !bound || GoogleKey(email) !in store then NoTokens
    else
      match store[GoogleKey(email)]
      case Text(s) => if s == "" then NoTokens else Unparseable
      case Record(t) => Found(t)
  }

  /** Session keys hold text: true of every store the worker's own writes produce from one where it held. */
  ghost predicate WellFormed(store: Store) {
    forall id :: SessionKey(id) in store ==> store[SessionKey(id)].Text?
  }
}
