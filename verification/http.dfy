/**
 The worker's view of HTTP: the parts of a request it reads, its
 configuration, the responses it produces, and a trace of the calls it makes
 to other services. Every handler returns the response, the key-value store
 afterwards and that trace.
 */
module Http {
  import opened Common
  import opened Tokens
  import opened Kv

  /** The parts of an incoming request the worker looks at. */
  datatype Request = Request(
    verb: string,                 // `request.method`
    origin: string,               // `url.origin`
    path: string,                 // `url.pathname`
    query: map<string, string>,   // `url.searchParams.get`, first value per name
    cookie: Option<string>,       // the `Cookie` header
    prompt: Option<string>)       // `prompt` of the JSON body (absent when the body does not parse)

  /** The worker's bindings: client id, whether `TOKENS` is bound, the Gemini endpoint and key. */
  datatype Env = Env(
    clientId: string,
    kvBound: bool,
    geminiUrl: Option<string>,
    geminiKey: Option<string>)

  /** One file of a Drive listing. */
  datatype DriveFile = DriveFile(id: string, name: string, mimeType: string)

  /** The JSON body of a Drive listing: the `files` array when there is one, and an error when there is one. */
  datatype ListJson = ListJson(files: Option<seq<DriveFile>>, error: Option<string>)

  /** A Drive listing answer: its status and its JSON body (absent when `.json()` rejects). */
  datatype Listing = Listing(status: int, json: Option<ListJson>)

  datatype Body =
    | Plain(text: string)
    | ProviderError(reply: TokenReply)                // `JSON.stringify(tokenJson)`
    | FilesJson(json: ListJson)                       // `JSON.stringify(filesJson)`
    | AuthPage(email: string)                         // the page that posts `{type: 'cloudassistant:gauth', email}` to its opener
    | AuthRedirect(clientId: string, redirectUri: string, state: string)
    | Pong(now: int)                                  // `{ok: true, now}`
    | Completion(text: string)                        // the AI endpoint's body, passed through
    | WorkerError                                     // `'Worker error: ' + String(err)`
    | RefreshFailure                                  // `'Failed to refresh Google token: ' + String(e)`

  datatype Response = Response(status: nat, body: Body, setCookie: Option<string>)

  /** Calls the worker makes to other services, in order. */
  datatype Call =
    | ExchangeCode(code: string, redirectUri: string)
    | FetchUserInfo(accessToken: Option<string>)
    | ListFiles(pageSize: nat, accessToken: Option<string>)
    | RefreshToken(refreshToken: string)
    | ExportText(fileId: string)
    | Download(fileId: string)
    | Complete(prompt: string)

  datatype Outcome = Outcome(response: Response, store: Store, calls: seq<Call>)

  const CallbackPath: string := "/auth/google/callback"

  /** `url.origin + '/auth/google/callback'` */
  function RedirectUri(req: Request): string {
    req.origin + CallbackPath
  }

  /** How many refresh calls a trace holds. */
  function Refreshes(calls: seq<Call>): nat {
    if |calls| == 0 then 0
    else (if calls[0].RefreshToken? then 1 else 0) + Refreshes(calls[1..])
  }

  /** How many Drive listing calls a trace holds. */
  function Listings(calls: seq<Call>): nat {
    if |calls| == 0 then 0
    else (if calls[0].ListFiles? then 1 else 0) + Listings(calls[1..])
  }

  lemma {:induction false} CountsAppend(a: seq<Call>, b: seq<Call>)
    ensures Refreshes(a + b) == Refreshes(a) + Refreshes(b)
    ensures Listings(a + b) == Listings(a) + Listings(b)
  {
    if |a| > 0 {
      assert (a + b)[0] == a[0];
      assert (a + b)[1..] == a[1..] + b;
      CountsAppend(a[1..], b);
    } else {
      assert a + b == b;
    }
  }
}
