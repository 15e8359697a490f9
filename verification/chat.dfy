/**
 `POST /api/chat/gemini`: forward the user's prompt, enriched with Drive
 context when the browser holds a session, to the configured AI endpoint,
 and pass its answer back unchanged. The proxy only reads the store.
 */
module Chat {
  import opened Common
  import opened Text
  import opened Tokens
  import opened Kv
  import opened Http
  import opened Drive
  import opened Enrichment

  const NotConfigured: string :=
    "Gemini API not configured on this Worker (set GEMINI_API_URL and GEMINI_API_KEY)."

  /** The prompt of the request body, or the empty string when it is missing or empty. */
  function PromptOf(req: Request): (p: string)
    ensures Truthy(req.prompt) ==> p == req.prompt.value
    ensures !Truthy(req.prompt) ==> p == ""
  {
    Or(req.prompt, Some("")).value
  }

  /** Both the endpoint and the key are set. */
  predicate Configured(env: Env) {
    Truthy(env.geminiUrl) && Truthy(env.geminiKey)
  }

  /**
   The context for the chat's user, or `None` when the stored record is not
   JSON and `JSON.parse` throws (that throw is outside the enrichment's own
   `try`). No session, an empty session email, an unbound namespace or no
   stored record all give no context and no calls.
   */
  function ChatContext(env: Env, store: Store, cookie: Option<string>,
                       listing: Net<Listing>, contents: seq<Net<string>>): (r: Option<Enriched>)
    ensures !Truthy(SessionOf(env, store, cookie)) ==> r == Some(Enriched("", []))
    ensures r.None? <==> Truthy(SessionOf(env, store, cookie))
                         && LookupTokens(env.kvBound, store, SessionOf(env, store, cookie).value).Unparseable?
    ensures r.Some? && r.value.calls != [] ==>
              && Truthy(SessionOf(env, store, cookie))
              && var email := SessionOf(env, store, cookie).value;
              && LookupTokens(env.kvBound, store, email).Found?
              && r.value == Enrich(LookupTokens(env.kvBound, store, email).token, listing, contents)
  {
    var email := SessionOf(env, store, cookie);
    if Truthy(email) && env.kvBound then
      match LookupTokens(env.kvBound, store, email.value)
      case NoTokens => Some(Enriched("", []))
      case Unparseable => None
      case Found(token) => Some(Enrich(token, listing, contents))
    else
      Some(Enriched("", []))
  }

  /**
   The chat proxy. The final prompt is the user's prompt followed by the
   context; the AI endpoint's answer is returned as it came. Missing
   configuration is reported only after the context has been gathered.
   */
  function Proxy(env: Env, req: Request, store: Store, listing: Net<Listing>,
                contents: seq<Net<string>>, completion: Net<string>): (o: Outcome)
    ensures o.store == store && o.response.setCookie.None?
    ensures Refreshes(o.calls) == 0
    ensures o.response.status == 200 || o.response.status == 500
    ensures o.response.status == 200 <==>
              ChatContext(env, store, req.cookie, listing, contents).Some? && Configured(env) && completion.Answered?
    ensures o.response.status == 200 ==> o.response.body == Completion(completion.answer)
    ensures ChatContext(env, store, req.cookie, listing, contents).Some? && !Configured(env) ==>
              o.response.body == Plain(NotConfigured) && o.calls == ChatContext(env, store, req.cookie, listing, contents).value.calls
    ensures ChatContext(env, store, req.cookie, listing, contents).Some? && Configured(env) ==>
              && |o.calls| >= 1 && o.calls[|o.calls| - 1].Complete?
              && o.calls[|o.calls| - 1].prompt == PromptOf(req) + ChatContext(env, store, req.cookie, listing, contents).value.text
  {
    match ChatContext(env, store, req.cookie, listing, contents)
    case None => Outcome(Response(500, WorkerError, None), store, [])
    case Some(context) =>
      assert Refreshes(context.calls) == 0 by { NoRefreshInEnrichment(context.calls); }
      if !Configured(env) then
        Outcome(Response(500, Plain(NotConfigured), None), store, context.calls)
      else
        var finalPrompt := PromptOf(req) + context.text;
        var calls := context.calls + [Complete(finalPrompt)];
        CountsAppend(context.calls, [Complete(finalPrompt)]);
        assert Refreshes([Complete(finalPrompt)]) == 0;
        match completion
        case Failed => Outcome(Response(500, WorkerError, None), store, calls)
        case Answered(text) => Outcome(Response(200, Completion(text), None), store, calls)
  }

  /** Calls made for enrichment never refresh a token. */
  lemma {:induction false} NoRefreshInEnrichment(calls: seq<Call>)
    requires forall k :: 0 <= k < |calls| ==> !calls[k].RefreshToken?
    ensures Refreshes(calls) == 0
  {
    if |calls| > 0 {
      NoRefreshInEnrichment(calls[1..]);
    }
  }

  /** The prompt the AI endpoint receives, when the proxy gets as far as calling it. */
  function SentPrompt(o: Outcome): Option<string> {
    if |o.calls| >= 1 && o.calls[|o.calls| - 1].Complete? then Some(o.calls[|o.calls| - 1].prompt) else None
  }

  /**
   The user's prompt is always sent first, untouched: the context only ever
   extends it, and when there is context it opens with the Drive file header.
   */
  lemma PromptIsPrefix(env: Env, req: Request, store: Store, listing: Net<Listing>,
                       contents: seq<Net<string>>, completion: Net<string>)
    requires Configured(env)
    requires ChatContext(env, store, req.cookie, listing, contents).Some?
    ensures var sent := SentPrompt(Proxy(env, req, store, listing, contents, completion));
            && sent.Some?
            && PromptOf(req) <= sent.value
            && (sent.value == PromptOf(req) || StartsWith(sent.value[|PromptOf(req)|..], FilesHeader))
  {
    var context := ChatContext(env, store, req.cookie, listing, contents).value;
    var sent := PromptOf(req) + context.text;
    assert sent[|PromptOf(req)|..] == context.text;
  }

  /** Without a session the prompt is forwarded as is, and the endpoint is the only call. */
  lemma AnonymousChat(env: Env, req: Request, store: Store, listing: Net<Listing>,
                      contents: seq<Net<string>>, completion: Net<string>)
    requires Configured(env)
    requires !Truthy(SessionOf(env, store, req.cookie))
    ensures Proxy(env, req, store, listing, contents, completion).calls == [Complete(PromptOf(req))]
  {
    assert PromptOf(req) + "" == PromptOf(req);
  }

  /**
   A signed-in user with a stored record and a readable listing gets the
   file list in the prompt: exactly the header, one line per listed file, and
   the snippet section.
   */
  lemma SignedInChat(env: Env, req: Request, store: Store, status: int, json: ListJson,
                     contents: seq<Net<string>>, completion: Net<string>, email: string, token: TokenRecord)
    requires Configured(env)
    requires SessionOf(env, store, req.cookie) == Some(email) && email != ""
    requires LookupTokens(env.kvBound, store, email) == Found(token)
    ensures var files := json.files.GetOr([]);
            SentPrompt(Proxy(env, req, store, Answered(Listing(status, Some(json))), contents, completion))
            == Some(PromptOf(req) + (FilesHeader + FileList(files) + SnippetSection(Snippets(files, contents, SnippetCount(files)))))
  {
    EnrichLayout(token, status, json, contents);
  }
}
