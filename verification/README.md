# CloudAssistant worker and assistant, modelled in Dafny

CloudAssistant is a personal assistant in two halves.

- **The worker** is a Cloudflare Worker. It runs Google's OAuth login and files each account's tokens in a key-value namespace. It maps a session cookie to the account that logged in. It proxies a Google Drive listing, refreshing an expired access token once. It also forwards chat prompts to an AI endpoint, enriched with the user's Drive files and short snippets of them.
- **The browser assistant** classifies each chat message with regular expressions: add a to-do, set a reminder, list the to-dos, save a note, or help. It keeps the to-dos, notes and reminders in local storage and arms timers for the reminders. It also accepts the login popup's message.

The model is functional.

- A request handler is a function from the request, the key-value store and everything outside the worker to an `Outcome`. Everything outside the worker means the clock, the two UUIDs it draws and the answers of Google and the AI endpoint, bundled as a `World`. The `Outcome` is the response, the new store and the ordered list of outbound calls.
- The assistant is a function from the trimmed message, a `Client` and the time to the reply and the new `Client`. A `Client` holds the three stored lists, the chat messages and the armed timers.
- The two regular expressions of the assistant and the cookie pattern of the worker are restated as searches. Each search makes the choices a JavaScript regular expression engine makes, in the same order: leftmost start, alternatives in order, greedy runs that give back one character at a time. The captures are therefore the ones the browser produces.

Modules, in dependency order:

| module | file | models |
|---|---|---|
| `Common` | common.dfy | `Option`, JavaScript truthiness of strings, `a \|\| b`, network answers (`Net`) |
| `Text` | text.dfy | white space and line terminators as JavaScript defines them, `trim`, `split`/`join`, `slice`, decimal digits |
| `Tokens` | tokens.dfy | token records, the identity a login is filed under, `refreshGoogleToken`, the merge of a refreshed token |
| `Kv` | kv.dfy | the `TOKENS` namespace: `google:{email}` and `session:{id}` keys, unbound namespace |
| `Http` | http.dfy | requests, responses, outbound calls |
| `SessionCookie` | session_cookie.dfy | `/(?:^\|; )ca_session=([^;]+)/` and the `Set-Cookie` header the callback sends |
| `OAuth` | oauth.dfy | `/auth/google/start` and `/auth/google/callback` |
| `Drive` | drive.dfy | session resolution and `/api/drive/list` with refresh and retry |
| `Enrichment` | enrichment.dfy | the Drive context appended to chat prompts |
| `Chat` | chat.dfy | `POST /api/chat/gemini` |
| `Router` | router.dfy | the `fetch` entry point |
| `Commands` | commands.dfy | the add-todo and reminder patterns and the keyword tests |
| `Lists` | lists.dfy | to-dos, notes and reminders in storage |
| `Timing` | timing.dfy | reminder delays and timer clamping |
| `Assistant` | assistant.dfy | `assistantReply`, reminder scheduling and delivery, the login-popup listener |

The model follows the code where it behaves in ways a reader might not expect:

- After a refresh, the Drive listing answers status 200 with the retried listing's JSON, whatever status the retried listing came back with.
- The chat proxy identifies the user by the session cookie only. Unlike the Drive listing, whose comment at worker/index.js:85 keeps an `?email=` fallback for backward compatibility, it has no such fallback.
- worker/index.js:129 holds a stray closing brace that ends the `try` block before the chat route. A `try` with no `catch` or `finally`, followed directly by an `if`, is a syntax error, so the file as it stands does not parse, and every worker member models the program the code evidently intends: the chat route sits inside the `try`, and its unexpected failures answer 500.
- The reminder pattern's unit alternation lists the singular before the plural. Nothing follows the group, so the singular always wins: "minutes" is captured as "minute", and the reply says "in 10 minute" (`Commands.PluralNeverCaptured`).
- The assistant schedules a reminder with the code's case-sensitive delay, so a reminder whose unit is typed with a capital letter is delivered at once (`Assistant.CapitalReminderViaChat`; see Findings).

## Model

| member | source | states |
|---|---|---|
| Common.Or | worker/index.js:135 | `a \|\| b` on optional strings: the first operand when it is a non-empty string, otherwise the second; the result is truthy exactly when one of them is |
| Text.SpaceRun | public/app.js:47 | the run of white space starting at a position: every character in it is white space and the one after it is not |
| Text.Trim | public/app.js:47 | the trimmed message is a slice of the message with only white space around it, and it neither starts nor ends with white space |
| Text.TrimUnchanged | public/app.js:47 | a string that neither starts nor ends with white space is left as it is by `trim` |
| Text.TrimIdempotent | public/app.js:92 | trimming twice gives what trimming once gives |
| Text.Take | worker/index.js:171 | `slice(0, n)` keeps a prefix of at most `n` characters (Unicode scalar values in the model): the whole string when it is short enough, exactly `n` characters otherwise |
| Text.Split | public/app.js:75 | `split` always yields at least one piece |
| Text.SplitPieces | public/app.js:75 | no piece of a split holds the separator |
| Text.JoinSplit | public/app.js:75-77 | joining the pieces of a split with the separator gives back the string |
| Text.SplitJoin | public/app.js:75-77 | splitting a join of separator-free pieces gives back the pieces |
| Text.JoinTailOfSplit | public/app.js:75-77 | after `shift()`, joining the remaining pieces gives everything after the first separator |
| Text.SplitRest | public/app.js:75-76 | the pieces after the first are the split of the text after the first separator |
| Text.NatToString | public/app.js:71 | decimal rendering of a number: non-empty, all digits, no leading zero |
| Text.ParseNatToString | public/app.js:58 | `parseInt` of a number's decimal rendering gives the number back |
| Tokens.Identity | worker/index.js:47 | `email \|\| sub \|\| 'unknown'`: the first non-empty of the two, never empty |
| Tokens.NewRecord | worker/index.js:50-57 | the stored record carries the identity, the exchange's tokens, scope and lifetime, and the time of the login |
| Tokens.RefreshGoogleToken | worker/index.js:204-224 | the refresh fails exactly when the fetch fails or the answer has an error; otherwise it carries the new access token and lifetime, and the new refresh token or, when none came, the old one |
| Tokens.Merge | worker/index.js:111-116 | the merged record keeps identity and scope, takes the refreshed access token and lifetime and the current time, and keeps the old refresh token when the refresh brought none |
| Tokens.RefreshThenMerge | worker/index.js:109-116 | after a successful refresh the stored record still has a refresh token: the new one if Google sent one, else the old |
| Tokens.MergeIdempotent | worker/index.js:111-116 | merging the same refresh twice changes nothing more |
| Kv.KeyFamilies | worker/index.js:60-66 | `google:` and `session:` keys never collide, and each family's key determines its email or id |
| Kv.Put | worker/index.js:59-67 | a write stores the value under its key and leaves every other key alone; with the namespace unbound it changes nothing |
| Kv.SessionEmail | worker/index.js:91-93 | a session resolves exactly when the namespace is bound and `session:{id}` holds text, and it resolves to that text |
| Kv.LookupTokens | worker/index.js:101-103 | a record is found exactly when `google:{email}` holds one; nothing stored, an empty string or an unbound namespace is "no tokens" |
| SessionCookie.FirstMatch | worker/index.js:88 | the leftmost position at which the cookie pattern matches, with no match before it |
| SessionCookie.SessionId | worker/index.js:88-90 | the header has no session id exactly when the pattern matches nowhere; otherwise the id is the capture of the leftmost match |
| SessionCookie.SetCookieMaxAge | worker/index.js:70 | the cookie's lifetime is 2592000 seconds, thirty days |
| SessionCookie.SessionIdOfIssuedCookie | worker/index.js:70 | a `Cookie` header that starts with the issued cookie, alone or followed by other cookies, yields the issued session id |
| SessionCookie.SessionIdAlone | worker/index.js:88 | the issued cookie on its own yields its id |
| SessionCookie.SessionIdBeforeOthers | worker/index.js:88 | the issued cookie followed by `; ` and other cookies yields its id |
| SessionCookie.NoMatchInOthers | worker/index.js:88 | cookies sent before `ca_session`, ending in `; ` and without the cookie name, hold no match of the pattern |
| SessionCookie.FirstMatchAfterOthers | worker/index.js:88 | after such cookies the leftmost match is the `; ca_session=` alternative that ends them |
| SessionCookie.SessionIdAfterOthers | worker/index.js:88 | the issued cookie sent after other cookies, alone or followed by more, yields its id |
| SessionCookie.SessionIdOfSentCookie | worker/index.js:88 | the issued cookie yields its id whether it comes first or after other cookies |
| SessionCookie.SessionIdOfSetCookie | worker/index.js:70 | the pattern applied to the `Set-Cookie` value itself stops at the first `;` and yields the id |
| SessionCookie.AttributesDoNotMatter | worker/index.js:70 | whatever the `Max-Age`, the cookie yields the same id |
| OAuth.Start | worker/index.js:11-20 | a 302 to the consent screen carrying the configured client id, the fresh state and the callback URI; no store change, no calls |
| OAuth.Callback | worker/index.js:22-82 | 400 without a code; otherwise the code is exchanged first; a provider error is surfaced as 500; after a clean exchange the second call fetches the user info with the exchanged access token; a rejected exchange or user-info fetch answers 500; success, with status 200, exactly when both answer; then, when the namespace is bound, both keys are written (with it unbound the store is unchanged), the cookie is set and nothing else changes |
| OAuth.CallbackIgnoresState | worker/index.js:25 | the callback's result does not depend on the `state` parameter |
| OAuth.CallbackKeepsWellFormed | worker/index.js:59-67 | after the callback every `session:` key still holds text |
| Drive.SessionOf | worker/index.js:87-94 | the email behind the cookie is the `session:` entry of the id the cookie pattern captures, and nothing when there is no id |
| Drive.DriveIdentity | worker/index.js:86-99 | the identity the Drive listing serves is never empty |
| Drive.IdentityPriority | worker/index.js:85-98 | a resolvable session wins; without one, the `email` query parameter is used when it is non-empty, and there is no identity otherwise |
| Drive.Respond | worker/index.js:125-127 | the listing's JSON is returned with status 200; a body that is not JSON is a 500 |
| Drive.ListWithRefresh | worker/index.js:105-127 | at most two listings and one refresh; the first call lists with the stored token; a rejected first listing answers 500 after that one call; an answered one that is not a 401 with a refresh token is returned as is (200 with its JSON, 500 when not JSON) with the store unchanged; a failed refresh answers 500 after two calls with the store unchanged; after a successful refresh the merged record is written and the listing retried with the new token, a rejected retry answering 500 with the refresh-failure body, a retry that is not JSON 500, and otherwise 200 with the retried JSON; only the user's `google:` key can change, and only after a refresh |
| Drive.ListedWithoutRefresh | worker/index.js:105-127 | when the first listing fails, is not a 401, or the record has no refresh token, the listing makes exactly one call, keeps the store, and answers 200 with the listing's JSON exactly when it answered JSON, otherwise 500 |
| Drive.DriveList | worker/index.js:84-128 | 401 without an identity or without stored tokens; 500 with no calls and no store change when the stored value is not a record; at most three calls; a store change only rewrites the user's existing `google:` key |
| Drive.RefreshOnlyAfter401 | worker/index.js:106-107 | a refresh happens exactly when the first listing answers 401 and the record has a refresh token |
| Drive.RetriedAnswerReturned | worker/index.js:107-127 | after a 401 and a successful refresh, the merged record is stored, the listing is retried with the new token, and the retried JSON is returned with status 200 |
| Drive.RetryAfterRefresh | worker/index.js:107-127 | after a 401 and a successful refresh, the merged record is stored whatever the retry brings, the three calls are the listing, the refresh and the retry with the new token; a rejected retry answers 500 with the refresh-failure body, a retry that is not JSON answers 500, and a JSON retry answers 200 with it |
| Drive.FailedRefreshKeepsRecord | worker/index.js:108-122 | a refresh that itself fails answers 500 and leaves the stored record as it was |
| Enrichment.FileLine | worker/index.js:154 | a file line starts with `- ` and holds a line break only when the name or type does |
| Enrichment.FileList | worker/index.js:154 | the file list is empty exactly when there are no files, and otherwise starts with the first file's line |
| Enrichment.FileListLines | worker/index.js:154 | splitting the file list at line breaks gives one line per file, in order, when no name or type holds a line break |
| Enrichment.ContentCall | worker/index.js:163-170 | Google Docs are exported as text, every other file is downloaded, each by its own id |
| Enrichment.SnippetAt | worker/index.js:161-172 | a file contributes a snippet exactly when its fetch answered non-empty text; the snippet is its name and the first 800 characters |
| Enrichment.Snippets | worker/index.js:158-173 | no more snippets than files tried; each non-empty and at most 800 characters |
| Enrichment.SnippetsCount | worker/index.js:158-173 | there are exactly as many snippets as files tried whose fetch answered non-empty text |
| Enrichment.SnippetPlace | worker/index.js:158-173 | every tried file with text contributes its snippet, at the position given by the number of files with text before it |
| Enrichment.PresentBeforeGrows | worker/index.js:158-173 | the snippet of a file with text comes before that of any later file with text: the snippets keep file order |
| Enrichment.SnippetOrigin | worker/index.js:158-173 | every snippet is the snippet of one of the files tried |
| Enrichment.SnippetsAllAnswered | worker/index.js:158-173 | when every file tried has text, there is one snippet per file, in file order |
| Enrichment.SnippetsNoneAnswered | worker/index.js:158-173 | when no file tried has text, there are no snippets |
| Enrichment.SnippetSection | worker/index.js:174-176 | the snippet section is empty exactly when there are no snippets, and otherwise starts with its header |
| Enrichment.SnippetCount | worker/index.js:159 | `Math.min(2, files.length)` |
| Enrichment.Enrich | worker/index.js:151-179 | one listing call, then at most two content calls; the context is empty exactly when the listing fails or is not JSON, and otherwise starts with the file header |
| Enrichment.EnrichLayout | worker/index.js:152-176 | with a readable listing the context is the header, the file list and the snippet section, and the content calls fetch the first files in order |
| Chat.PromptOf | worker/index.js:134-135 | `body.prompt \|\| ''` |
| Chat.ChatContext | worker/index.js:138-150 | no session gives an empty context and no calls; the only failure is a stored record that is not JSON; any call made is the enrichment of the session user's stored record |
| Chat.Proxy | worker/index.js:131-195 | the proxy never writes the store or refreshes a token; 200 exactly when the context was gathered, the endpoint is configured and it answered; the endpoint gets the prompt followed by the context; missing configuration is reported after the enrichment calls |
| Chat.PromptIsPrefix | worker/index.js:183 | the user's prompt is sent first and unchanged, followed by nothing or by the Drive file header |
| Chat.AnonymousChat | worker/index.js:146-192 | without a session the prompt is forwarded as is and the endpoint is the only call |
| Chat.SignedInChat | worker/index.js:145-183 | with the endpoint configured and a listing that answered JSON, a signed-in user's prompt is followed by the header, the file list and the snippet section |
| Router.RouteOf | worker/index.js:7-131 | each route is chosen exactly by its path; the Drive listing by its prefix; the chat only for POST |
| Router.Handle | worker/index.js:6-197 | ping answers the time with no effects; an unknown path answers 404 with no effects |
| Router.HandleWrites | worker/index.js:22-128 | only the callback and the Drive listing change the store |
| Router.HandleSetsCookie | worker/index.js:70-81 | only the callback sets a cookie, and it is the cookie of the session id it drew |
| Router.HandleRefreshes | worker/index.js:105-123 | a request refreshes a token at most once, and only on the Drive listing |
| Router.HandleKeepsWellFormed | worker/index.js:59-117 | every request keeps `session:` keys holding text |
| Router.LoginThenRequest | worker/index.js:64-101 | after a successful login, a later request carrying the issued cookie, first or after other cookies that do not contain the cookie name, is recognised as the account that logged in, and finds the tokens the callback stored |
| Commands.GiveBackSpaces | public/app.js:49 | `\s*` before `(.+)`: the longest run that leaves a character `.+` can start on, giving back one white space at a time |
| Commands.Leftmost | public/app.js:49 | the leftmost position where a pattern matches, and no match before it |
| Commands.AddTodoAt | public/app.js:49 | a match at a position starts with `add ` or `create ` in any letter case, and its capture starts at least eight characters later where `.+` can start |
| Commands.RestOfLine | public/app.js:49 | `(.+)` captures a non-empty slice up to the end of the line |
| Commands.AddTodoCommand | public/app.js:49 | the message is no add-todo command exactly when the pattern matches nowhere; otherwise the capture is the rest of the line from the capture start of the leftmost match, non-empty and one line |
| Commands.AddTodoRoundTrip | public/app.js:48-52 | `add todo <text>`, in any letter case, captures the text |
| Commands.AddArticleTodoRoundTrip | public/app.js:48-49 | `add a todo: <text>`, in any letter case, captures the text |
| Commands.PluralNeverCaptured | public/app.js:55 | the unit group only ever captures four or six characters: a plural is never taken |
| Commands.UnitCaptured | public/app.js:55 | what the unit group captures is `second`, `minute` or `hour` in some letter case |
| Commands.TailAt | public/app.js:55 | what `\s+in\s+(\d+)\s*(unit)` captures is a digit run and a unit word |
| Commands.NumberCaptured | public/app.js:55 | what `\s+(\d+)\s*(unit)` captures is a digit run and a unit word |
| Commands.Rightmost | public/app.js:55 | the greedy end of `(.+)`: the rightmost end after which the rest matches, none to its right |
| Commands.GiveBack | public/app.js:55 | a greedy run giving back one character at a time settles on the longest length at which the rest matches |
| Commands.TextFrom | public/app.js:55 | the captured text is one line and is followed by the number and unit |
| Commands.ReminderAt | public/app.js:55 | a match captures a one-line text, a digit run and a unit word |
| Commands.ReminderCommand | public/app.js:55-56 | the message is no reminder exactly when the pattern matches nowhere; otherwise the captures are those of a match at some position with no match at any earlier one, and they are well formed |
| Commands.Singular | public/app.js:55 | the unit a typed unit is captured as is a singular unit word and a prefix of what was typed |
| Commands.TailMatches | public/app.js:55 | ` in <digits> <unit>` after the text captures the digits and the singular unit |
| Commands.NoLaterTail | public/app.js:55 | no end of the text later than the real one is followed by a number and unit |
| Commands.TextEndsAtTail | public/app.js:55 | the greedy text ends right before ` in <digits> <unit>` |
| Commands.ReminderAtStart | public/app.js:55 | a message laid out as a reminder matches at its start with the text, digits and singular unit |
| Commands.ReminderFirst | public/app.js:55 | a match at the start is the leftmost match |
| Commands.ReminderRoundTrip | public/app.js:55-59 | `remind me to <text> in <digits> <unit>`, in any letter case, captures the text, the digits and the singular of the unit |
| Lists.Without | public/app.js:107 | `filter(t => t.id !== id)`: keeps exactly the records with another id |
| Lists.WithoutAppend | public/app.js:107 | filtering distributes over concatenation |
| Lists.WithoutAbsent | public/app.js:107 | removing an id no record has changes nothing |
| Lists.WithoutIdempotent | public/app.js:107 | removing twice is removing once |
| Lists.AddTodo | public/app.js:105 | appends an open to-do with the text, identified by the time, and keeps the others |
| Lists.AddTodoKeepsIdsUnique | public/app.js:105 | adding keeps to-do ids distinct when earlier ids predate the clock |
| Lists.AddThenRemoveTodo | public/app.js:105-107 | removing the to-do just added restores the list |
| Lists.Toggle | public/app.js:106 | flips `done` of exactly the to-dos with the id, changing nothing else |
| Lists.ToggleInvolution | public/app.js:106 | toggling twice restores the list |
| Lists.ToggleAbsent | public/app.js:106 | toggling an id no to-do has changes nothing |
| Lists.RemoveAfterToggle | public/app.js:106-107 | toggling one id and removing another commute |
| Lists.ToggleAppend | public/app.js:106 | toggling distributes over concatenation |
| Lists.AddNote | public/app.js:134 | `unshift`: the new note comes first, with the time as its time and id |
| Lists.AddNoteKeepsNewestFirst | public/app.js:134 | notes stay newest first |
| Lists.AddReminder | public/app.js:147 | appends the reminder with the time as its id and keeps the others |
| Lists.AddThenRemoveReminder | public/app.js:147-166 | delivering the reminder just added restores the list |
| Timing.Duration | public/app.js:60-63 | the delay of a captured unit, in any letter case: seconds, minutes or hours in milliseconds |
| Timing.DurationAsWritten | public/app.js:60-63 | the code's delay: a unit starting with lower-case `second`, `minute` or `hour` gives that many seconds, minutes or hours in milliseconds, any other unit 0 |
| Timing.DurationAsWrittenOfCapture | public/app.js:55-63 | for any captured unit the code's delay is the intended one when the unit is in lower case, and 0 otherwise |
| Timing.DurationAsWrittenLowerCase | public/app.js:60-63 | for a lower-case unit the code's delay and the intended one agree |
| Timing.CapitalUnitDeliversAtOnce | public/app.js:55-63 | "remind me to stretch in 10 Minutes" is captured with the unit "Minute", and the code's delay is 0 instead of ten minutes |
| Timing.CapitalMinute | public/app.js:61-63 | the case-sensitive tests give "Minute" no delay, while the intended delay is ten minutes |
| Timing.TimeoutFor | public/app.js:158 | a due reminder is delivered at once; otherwise a timer is armed for the time left, at most 2^31 - 1 ms, never past the due time |
| Timing.EarlyDeliveryAsWritten | public/app.js:158 | the code delivers before the due time exactly when the reminder is more than 2^31 - 1 ms away |
| Timing.DeliveredOnTime | public/app.js:158 | re-arming after each clamped timer delivers exactly at the due time, or at once when it is past |
| Assistant.Deliver | public/app.js:160-167 | the chat gets `Reminder: <text>`, the reminder leaves the stored list and every other reminder stays |
| Assistant.ScheduleTimeout | public/app.js:158 | a due reminder is delivered now; otherwise one timer is armed for it, due after now and no later than the reminder |
| Assistant.ScheduleReminder | public/app.js:147 | a future reminder is stored and armed; a past one is announced at once |
| Assistant.DueReminderLeavesNoTrace | public/app.js:147-166 | a reminder already due is stored and removed at once, leaving the list as it was |
| Assistant.FireAsWritten | public/app.js:158-167 | the code's timer callback always delivers: the chat gets `Reminder: <text>`, the timer is gone and no stored reminder keeps the id |
| Assistant.FiresEarlyAsWritten | public/app.js:158 | in the code a reminder more than 2^31 - 1 ms away gets a timer due before it, and that timer delivers it |
| Assistant.Fire | public/app.js:158-167 | the corrected timer callback: it delivers exactly when its reminder is due; an early timer leaves the stored reminders alone and only re-arms |
| Assistant.NoteBody | public/app.js:74-77 | splitting at colons, dropping the title and joining the rest with colons gives the trimmed text after the first colon |
| Assistant.CommandOf | public/app.js:46-88 | the tests run in order: add-todo, reminder, list, note (with a colon), help; each command holds that test's capture |
| Assistant.TodoLine | public/app.js:71 | a to-do line is its 1-based number in decimal, `. `, the text, and ` (done)` exactly when it is done |
| Assistant.TodoLines | public/app.js:71 | one numbered line per to-do, in order |
| Assistant.TodoListing | public/app.js:68-72 | the listing is the no-to-dos message exactly when there are no to-dos |
| Assistant.TodoListingLines | public/app.js:71 | split at line breaks, the listing is its title followed by one line per to-do |
| Assistant.ReminderReply | public/app.js:58-65 | the reminder reply quotes the text and gives the number as `parseInt` reads it, rendered without leading zeros, and the captured unit |
| Assistant.Respond | public/app.js:46-88 | each command changes only its own list; list, help and default change nothing; a note reply quotes at most 60 characters; a reminder is scheduled at now plus the code's case-sensitive delay |
| Assistant.AssistantReply | public/app.js:46-88 | an add-todo message adds its capture and confirms it; only an add-todo message changes the to-dos; only a message with a note word and a colon that matched neither pattern changes the notes; only a reminder message touches reminders, chat log or timers; a message nothing recognises gets the default reply and changes nothing |
| Assistant.AddTodoViaChat | public/app.js:46-53 | the message `add todo <text>` adds the to-do and answers with it |
| Assistant.ReminderCommandSchedules | public/app.js:55-65 | a reminder command with a positive number and a lower-case unit stores and arms one reminder due at now plus the intended delay, and changes nothing else |
| Assistant.ReminderDeliveredAtOnce | public/app.js:147-166 | a reminder command whose code delay is 0 leaves the stored reminders as they were and only adds `Reminder: <text>` to the chat |
| Assistant.DurationPositive | public/app.js:60-63 | for a positive number the code's delay is positive exactly when the unit starts with lower-case `second`, `minute` or `hour`; the intended delay of a unit word always is |
| Assistant.ScheduleReminderArms | public/app.js:147 | a future reminder is appended and armed, and nothing else changes |
| Assistant.ReminderMessageTrimmed | public/app.js:47 | a reminder message as typed is unchanged by `trim` |
| Assistant.ReminderMessageCommand | public/app.js:46-56 | a typed reminder that is no add-todo command is classified as that reminder |
| Assistant.ReminderViaChat | public/app.js:46-65 | a reminder message with a positive number and a lower-case unit schedules the reminder at now plus its delay |
| Assistant.CapitalReminderViaChat | public/app.js:46-66 | a reminder message whose captured unit is not in lower case stores nothing and delivers the reminder to the chat at once |
| Assistant.Listen | public/app.js:182-191 | only a `cloudassistant:gauth` message with an email is accepted, and its email is stored |
| Assistant.ListenAccepts | public/app.js:184-189 | a message is accepted exactly when its type matches and its email is non-empty |
| Assistant.LoginReachesOpener | public/app.js:182-191 | the page of a successful callback posts a message that the assistant accepts, storing the identity that logged in |

## Left out

- Network I/O, `Date.now()` and `crypto.randomUUID()` are parameters: the `World` of a request, the `now` of a command.
- Chat.PromptOf: a request body that parses as JSON `null` makes `body.prompt` throw, so the code answers 500; the model treats every parsed body as an object, forwards the empty prompt and can answer 200.
- JSON encoding and decoding are not modelled. A stored token record is a value, and a body that does not parse is an absent value. Neither are `localStorage`, nor the `storage.get` fallback for unreadable entries.
- HTML and DOM are left out: rendering of the lists, `showView`, `appendMessage` beyond the chat log, the forms at public/app.js:113, 140 and 154, and the Drive loader button.
- The runtime configuration load and the sign-in popup window are left out; they only read configuration and open a window.
- The 250 ms delay before the assistant answers, and `init` arming every stored reminder at start-up, are left out. Both only order work the model treats one call at a time.
- Browser notifications and their permission request are left out; they are side effects with no state the model keeps.
- The exact text of error bodies that embed `String(e)` is left out. They are the `WorkerError` and `RefreshFailure` bodies.
- The escaping of the email in the callback page is left out. The page is modelled by the message it posts.
- The worker reads `Date.now()` several times within one request, and the assistant reads it three times per reminder command (public/app.js:64, 147 and 158) and twice per note (public/app.js:134, for its time and its id); the model reads the clock once per request and once per command. So `Assistant.Respond` arms a timer for exactly the delay the command asks for, where the code's timer is shorter by the milliseconds elapsed between those reads. Likewise `Lists.AddNote` gives a note equal time and id, where the code's two reads may differ.
- Numbers are unbounded: `parseInt` of very long digit runs and millisecond arithmetic beyond 2^53 are not modelled.
- Strings are sequences of Unicode scalar values, not of the UTF-16 code units JavaScript uses. Unicode case folding beyond ASCII is left out, since the patterns contain ASCII letters only.
- Text.Take: counts Unicode scalar values where `slice` counts UTF-16 code units, so for text with characters outside the Basic Multilingual Plane the model keeps more text than the code and never splits a surrogate pair.
- Router.Handle: its contract covers only ping and the 404. The other routes are stated by `HandleWrites`, `HandleSetsCookie`, `HandleRefreshes` and the handlers' own contracts.
- Timing.Duration: the delay of the intended, case-insensitive unit tests. The code's case-sensitive delay is `DurationAsWritten` (see Findings).
- server.js and the scripts are not part of this model.

## Findings

| source | as written | input that shows it | evidently intended | confidence | as-written member | corrected member |
|---|---|---|---|---|---|---|
| public/app.js:61-63 | the unit is tested with case-sensitive `startsWith` after a case-insensitive match, so a capitalised unit leaves the delay at 0 | "remind me to stretch in 10 Minutes" | a ten-minute delay, the unit compared ignoring case | high, not executed | Timing.CapitalUnitDeliversAtOnce | Timing.Duration |
| public/app.js:158 | the delay is clamped to 2^31 - 1 ms and the timer delivers when it fires, so reminders further away are delivered early | "remind me to stretch in 720 hours" (2592000000 ms, delivered after about 24.8 days) | re-arm the timer until the reminder is due | high, not executed | Assistant.FiresEarlyAsWritten | Assistant.Fire |
