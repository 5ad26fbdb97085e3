# Chat store of the life-consultation handler

The repository is one serverless HTTP handler (`api/index.ts`) for a
counselling chat. Under its HTTP and completion-service plumbing it keeps an
in-memory store: a `sessions` table, a `messages` table and two id counters,
with both tables empty and both counters at 1 when the process starts. This project models that store
and the handler's routing in Dafny:

- `options.dfy` — `Option`, standing for `undefined`/`null` (and `NaN` for
  parsed ids).
- `routing.dfy` (module `Routing`) — the pure request routing: the path as
  the URL before its first `?`, the id of `/api/chat/sessions/:id` as
  `parseInt` of the last path segment (an empty segment reads as `"0"`), and
  the method/path dispatch with OPTIONS answered first and 404 last.
- `chat.dfy` (module `Chat`) — the store as a value (`Tables`) and what each
  store operation does to it: `Send`, `MessagesOf`, `Delete`, with the title
  rule, API-key resolution, the assistant-text fallback and the history
  projection; the store invariant `Valid` (ids positive, below their
  counter and strictly increasing along each table) and lemmas about them.
- `store.dfy` (module `Store`) — class `ChatStore`, whose fields are the
  module-level tables and counters, with one method per route and `Handle`
  for the whole handler. Each method updates the fields in place and is
  proved to do exactly what the matching `Chat` function says.

The completion call is an input (`Completion`): it either fails with an
error message or returns the first choice's content, if any. `Send` returns
the prompt it would hand to the service. The body's `sessionId` is an `int`
where 0 means absent, since the handler tests it for truthiness. The API keys
of the header and the environment are `Option<string>` inputs, and an empty
string counts as missing.

The insertion order of a filtered listing is stated through ids. Ids
strictly increase along each table, and a sequence with a strictly
increasing key is fixed by its elements (`AscendingUnique`). So "the
session's messages in creation order" has exactly one meaning, and
`MessagesInCreationOrder` proves the listing equals it.

A new session's id is the session counter's value (api/index.ts:47).
Deleting sessions never lowers the counter, so a new id can exceed the
largest stored id plus one. The fallback reply replaces a missing content
and an empty string alike (api/index.ts:91).

## Model

| member | source | states |
|---|---|---|
| `Routing.StripQuery` | api/index.ts:30 | the path is the longest prefix of the URL without `?`: a prefix, `?`-free, and followed by `?` if shorter |
| `Routing.PathOf` | api/index.ts:29-30 | a missing URL gives the empty path; otherwise the URL's `?`-free prefix that stops at its first `?` |
| `Routing.LastSegment` | api/index.ts:114 | the segment is the suffix after the last `/`: a suffix, `/`-free, preceded by `/` if shorter than the path |
| `Routing.ParseInt` | api/index.ts:114 | `NaN` exactly when no digit follows the optional sign; a leading `-` gives a value at most 0, otherwise at least 0 |
| `Routing.ParseIntZero` | api/index.ts:114 | the default segment `"0"` reads as 0 |
| `Routing.SegmentId` | api/index.ts:114 | an empty last segment gives id 0; otherwise the id is `parseInt` of the last segment |
| `Routing.DigitsValue` | api/index.ts:114 | a digit string's value is never negative |
| `Routing.LeadingDigits` | api/index.ts:114 | `parseInt` reads the longest all-digit prefix |
| `Routing.StripQueryOf` | api/index.ts:30 | for a `?`-free `p`, stripping `p?q` and `p` both give `p` |
| `Routing.DispatchIgnoresQuery` | api/index.ts:29-33 | a query string never changes the route |
| `Routing.LastSegmentOf` | api/index.ts:114 | the last segment of `prefix/seg` is `seg` when `seg` holds no `/` |
| `Routing.DecimalValue` | api/index.ts:114 | the digit value of the decimal spelling of `n` is `n` |
| `Routing.LeadingDigitsAll` | api/index.ts:114 | an all-digit string is read whole |
| `Routing.ParseIntDecimal` | api/index.ts:114 | `parseInt` reads back `n` and `-n` from their decimal spellings |
| `Routing.ParseIntNaN` | api/index.ts:114 | a string starting with neither a digit nor a sign parses to `NaN` |
| `Routing.DispatchSessionPath` | api/index.ts:113-124 | any `?`-free path under `/api/chat/sessions/` routes GET to the listing and DELETE to deletion with the parsed id; POST there is 404 |
| `Routing.DispatchSessionId` | api/index.ts:113-124 | GET and DELETE on `/api/chat/sessions/<n>` carry id `n` |
| `Routing.DispatchTrailingSlash` | api/index.ts:114 | `/api/chat/sessions/` (empty last segment) carries id 0 |
| `Routing.Dispatch` | api/index.ts:25-126 | OPTIONS exactly gives the preflight; send exactly for POST on `/api/chat/send`; the session list exactly for GET on `/api/chat/sessions`; the message list and deletion exactly for GET and DELETE under `/api/chat/sessions/`, with the id parsed from the last segment |
| `Routing.DispatchSessionList` | api/index.ts:109-111 | GET on `/api/chat/sessions`, with or without a query, lists the sessions |
| `Routing.DispatchUnmatched` | api/index.ts:126 | GET, POST or DELETE on any other path gives 404 |
| `Routing.DispatchMethods` | api/index.ts:25-126 | OPTIONS, and only OPTIONS, is the preflight; other methods than OPTIONS/GET/POST/DELETE get 404; a POST is either the send or unmatched |
| `Chat.Filter` | api/index.ts:67-68 | the result holds exactly the accepted elements of the input and is no longer |
| `Chat.Title` | api/index.ts:48 | the title is the content when it has at most 50 characters, else its first 50 characters followed by `...`; never longer than 53 |
| `Chat.ResolveKey` | api/index.ts:35-38 | no key exactly when header and environment keys are both missing or empty; a non-empty header key wins; a resolved key is non-empty |
| `Chat.AssistantText` | api/index.ts:91 | the reply text is never empty; it is the service's content when that is present and non-empty, otherwise the fixed fallback |
| `Chat.Project` | api/index.ts:69 | one turn per message, carrying its role and content, in order |
| `Chat.History` | api/index.ts:67-69 | the history of a session is never longer than the message table |
| `Chat.HistoryMembers` | api/index.ts:67-69 | the history holds a role/content turn for every stored message of the session and for no other message |
| `Chat.Send` | api/index.ts:33-107 | no key: nothing changes, 500 key error, no call; otherwise a session is appended only for session id 0, the user message then (on a reply) the assistant message are appended with consecutive ids, counters rise by 1 or 2, the prompt is the instruction, the session's earlier history and the new user turn; a failed call keeps the user message and yields a 500 with the detail |
| `Chat.MessagesOf` | api/index.ts:113-117 | the listing holds exactly the stored messages of the session; `NaN` gives the empty list |
| `Chat.Delete` | api/index.ts:119-124 | exactly the sessions with another id and the messages of other sessions remain; counters unchanged |
| `Chat.FilterAppend` | api/index.ts:67-68 | filtering distributes over concatenation |
| `Chat.FilterNone` | api/index.ts:115 | filtering with nothing accepted gives the empty sequence |
| `Chat.HistoryAppend` | api/index.ts:64-69 | storing a message extends its session's history by exactly that message's turn |
| `Chat.FilterKeepsAll` | api/index.ts:121-122 | filtering with everything accepted returns the input unchanged |
| `Chat.FilterAscending` | api/index.ts:121-122 | filtering preserves a strictly increasing key, so relative order is kept |
| `Chat.AscendingUnique` | api/index.ts:115 | two key-ascending sequences with the same elements are equal |
| `Chat.NumberedAppend` | api/index.ts:94-101 | appending a row keyed with the counter's value keeps ids positive, below the raised counter and strictly increasing |
| `Chat.FilterNumbered` | api/index.ts:121-122 | filtering a table keeps its ids positive, below the counter and strictly increasing |
| `Chat.MessagesInCreationOrder` | api/index.ts:113-117 | in a valid store the listing of a session is the unique id-ascending sequence of its messages |
| `Chat.SendPrompt` | api/index.ts:64-86 | the prompt is the instruction followed by the session's stored messages, the new user message included, and ends with the user turn |
| `Chat.SendKeepsValid` | api/index.ts:46-101 | every send keeps ids positive, below their counters and strictly increasing |
| `Chat.SendIdsFresh` | api/index.ts:46-58 | a new session's id and the user message's id exceed every id already stored |
| `Chat.SendTwiceNotIdempotent` | api/index.ts:42-64 | the same content sent twice without session id yields two sessions and two assistant messages with distinct ids |
| `Chat.SendToUnknownSession` | api/index.ts:42-59 | a non-zero session id is used as given even if no such session exists, leaving a message that refers to no session |
| `Chat.SendWithoutKey` | api/index.ts:35-40 | without a usable key the store is untouched and the key error is returned |
| `Chat.FirstSend` | api/index.ts:14-106 | the first send to a fresh process answers with assistant message 2 in session 1 |
| `Chat.DeleteKeepsValid` | api/index.ts:121-122 | deletion keeps the store invariant and the order of what remains |
| `Chat.DeleteUnknownIsNoop` | api/index.ts:119-123 | deleting an id nothing carries, or `NaN`, changes nothing |
| `Chat.DeleteThenList` | api/index.ts:113-122 | after deleting `k` its message listing is empty and no session has id `k` |
| `Store.ChatStore.constructor` | api/index.ts:12-15 | the store starts empty with both counters at 1 |
| `Store.ChatStore.OpenSession` | api/index.ts:46-53 | a session titled by the title rule is appended under the session counter's value, the counter rises by one, messages untouched |
| `Store.ChatStore.StoreMessage` | api/index.ts:57-64 | a message is appended under the message counter's value, the counter rises by one, sessions untouched |
| `Store.ChatStore.Send` | api/index.ts:33-107 | the in-place send leaves exactly the tables, response and prompt of `Chat.Send` and keeps the invariant |
| `Store.ChatStore.ListSessions` | api/index.ts:109-111 | the response is the session table as stored, in creation (ascending id) order |
| `Store.ChatStore.ListMessages` | api/index.ts:113-117 | the response holds exactly the session's messages, id-ascending, without changing the store |
| `Store.ChatStore.DeleteSession` | api/index.ts:119-124 | the in-place delete leaves exactly `Chat.Delete` of the old store, answers `{success: true}` and keeps the invariant |
| `Store.ChatStore.Handle` | api/index.ts:22-134 | each route does its operation; only send and delete change the store; only send calls the service; OPTIONS gets an empty 200; the status is 404 exactly for unmatched requests, and 500 only on the send route |

## Left out

- The completion client and its network call: the call's outcome is an input, and the model, temperature, token limit and system-prompt text are not modelled (the instruction is one opaque `Instruction` turn).
- CORS headers, the request/response objects, JSON serialisation and `console.error` logging; a response is an abstract `Response` with its status.
- `createdAt`, `timestamp` and `userId` fields: wall-clock values and a constant null.
- Request bodies of other shapes: the model takes `content` as a string and `sessionId` as an integer. It does not capture that a truthy non-number `sessionId` (such as `"1"`) is stored verbatim on both messages and the send succeeds, while listing and deletion compare with the parsed number by strict equality and so never find or remove those messages. Nor does it capture that a missing `content` without a session id uses up a session id (the counter is stepped before `content.length` throws) and stores no session, before the generic 500.
- `Routing.ParseInt`: leading-whitespace skipping, the `0x` hexadecimal prefix and floating-point precision of `parseInt` are not modelled; an optional sign and leading decimal digits are.
- Counters are unbounded integers. JavaScript's numbers stop advancing at 2^53 (`++` then leaves the value unchanged), after which ids would repeat and the tables would no longer be strictly increasing; `Chat.Valid`, `Chat.SendKeepsValid` and `Chat.SendIdsFresh` hold only below that bound.
- Lengths and substrings count characters, not UTF-16 code units as JavaScript does.
- Concurrent invocations and separate process instances: the store is single-threaded and lives in one process.
