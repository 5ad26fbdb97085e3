/** The in-memory chat store of the handler, as values: the two tables, their
    id counters, and the effect of each store operation on them. */
module Chat {
  import opened Options

  datatype Role = User | Assistant

  /** A session row; `userId` (always null) and `createdAt` are not modelled. */
  datatype Session = Session(id: int, title: string)

  /** A message row; `timestamp` is not modelled. `sessionId` is a foreign key
      that nothing enforces. */
  datatype Message = Message(id: int, sessionId: int, role: Role, content: string)

  /** One entry of the prompt sent to the completion service: the fixed system
      instruction, or a stored message reduced to its role and content. */
  datatype Turn = Instruction | Said(role: Role, content: string)

  /** The outcome of the completion call: it throws (with the error message),
      or it returns, with the first choice's content if there is one. */
  datatype Completion = CallFailed(detail: string) | Replied(content: Option<string>)

  /** The response of the handler: status and payload. */
  datatype Response =
    | PreflightOk                   // 200, empty body
    | Sent(message: Message, sessionId: int)
    | SessionList(sessions: seq<Session>)
    | MessageList(messages: seq<Message>)
    | Deleted                       // 200 {success: true}
    | NotFound                      // 404 {error: "Not found"}
    | KeyNotConfigured              // 500 {error: "OpenAI API key not configured"}
    | ServerError(details: string)  // 500 {error: "Internal server error", details}
  {
    function Status(): int
    {
      match this
      case NotFound => 404
      case KeyNotConfigured => 500
      case ServerError(_) => 500
      case _ => 200
    }
  }

  /** The store: both tables and the next id each counter hands out. */
  datatype Tables = Tables(sessions: seq<Session>, messages: seq<Message>,
                           nextSessionId: int, nextMessageId: int)

  /** What a send leaves behind: the new tables, the response, and the prompt
      given to the completion service (`None` when it was not called). */
  datatype SendResult = SendResult(after: Tables, response: Response, prompt: Option<seq<Turn>>)

  const TitleLimit := 50
  const Ellipsis := "..."
  const Fallback := "申し訳ございません。回答を生成できませんでした。"

  /** The store of a freshly started process: empty tables, counters at 1. */
  const Initial := Tables([], [], 1, 1)

  // ------------------------------------------------------------ filtering

  /** `Array.prototype.filter`: the elements that `keep` accepts, in order. */
  function Filter<T(!new)>(s: seq<T>, keep: T -> bool): (r: seq<T>)
    ensures |r| <= |s|
    ensures forall x :: x in r <==> x in s && keep(x)
  {
    if s == [] then []
    else if keep(s[0]) then [s[0]] + Filter(s[1..], keep)
    else Filter(s[1..], keep)
  }

  /** `key` strictly increases along `s`. */
  ghost predicate Ascending<T>(s: seq<T>, key: T -> int)
  {
    forall i, j :: 0 <= i < j < |s| ==> key(s[i]) < key(s[j])
  }

  function SessionKey(s: Session): int { s.id }
  function MessageKey(m: Message): int { m.id }

  /** `msg.sessionId === k`; `k == None` is `NaN`, equal to nothing. */
  function InSession(k: Option<int>): Message -> bool
  {
    (m: Message) => k == Some(m.sessionId)
  }

  /** `m.sessionId !== k`. */
  function OutsideSession(k: Option<int>): Message -> bool
  {
    (m: Message) => k != Some(m.sessionId)
  }

  /** `s.id !== k`. */
  function OtherSession(k: Option<int>): Session -> bool
  {
    (s: Session) => k != Some(s.id)
  }

  // -------------------------------------------------------- pure helpers

  /** The title of a new session: the first message, cut to 50 characters
      with "..." appended when it is longer. */
  function Title(content: string): (t: string)
    ensures |t| <= TitleLimit + |Ellipsis|
    ensures |content| <= TitleLimit ==> t == content
    ensures |content| > TitleLimit ==>
      |t| == TitleLimit + |Ellipsis| && t[..TitleLimit] == content[..TitleLimit] && t[TitleLimit..] == Ellipsis
  {
    if |content| > TitleLimit then content[..TitleLimit] + Ellipsis else content
  }

  /** `clientApiKey || process.env.OPENAI_API_KEY`: the header key unless it
      is missing or empty, then the environment key unless it is missing or
      empty. */
  function ResolveKey(header: Option<string>, env: Option<string>): (k: Option<string>)
    ensures k.None? <==> (header.None? || header.value == "") && (env.None? || env.value == "")
    ensures k.Some? ==> k.value != "" && (k == header || k == env)
    ensures header.Some? && header.value != "" ==> k == header
  {
    if header.Some? && header.value != "" then header
    else if env.Some? && env.value != "" then env
    else None
  }

  /** `completion.choices[0]?.message?.content || Fallback`. */
  function AssistantText(content: Option<string>): (text: string)
    ensures text != ""
    ensures text == Fallback || content == Some(text)
    ensures content.Some? && content.value != "" ==> text == content.value
  {
    if content.Some? && content.value != "" then content.value else Fallback
  }

  /** Role and content of each message, in order. */
  function Project(ms: seq<Message>): (h: seq<Turn>)
    ensures |h| == |ms|
    ensures forall i :: 0 <= i < |ms| ==> h[i] == Said(ms[i].role, ms[i].content)
  {
    seq(|ms|, i requires 0 <= i < |ms| => Said(ms[i].role, ms[i].content))
  }

  /** The conversation of session `current` as the completion service sees it. */
  function History(ms: seq<Message>, current: int): (h: seq<Turn>)
    ensures |h| <= |ms|
  {
    Project(Filter(ms, InSession(Some(current))))
  }

  // ---------------------------------------------------------- invariant

  /** What the store keeps true: counters at least 1, ids positive, below their
      counter and strictly increasing along each table (so unique and in
      creation order). */
  ghost predicate Valid(t: Tables)
  {
    && 1 <= t.nextSessionId && 1 <= t.nextMessageId
    && Numbered(t.sessions, SessionKey, t.nextSessionId)
    && Numbered(t.messages, MessageKey, t.nextMessageId)
  }

  /** The keys along `s` are at least 1, below `next`, and strictly increasing. */
  ghost predicate Numbered<T>(s: seq<T>, key: T -> int, next: int)
  {
    && (forall i :: 0 <= i < |s| ==> 1 <= key(s[i]) < next)
    && Ascending(s, key)
  }

  // --------------------------------------------------------- operations

  /** POST /api/chat/send. Without a key nothing changes. Otherwise a session
      is created when `sessionId` is 0 (absent), the user message is stored,
      the prompt is built from the session's stored messages, and the
      assistant message is stored unless the completion call failed; nothing
      is rolled back on failure. */
  function Send(t: Tables, content: string, sessionId: int,
                headerKey: Option<string>, envKey: Option<string>, reply: Completion): (r: SendResult)
    ensures ResolveKey(headerKey, envKey).None? ==> r == SendResult(t, KeyNotConfigured, None)
    ensures ResolveKey(headerKey, envKey).Some? ==>
      var current := if sessionId == 0 then t.nextSessionId else sessionId;
      var user := Message(t.nextMessageId, current, User, content);
      && r.after.sessions == (if sessionId == 0 then t.sessions + [Session(t.nextSessionId, Title(content))] else t.sessions)
      && r.after.nextSessionId == (if sessionId == 0 then t.nextSessionId + 1 else t.nextSessionId)
      && r.prompt == Some([Instruction] + History(t.messages, current) + [Said(User, content)])
      && (reply.CallFailed? ==>
            && r.after.messages == t.messages + [user]
            && r.after.nextMessageId == t.nextMessageId + 1
            && r.response == ServerError(reply.detail))
      && (reply.Replied? ==>
            var ai := Message(t.nextMessageId + 1, current, Assistant, AssistantText(reply.content));
            && r.after.messages == t.messages + [user, ai]
            && r.after.nextMessageId == t.nextMessageId + 2
            && r.response == Sent(ai, current))
  {
    if ResolveKey(headerKey, envKey).None? then SendResult(t, KeyNotConfigured, None)
    else
      var t1 := if sessionId == 0
        then t.(sessions := t.sessions + [Session(t.nextSessionId, Title(content))],
                nextSessionId := t.nextSessionId + 1)
        else t;
      var current := if sessionId == 0 then t.nextSessionId else sessionId;
      var user := Message(t1.nextMessageId, current, User, content);
      var t2 := t1.(messages := t1.messages + [user], nextMessageId := t1.nextMessageId + 1);
      HistoryAppend(t.messages, user);
      assert t2.messages == t.messages + [user];
      var prompt := [Instruction] + History(t2.messages, current);
      assert prompt == [Instruction] + History(t.messages, current) + [Said(User, content)];
      match reply
      case CallFailed(detail) => SendResult(t2, ServerError(detail), Some(prompt))
      case Replied(c) =>
        var ai := Message(t2.nextMessageId, current, Assistant, AssistantText(c));
        SendResult(t2.(messages := t2.messages + [ai], nextMessageId := t2.nextMessageId + 1),
                   Sent(ai, current), Some(prompt))
  }

  /** GET /api/chat/sessions/:id: the messages of session `k`. */
  function MessagesOf(t: Tables, k: Option<int>): (r: seq<Message>)
    ensures forall m :: m in r <==> m in t.messages && k == Some(m.sessionId)
    ensures k.None? ==> r == []
  {
    if k.None? then FilterNone(t.messages, InSession(k)); [] else Filter(t.messages, InSession(k))
  }

  /** DELETE /api/chat/sessions/:id: drop session `k` and every message of
      it; the counters stay as they are. */
  function Delete(t: Tables, k: Option<int>): (r: Tables)
    ensures forall s :: s in r.sessions <==> s in t.sessions && k != Some(s.id)
    ensures forall m :: m in r.messages <==> m in t.messages && k != Some(m.sessionId)
    ensures r.nextSessionId == t.nextSessionId && r.nextMessageId == t.nextMessageId
  {
    t.(sessions := Filter(t.sessions, OtherSession(k)),
       messages := Filter(t.messages, OutsideSession(k)))
  }

  // ------------------------------------------------------------- lemmas

  /** Filtering distributes over concatenation. */
  lemma {:induction false} FilterAppend<T(!new)>(a: seq<T>, b: seq<T>, keep: T -> bool)
    ensures Filter(a + b, keep) == Filter(a, keep) + Filter(b, keep)
  {
    if a == [] {
      assert a + b == b;
    } else {
      assert (a + b)[0] == a[0] && (a + b)[1..] == a[1..] + b;
      FilterAppend(a[1..], b, keep);
      if keep(a[0]) {
        assert Filter(a + b, keep) == [a[0]] + Filter(a[1..] + b, keep);
      } else {
        assert Filter(a + b, keep) == Filter(a[1..] + b, keep);
      }
    }
  }

  /** Filtering keeps everything when every element is accepted. */
  lemma {:induction false} FilterKeepsAll<T(!new)>(s: seq<T>, keep: T -> bool)
    requires forall x :: x in s ==> keep(x)
    ensures Filter(s, keep) == s
  {
    if s != [] {
      assert s[0] in s;
      FilterKeepsAll(s[1..], keep);
    }
  }

  /** Filtering keeps nothing when no element is accepted. */
  lemma {:induction false} FilterNone<T(!new)>(s: seq<T>, keep: T -> bool)
    requires forall x :: x in s ==> !keep(x)
    ensures Filter(s, keep) == []
  {
    if s != [] {
      assert s[0] in s;
      FilterNone(s[1..], keep);
    }
  }

  /** The history of a session holds a turn for every stored message of that
      session and nothing else. */
  lemma HistoryMembers(ms: seq<Message>, current: int)
    ensures var h := History(ms, current);
      && (forall i :: 0 <= i < |h| ==>
            exists m :: m in ms && m.sessionId == current && h[i] == Said(m.role, m.content))
      && (forall m :: m in ms && m.sessionId == current ==> Said(m.role, m.content) in h)
  {
    var f := Filter(ms, InSession(Some(current)));
    var h := History(ms, current);
    assert h == Project(f);
    forall i | 0 <= i < |h|
      ensures exists m :: m in ms && m.sessionId == current && h[i] == Said(m.role, m.content)
    {
      assert f[i] in f && h[i] == Said(f[i].role, f[i].content);
      assert InSession(Some(current))(f[i]);
      assert f[i] in ms && f[i].sessionId == current;
    }
    assert forall i :: 0 <= i < |h| ==>
      exists m :: m in ms && m.sessionId == current && h[i] == Said(m.role, m.content);
    forall m | m in ms && m.sessionId == current ensures Said(m.role, m.content) in h {
      assert m in f;
      var j :| 0 <= j < |f| && f[j] == m;
      assert h[j] == Said(m.role, m.content);
    }
  }

  /** Storing a message of session `m.sessionId` extends that session's
      history by exactly that message. */
  lemma HistoryAppend(ms: seq<Message>, m: Message)
    ensures History(ms + [m], m.sessionId) == History(ms, m.sessionId) + [Said(m.role, m.content)]
  {
    var keep := InSession(Some(m.sessionId));
    FilterAppend(ms, [m], keep);
    assert Filter([m], keep) == [m];
    var f := Filter(ms, keep);
    assert Project(f + [m]) == Project(f) + [Said(m.role, m.content)];
  }

  /** The tail of an ascending sequence is ascending, and its keys all
      exceed the head's. */
  lemma AscendingHead<T>(a: seq<T>, key: T -> int)
    requires Ascending(a, key) && a != []
    ensures Ascending(a[1..], key)
    ensures forall x :: x in a[1..] ==> key(a[0]) < key(x)
  {
    forall x | x in a[1..] ensures key(a[0]) < key(x) {
      var j :| 0 <= j < |a[1..]| && a[1..][j] == x;
      assert a[j + 1] == x;
    }
  }

  /** Putting an element with a smaller key than all others in front keeps a
      sequence ascending. */
  lemma AscendingCons<T>(x: T, r: seq<T>, key: T -> int)
    requires Ascending(r, key)
    requires forall y :: y in r ==> key(x) < key(y)
    ensures Ascending([x] + r, key)
  {
    var c := [x] + r;
    forall i, j | 0 <= i < j < |c| ensures key(c[i]) < key(c[j]) {
      assert c[j] == r[j - 1];
      if i == 0 {
        assert r[j - 1] in r;
      } else {
        assert c[i] == r[i - 1];
      }
    }
  }

  /** Filtering keeps a strictly increasing key strictly increasing. */
  lemma {:induction false} FilterAscending<T(!new)>(s: seq<T>, keep: T -> bool, key: T -> int)
    requires Ascending(s, key)
    ensures Ascending(Filter(s, keep), key)
  {
    if s != [] {
      AscendingHead(s, key);
      FilterAscending(s[1..], keep, key);
      if keep(s[0]) {
        AscendingCons(s[0], Filter(s[1..], keep), key);
      }
    }
  }

  /** Two sequences along which a key strictly increases and that hold the
      same elements are equal: the order is determined by the key. */
  lemma {:induction false} AscendingUnique<T>(a: seq<T>, b: seq<T>, key: T -> int)
    requires Ascending(a, key) && Ascending(b, key)
    requires forall x :: x in a <==> x in b
    ensures a == b
  {
    assert |b| == 0 || b[0] in a;
    if a != [] {
      assert a[0] in a && b != [] && b[0] in b;
      AscendingHead(a, key);
      AscendingHead(b, key);
      assert a == [a[0]] + a[1..] && b == [b[0]] + b[1..];
      assert a[0] == b[0];
      forall x ensures x in a[1..] <==> x in b[1..] {
        assert x in a[1..] ==> x in b && x != b[0];
        assert x in b[1..] ==> x in a && x != a[0];
      }
      AscendingUnique(a[1..], b[1..], key);
    }
  }

  /** Appending an element keyed with the next number keeps a table
      numbered, with the next number one higher. */
  lemma NumberedAppend<T>(s: seq<T>, x: T, key: T -> int, next: int)
    requires Numbered(s, key, next) && 1 <= key(x) == next
    ensures Numbered(s + [x], key, next + 1)
  {
  }

  /** Filtering keeps a table numbered. */
  lemma FilterNumbered<T(!new)>(s: seq<T>, keep: T -> bool, key: T -> int, next: int)
    requires Numbered(s, key, next)
    ensures Numbered(Filter(s, keep), key, next)
  {
    FilterAscending(s, keep, key);
    var r := Filter(s, keep);
    forall i | 0 <= i < |r| ensures 1 <= key(r[i]) < next {
      assert r[i] in s;
    }
  }

  /** The listed messages of a session are exactly its stored messages in
      creation order: any id-ascending sequence of exactly those messages is
      the listing. */
  lemma MessagesInCreationOrder(t: Tables, k: int, r: seq<Message>)
    requires Valid(t)
    requires Ascending(r, MessageKey)
    requires forall m :: m in r <==> m in t.messages && m.sessionId == k
    ensures MessagesOf(t, Some(k)) == r
  {
    FilterAscending(t.messages, InSession(Some(k)), MessageKey);
    AscendingUnique(MessagesOf(t, Some(k)), r, MessageKey);
  }

  /** The prompt of a send is the instruction followed by the session's stored
      messages (including the new user message), each reduced to role and
      content, in creation order. */
  lemma SendPrompt(t: Tables, content: string, sessionId: int,
                   headerKey: Option<string>, envKey: Option<string>, reply: Completion)
    requires ResolveKey(headerKey, envKey).Some?
    ensures var r := Send(t, content, sessionId, headerKey, envKey, reply);
      var current := if sessionId == 0 then t.nextSessionId else sessionId;
      var stored := t.messages + [Message(t.nextMessageId, current, User, content)];
      && r.prompt == Some([Instruction] + Project(Filter(stored, InSession(Some(current)))))
      && r.prompt.value[|r.prompt.value| - 1] == Said(User, content)
  {
  }

  /** Every send from a valid store leaves a valid store. */
  lemma SendKeepsValid(t: Tables, content: string, sessionId: int,
                       headerKey: Option<string>, envKey: Option<string>, reply: Completion)
    requires Valid(t)
    ensures Valid(Send(t, content, sessionId, headerKey, envKey, reply).after)
  {
    if ResolveKey(headerKey, envKey).Some? {
      var current := if sessionId == 0 then t.nextSessionId else sessionId;
      var user := Message(t.nextMessageId, current, User, content);
      if sessionId == 0 {
        NumberedAppend(t.sessions, Session(t.nextSessionId, Title(content)), SessionKey, t.nextSessionId);
      }
      NumberedAppend(t.messages, user, MessageKey, t.nextMessageId);
      if reply.Replied? {
        var ai := Message(t.nextMessageId + 1, current, Assistant, AssistantText(reply.content));
        NumberedAppend(t.messages + [user], ai, MessageKey, t.nextMessageId + 1);
        assert t.messages + [user, ai] == t.messages + [user] + [ai];
      }
    }
  }

  /** Ids handed out by a send are fresh: larger than every id already stored. */
  lemma SendIdsFresh(t: Tables, content: string, headerKey: Option<string>,
                     envKey: Option<string>, reply: Completion)
    requires Valid(t)
    requires ResolveKey(headerKey, envKey).Some?
    ensures var r := Send(t, content, 0, headerKey, envKey, reply);
      && (forall s :: s in t.sessions ==> s.id < r.after.sessions[|t.sessions|].id)
      && (forall m :: m in t.messages ==> m.id < r.after.messages[|t.messages|].id)
  {
  }

  /** Sending is not idempotent: the same content sent twice without a
      session id opens two sessions with different ids and yields two
      assistant messages with different ids. */
  lemma SendTwiceNotIdempotent(t: Tables, content: string, key: string, c: Option<string>)
    requires Valid(t) && key != ""
    ensures var r1 := Send(t, content, 0, Some(key), None, Replied(c));
      var r2 := Send(r1.after, content, 0, Some(key), None, Replied(c));
      && r1.response.Sent? && r2.response.Sent?
      && r1.response.sessionId != r2.response.sessionId
      && r1.response.message.id != r2.response.message.id
      && |r2.after.sessions| == |t.sessions| + 2
      && |r2.after.messages| == |t.messages| + 4
  {
  }

  /** The session id given in the request is used as it is, even when no
      such session exists: the stored messages then refer to no session. */
  lemma SendToUnknownSession(t: Tables, content: string, k: int, key: string, reply: Completion)
    requires k != 0 && key != ""
    requires forall s :: s in t.sessions ==> s.id != k
    ensures var r := Send(t, content, k, Some(key), None, reply);
      && r.after.sessions == t.sessions
      && (reply.Replied? ==> r.response.sessionId == k)
      && var m := r.after.messages[|t.messages|];
         m.sessionId == k && forall s :: s in r.after.sessions ==> s.id != m.sessionId
  {
  }

  /** The missing-key scenario in the caller's terms: when neither the header
      nor the environment supplies a non-empty key, nothing is stored, no id
      is consumed and the completion service is not called. */
  lemma SendWithoutKey(t: Tables, content: string, sessionId: int,
                       headerKey: Option<string>, envKey: Option<string>, reply: Completion)
    requires headerKey.None? || headerKey.value == ""
    requires envKey.None? || envKey.value == ""
    ensures Send(t, content, sessionId, headerKey, envKey, reply) == SendResult(t, KeyNotConfigured, None)
  {
  }

  /** The first send to a fresh process opens session 1 and stores messages
      1 (user) and 2 (assistant). */
  lemma FirstSend(content: string, key: string, c: Option<string>)
    requires key != ""
    ensures Send(Initial, content, 0, Some(key), None, Replied(c)).response
         == Sent(Message(2, 1, Assistant, AssistantText(c)), 1)
  {
  }

  /** Deletion keeps the store valid and the remaining rows in order. */
  lemma DeleteKeepsValid(t: Tables, k: Option<int>)
    requires Valid(t)
    ensures Valid(Delete(t, k))
  {
    FilterNumbered(t.sessions, OtherSession(k), SessionKey, t.nextSessionId);
    FilterNumbered(t.messages, OutsideSession(k), MessageKey, t.nextMessageId);
  }

  /** Deleting an id that no session and no message carries changes nothing;
      neither does deleting `NaN`. */
  lemma DeleteUnknownIsNoop(t: Tables, k: Option<int>)
    requires k.None? || ((forall s :: s in t.sessions ==> Some(s.id) != k)
                         && (forall m :: m in t.messages ==> Some(m.sessionId) != k))
    ensures Delete(t, k) == t
  {
    FilterKeepsAll(t.sessions, OtherSession(k));
    FilterKeepsAll(t.messages, OutsideSession(k));
  }

  /** After deleting session `k`, listing its messages yields nothing and the
      session list no longer holds it. */
  lemma DeleteThenList(t: Tables, k: int)
    ensures MessagesOf(Delete(t, Some(k)), Some(k)) == []
    ensures forall s :: s in Delete(t, Some(k)).sessions ==> s.id != k
  {
    FilterNone(Delete(t, Some(k)).messages, InSession(Some(k)));
  }
}
