/** The handler itself: the module-level tables and counters become the
    fields of one store object, and each route is a method that updates them
    in place, proved against the transition functions of `Chat`. */
module Store {
  import opened Options
  import opened Chat
  import opened Routing

  /** The parts of an incoming request the handler reads: method, URL, the
      body's `content` and `sessionId` (0 when absent), and the `x-api-key`
      header. */
  datatype Request = Request(verb: string, url: Option<string>, content: string,
                             sessionId: int, apiKeyHeader: Option<string>)

  class ChatStore {
    var sessions: seq<Session>
    var messages: seq<Message>
    var nextSessionId: int
    var nextMessageId: int

    /** The current contents of the store as a value. */
    function Snapshot(): Tables
      reads this
    {
      Tables(sessions, messages, nextSessionId, nextMessageId)
    }

    ghost predicate Valid()
      reads this
    {
      Chat.Valid(Snapshot())
    }

    /** Process start: both tables empty, both counters at 1. */
    constructor ()
      ensures Valid() && Snapshot() == Initial
    {
      sessions, messages := [], [];
      nextSessionId, nextMessageId := 1, 1;
    }

    /** Opens a session titled after `content` under the next session id. */
    method OpenSession(content: string) returns (id: int)
      modifies this
      ensures id == old(nextSessionId) && nextSessionId == id + 1
      ensures sessions == old(sessions) + [Session(id, Title(content))]
      ensures messages == old(messages) && nextMessageId == old(nextMessageId)
    {
      id := nextSessionId;
      nextSessionId := nextSessionId + 1;
      sessions := sessions + [Session(id, Title(content))];
    }

    /** Stores a message under the next message id. */
    method StoreMessage(sessionId: int, role: Role, content: string) returns (m: Message)
      modifies this
      ensures m == Message(old(nextMessageId), sessionId, role, content)
      ensures messages == old(messages) + [m] && nextMessageId == old(nextMessageId) + 1
      ensures sessions == old(sessions) && nextSessionId == old(nextSessionId)
    {
      m := Message(nextMessageId, sessionId, role, content);
      nextMessageId := nextMessageId + 1;
      messages := messages + [m];
    }

    /** POST /api/chat/send. */
    method Send(content: string, sessionId: int, headerKey: Option<string>,
                envKey: Option<string>, reply: Completion)
      returns (resp: Response, prompt: Option<seq<Turn>>)
      requires Valid()
      modifies this
      ensures Valid()
      ensures var r := Chat.Send(old(Snapshot()), content, sessionId, headerKey, envKey, reply);
        Snapshot() == r.after && resp == r.response && prompt == r.prompt
    {
      ghost var r := Chat.Send(Snapshot(), content, sessionId, headerKey, envKey, reply);
      SendKeepsValid(Snapshot(), content, sessionId, headerKey, envKey, reply);
      var apiKey := ResolveKey(headerKey, envKey);
      if apiKey.None? {
        return KeyNotConfigured, None;
      }
      var current := sessionId;
      if current == 0 {
        current := OpenSession(content);
      }
      assert sessions == r.after.sessions && nextSessionId == r.after.nextSessionId;
      var user := StoreMessage(current, User, content);
      HistoryAppend(old(messages), user);
      prompt := Some([Instruction] + History(messages, current));
      assert prompt == r.prompt;
      match reply {
        case CallFailed(detail) =>
          resp := ServerError(detail);
          assert messages == r.after.messages && nextMessageId == r.after.nextMessageId;
        case Replied(c) =>
          var ai := StoreMessage(current, Assistant, AssistantText(c));
          resp := Sent(ai, current);
          assert messages == old(messages) + [user, ai];
          assert messages == r.after.messages && nextMessageId == r.after.nextMessageId;
      }
    }

    /** GET /api/chat/sessions: every session, in creation order. */
    method ListSessions() returns (resp: Response)
      requires Valid()
      ensures resp == SessionList(sessions)
      ensures Ascending(resp.sessions, SessionKey)
    {
      resp := SessionList(sessions);
    }

    /** GET /api/chat/sessions/:id: the messages of session `id`, in creation
        order; an id with no messages, or `NaN`, gives the empty list. */
    method ListMessages(id: Option<int>) returns (resp: Response)
      requires Valid()
      ensures resp.MessageList?
      ensures forall m :: m in resp.messages <==> m in messages && id == Some(m.sessionId)
      ensures Ascending(resp.messages, MessageKey)
      ensures resp == MessageList(MessagesOf(Snapshot(), id))
    {
      FilterAscending(messages, InSession(id), MessageKey);
      resp := MessageList(MessagesOf(Snapshot(), id));
    }

    /** DELETE /api/chat/sessions/:id: the session and all of its messages
        go; everything else stays, in order. */
    method DeleteSession(id: Option<int>) returns (resp: Response)
      requires Valid()
      modifies this
      ensures Valid()
      ensures Snapshot() == Delete(old(Snapshot()), id) && resp == Deleted
    {
      DeleteKeepsValid(Snapshot(), id);
      sessions := Filter(sessions, OtherSession(id));
      messages := Filter(messages, OutsideSession(id));
      resp := Deleted;
    }

    /** The handler: dispatch on method and path, then run the route. */
    method Handle(req: Request, envKey: Option<string>, reply: Completion)
      returns (resp: Response, prompt: Option<seq<Turn>>)
      requires Valid()
      modifies this
      ensures Valid()
      ensures var route := Dispatch(req.verb, req.url);
        && (route.SendMessage? ==>
              var r := Chat.Send(old(Snapshot()), req.content, req.sessionId, req.apiKeyHeader, envKey, reply);
              Snapshot() == r.after && resp == r.response && prompt == r.prompt)
        && (route.DeleteSession? ==> Snapshot() == Delete(old(Snapshot()), route.id) && resp == Deleted)
        && (!route.SendMessage? ==> prompt.None?)
        && (!route.SendMessage? && !route.DeleteSession? ==> Snapshot() == old(Snapshot()))
        && (route.Preflight? ==> resp == PreflightOk)
        && (route.ListSessions? ==> resp == SessionList(old(sessions)))
        && (route.ListMessages? ==> resp == MessageList(MessagesOf(old(Snapshot()), route.id)))
        && (route.NoRoute? ==> resp == NotFound)
        && (resp.Status() == 404 <==> route.NoRoute?)
        && (resp.Status() == 500 ==> route.SendMessage?)
    {
      prompt := None;
      match Dispatch(req.verb, req.url) {
        case Preflight =>
          resp := PreflightOk;
        case SendMessage =>
          resp, prompt := Send(req.content, req.sessionId, req.apiKeyHeader, envKey, reply);
        case ListSessions =>
          resp := ListSessions();
        case ListMessages(id) =>
          resp := ListMessages(id);
        case DeleteSession(id) =>
          resp := DeleteSession(id);
        case NoRoute =>
          resp := NotFound;
      }
    }
  }
}
