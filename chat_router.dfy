/**
 * The chat routes (routers/chat_router/router.py): the chat page, which lists
 * a signed-in user's stored messages, and the WebSocket endpoint, which runs
 * the chat turns and keeps the registry of open connections.
 *
 * The message table is a per-user sequence of records in the order they were
 * saved; the order in which the table hands them back is a parameter
 * (`Reorder`), required only to return every stored record exactly once.
 * A connection is the sequence of client messages it receives before the
 * client disconnects, and the sequence of texts it sends back.
 */
module ChatRouter {
  import opened Wrappers
  import opened Text
  import opened Services
  import opened Agent

  /** A row of the message table: its `content` and `role` columns. */
  datatype Record = Record(content: string, role: string)

  /** The role the endpoint stores with each reply of the model. */
  const AgentRole: string := "Agent"

  /** The order in which `MessageModel.filter(user=…)` hands back a user's records. */
  type Reorder = seq<Record> -> seq<Record>

  /** The query returns every stored record exactly once, in some order (it has no `order_by`). */
  ghost predicate ReturnsAll(order: Reorder) {
    forall s :: multiset(order(s)) == multiset(s)
  }

  /** The records stored under a username; none when the name has no entry. */
  function StoredFor(store: map<string, seq<Record>>, name: string): seq<Record> {
    if name in store then store[name] else []
  }

  /** `[(item.role, item.content) for item in …]`: the history handed to the agent. */
  function Pairs(records: seq<Record>): (h: seq<(string, string)>)
    ensures |h| == |records|
  {
    seq(|records|, i requires 0 <= i < |records| => (records[i].role, records[i].content))
  }

  /** Every record of a history has a role the agent's conversion accepts. */
  predicate AllKnown(records: seq<Record>) {
    forall i :: 0 <= i < |records| ==> KnownRole(records[i].role)
  }

  // ----- chat_page -----

  /** One entry of `message_data` (its `created_at` text is not modelled). */
  datatype MessageView = MessageView(user: string, content: string, role: string)

  /** The context the chat template receives. */
  datatype ChatView = ChatView(username: string, messages: seq<MessageView>)

  /** `message_data`: one entry per fetched record, in the order fetched. */
  function MessageData(user: User, fetched: seq<Record>): (views: seq<MessageView>)
    ensures |views| == |fetched|
  {
    seq(|fetched|, i requires 0 <= i < |fetched| => MessageView(user.username, fetched[i].content, fetched[i].role))
  }

  /**
   * `chat_page`. A missing cookie, or one without the bearer prefix, is refused
   * with 401 before anything is looked up. A token the validator turns into a
   * redirect, or a name with no user, reaches `get_chat_history` with no user,
   * whose error message reads `None.username` and raises `AttributeError`.
   */
  function ChatPage(cookie: Option<string>, decode: Decoder, users: map<string, User>,
                    store: map<string, seq<Record>>, order: Reorder): (r: Result<ChatView, Raised>)
    ensures r == Err(Http(NotAuthenticated)) <==> cookie.None? || !BearerCookie(cookie.value)
    ensures r.Ok? <==>
              cookie.Some? && BearerCookie(cookie.value) &&
              ValidationTokenFromCookie(Some(StripBearer(cookie.value)), decode).Username? &&
              ValidationTokenFromCookie(Some(StripBearer(cookie.value)), decode).name in users
    ensures r.Ok? ==>
              ValidationTokenFromCookie(Some(StripBearer(cookie.value)), decode) == Username(r.value.username)
    ensures r.Ok? ==>
              var fetched := order(StoredFor(store, r.value.username));
              |r.value.messages| == |fetched| &&
              forall i :: 0 <= i < |fetched| ==>
                r.value.messages[i] == MessageView(users[r.value.username].username, fetched[i].content, fetched[i].role)
    ensures r.Err? ==> r.error in {Http(NotAuthenticated), AttributeError}
  {
    if cookie.None? || !BearerCookie(cookie.value) then Err(Http(NotAuthenticated))
    else
      match ValidationTokenFromCookie(Some(StripBearer(cookie.value)), decode)
      case Redirect(_) => Err(AttributeError)
      case Username(name) =>
        if name in users then Ok(ChatView(name, MessageData(users[name], order(StoredFor(store, name)))))
        else Err(AttributeError)
  }

  // ----- the chat turn protocol -----

  /** What a chat turn depends on besides the tables: settings, role description, model and the table's order. */
  datatype Env = Env(settings: Settings, rolePrompt: string, invoke: Invoke, order: Reorder)

  /**
   * The reply of one turn: a fresh `MainAgent` answers the user's records, as the
   * table hands them back after the client's message was saved.
   */
  function TurnReply(stored: seq<Record>, env: Env): (r: Result<string, AgentError>)
    ensures var fetched := env.order(stored);
            (r.Ok? <==> forall i :: 0 <= i < |fetched| ==> KnownRole(fetched[i].role)) &&
            (r.Ok? ==> r.value == env.invoke(NewMainAgent(env.settings).model,
                                             PromptMessages(env.rolePrompt, Pairs(fetched)).value))
    ensures r.Ok? ==>
              var fetched := env.order(stored);
              var prompt := PromptMessages(env.rolePrompt, Pairs(fetched)).value;
              |prompt| == |fetched| + 1 && prompt[0] == Message(System, env.rolePrompt) &&
              forall i :: 0 <= i < |fetched| ==>
                prompt[i + 1].content == fetched[i].content &&
                RoleKind(Lower(fetched[i].role)) == Some(prompt[i + 1].kind)
  {
    var fetched := env.order(stored);
    assert forall i :: 0 <= i < |fetched| ==> Pairs(fetched)[i] == (fetched[i].role, fetched[i].content);
    GenerateResponse(NewMainAgent(env.settings), env.rolePrompt, Pairs(fetched), env.invoke)
  }

  /** With a table that returns every record, a turn is answered exactly when every stored role is known. */
  lemma TurnReplyOk(stored: seq<Record>, env: Env)
    requires ReturnsAll(env.order)
    ensures TurnReply(stored, env).Ok? <==> AllKnown(stored)
  {
    var fetched := env.order(stored);
    assert multiset(fetched) == multiset(stored);
    if AllKnown(stored) {
      forall i | 0 <= i < |fetched| ensures KnownRole(Pairs(fetched)[i].0) {
        assert fetched[i] in multiset(stored);
      }
    } else {
      var k :| 0 <= k < |stored| && !KnownRole(stored[k].role);
      assert stored[k] in multiset(fetched);
      var j :| 0 <= j < |fetched| && fetched[j] == stored[k];
      assert !KnownRole(Pairs(fetched)[j].0);
    }
  }

  /** The answer a turn gets for the user's records once the client's message is stored. */
  type Responder = seq<Record> -> Result<string, AgentError>

  /** The endpoint's responder: `TurnReply` under the given environment. */
  function Responds(env: Env): Responder {
    stored => TurnReply(stored, env)
  }

  /** A responder that answers exactly the histories whose roles are all known. */
  ghost predicate AnswersKnown(respond: Responder) {
    forall stored :: respond(stored).Ok? <==> AllKnown(stored)
  }

  /** With a table that returns every record, the endpoint answers exactly the all-known histories. */
  lemma RespondsAnswersKnown(env: Env)
    requires ReturnsAll(env.order)
    ensures AnswersKnown(Responds(env))
  {
    forall stored ensures Responds(env)(stored).Ok? <==> AllKnown(stored) {
      TurnReplyOk(stored, env);
    }
  }

  /** What a connection leaves behind: the user's records, the texts sent, and the error that ended it, if any. */
  datatype Session = Session(history: seq<Record>, sent: seq<string>, failure: Option<AgentError>)

  /** The sent texts so far followed by those of the rest of a session. */
  function SentBefore(sent: seq<string>, s: Session): Session {
    Session(s.history, sent + s.sent, s.failure)
  }

  /**
   * The turns of `websocket_endpoint`: each client message is stored, the agent
   * answers the stored history, the answer is stored under the role `"Agent"` and
   * sent. An error from the agent ends the connection after the client's message
   * was stored.
   */
  function Converse(stored: seq<Record>, inbox: seq<Record>, respond: Responder): (s: Session)
    ensures stored <= s.history
    ensures s.failure.Some? ==> inbox != []
    decreases |inbox|
  {
    if inbox == [] then Session(stored, [], None)
    else
      var withMessage := stored + [inbox[0]];
      match respond(withMessage)
      case Err(e) => Session(withMessage, [], Some(e))
      case Ok(reply) =>
        var rest := Converse(withMessage + [Record(reply, AgentRole)], inbox[1..], respond);
        Session(rest.history, [reply] + rest.sent, rest.failure)
  }

  /**
   * The size of a connection's transcript: two records per completed turn, one
   * more for a failed turn, stored records kept as a prefix; every message is
   * answered unless a turn failed.
   */
  lemma {:induction false} ConverseShape(stored: seq<Record>, inbox: seq<Record>, respond: Responder)
    ensures var s := Converse(stored, inbox, respond);
            (s.failure.None? ==> |s.sent| == |inbox|) &&
            (s.failure.Some? ==> |s.sent| < |inbox|) &&
            |s.history| == |stored| + 2 * |s.sent| + (if s.failure.Some? then 1 else 0) &&
            stored <= s.history
    decreases |inbox|
  {
    if inbox != [] {
      var withMessage := stored + [inbox[0]];
      if respond(withMessage).Ok? {
        var next := withMessage + [Record(respond(withMessage).value, AgentRole)];
        ConverseShape(next, inbox[1..], respond);
        assert stored <= next;
      }
    }
  }

  /** Turn `i` of `Converse`, for a connection that still has messages `inbox[i..]` to receive. */
  lemma ConverseStep(stored: seq<Record>, inbox: seq<Record>, i: nat, respond: Responder)
    requires i < |inbox|
    ensures var withMessage := stored + [inbox[i]];
            respond(withMessage).Err? ==>
              Converse(stored, inbox[i..], respond) ==
              Session(withMessage, [], Some(respond(withMessage).error))
    ensures var withMessage := stored + [inbox[i]];
            respond(withMessage).Ok? ==>
              var reply := respond(withMessage).value;
              Converse(stored, inbox[i..], respond) ==
              SentBefore([reply], Converse(withMessage + [Record(reply, AgentRole)], inbox[i + 1..], respond))
  {
    assert inbox[i..][0] == inbox[i] && inbox[i..][1..] == inbox[i + 1..];
  }

  /**
   * Running turn `i` of a connection: once its reply is sent, what remains of the
   * connection is the rest of the messages, from the records the turn left behind.
   */
  lemma ConverseAdvance(whole: Session, sent: seq<string>, stored: seq<Record>, inbox: seq<Record>,
                        i: nat, respond: Responder)
    requires i < |inbox|
    requires whole == SentBefore(sent, Converse(stored, inbox[i..], respond))
    ensures var withMessage := stored + [inbox[i]];
            respond(withMessage).Err? ==>
              whole == Session(withMessage, sent, Some(respond(withMessage).error))
    ensures var withMessage := stored + [inbox[i]];
            respond(withMessage).Ok? ==>
              var reply := respond(withMessage).value;
              whole == SentBefore(sent + [reply],
                                  Converse(withMessage + [Record(reply, AgentRole)], inbox[i + 1..], respond))
  {
    ConverseStep(stored, inbox, i, respond);
    var withMessage := stored + [inbox[i]];
    if respond(withMessage).Ok? {
      var reply := respond(withMessage).value;
      var rest := Converse(withMessage + [Record(reply, AgentRole)], inbox[i + 1..], respond);
      assert sent + ([reply] + rest.sent) == (sent + [reply]) + rest.sent;
    }
  }

  /**
   * Turn `i` of a connection: it appended the client's `i`-th message and then
   * the reply, in that order, and the text sent is the reply stored.
   */
  lemma {:induction false} ConverseTurn(stored: seq<Record>, inbox: seq<Record>, respond: Responder, i: nat)
    requires i < |Converse(stored, inbox, respond).sent|
    ensures var s := Converse(stored, inbox, respond);
            i < |inbox| && |stored| + 2 * i + 1 < |s.history| &&
            s.history[|stored| + 2 * i] == inbox[i] &&
            s.history[|stored| + 2 * i + 1] == Record(s.sent[i], AgentRole)
    decreases |inbox|
  {
    var withMessage := stored + [inbox[0]];
    var reply := respond(withMessage).value;
    var next := withMessage + [Record(reply, AgentRole)];
    var rest := Converse(next, inbox[1..], respond);
    ConverseShape(next, inbox[1..], respond);
    if i == 0 {
      assert next <= rest.history;
      assert rest.history[|stored|] == next[|stored|];
      assert rest.history[|stored| + 1] == next[|stored| + 1];
    } else {
      ConverseTurn(next, inbox[1..], respond, i - 1);
      assert |stored| + 2 * i == |next| + 2 * (i - 1);
    }
  }

  /** A failed connection's last stored record is the client message the agent could not answer. */
  lemma {:induction false} ConverseFailureLast(stored: seq<Record>, inbox: seq<Record>, respond: Responder)
    requires Converse(stored, inbox, respond).failure.Some?
    ensures var s := Converse(stored, inbox, respond);
            |s.sent| < |inbox| && |s.history| > 0 && s.history[|s.history| - 1] == inbox[|s.sent|]
    decreases |inbox|
  {
    var withMessage := stored + [inbox[0]];
    if respond(withMessage).Ok? {
      var next := withMessage + [Record(respond(withMessage).value, AgentRole)];
      ConverseFailureLast(next, inbox[1..], respond);
    }
    ConverseShape(stored, inbox, respond);
  }

  /** The reply stored with the role `"Agent"` never makes a later turn fail. */
  lemma AgentReplyKeepsHistoryKnown(stored: seq<Record>, reply: string)
    requires AllKnown(stored)
    ensures AllKnown(stored + [Record(reply, AgentRole)])
  {
    AgentRoleKnown();
  }

  /** Inserting a record of known role into a history leaves it all-known exactly when it was before. */
  lemma KnownInsert(front: seq<Record>, r: Record, back: seq<Record>)
    requires KnownRole(r.role)
    ensures AllKnown(front + [r] + back) <==> AllKnown(front + back)
  {
    var long, short := front + [r] + back, front + back;
    if AllKnown(short) {
      forall i | 0 <= i < |long| ensures KnownRole(long[i].role) {
        if i < |front| {
          assert long[i] == short[i];
        } else if i > |front| {
          assert long[i] == short[i - 1];
        }
      }
    }
    if AllKnown(long) {
      forall i | 0 <= i < |short| ensures KnownRole(short[i].role) {
        if i < |front| {
          assert short[i] == long[i];
        } else {
          assert short[i] == long[i + 1];
        }
      }
    }
  }

  /**
   * With a responder that answers exactly the all-known histories, a connection
   * runs all its turns exactly when it receives nothing, or every stored and every
   * received record has a known role.
   */
  lemma {:induction false} ConverseCompletes(stored: seq<Record>, inbox: seq<Record>, respond: Responder)
    requires AnswersKnown(respond)
    ensures Converse(stored, inbox, respond).failure.None? <==> inbox == [] || AllKnown(stored + inbox)
    decreases |inbox|
  {
    if inbox != [] {
      var withMessage := stored + [inbox[0]];
      assert stored + inbox == withMessage + inbox[1..];
      if respond(withMessage).Ok? {
        var agentRecord := Record(respond(withMessage).value, AgentRole);
        ConverseCompletes(withMessage + [agentRecord], inbox[1..], respond);
        AgentRoleKnown();
        KnownInsert(withMessage, agentRecord, inbox[1..]);
        assert inbox[1..] == [] ==> stored + inbox == withMessage;
      } else {
        var k :| 0 <= k < |withMessage| && !KnownRole(withMessage[k].role);
        assert (stored + inbox)[k] == withMessage[k];
      }
    }
  }

  /**
   * A stored record with an unknown role poisons the user's history: every later
   * connection of the endpoint fails on its first message, sends nothing, and
   * stores only that message.
   */
  lemma PoisonedHistory(stored: seq<Record>, inbox: seq<Record>, env: Env)
    requires ReturnsAll(env.order)
    requires !AllKnown(stored)
    requires inbox != []
    ensures Converse(stored, inbox, Responds(env)).failure.Some?
    ensures Converse(stored, inbox, Responds(env)).history == stored + [inbox[0]]
    ensures Converse(stored, inbox, Responds(env)).sent == []
  {
    TurnReplyOk(stored + [inbox[0]], env);
    var k :| 0 <= k < |stored| && !KnownRole(stored[k].role);
    assert (stored + [inbox[0]])[k] == stored[k];
    assert Responds(env)(stored + [inbox[0]]) == TurnReply(stored + [inbox[0]], env);
  }

  // ----- websocket_endpoint -----

  /** The identity of an open WebSocket. */
  type Socket = nat

  /** A header whose (lower-cased) name is `cookie`. */
  predicate IsCookie(header: (string, string)) {
    header.0 == "cookie"
  }

  /** The position of the last `cookie` header, if any. */
  function LastCookie(headers: seq<(string, string)>): (r: Option<nat>)
    ensures r.None? <==> forall i :: 0 <= i < |headers| ==> !IsCookie(headers[i])
    ensures r.Some? ==> r.value < |headers| && IsCookie(headers[r.value]) &&
                        forall j :: r.value < j < |headers| ==> !IsCookie(headers[j])
  {
    if headers == [] then None
    else if IsCookie(headers[|headers| - 1]) then Some(|headers| - 1)
    else LastCookie(headers[..|headers| - 1])
  }

  /** `dict(scope["headers"]).get(b"cookie")`: the last `cookie` header wins. */
  function CookieHeader(headers: seq<(string, string)>): (r: Option<string>)
    ensures r.None? <==> forall i :: 0 <= i < |headers| ==> !IsCookie(headers[i])
    ensures r.Some? ==>
              exists i :: 0 <= i < |headers| && headers[i] == ("cookie", r.value) &&
                          forall j :: i < j < |headers| ==> !IsCookie(headers[j])
  {
    match LastCookie(headers)
    case None => None
    case Some(i) => Some(headers[i].1)
  }

  /** The 401 the endpoint raises itself when the extracted token is empty. */
  const WsNotAuthenticated: HttpError := HttpError(401, "Not authenticated", true)

  /** Lines 70-79 of `websocket_endpoint`: the user a connection authenticates as, before `accept`. */
  function Authenticate(headers: seq<(string, string)>, decode: Decoder, users: map<string, User>)
    : (r: Result<User, Raised>)
    ensures GetTokenFromCookieWs(CookieHeader(headers)).Err? ==>
              r == Err(GetTokenFromCookieWs(CookieHeader(headers)).error)
    ensures r == Err(Http(WsNotAuthenticated)) <==> GetTokenFromCookieWs(CookieHeader(headers)) == Ok("")
    ensures r.Ok? ==>
              var token := GetTokenFromCookieWs(CookieHeader(headers));
              token.Ok? && token.value != "" && GetCurrentUser(token.value, decode, users) == Ok(r.value)
    ensures var token := GetTokenFromCookieWs(CookieHeader(headers));
            token.Ok? && token.value != "" ==>
              var current := GetCurrentUser(token.value, decode, users);
              (r.Ok? <==> current.Ok?) && (r.Err? ==> r.error == Http(current.error))
    ensures r.Ok? && KeyedByName(users) ==>
              decode(GetTokenFromCookieWs(CookieHeader(headers)).value) == Claims(Some(r.value.username))
  {
    match GetTokenFromCookieWs(CookieHeader(headers))
    case Err(e) => Err(e)
    case Ok(token) =>
      if token == "" then Err(Http(WsNotAuthenticated))
      else
        match GetCurrentUser(token, decode, users)
        case Err(e) => Err(Http(e))
        case Ok(user) => Ok(user)
  }

  /** How a connection ends. */
  datatype Close =
    | Rejected(raised: Raised)                                // raised before `accept`
    | Closed(username: string, failure: Option<AgentError>)   // disconnect, or an agent error

  /**
   * Overriding a user's entry twice leaves the second value: `RunTurns` uses it to
   * fold the two saves of a turn into one update of the table.
   */
  lemma OverrideTwice(store: map<string, seq<Record>>, name: string, first: seq<Record>, second: seq<Record>)
    ensures store[name := first][name := second] == store[name := second]
  {
  }

  /** The module state of the chat router together with the message table. */
  class ChatServer {
    /** `user_connections`: the open socket of each connected username. */
    var connections: map<string, Socket>
    /** The message table: each user's records, in the order they were saved. */
    var store: map<string, seq<Record>>

    constructor (store0: map<string, seq<Record>>)
      ensures connections == map[] && store == store0
    {
      connections := map[];
      store := store0;
    }

    /** The records stored for a username. */
    function Stored(name: string): seq<Record>
      reads this
    {
      StoredFor(store, name)
    }

    /** `save_message_to_db`: the record is appended to the user's records; nothing else changes. */
    method SaveMessage(name: string, message: Record)
      modifies this`store
      ensures store == old(store)[name := old(Stored(name)) + [message]]
    {
      store := store[name := Stored(name) + [message]];
    }

    /** `user_connections[name] = socket`: replaces any earlier socket of that name. */
    method Register(name: string, socket: Socket)
      modifies this`connections
      ensures connections == old(connections)[name := socket]
    {
      connections := connections[name := socket];
    }

    /** `user_connections.pop(name, None)`: removes the name whichever socket it holds; no error when absent. */
    method Unregister(name: string)
      modifies this`connections
      ensures connections == old(connections) - {name}
    {
      connections := connections - {name};
    }

    /**
     * One pass of the endpoint's loop for a received message: store it, hand the
     * user's records as the table returns them to a fresh agent, and store its
     * reply under the role `"Agent"`.
     */
    method Turn(name: string, message: Record, env: Env) returns (reply: Result<string, AgentError>)
      modifies this`store
      ensures reply == Responds(env)(old(Stored(name)) + [message])
      ensures reply.Err? ==> store == old(store)[name := old(Stored(name)) + [message]]
      ensures reply.Ok? ==>
                store == old(store)[name := old(Stored(name)) + [message] + [Record(reply.value, AgentRole)]]
    {
      SaveMessage(name, message);
      var history := Pairs(env.order(Stored(name)));
      var agent := NewMainAgent(env.settings);
      reply := GenerateResponse(agent, env.rolePrompt, history, env.invoke);
      if reply.Ok? {
        SaveMessage(name, Record(reply.value, AgentRole));
      }
    }

    /**
     * The loop of `websocket_endpoint`: a turn per received message, until the
     * client disconnects or the agent fails. The registry is not touched.
     */
    method RunTurns(name: string, inbox: seq<Record>, env: Env)
      returns (failure: Option<AgentError>, sent: seq<string>)
      modifies this`store
      ensures var s := Converse(old(Stored(name)), inbox, Responds(env));
              failure == s.failure && sent == s.sent &&
              (inbox == [] ==> store == old(store)) &&
              (inbox != [] ==> store == old(store)[name := s.history])
    {
      ghost var respond := Responds(env);
      ghost var whole := Converse(Stored(name), inbox, respond);
      ghost var cur := Stored(name);
      sent := [];
      var i := 0;
      while i < |inbox|
        invariant 0 <= i <= |inbox|
        invariant cur == Stored(name)
        invariant i == 0 ==> store == old(store)
        invariant i > 0 ==> store == old(store)[name := cur]
        invariant whole == SentBefore(sent, Converse(cur, inbox[i..], respond))
      {
        ConverseAdvance(whole, sent, cur, inbox, i, respond);
        ghost var before := store;
        var reply := Turn(name, inbox[i], env);
        ghost var after := if reply.Ok? then cur + [inbox[i]] + [Record(reply.value, AgentRole)]
                           else cur + [inbox[i]];
        assert store == before[name := after];
        OverrideTwice(old(store), name, cur, after);
        if reply.Err? {
          failure := Some(reply.error);
          return;
        }
        cur := after;
        sent := sent + [reply.value];
        i := i + 1;
      }
      assert inbox[i..] == [];
      failure := None;
    }

    /**
     * The part of `websocket_endpoint` after `accept`, for an authenticated user:
     * register the socket, run the turns, and unregister the name when the client
     * disconnects. An agent error ends the connection with the socket still registered.
     */
    method Serve(name: string, socket: Socket, inbox: seq<Record>, env: Env)
      returns (failure: Option<AgentError>, sent: seq<string>)
      modifies this
      ensures var s := Converse(old(Stored(name)), inbox, Responds(env));
              failure == s.failure && sent == s.sent &&
              (inbox == [] ==> store == old(store)) &&
              (inbox != [] ==> store == old(store)[name := s.history])
      ensures connections == if failure.None? then old(connections) - {name}
                             else old(connections)[name := socket]
    {
      Register(name, socket);
      failure, sent := RunTurns(name, inbox, env);
      if failure.None? {
        Unregister(name);
      }
    }

    /**
     * `websocket_endpoint` for one connection that receives `inbox` and then
     * disconnects. A connection rejected before `accept` changes nothing; an
     * accepted one is served under the authenticated user's name.
     */
    method WebSocketEndpoint(socket: Socket, headers: seq<(string, string)>, decode: Decoder,
                             users: map<string, User>, inbox: seq<Record>, env: Env)
      returns (close: Close, sent: seq<string>)
      modifies this
      ensures close.Rejected? <==> Authenticate(headers, decode, users).Err?
      ensures close.Rejected? ==>
                close.raised == Authenticate(headers, decode, users).error && sent == [] &&
                connections == old(connections) && store == old(store)
      ensures close.Closed? ==>
                var name := Authenticate(headers, decode, users).value.username;
                var s := Converse(old(Stored(name)), inbox, Responds(env));
                close == Closed(name, s.failure) && sent == s.sent &&
                (inbox == [] ==> store == old(store)) &&
                (inbox != [] ==> store == old(store)[name := s.history]) &&
                connections == (if s.failure.None? then old(connections) - {name}
                                else old(connections)[name := socket])
    {
      var auth := Authenticate(headers, decode, users);
      if auth.Err? {
        close, sent := Rejected(auth.error), [];
        return;
      }
      var name := auth.value.username;
      var failure;
      failure, sent := Serve(name, socket, inbox, env);
      close := Closed(name, failure);
    }
  }
}
