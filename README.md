# WebChat core in Dafny

A model of the request-handling core of WebChat. WebChat is a FastAPI chat application in which a signed-in user talks to an LLM agent over a WebSocket. Every message and every reply is stored in the database.

The model covers four parts of that core:

- **Token handling** (`routers/services.py`):
  - extracting the bearer token from a WebSocket `cookie` header;
  - classifying what the JWT library says about a token, as a username or a redirect to the sign-in page;
  - looking up the current user, or raising 401.
- **The agent** (`agent/main_agent.py`):
  - choosing Ollama or OpenAI from the settings;
  - converting a stored `(role, content)` history into LangChain messages, with roles matched case-insensitively and an unknown role as an error;
  - building the prompt, which is the role description followed by the history, and returning the model's answer.
- **The chat routes** (`routers/chat_router/router.py`):
  - the chat page, which lists the signed-in user's stored messages;
  - the WebSocket endpoint, with its registry of open connections (`user_connections`) and its turn protocol. In each turn the client's message is stored, then the agent answers the user's whole stored history, then the reply is stored under the role `"Agent"` and sent.
- **The main page** (`routers/main_page_router/router.py`): the bearer-cookie gate, whose catch-all handler turns every failure into a 500.

Several things are parameters of the model, because they are not part of the core:

- JWT decoding is a `Decoder`. It maps a token to its claims, to "expired", or to "invalid".
- The chat model is an `Invoke` function that maps a model and a message list to the answer's content.
- The order in which the message table hands back a user's records is a `Reorder`. It is required only to return every record exactly once, since the query has no `order_by`.

The modules follow the source:

| module | contents |
|---|---|
| `Wrappers` | `Option` and `Result` |
| `Text` | the Python string operations the routers use |
| `Services` | token handling |
| `Agent` | the agent |
| `ChatRouter` | `chat_page` as a function; the endpoint as the class `ChatServer`, whose `connections` and `store` fields are updated in place by its methods |
| `MainPageRouter` | the main page route |

The endpoint's loop (`ChatServer.RunTurns`) is proved against the function `Converse`. `Converse` states what a whole connection does to the user's records, to the texts sent and to the failure that ended it. The lemmas about `Converse` prove the following:

- the two-records-per-turn layout;
- the extra record left after a failed turn;
- exactly when a connection completes;
- that one stored record with an unknown role makes every later connection of that user fail on its first message.

## Model

| member | source | states |
|---|---|---|
| Text.StripBearer | routers/chat_router/router.py:38 | the token cut from a bearer cookie is what follows the `"Bearer "` prefix: prefix + token gives the cookie back |
| Text.Split | routers/services.py:27 | `split("=")` gives at least one piece; exactly one piece iff the text has no `=`; no piece contains `=` |
| Text.JoinSplit | routers/services.py:27 | joining the pieces of a split with the separator gives back the original text |
| Text.Remove | routers/services.py:27 | `replace('"', "")` leaves no `"`, does not lengthen the text, is the identity on text without `"`, and keeps the count of every other character |
| Text.Lower | agent/main_agent.py:65 | `lower()` keeps the length |
| Text.LowerCase | agent/main_agent.py:65 | the lowered text differs from the original only in ASCII letter case, position by position, and holds no capital letter |
| Text.LowerEqual | agent/main_agent.py:65 | two texts lower to the same text iff they differ only in ASCII letter case |
| Services.CookieCandidate | routers/services.py:26-27 | the candidate token is missing (IndexError) iff the header has no `=`; a candidate holds no `"` and no `=` |
| Services.CookieCandidateBetween | routers/services.py:27 | the candidate is the text between the first and second `=`, with every `"` deleted |
| Services.GetTokenFromCookieWs | routers/services.py:24-40 | 400 "Token not found" iff the header is missing or empty; IndexError iff a non-empty header has no `=`; 400 "Invalid token format" iff the candidate lacks the `Bearer ` prefix; success iff the candidate has that prefix, and then the candidate is `Bearer ` + token, with no `"` and no `=` in the token |
| Services.AcceptedCandidate | routers/services.py:28-29 | a candidate made of `Bearer ` and a token yields exactly that token |
| Services.CookieRoundTrip | routers/services.py:24-29 | the header `<name>="Bearer <t>"` yields exactly `t` when the name and `t` hold no `=` and `t` no `"` |
| Services.AccessTokenRoundTrip | routers/user_router/router.py:87-89 | the `access_token` cookie set at sign-in is read back by the WebSocket extractor as the same token when it is the only cookie in the header |
| Services.SecondPiece | routers/services.py:27 | the candidate of `<a>=<b>=<rest>` is `b` with its quotes deleted, when `a` and `b` hold no `=` |
| Services.AccessTokenNotFirst | routers/services.py:27-35 | with another cookie before it (`a=1; access_token="Bearer t"`), the header is refused with 400 "Invalid token format" |
| Services.AccessTokenNotLast | routers/services.py:27-29 | with another cookie after it (`access_token="Bearer t"; b=2`), the token read is `t; b`, not `t` |
| Services.Subject | routers/services.py:61-62 | the subject is present iff decoding succeeded and `sub` is present and non-empty, and then it is that `sub` |
| Services.ValidationTokenFromCookie | routers/services.py:43-66 | a missing or empty token redirects with "Token is missing"; a JWT error redirects with "Invalid token"; missing or empty `sub` redirects with "Invalid credentials"; a username is returned iff the claims carry a non-empty `sub`, and it is that `sub` |
| Services.GetCurrentUser | routers/services.py:69-107 | 401 "Token expired" iff the token is expired; every other failure (other JWT errors, a missing or empty `sub`, an unknown user) is 401 "Could not validate credentials" with the Bearer challenge; success iff the `sub` names a stored user, which is then returned |
| Agent.RoleKind | agent/main_agent.py:58-62 | the table has exactly the keys `user`, `agent` and `system`, mapped to the human, AI and system message kinds |
| Agent.MessagesToPrompt | agent/main_agent.py:44-69 | succeeds iff every role, lower-cased, is `user`, `agent` or `system`; then it gives one message per entry in order, with the same content and the kind the role names; otherwise the error names the first unknown role, lower-cased |
| Agent.RolesCaseInsensitive | agent/main_agent.py:65 | histories whose roles differ only in letter case (and whose contents agree) convert identically |
| Agent.KnownRoleAnyCase | agent/main_agent.py:58-65 | a role is accepted iff it is `user`, `agent` or `system` up to letter case |
| Agent.AgentRoleKnown | agent/main_agent.py:58-62 | the role `"Agent"` used for stored replies maps to an AI message |
| Agent.NewMainAgent | agent/main_agent.py:18-28 | the model is Ollama (model and URL from the settings) iff `LLM_NAME == "ollama"`, otherwise OpenAI (model name and key from the settings) |
| Agent.PromptMessages | agent/main_agent.py:87-90 | the prompt is the role description as a system message followed by exactly the converted history (kinds and contents, shifted by one); it fails exactly when the conversion does, with the same error |
| Agent.GenerateResponse | agent/main_agent.py:87-95 | answers iff every role is known, and the answer is the model's content for the prompt messages unchanged; otherwise the conversion's error |
| ChatRouter.Pairs | routers/chat_router/router.py:90-93 | the history has one `(role, content)` pair per fetched record |
| ChatRouter.MessageData | routers/chat_router/router.py:43-51 | one template entry per fetched record |
| ChatRouter.ChatPage | routers/chat_router/router.py:34-56 | 401 iff the cookie is missing or lacks the bearer prefix; the page renders iff the validator yields a username of a stored user; the page shows that username and one entry per record the table returns, in that order, with the record's content and role; every other outcome is AttributeError |
| ChatRouter.TurnReply | routers/chat_router/router.py:90-98 | a turn is answered iff every record the table returns has a known role; the answer is the model's reply to a prompt made of the role description as a system message followed by one message per fetched record, in order, carrying that record's content and the kind its role names |
| ChatRouter.TurnReplyOk | routers/chat_router/router.py:88-98 | a turn is answered iff every stored record of the user has a known role, whatever order the table returns them in |
| ChatRouter.RespondsAnswersKnown | routers/chat_router/router.py:90-98 | the endpoint's responder answers exactly the histories whose roles are all known |
| ChatRouter.Converse | routers/chat_router/router.py:84-103 | the loop as a whole connection: the stored records are kept as a prefix of the final history, and a failure needs at least one received message |
| ChatRouter.ConverseShape | routers/chat_router/router.py:84-103 | every received message is answered unless a turn fails, and a failure leaves fewer replies than messages; the records grow by two per completed turn plus one for a failed turn; earlier records are kept as a prefix |
| ChatRouter.ConverseStep | routers/chat_router/router.py:88-103 | one turn: an agent error ends the connection with the client's message stored and nothing sent; otherwise the reply is sent and the rest of the connection continues from the history with message and reply appended |
| ChatRouter.ConverseAdvance | routers/chat_router/router.py:84-103 | the loop's step: after sending turn i's reply, the connection's outcome is the texts sent so far followed by the outcome of the remaining messages |
| ChatRouter.ConverseTurn | routers/chat_router/router.py:88-103 | turn i stores the client's i-th message and then the reply, in that order, and the text sent is the reply stored |
| ChatRouter.ConverseFailureLast | routers/chat_router/router.py:88-98 | after a failed turn, the last stored record is the client message the agent could not answer |
| ChatRouter.AgentReplyKeepsHistoryKnown | routers/chat_router/router.py:100-101 | storing a reply under the role `"Agent"` keeps an all-known history all-known |
| ChatRouter.KnownInsert | routers/chat_router/router.py:100-101 | inserting a record of known role does not change whether a history is all-known |
| ChatRouter.ConverseCompletes | routers/chat_router/router.py:84-103 | a connection runs all its turns iff it receives nothing, or every stored and every received record has a known role |
| ChatRouter.PoisonedHistory | routers/chat_router/router.py:88-98 | a stored record with an unknown role makes every later connection fail on its first message: nothing is sent, and only that message is stored |
| ChatRouter.LastCookie | routers/chat_router/router.py:70 | finds no position iff no header is named `cookie`; otherwise the position found is a `cookie` header with none after it |
| ChatRouter.CookieHeader | routers/chat_router/router.py:70-71 | the `cookie` value is missing iff no header has that name; otherwise it is the value of the last such header |
| ChatRouter.Authenticate | routers/chat_router/router.py:70-79 | the extractor's errors pass through unchanged (400 or IndexError); an empty token gives 401 with the Bearer challenge; for a non-empty token it succeeds iff `get_current_user` does, passing its 401 on unchanged; on success the user is the one `get_current_user` returns, and its name is the token's `sub` |
| ChatRouter.ChatServer.constructor | routers/chat_router/router.py:20 | the registry starts empty |
| ChatRouter.ChatServer.SaveMessage | routers/chat_router/router.py:88 | the record is appended to the user's records, and nothing else in the table changes |
| ChatRouter.ChatServer.Register | routers/chat_router/router.py:82 | the name now maps to the socket, replacing any earlier one; other entries are unchanged |
| ChatRouter.ChatServer.Unregister | routers/chat_router/router.py:105-106 | the name is removed whatever socket it held; absent names are no error |
| ChatRouter.ChatServer.Turn | routers/chat_router/router.py:88-103 | the reply is the agent's answer to the user's records with the message appended; the table gains the message, and the reply too when there is one |
| ChatRouter.ChatServer.RunTurns | routers/chat_router/router.py:84-103 | the loop's failure, sent texts and final table are exactly those of `Converse` for the user's stored records and the received messages |
| ChatRouter.ChatServer.Serve | routers/chat_router/router.py:82-106 | as `RunTurns`; afterwards the name is unregistered after a clean disconnect, and stays registered to this socket after an agent error |
| ChatRouter.ChatServer.WebSocketEndpoint | routers/chat_router/router.py:59-106 | rejected iff authentication fails, with its error and nothing changed; otherwise the turns run under the authenticated name, with the table and registry as `Serve` states |
| MainPageRouter.CookieOrEmpty | routers/main_page_router/router.py:25 | the cookie read is empty iff it is missing or empty, and otherwise is the cookie's value |
| MainPageRouter.IndexTry | routers/main_page_router/router.py:24-33 | raises 401 iff the cookie is missing or lacks the bearer prefix; otherwise gives the validator's answer for the stripped token |
| MainPageRouter.Index | routers/main_page_router/router.py:24-36 | fails iff the cookie is missing or lacks the bearer prefix, and then always with 500; when it renders, the `username` is exactly what the validator returned |
| MainPageRouter.MissingCookieIs500 | routers/main_page_router/router.py:25-28 | a missing or empty cookie raises 401 inside the handler, and the handler answers 500 |
| MainPageRouter.NeverUnauthorized | routers/main_page_router/router.py:34-36 | the handler fails exactly when its `try` block raised, always with 500, never with 401 |
| MainPageRouter.InvalidTokenStillRenders | routers/main_page_router/router.py:30-33 | a bearer cookie whose token fails decoding still renders the main page, with the "Invalid token" redirect handed to the template as the username |

## Left out

- JWT signing and verification, and bcrypt password hashing: JWT decoding is the `Decoder` parameter. Token creation, sign-up and sign-in (`routers/user_router`) are not part of this model, apart from the cookie value the sign-in route sets.
- The database (Tortoise ORM): the message table is a map from username to records in saving order. The order a query returns them in is the `Reorder` parameter. The user table is a map keyed by username. Database exceptions are not modelled.
- The LLM call and the role-description file (`agent/agent_role.md`): the call is the `Invoke` parameter and the role text is a parameter. Exceptions raised by the model client are not modelled.
- `created_at` and its `strftime` formatting in the chat page's message entries: timestamps are not modelled.
- `json.loads` of a received frame and a frame without `content` or `role`: the received messages are already-decoded records.
- Services.GetTokenFromCookieWs: models the source's reading of the header, which splits the whole `Cookie` header at `=` rather than parsing cookies by name. A header carrying other cookies besides `access_token` is read as `AccessTokenNotFirst` and `AccessTokenNotLast` show, not as the single cookie would be.
- Decoding of the header bytes as UTF-8: headers are text, and a decode error is not modelled.
- Text.Lower: lowers ASCII letters only, not the full Unicode case mapping of Python's `str.lower()`.
- ChatRouter.ChatPage: a redirect object passed to `get_user` as a username is modelled as a lookup that finds no user. The call then fails with AttributeError in `get_chat_history`, whatever the ORM would do with the non-string argument.
- Concurrency: connections are served one at a time. Interleavings of several sockets of the same user are not modelled.
- Logging, template rendering and the HTML itself are not modelled; the pages are the values their templates receive.
- The WebSocket `accept`, `receive_text` and `send_text`: a connection is the sequence of messages it receives before a disconnect, and the texts it sends are an output.
