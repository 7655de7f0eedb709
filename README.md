# Chat front-end core, modelled in Dafny

The application is a small Flask front-end for a generative chat model. Its logic sits
in the request handlers of `app.py`. They work on two dictionaries, each rewritten in
full on every change:

- the conversation store, which maps a chat id to a title, a history of turns and a
  creation time;
- the agent registry, which maps an agent id to a name, a system instruction and a
  creation time.

A "current chat" pointer lives in the caller's session. Sending a message does four
things in order:

1. it resolves the agent, falling back to `'default'`;
2. it builds a request: a single `System:` / `Human:` / `Assistant:` transcript when
   there is no image, or a short list of contents (the instruction, the message and the
   image, with no history) when there is one;
3. it asks the model for a reply;
4. it appends the user turn and the model turn, and on the first send it derives the
   title from the message.

Modules:

- `Records` (records.dfy): turns, conversations, agents, the fixed names ("Nova Conversa",
  "Novo Agente", "Padrão", `'default'`) and the registry written at first start.
- `Titles` (titles.dfy): the 30-character title rule.
- `KeyOrder` (key_order.dfy): the insertion order of the store's keys after a deletion.
  `delete_chat` moves the pointer to `next(iter(conversations))`, so the order matters.
- `AgentLookup` (agents.dfy): `agents.get(agent_id, agents['default'])`. The fallback is
  evaluated eagerly, so the lookup fails when `'default'` is missing, even for a
  registered id.
- `Transcript` (transcript.dfy): the text prompt. It has a specification function, and a
  loop method proved against it.
- `ImagePayload` (image_payload.dfy): `str.split(',')` with its round trips, and
  `split(',')[1]`, the text between the first comma and the next one.
- `Requests` (requests.dfy): what a send submits in each branch.
- `ChatServer` (server.dfy): the `Server` class. It holds the store, the key order, the
  pointer and the registry, and has one method per handler. It also holds the pure
  pieces of a send (`Prepare`, `RecordExchange`) that the methods are proved against.

Parameters and effects:

- Ids and timestamps are parameters.
- The model call is a parameter `provider: Request -> ProviderResult`. Since it is any
  function, it can return any reply or any failure.
- A failed send leaves the store as it was. This is how the source behaves, because it
  saves only after the reply is recorded.

Behaviour of app.py worth stating plainly:

- A title is the message's first 30 characters plus `...`, or the whole message when it
  has at most 30 characters.
- A new chat is titled "Nova Conversa".
- Turns carry only a role and text; there is no image flag.
- The image branch sends no history.
- Deleting `'default'` answers 404.
- With no `'default'` agent in the registry, every send that has an active chat fails
  (500), even for a registered agent id; the no-active-chat check (400) comes first.

## Model

| member | source | states |
|---|---|---|
| Records.DefaultRegistry | app.py:46-53 | the registry written when none exists holds exactly the `'default'` agent, named "Padrão", with an empty instruction |
| Titles.DeriveTitle | app.py:250 | the title has at most 33 characters; a message of at most 30 characters is the title; a longer one keeps exactly its first 30 characters, followed by "..." |
| Titles.TitleStartsWithMessage | app.py:250 | the title always begins with the message's first min(30, length) characters |
| Titles.DeriveTitleIdempotent | app.py:250 | deriving a title from a derived title gives the same title |
| Titles.TitleIsMessageIff | app.py:250 | the title equals the message iff the message has at most 30 characters, or has 33 and already ends its 30-character prefix with "..." |
| KeyOrder.RemoveKey | app.py:143 | after `del`, the remaining keys are exactly the old ones minus the deleted one, with no duplicates; an absent key changes nothing |
| KeyOrder.RemoveKeyAt | app.py:143 | deleting the key at position i removes that position only; all other keys keep their relative order |
| KeyOrder.RemoveKeyFirst | app.py:145-146 | the first remaining key is the second old key if the deleted key came first; otherwise it is the old first key |
| AgentLookup.ResolveAgent | app.py:204-206 | lookup fails iff `'default'` is missing; otherwise it gives the requested agent if registered, else the default agent |
| AgentLookup.ResolveAgentTotal | app.py:205 | a registry holding `'default'` resolves every id to one of its agents |
| AgentLookup.FreshRegistryResolves | app.py:46-53 | in a fresh registry every id resolves to the default agent, whose instruction is empty |
| Transcript.BuildTranscript | app.py:224-234 | the string built by appending is the system block, then one line per history turn in order, then `"Human: " + msg + "\nAssistant:"` |
| Transcript.HistoryTextAppend | app.py:229-231 | the lines of a concatenated history are the concatenation of the lines of its parts |
| Transcript.HistoryTextSnoc | app.py:229-231 | one more turn adds exactly its line: `"Human: "` for role "user", `"Assistant: "` for any other role, then the parts and a newline |
| Transcript.BareTranscript | app.py:224-234 | with no instruction and no history the transcript is exactly `"Human: " + msg + "\nAssistant:"` |
| Transcript.TranscriptStartsWithSystem | app.py:225-226 | a non-empty instruction puts `"System: " + instr + "\n\n"` first; an empty one adds nothing |
| Transcript.NextTranscriptExtends | app.py:229-246 | after a send answered by a reply, the next transcript is the sent one completed by `" " + reply + "\n"`, followed by the new question |
| ImagePayload.Split | app.py:216 | `split(',')` gives at least one piece, and no piece contains a comma |
| ImagePayload.JoinSplit | app.py:216 | joining the pieces with commas gives back the string |
| ImagePayload.SplitJoin | app.py:216 | splitting a join of comma-free pieces gives back the pieces |
| ImagePayload.SplitFirst | app.py:216 | the first piece runs up to the first comma; the later pieces are the split of the text after it |
| ImagePayload.Payload | app.py:216 | `split(',')[1]` exists iff the string has a comma; it is the text after the first comma, up to the next comma or the end |
| Requests.RequestFor | app.py:208-236 | without an image the request is the transcript; with an image it is the instruction if non-empty, then the message, then the payload, with nothing from the history; it is absent iff the image has no comma |
| Requests.ImageRequestIgnoresHistory | app.py:209-221 | a request with an image is the same whatever the history |
| ChatServer.RecordExchange | app.py:238-252 | appends exactly the user turn, then the model turn; the earlier turns and the creation time are unchanged; the title is derived only when the history was empty, and kept otherwise |
| ChatServer.TitleSetOnce | app.py:248-250 | after two sends the title is the one set by the first send |
| ChatServer.RecordExchangeAlternates | app.py:238-246 | a history of alternating user/model turns stays alternating after a send |
| ChatServer.Prepare | app.py:195-221 | the four failures before the model call, each iff its condition, in the handler's order: no active chat, chat missing, `'default'` missing, image without a comma; otherwise the request for the resolved agent and the current chat |
| ChatServer.BuildRequest | app.py:208-236 | the request built step by step is `RequestFor` of the agent's instruction, the history, the message and the image |
| ChatServer.AppendExchange | app.py:238-252 | the two appends and the `len(history) == 2` title test give `RecordExchange` of the chat |
| ChatServer.Server.constructor | app.py:46-72 | a first start has no conversations (the absent file loads as `{}`, lines 68-72), no current chat and the default registry (lines 46-53) |
| ChatServer.Server.NewChat | app.py:105-116 | installs `{"Nova Conversa", [], created_at}` at the id (a reused id keeps its place in the order) and points the pointer to it |
| ChatServer.Server.SwitchChat | app.py:118-127 | returns the history and moves the pointer iff the id is stored; otherwise nothing changes |
| ChatServer.Server.RenameChat | app.py:129-137 | changes only that chat's title iff the id is stored; otherwise nothing changes |
| ChatServer.Server.DeleteChat | app.py:139-148 | removes exactly that key; if it was current, the pointer moves to the first remaining key or None; otherwise it stays; an unknown id changes nothing |
| ChatServer.Server.NewAgent | app.py:154-165 | stores the agent with the given name, or "Novo Agente", and the given instruction, or ""; `'default'` survives |
| ChatServer.Server.EditAgent | app.py:167-176 | for a registered id only that agent changes: each field takes the supplied value or keeps its own, and the creation time stays; an unknown id changes nothing |
| ChatServer.Server.DeleteAgent | app.py:178-185 | succeeds iff the id is registered and is not `'default'`; then it removes exactly that key, and otherwise nothing changes; `'default'` is never removed |
| ChatServer.Server.SendMessage | app.py:187-266 | with no active chat the answer is 400; any failure, before or at the model call, leaves the store unchanged; a reply replaces only the current chat, by `RecordExchange`, and returns its new history; the pointer and the registry are never changed |
| ChatServer.TwoSendsScenario | app.py:238-254 | two answered sends to a new chat: the title comes from the first message, and the history holds the four turns in order |

## Left out

- Flask routing, `render_template`, `jsonify` and status codes: results are the
  `Outcome`, `Option` and `SendResult` datatypes. A `NoActiveChat` failure is the 400
  answer, and every other send failure is a 500.
- Session cookies: the current-chat pointer is the `current` field.
- JSON files (app.py:41-76): loading, saving, `mkdir` and creating a missing file are
  not modelled. Each handler acts on in-memory maps, so the lost update between two
  concurrent requests is not modelled either.
- `datetime.now()`: ids and timestamps are parameters. An id created twice in the same
  second is an ordinary map update.
- The Gemini SDK call, base64 decoding and PIL image opening (app.py:217-221, 236):
  these are library and network calls. They are folded into the `provider` parameter;
  a decode failure is one of its failures.
- Error texts (`str(e)`) other than the provider's text are not modelled. The fixed
  fallback message of the 500 answer is not modelled either.
- `home` (app.py:82-103): when the store is empty, it installs a "Nova Conversa" chat
  under a timestamp id, saves the store and sets the session pointer to it, as
  `new_chat` does; it then renders the page. This store write and pointer update are
  not modelled. As a consequence, a model `Server` has no chat until `NewChat` runs,
  while the application creates one on the first page load.
- The agents page (app.py:150-152), `test_static` (app.py:268-274), `.env` loading and
  `print` diagnostics are all I/O.
- `ChatServer.Server.RenameChat`: takes the title as a string. A request without a
  `title` field stores JSON null in the source; the model does not cover that case.
- JSON values of the wrong type are not modelled: a `null` or a number where a string
  is expected, a body that is not JSON, or a stored chat without `history` (which
  `send_message` reads as `[]` and `switch_chat` fails on). Request fields are either absent (`None`) or strings.
- String lengths: Python counts code points, and the model's `char` is a Unicode scalar
  value. The two agree except for lone surrogates, which are not modelled.
