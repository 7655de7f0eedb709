/**
 * The request handlers of the chat application over its in-memory state: the
 * conversation store (with the insertion order of its keys), the agent registry and
 * the current-chat pointer of the caller's session.
 */
module ChatServer {

  import opened Records
  import opened Wrappers
  import opened KeyOrder
  import opened Titles
  import opened AgentLookup
  import opened Transcript
  import opened ImagePayload
  import opened Requests

  /** What the generative model returns for one request: text, or an error with its
      message. Image decoding failures are reported the same way. */
  datatype ProviderResult = Generated(text: string) | ProviderError(detail: string)

  /** Why a send fails. NoActiveChat is answered with status 400, all others with 500. */
  datatype SendError =
    | NoActiveChat            // no current chat in the session
    | ChatMissing             // the current chat is not in the store
    | DefaultAgentMissing     // the registry has no 'default' agent
    | MalformedImage          // the image field has no comma
    | ProviderFailed(detail: string)

  /** The reply of a send: the model's text and the updated history, or an error. */
  datatype SendResult = Replied(response: string, history: seq<Turn>) | Failed(error: SendError)

  /** `{'success': True}` or `{'success': False}` with status 404. */
  datatype Outcome = Done | NotFound

  /** The session's pointer counts as set when present and non-empty (Python truthiness). */
  predicate IsActive(current: Option<ChatId>) {
    current.Some? && current.value != ""
  }

  /**
   * The conversation after a successful send: the user turn and the model turn are
   * appended, and the title is derived from the message when these are the first two
   * turns (the source tests `len(history) == 2` after appending).
   */
  function RecordExchange(conv: Conversation, msg: string, reply: string): (c: Conversation)
    ensures c.createdAt == conv.createdAt
    ensures |c.history| == |conv.history| + 2
    ensures c.history[..|conv.history|] == conv.history
    ensures c.history[|conv.history|] == Turn(UserRole, msg)
    ensures c.history[|conv.history| + 1] == Turn(ModelRole, reply)
    ensures conv.history == [] ==> c.title == DeriveTitle(msg)
    ensures conv.history != [] ==> c.title == conv.title
  {
    var history := conv.history + [Turn(UserRole, msg), Turn(ModelRole, reply)];
    conv.(history := history, title := if |history| == 2 then DeriveTitle(msg) else conv.title)
  }

  /** The title is set on the first send only: a second send keeps it. */
  lemma TitleSetOnce(conv: Conversation, m1: string, r1: string, m2: string, r2: string)
    ensures var once := RecordExchange(conv, m1, r1);
      RecordExchange(once, m2, r2).title == once.title &&
      once.title == (if conv.history == [] then DeriveTitle(m1) else conv.title)
  {
  }

  /** Every history recorded from a new conversation alternates user and model turns,
      starting with a user turn. */
  ghost predicate Alternating(history: seq<Turn>) {
    |history| % 2 == 0 &&
    forall i :: 0 <= i < |history| ==> history[i].role == if i % 2 == 0 then UserRole else ModelRole
  }

  lemma RecordExchangeAlternates(conv: Conversation, msg: string, reply: string)
    requires Alternating(conv.history)
    ensures Alternating(RecordExchange(conv, msg, reply).history)
  {
    var c := RecordExchange(conv, msg, reply);
    var n := |conv.history|;
    forall i | 0 <= i < |c.history|
      ensures c.history[i].role == if i % 2 == 0 then UserRole else ModelRole
    {
      if i < n {
        assert c.history[i] == c.history[..n][i];
      }
    }
  }

  /** What a send has found before the model is called. */
  datatype Prepared = Prepared(chatId: ChatId, request: Request)

  /**
   * The part of a send that runs before the model is called, with its failures in the
   * order the handler meets them: no active chat, the chat missing from the store, the
   * default agent missing, an image without a comma.
   */
  function Prepare(chats: map<ChatId, Conversation>, current: Option<ChatId>, agents: map<AgentId, Agent>,
                   msg: string, image: Option<string>, agentId: AgentId): (r: Result<Prepared, SendError>)
    ensures r.Err? ==> !r.error.ProviderFailed?
    ensures r == Err(NoActiveChat) <==> !IsActive(current)
    ensures r == Err(ChatMissing) <==> IsActive(current) && current.value !in chats
    ensures r == Err(DefaultAgentMissing) <==>
      IsActive(current) && current.value in chats && DefaultAgentId !in agents
    ensures r == Err(MalformedImage) <==>
      IsActive(current) && current.value in chats && DefaultAgentId in agents &&
      HasImage(image) && Comma !in image.value
    ensures r.Ok? ==>
      current == Some(r.value.chatId) && r.value.chatId in chats && DefaultAgentId in agents &&
      RequestFor(ResolveAgent(agents, agentId).value.instruction, chats[r.value.chatId].history, msg, image)
        == Some(r.value.request)
  {
    if !IsActive(current) then Err(NoActiveChat)
    else if current.value !in chats then Err(ChatMissing)
    else
      match ResolveAgent(agents, agentId)
      case None => Err(DefaultAgentMissing)
      case Some(agent) =>
        match RequestFor(agent.instruction, chats[current.value].history, msg, image)
        case None => Err(MalformedImage)
        case Some(request) => Ok(Prepared(current.value, request))
  }

  /** Builds what the handler submits: for an image, the list of contents (the
      instruction when non-empty, the message, the payload); otherwise the transcript. */
  method BuildRequest(instruction: string, history: seq<Turn>, msg: string, image: Option<string>)
    returns (request: Option<Request>)
    ensures request == RequestFor(instruction, history, msg, image)
  {
    if HasImage(image) {
      var parts: seq<Part> := [];
      if instruction != "" {
        parts := parts + [TextPart(instruction)];
      }
      parts := parts + [TextPart(msg)];
      var b64 := Payload(image.value);
      if b64.None? {
        return None;
      }
      parts := parts + [ImagePart(b64.value)];
      assert parts == InstructionParts(instruction) + [TextPart(msg), ImagePart(b64.value)];
      return Some(ContentRequest(parts));
    } else {
      var prompt := BuildTranscript(instruction, history, msg);
      return Some(TextRequest(prompt));
    }
  }

  /** Appends the user turn and the model turn to the chat's history, then sets the
      title when the history has just these two turns. */
  method AppendExchange(chat: Conversation, msg: string, reply: string) returns (c: Conversation)
    ensures c == RecordExchange(chat, msg, reply)
  {
    var history := chat.history;
    history := history + [Turn(UserRole, msg)];
    history := history + [Turn(ModelRole, reply)];
    c := chat;
    if |history| == 2 {
      c := c.(title := DeriveTitle(msg));
    }
    c := c.(history := history);
  }

  class Server {
    /** Conversation ids in the insertion order of the store's dict. */
    var chatOrder: seq<ChatId>
    var chats: map<ChatId, Conversation>
    /** The session's `current_chat_id`; it may name a chat that is not in the store. */
    var current: Option<ChatId>
    var agents: map<AgentId, Agent>

    ghost predicate Valid()
      reads this
    {
      Distinct(chatOrder) && (forall id :: id in chatOrder <==> id in chats)
    }

    /** A first start: no conversations, no current chat, only the default agent. */
    constructor (createdAt: string)
      ensures Valid()
      ensures chatOrder == [] && chats == map[] && current == None
      ensures agents == DefaultRegistry(createdAt)
    {
      chatOrder := [];
      chats := map[];
      current := None;
      agents := DefaultRegistry(createdAt);
    }

    /** `new_chat`: installs an empty conversation at chatId (replacing one created in the
        same second, which keeps its place) and makes it current. */
    method NewChat(chatId: ChatId, createdAt: string)
      requires Valid()
      modifies this`chats, this`chatOrder, this`current
      ensures Valid()
      ensures chats == old(chats)[chatId := Conversation(NewChatTitle, [], createdAt)]
      ensures chatOrder == if chatId in old(chats) then old(chatOrder) else old(chatOrder) + [chatId]
      ensures current == Some(chatId)
    {
      if chatId !in chats {
        chatOrder := chatOrder + [chatId];
      }
      chats := chats[chatId := EmptyConversation(createdAt)];
      current := Some(chatId);
    }

    /** `switch_chat`: makes a stored chat current and returns its history. */
    method SwitchChat(chatId: ChatId) returns (r: Option<seq<Turn>>)
      requires Valid()
      modifies this`current
      ensures r.Some? <==> chatId in chats
      ensures r.Some? ==> r.value == chats[chatId].history && current == Some(chatId)
      ensures r.None? ==> current == old(current)
    {
      if chatId in chats {
        current := Some(chatId);
        return Some(chats[chatId].history);
      }
      return None;
    }

    /** `rename_chat`: changes the title of a stored chat, and nothing else. */
    method RenameChat(chatId: ChatId, title: string) returns (r: Outcome)
      requires Valid()
      modifies this`chats
      ensures Valid()
      ensures r == Done <==> chatId in old(chats)
      ensures r == Done ==> chats == old(chats)[chatId := old(chats)[chatId].(title := title)]
      ensures r == NotFound ==> chats == old(chats)
    {
      if chatId in chats {
        chats := chats[chatId := chats[chatId].(title := title)];
        return Done;
      }
      return NotFound;
    }

    /** `delete_chat`: removes a stored chat; when it was current, the pointer moves to
        the first remaining chat in insertion order, or to None when none is left. */
    method DeleteChat(chatId: ChatId) returns (r: Outcome)
      requires Valid()
      modifies this`chats, this`chatOrder, this`current
      ensures Valid()
      ensures r == Done <==> chatId in old(chats)
      ensures r == Done ==>
        chats == old(chats) - {chatId} &&
        chatOrder == RemoveKey(old(chatOrder), chatId) &&
        current == if old(current) != Some(chatId) then old(current)
                   else if chatOrder == [] then None
                   else Some(chatOrder[0])
      ensures r == NotFound ==>
        chats == old(chats) && chatOrder == old(chatOrder) && current == old(current)
    {
      if chatId in chats {
        chats := chats - {chatId};
        chatOrder := RemoveKey(chatOrder, chatId);
        if current == Some(chatId) {
          current := if chatOrder != [] then Some(chatOrder[0]) else None;
        }
        return Done;
      }
      return NotFound;
    }

    /** `new_agent`: registers an agent under agentId; a missing name or instruction
        becomes "Novo Agente" or "". */
    method NewAgent(agentId: AgentId, name: Option<string>, instruction: Option<string>, createdAt: string)
      modifies this`agents
      ensures agents == old(agents)[agentId := Agent(name.GetOr(NewAgentName), instruction.GetOr(""), createdAt)]
      ensures DefaultAgentId in old(agents) ==> DefaultAgentId in agents
    {
      agents := agents[agentId := Agent(name.GetOr(NewAgentName), instruction.GetOr(""), createdAt)];
    }

    /** `edit_agent`: replaces the name and instruction given, keeps the others and the
        creation time, and touches no other agent. */
    method EditAgent(agentId: AgentId, name: Option<string>, instruction: Option<string>) returns (r: Outcome)
      modifies this`agents
      ensures r == Done <==> agentId in old(agents)
      ensures r == Done ==>
        var a := old(agents)[agentId];
        agents == old(agents)[agentId := Agent(name.GetOr(a.name), instruction.GetOr(a.instruction), a.createdAt)]
      ensures r == NotFound ==> agents == old(agents)
      ensures agents.Keys == old(agents).Keys
    {
      if agentId in agents {
        var a := agents[agentId];
        a := a.(name := name.GetOr(a.name));
        a := a.(instruction := instruction.GetOr(a.instruction));
        agents := agents[agentId := a];
        return Done;
      }
      return NotFound;
    }

    /** `delete_agent`: removes a registered agent other than 'default'. */
    method DeleteAgent(agentId: AgentId) returns (r: Outcome)
      modifies this`agents
      ensures r == Done <==> agentId in old(agents) && agentId != DefaultAgentId
      ensures r == Done ==> agents == old(agents) - {agentId}
      ensures r == NotFound ==> agents == old(agents)
      ensures DefaultAgentId in agents <==> DefaultAgentId in old(agents)
    {
      if agentId in agents && agentId != DefaultAgentId {
        agents := agents - {agentId};
        return Done;
      }
      return NotFound;
    }

    /**
     * `send_message`. A missing message is "", a missing agent id is 'default'. The
     * model is the `provider` parameter: any function from requests to results, so any
     * reply or failure. Only a reply changes the store, and only the current chat.
     */
    method SendMessage(message: Option<string>, image: Option<string>, agentId: Option<string>,
                       provider: Request -> ProviderResult) returns (r: SendResult)
      requires Valid()
      modifies this`chats
      ensures Valid()
      ensures r.Failed? ==> chats == old(chats)
      ensures r == Failed(NoActiveChat) <==> !IsActive(current)
      ensures var msg := message.GetOr("");
        match Prepare(old(chats), current, agents, msg, image, agentId.GetOr(DefaultAgentId))
        case Err(e) => r == Failed(e)
        case Ok(p) =>
          match provider(p.request)
          case ProviderError(detail) => r == Failed(ProviderFailed(detail))
          case Generated(text) =>
            chats == old(chats)[p.chatId := RecordExchange(old(chats)[p.chatId], msg, text)] &&
            r == Replied(text, chats[p.chatId].history)
    {
      var msg := message.GetOr("");
      var agentKey := agentId.GetOr(DefaultAgentId);
      if !IsActive(current) {
        return Failed(NoActiveChat);
      }
      var chatId := current.value;
      if chatId !in chats {
        return Failed(ChatMissing);
      }
      var chat := chats[chatId];
      if DefaultAgentId !in agents {
        return Failed(DefaultAgentMissing);
      }
      var agent := if agentKey in agents then agents[agentKey] else agents[DefaultAgentId];
      var request := BuildRequest(agent.instruction, chat.history, msg, image);
      if request.None? {
        return Failed(MalformedImage);
      }
      assert Prepare(chats, current, agents, msg, image, agentKey) == Ok(Prepared(chatId, request.value));
      var response := provider(request.value);
      if response.ProviderError? {
        return Failed(ProviderFailed(response.detail));
      }
      chat := AppendExchange(chat, msg, response.text);
      chats := chats[chatId := chat];
      r := Replied(response.text, chat.history);
    }
  }

  /**
   * Two sends to a new conversation, both answered: the title comes from the first
   * message and stays, and the history holds the four turns in order.
   */
  method TwoSendsScenario(chatId: ChatId, createdAt: string, m1: string, m2: string, reply: string)
    returns (title: string, history: seq<Turn>)
    requires chatId != ""
    ensures title == DeriveTitle(m1)
    ensures history == [Turn(UserRole, m1), Turn(ModelRole, reply), Turn(UserRole, m2), Turn(ModelRole, reply)]
  {
    var server := new Server(createdAt);
    server.NewChat(chatId, createdAt);
    var answer := (req: Request) => Generated(reply);
    var r1 := server.SendMessage(Some(m1), None, None, answer);
    var r2 := server.SendMessage(Some(m2), None, None, answer);
    title := server.chats[chatId].title;
    history := server.chats[chatId].history;
  }
}
