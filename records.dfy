/**
 * The records kept in the two JSON documents of the chat application:
 * conversations (chat id -> title, history, creation time) and agents
 * (agent id -> name, system instruction, creation time).
 */
module Records {

  type ChatId = string
  type AgentId = string

  /** One history entry, `{"role": ..., "parts": ...}`. The role is kept as the stored
      string: the application writes "user" and "model", but any string may come back
      from the document. */
  datatype Turn = Turn(role: string, parts: string)

  datatype Conversation = Conversation(title: string, history: seq<Turn>, createdAt: string)

  datatype Agent = Agent(name: string, instruction: string, createdAt: string)

  /** Role strings the application writes. */
  const UserRole: string := "user"
  const ModelRole: string := "model"

  /** The reserved, undeletable agent id. */
  const DefaultAgentId: AgentId := "default"
  /** Name of the agent in a freshly created registry. */
  const DefaultAgentName: string := "Padrão"
  /** Name given to a new agent when the request has no 'name'. */
  const NewAgentName: string := "Novo Agente"
  /** Title of a freshly created conversation. */
  const NewChatTitle: string := "Nova Conversa"

  /** A conversation as `new_chat` installs it. */
  function EmptyConversation(createdAt: string): Conversation {
    Conversation(NewChatTitle, [], createdAt)
  }

  /** The registry written when no agents document exists: only the default agent,
      with an empty instruction. */
  function DefaultRegistry(createdAt: string): (agents: map<AgentId, Agent>)
    ensures agents.Keys == {DefaultAgentId}
    ensures agents[DefaultAgentId] == Agent(DefaultAgentName, "", createdAt)
  {
    map[DefaultAgentId := Agent(DefaultAgentName, "", createdAt)]
  }
}
