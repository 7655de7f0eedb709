/** Choosing the agent whose instruction a send uses. */
module AgentLookup {

  import opened Records
  import opened Wrappers

  /**
   * `agents.get(agent_id, agents['default'])`. Python evaluates the fallback first, so
   * the lookup fails (None, a KeyError) whenever the default agent is missing, even if
   * agent_id itself is registered.
   */
  function ResolveAgent(agents: map<AgentId, Agent>, agentId: AgentId): (r: Option<Agent>)
    ensures r.None? <==> DefaultAgentId !in agents
    ensures r.Some? && agentId in agents ==> r.value == agents[agentId]
    ensures r.Some? && agentId !in agents ==> r.value == agents[DefaultAgentId]
  {
    if DefaultAgentId !in agents then None
    else
      var fallback := agents[DefaultAgentId];
      Some(if agentId in agents then agents[agentId] else fallback)
  }

  /** Whatever registry holds the default agent resolves every id, and the result is
      one of the registered agents. */
  lemma ResolveAgentTotal(agents: map<AgentId, Agent>, agentId: AgentId)
    requires DefaultAgentId in agents
    ensures ResolveAgent(agents, agentId).Some?
    ensures ResolveAgent(agents, agentId).value in agents.Values
  {
  }

  /** In a freshly created registry every id resolves to the default agent, whose
      instruction is empty. */
  lemma FreshRegistryResolves(createdAt: string, agentId: AgentId)
    ensures ResolveAgent(DefaultRegistry(createdAt), agentId) == Some(Agent(DefaultAgentName, "", createdAt))
  {
  }
}
