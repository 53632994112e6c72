/** The plain records shared across the coordination layer
    (pkg/types/types.go), reduced to the fields the core reads. */
module Types {

  /** A capability advertised by an agent or discovered from a tool registry. */
  datatype Capability = Capability(name: string, description: string)

  /** A tool as the core sees it: an identity and what `GetDescription` returns.
      What `Execute` does is supplied from outside. */
  datatype Tool = Tool(id: nat, description: string)

  /** A metadata value: Go's `interface{}`, of which the core only asks
      "is it a string?". */
  datatype MetaValue = Str(s: string) | NonString

  /** An embedding vector with its metadata. */
  datatype Vector = Vector(id: string, values: seq<real>, metadata: map<string, MetaValue>)

  /** What a task asks of the node that runs it (the CPU and memory minima are
      declared in the source but never consulted). */
  datatype TaskRequirements = TaskRequirements(agentId: string, tags: seq<string>)

  /** An agent as the coordination layer sees it: a name (what `GetName`
      returns) and an identity. What `Execute` does is supplied from outside. */
  datatype AgentRef = AgentRef(name: string, id: nat)
}
