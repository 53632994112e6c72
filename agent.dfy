/** The minimal agent of pkg/agent/agent.go: a list of tools and the
    capabilities they advertise. */
module Agents {
  import opened Wrappers
  import opened Types

  /** The capability a tool adds to an agent. */
  function ToolCapability(t: Tool): Capability
  {
    Capability("tool", t.description)
  }

  class BaseAgent {
    var tools: seq<Tool>
    var capabilities: seq<Capability>

    /** Capabilities and tools correspond one to one, in order. */
    ghost predicate Valid()
      reads this
    {
      |tools| == |capabilities|
      && forall i | 0 <= i < |tools| :: capabilities[i] == ToolCapability(tools[i])
    }

    /** `NewBaseAgent`. */
    constructor ()
      ensures tools == [] && capabilities == [] && Valid()
    {
      tools := [];
      capabilities := [];
    }

    /** `AddTool(t)`: appends the tool and a capability named "tool" with its
        description, and never fails. */
    method AddTool(t: Tool) returns (r: Outcome)
      requires Valid()
      modifies this
      ensures Valid() && r == Pass
      ensures tools == old(tools) + [t] && capabilities == old(capabilities) + [ToolCapability(t)]
    {
      tools := tools + [t];
      capabilities := capabilities + [ToolCapability(t)];
      r := Pass;
    }

    /** `GetCapabilities`: one per tool, in the order the tools were added. */
    method GetCapabilities() returns (caps: seq<Capability>)
      requires Valid()
      ensures |caps| == |tools|
      ensures forall i | 0 <= i < |tools| :: caps[i] == Capability("tool", tools[i].description)
    {
      caps := capabilities;
    }
  }
}
