/** A node of the distributed layer (pkg/distributed/node.go). The agent
    client is replaced by the events the node asks it to publish (`Notice`)
    and by the outcome of the one publish whose failure the node acts on;
    agents run through a `run` parameter. */
module Nodes {
  import opened Wrappers
  import opened Types

  datatype NodeConfig = NodeConfig(id: string, address: string, clusterAddr: string, tags: seq<string>)

  datatype NodeStatus = StatusUnknown | StatusHealthy | StatusOverloaded | StatusUnhealthy

  /** The integer Go gives each status (`iota` order). */
  function StatusCode(s: NodeStatus): (c: int)
    ensures 0 <= c <= 3
    ensures s == StatusHealthy ==> c == 1
  {
    match s
    case StatusUnknown => 0
    case StatusHealthy => 1
    case StatusOverloaded => 2
    case StatusUnhealthy => 3
  }

  /** Reads a reported integer back as a status. */
  function StatusOfCode(c: int): Option<NodeStatus>
  {
    if c == 0 then Some(StatusUnknown)
    else if c == 1 then Some(StatusHealthy)
    else if c == 2 then Some(StatusOverloaded)
    else if c == 3 then Some(StatusUnhealthy)
    else None
  }

  /** A reported status reads back as itself, and an integer reads back as a
      status only when it is that status's code; so distinct statuses are
      reported as distinct integers. */
  lemma StatusCodeRoundTrip(s: NodeStatus, c: int)
    ensures StatusOfCode(StatusCode(s)) == Some(s)
    ensures StatusOfCode(c) == Some(s) <==> c == StatusCode(s)
  {
  }

  /** An event handed to the agent client for publishing. */
  datatype Notice = Notice(eventType: string, payload: string, metadata: map<string, string>)

  /** What `GetStatus` reports (`types.NodeStatus`). */
  datatype NodeStatusReport = NodeStatusReport(id: string, address: string, load: int, capacity: int,
                                               status: int, lastPing: int, agentCount: int)

  /** The capacity every node is created with. */
  const DefaultCapacity: int := 100

  /** `float64(load)/float64(capacity) > 0.8`, by cross-multiplication. */
  predicate Overloaded(load: int, capacity: int)
  {
    10 * load > 8 * capacity
  }

  /** The cross-multiplied test is the ratio test on exact rationals. */
  lemma OverloadedIsRatioAboveEightTenths(load: int, capacity: int)
    requires capacity > 0
    ensures Overloaded(load, capacity) <==> (load as real) / (capacity as real) > 0.8
  {
    var c := capacity as real;
    var q := (load as real) / c;
    assert q * c == load as real;
    assert (q - 0.8) * c == load as real - 0.8 * c;
    if q > 0.8 {
      PositiveProduct(q - 0.8, c);
    } else {
      PositiveProduct(0.8 - q, c);
    }
  }

  lemma PositiveProduct(x: real, c: real)
    requires x >= 0.0 && c > 0.0
    ensures x * c >= 0.0
    ensures x > 0.0 ==> x * c > 0.0
  {
  }

  /** The metadata of every node event about an agent. */
  function AgentMeta(agentId: string, nodeId: string): map<string, string>
  {
    map["agent_id" := agentId, "node_id" := nodeId]
  }

  class Node {
    const config: NodeConfig
    const capacity: int
    var agents: map<string, AgentRef>
    var load: int
    var status: NodeStatus
    var lastPing: int

    ghost predicate Valid()
      reads this
    {
      capacity > 0 && 0 <= load <= capacity
    }

    /** `NewNode`, once its agent client exists. */
    constructor (config: NodeConfig, now: int)
      ensures this.config == config && capacity == DefaultCapacity && load == 0
      ensures status == StatusHealthy && agents == map[] && lastPing == now
      ensures Valid()
    {
      this.config := config;
      capacity := DefaultCapacity;
      agents := map[];
      load := 0;
      status := StatusHealthy;
      lastPing := now;
    }

    /** `RegisterAgent(a)`: refused at capacity; otherwise the agent is mapped
        under its name and the load goes up by one, even when the name was
        already taken, and the result is the announcement's publish outcome. */
    method RegisterAgent(a: AgentRef, publish: Outcome) returns (r: Outcome, notice: Option<Notice>)
      requires Valid()
      modifies this
      ensures Valid()
      ensures old(load) >= capacity ==>
        r == Fail(Error("node is at capacity")) && notice == None
        && agents == old(agents) && load == old(load)
      ensures old(load) < capacity ==>
        agents == old(agents)[a.name := a] && load == old(load) + 1 && r == publish
        && notice == Some(Notice("agent_registered", "Agent " + a.name + " registered on node " + config.id,
                                 AgentMeta(a.name, config.id)))
      ensures status == old(status) && lastPing == old(lastPing)
    {
      if load >= capacity {
        return Fail(Error("node is at capacity")), None;
      }
      agents := agents[a.name := a];
      load := load + 1;
      notice := Some(Notice("agent_registered", "Agent " + a.name + " registered on node " + config.id,
                            AgentMeta(a.name, config.id)));
      r := publish;
    }

    /** `ExecuteTask(agentID, task)`: looks the agent up, publishes the start
        event (`startPublish` is its outcome), runs the agent, and publishes
        the completion or the error, whose outcome is ignored. */
    method ExecuteTask(agentId: string, task: string, startPublish: Outcome, run: (AgentRef, string) -> Result<string>)
      returns (r: Result<string>, notices: seq<Notice>)
      ensures agentId !in agents ==> r == Err(Error("agent not found: " + agentId)) && notices == []
      ensures agentId in agents ==>
        (|notices| >= 1 && notices[0] == Notice("task_start", "Starting task on agent " + agentId, AgentMeta(agentId, config.id)))
      ensures agentId in agents && startPublish.Fail? ==>
        r == Err(Wrapped("failed to publish start event", startPublish.error)) && |notices| == 1
      ensures agentId in agents && startPublish.Pass? ==>
        var out := run(agents[agentId], task);
        |notices| == 2
        && (out.Err? ==>
              (r == Err(Wrapped("task execution failed", out.error))
               && notices[1] == Notice("task_error", "Task failed on agent " + agentId + ": " + Message(out.error),
                                       AgentMeta(agentId, config.id))))
        && (out.Ok? ==>
              (r == out
               && notices[1] == Notice("task_complete", "Task completed on agent " + agentId, AgentMeta(agentId, config.id))))
      ensures r.Ok? <==> agentId in agents && startPublish.Pass? && run(agents[agentId], task).Ok?
    {
      if agentId !in agents {
        return Err(Error("agent not found: " + agentId)), [];
      }
      var agent := agents[agentId];
      var meta := AgentMeta(agentId, config.id);
      notices := [Notice("task_start", "Starting task on agent " + agentId, meta)];
      if startPublish.Fail? {
        return Err(Wrapped("failed to publish start event", startPublish.error)), notices;
      }
      var out := run(agent, task);
      if out.Err? {
        notices := notices + [Notice("task_error", "Task failed on agent " + agentId + ": " + Message(out.error), meta)];
        return Err(Wrapped("task execution failed", out.error)), notices;
      }
      notices := notices + [Notice("task_complete", "Task completed on agent " + agentId, meta)];
      r := out;
    }

    /** `GetStatus`. */
    method GetStatus() returns (report: NodeStatusReport)
      ensures report.id == config.id && report.address == config.address
      ensures report.load == load && report.capacity == capacity && report.lastPing == lastPing
      ensures report.status == StatusCode(status) && report.agentCount == |agents|
      ensures StatusOfCode(report.status) == Some(status)
    {
      StatusCodeRoundTrip(status, StatusCode(status));
      report := NodeStatusReport(config.id, config.address, load, capacity, StatusCode(status), lastPing, |agents|);
    }

    /** `UpdateStatus` at time `now`. */
    method UpdateStatus(now: int)
      requires Valid()
      modifies this
      ensures Valid() && lastPing == now
      ensures status == if Overloaded(load, capacity) then StatusOverloaded else StatusHealthy
      ensures agents == old(agents) && load == old(load)
    {
      lastPing := now;
      if Overloaded(load, capacity) {
        status := StatusOverloaded;
      } else {
        status := StatusHealthy;
      }
    }
  }

  /** Registering the same name twice raises the load by two but maps the name
      once: the load counts registrations, not distinct agents. */
  method RegisterTwice(n: Node, a: AgentRef)
    requires n.Valid() && n.load + 2 <= n.capacity && a.name !in n.agents
    modifies n
    ensures n.load == old(n.load) + 2
    ensures |n.agents| == |old(n.agents)| + 1
  {
    var _, _ := n.RegisterAgent(a, Pass);
    var _, _ := n.RegisterAgent(a, Pass);
    assert n.agents == old(n.agents)[a.name := a];
  }
}
