/** The cluster of pkg/distributed/cluster.go: a registry of nodes, the
    choice of the least-loaded suitable node, and one tick of the heartbeat
    monitor. Load factors `load/capacity` are compared by cross-multiplication,
    and the cluster's own agent client is replaced as for nodes. */
module Clusters {
  import opened Wrappers
  import opened Types
  import opened Nodes

  /** Timings are in nanoseconds. */
  datatype ClusterConfig = ClusterConfig(address: string, heartbeatInterval: int, nodeTimeout: int)

  /** `l1/c1 <= l2/c2` for positive capacities, by cross-multiplication. */
  predicate FactorLe(l1: int, c1: int, l2: int, c2: int)
  {
    l1 * c2 <= l2 * c1
  }

  /** `l1/c1 < l2/c2` for positive capacities, by cross-multiplication. */
  predicate FactorLt(l1: int, c1: int, l2: int, c2: int)
  {
    l1 * c2 < l2 * c1
  }

  /** The cross-multiplied order is the order of the exact ratios. */
  lemma FactorLeIsRatioLe(l1: int, c1: int, l2: int, c2: int)
    requires c1 > 0 && c2 > 0
    ensures FactorLe(l1, c1, l2, c2) <==> (l1 as real) / (c1 as real) <= (l2 as real) / (c2 as real)
  {
    var x, y := (l1 as real) / (c1 as real), (l2 as real) / (c2 as real);
    assert x * (c1 as real) == l1 as real && y * (c2 as real) == l2 as real;
    assert (l2 * c1 - l1 * c2) as real == (y - x) * ((c1 * c2) as real);
    SignOfProduct(y - x, (c1 * c2) as real);
  }

  lemma SignOfProduct(x: real, p: real)
    requires p > 0.0
    ensures x * p >= 0.0 <==> x >= 0.0
  {
    if x < 0.0 {
      assert (-x) * p > 0.0;
    }
  }

  /** A strictly lower factor followed by one no higher gives a strictly lower one. */
  lemma FactorLtLe(l1: int, c1: int, l2: int, c2: int, l3: int, c3: int)
    requires c1 > 0 && c2 > 0 && c3 > 0
    requires FactorLt(l1, c1, l2, c2) && FactorLe(l2, c2, l3, c3)
    ensures FactorLe(l1, c1, l3, c3)
  {
    MulLt(l1 * c2, l2 * c1, c3);
    MulLe(l2 * c3, l3 * c2, c1);
    assert (l1 * c2) * c3 == c2 * (l1 * c3);
    assert (l2 * c1) * c3 == (l2 * c3) * c1;
    assert (l3 * c2) * c1 == c2 * (l3 * c1);
    if l1 * c3 > l3 * c1 {
      MulLt(l3 * c1, l1 * c3, c2);
      assert false;
    }
  }

  lemma MulLt(x: int, y: int, k: int)
    requires x < y && k > 0
    ensures x * k < y * k
  {
  }

  lemma MulLe(x: int, y: int, k: int)
    requires x <= y && k > 0
    ensures x * k <= y * k
  {
  }

  /** `nodeMatchesRequirements`: the required agent, if any, is hosted, and
      every required tag is one of the node's tags. */
  ghost predicate MatchesRequirements(n: Node, req: TaskRequirements)
    reads n
  {
    (req.agentId == "" || req.agentId in n.agents)
    && forall t | t in req.tags :: t in n.config.tags
  }

  /** A node `findSuitableNode` may consider. */
  ghost predicate Candidate(n: Node, req: TaskRequirements)
    reads n
  {
    n.status == StatusHealthy && MatchesRequirements(n, req)
  }

  /** The event announcing that a node was marked unhealthy. */
  function UnhealthyNotice(id: string): Notice
  {
    Notice("node_unhealthy", "Node " + id + " marked as unhealthy", map["node_id" := id])
  }

  /** `notices[i]` announces `marked[i]`, and no id is announced twice. */
  ghost predicate Announces(marked: seq<string>, notices: seq<Notice>)
  {
    && |notices| == |marked|
    && (forall i | 0 <= i < |marked| :: notices[i] == UnhealthyNotice(marked[i]))
    && (forall i, j | 0 <= i < j < |marked| :: marked[i] != marked[j])
  }

  /** Announcing one more id that was not announced yet keeps `Announces`. */
  lemma AnnounceOneMore(marked: seq<string>, notices: seq<Notice>, id: string)
    requires Announces(marked, notices) && id !in marked
    ensures Announces(marked + [id], notices + [UnhealthyNotice(id)])
  {
  }

  /** `nodeMatchesRequirements`, with its loop over the required tags. */
  method NodeMatchesRequirements(n: Node, req: TaskRequirements) returns (ok: bool)
    ensures ok == MatchesRequirements(n, req)
  {
    if req.agentId != "" && req.agentId !in n.agents {
      return false;
    }
    if |req.tags| > 0 {
      var nodeTags := set t | t in n.config.tags;
      var i := 0;
      while i < |req.tags|
        invariant 0 <= i <= |req.tags|
        invariant forall j | 0 <= j < i :: req.tags[j] in n.config.tags
      {
        if req.tags[i] !in nodeTags {
          return false;
        }
        i := i + 1;
      }
    }
    return true;
  }

  /** The heartbeat test for one node. */
  method MarkIfSilent(n: Node, now: int, timeout: int)
    modifies n
    ensures n.status == if now - n.lastPing > timeout then StatusUnhealthy else old(n.status)
    ensures n.load == old(n.load) && n.lastPing == old(n.lastPing) && n.agents == old(n.agents)
  {
    if now - n.lastPing > timeout {
      n.status := StatusUnhealthy;
    }
  }

  class Cluster {
    const config: ClusterConfig
    var nodes: map<string, Node>

    /** Every node is registered under its own id, so distinct ids hold
        distinct nodes. */
    ghost predicate Valid()
      reads this, nodes.Values
    {
      forall id | id in nodes :: nodes[id].config.id == id && nodes[id].Valid()
    }

    /** What `findSuitableNode` promises of its answer: either nothing, when no
        candidate has spare capacity, or a candidate with spare capacity whose
        load factor is no larger than any other candidate's. */
    ghost predicate BestFor(best: Node?, req: TaskRequirements)
      reads this, nodes.Values
      requires Valid()
    {
      (best == null <==> forall id | id in nodes && Candidate(nodes[id], req) :: nodes[id].load >= nodes[id].capacity)
      && (best != null ==>
            best in nodes.Values && Candidate(best, req) && best.load < best.capacity
            && forall id | id in nodes && Candidate(nodes[id], req) ::
                 FactorLe(best.load, best.capacity, nodes[id].load, nodes[id].capacity))
    }

    /** `NewCluster`, once its agent client exists. */
    constructor (config: ClusterConfig)
      ensures this.config == config && nodes == map[] && Valid()
    {
      this.config := config;
      nodes := map[];
    }

    /** `RegisterNode(node)`: refused for a taken id; otherwise the node is
        inserted and the result is the announcement's publish outcome. */
    method RegisterNode(node: Node, publish: Outcome) returns (r: Outcome, notice: Option<Notice>)
      requires Valid() && node.Valid()
      modifies this
      ensures Valid()
      ensures node.config.id in old(nodes) ==>
        r == Fail(Error("node already registered: " + node.config.id)) && nodes == old(nodes) && notice == None
      ensures node.config.id !in old(nodes) ==>
        nodes == old(nodes)[node.config.id := node] && r == publish
        && notice == Some(Notice("node_registered", "Node " + node.config.id + " registered with cluster",
                                 map["node_id" := node.config.id, "address" := node.config.address]))
    {
      var id := node.config.id;
      if id in nodes {
        return Fail(Error("node already registered: " + id)), None;
      }
      nodes := nodes[id := node];
      notice := Some(Notice("node_registered", "Node " + id + " registered with cluster",
                            map["node_id" := id, "address" := node.config.address]));
      r := publish;
    }

    /** `GetNode(id)`. */
    method GetNode(id: string) returns (r: Result<Node>)
      ensures r.Ok? <==> id in nodes
      ensures r.Ok? ==> r.value == nodes[id]
      ensures r.Err? ==> r.error == Error("node not found: " + id)
    {
      if id !in nodes {
        return Err(Error("node not found: " + id));
      }
      return Ok(nodes[id]);
    }

    /** `GetHealthyNodes`: every healthy node once, in map order. */
    method GetHealthyNodes() returns (healthy: seq<Node>)
      requires Valid()
      ensures forall i | 0 <= i < |healthy| :: healthy[i] in nodes.Values && healthy[i].status == StatusHealthy
      ensures forall id | id in nodes && nodes[id].status == StatusHealthy :: nodes[id] in healthy
      ensures forall i, j | 0 <= i < j < |healthy| :: healthy[i] != healthy[j]
    {
      var pending := nodes.Keys;
      healthy := [];
      while pending != {}
        invariant pending <= nodes.Keys
        invariant forall i | 0 <= i < |healthy| :: healthy[i].config.id in nodes.Keys - pending
        invariant forall i | 0 <= i < |healthy| :: healthy[i] == nodes[healthy[i].config.id] && healthy[i].status == StatusHealthy
        invariant forall id | id in nodes.Keys - pending && nodes[id].status == StatusHealthy :: nodes[id] in healthy
        invariant forall i, j | 0 <= i < j < |healthy| :: healthy[i] != healthy[j]
        decreases |pending|
      {
        var id :| id in pending;
        if nodes[id].status == StatusHealthy {
          healthy := healthy + [nodes[id]];
        }
        pending := pending - {id};
      }
    }

    /** A node strictly below the lowest factor seen so far is no higher than
        any candidate seen so far. */
    lemma NewLowest(n: Node, req: TaskRequirements, lowLoad: int, lowCap: int, seen: set<string>)
      requires Valid() && n in nodes.Values && lowCap > 0 && seen <= nodes.Keys
      requires FactorLt(n.load, n.capacity, lowLoad, lowCap)
      requires forall id | id in seen && Candidate(nodes[id], req) ::
        FactorLe(lowLoad, lowCap, nodes[id].load, nodes[id].capacity)
      ensures forall id | id in seen && Candidate(nodes[id], req) ::
        FactorLe(n.load, n.capacity, nodes[id].load, nodes[id].capacity)
    {
      forall id | id in seen && Candidate(nodes[id], req)
        ensures FactorLe(n.load, n.capacity, nodes[id].load, nodes[id].capacity)
      {
        FactorLtLe(n.load, n.capacity, lowLoad, lowCap, nodes[id].load, nodes[id].capacity);
      }
    }

    /** `findSuitableNode`: the candidate with the lowest load factor below 1,
        visiting the nodes in map order. */
    method FindSuitableNode(req: TaskRequirements) returns (best: Node?)
      requires Valid()
      ensures BestFor(best, req)
    {
      var pending := nodes.Keys;
      var lowLoad, lowCap := 1, 1;
      best := null;
      while pending != {}
        invariant pending <= nodes.Keys
        invariant lowCap > 0
        invariant best == null ==> lowLoad == 1 && lowCap == 1
        invariant best != null ==>
          best in nodes.Values && Candidate(best, req) && best.load < best.capacity
          && lowLoad == best.load && lowCap == best.capacity
        invariant forall id | id in nodes.Keys - pending && Candidate(nodes[id], req) ::
          FactorLe(lowLoad, lowCap, nodes[id].load, nodes[id].capacity)
        decreases |pending|
      {
        var id :| id in pending;
        var n := nodes[id];
        if n.status == StatusHealthy {
          var matches := NodeMatchesRequirements(n, req);
          if matches && n.load * lowCap < lowLoad * n.capacity {
            NewLowest(n, req, lowLoad, lowCap, nodes.Keys - pending);
            best := n;
            lowLoad, lowCap := n.load, n.capacity;
          }
        }
        pending := pending - {id};
      }
    }

    /** `ScheduleTask`: runs the task on the node `findSuitableNode` picks,
        wrapping any error of that node's `ExecuteTask` once more (so an agent's
        own failure arrives wrapped twice). */
    method ScheduleTask(task: string, req: TaskRequirements, startPublish: Outcome, run: (AgentRef, string) -> Result<string>)
      returns (r: Result<string>, chosen: Node?, notices: seq<Notice>)
      requires Valid()
      ensures BestFor(chosen, req)
      ensures chosen == null ==> r == Err(Error("no suitable node found for task")) && notices == []
      ensures chosen != null ==>
        (r.Ok? <==> req.agentId in chosen.agents && startPublish.Pass? && run(chosen.agents[req.agentId], task).Ok?)
      ensures chosen != null && r.Ok? ==> r == run(chosen.agents[req.agentId], task)
      ensures chosen != null && req.agentId !in chosen.agents ==>
        r == Err(Wrapped("task execution failed", Error("agent not found: " + req.agentId)))
      ensures chosen != null && req.agentId in chosen.agents && startPublish.Fail? ==>
        r == Err(Wrapped("task execution failed", Wrapped("failed to publish start event", startPublish.error)))
      ensures (chosen != null && req.agentId in chosen.agents && startPublish.Pass?
               && run(chosen.agents[req.agentId], task).Err?) ==>
        r == Err(Wrapped("task execution failed",
                   Wrapped("task execution failed", run(chosen.agents[req.agentId], task).error)))
      // the notices are those of the chosen node's `ExecuteTask`
      ensures chosen != null && req.agentId !in chosen.agents ==> notices == []
      ensures chosen != null && req.agentId in chosen.agents ==>
        var meta := AgentMeta(req.agentId, chosen.config.id);
        && |notices| == (if startPublish.Pass? then 2 else 1)
        && notices[0] == Notice("task_start", "Starting task on agent " + req.agentId, meta)
        && (startPublish.Pass? ==>
              var out := run(chosen.agents[req.agentId], task);
              notices[1] == (if out.Ok? then Notice("task_complete", "Task completed on agent " + req.agentId, meta)
                             else Notice("task_error", "Task failed on agent " + req.agentId + ": " + Message(out.error), meta)))
    {
      chosen := FindSuitableNode(req);
      if chosen == null {
        return Err(Error("no suitable node found for task")), null, [];
      }
      var out;
      out, notices := chosen.ExecuteTask(req.agentId, task, startPublish, run);
      if out.Err? {
        return Err(Wrapped("task execution failed", out.error)), chosen, notices;
      }
      r := out;
    }

    /** One iteration of the heartbeat loop: the node under `id` is marked
        unhealthy when silent for longer than the timeout; no other node and
        no other field changes. */
    method MarkOne(id: string, now: int) returns (silent: bool)
      requires id in nodes
      requires forall j | j in nodes :: nodes[j].config.id == j
      modifies nodes[id]
      ensures silent <==> now - old(nodes[id].lastPing) > config.nodeTimeout
      ensures forall j | j in nodes ::
        nodes[j].load == old(nodes[j].load) && nodes[j].lastPing == old(nodes[j].lastPing)
        && nodes[j].agents == old(nodes[j].agents)
      ensures forall j | j in nodes ::
        nodes[j].status == (if j == id && silent then StatusUnhealthy else old(nodes[j].status))
    {
      silent := now - nodes[id].lastPing > config.nodeTimeout;
      assert forall j | j in nodes && j != id :: nodes[j] != nodes[id] by {
        forall j | j in nodes && j != id ensures nodes[j] != nodes[id] {
          assert nodes[j].config.id != nodes[id].config.id;
        }
      }
      MarkIfSilent(nodes[id], now, config.nodeTimeout);
    }

    /** One tick of `monitorHeartbeats` at time `now`: every node silent for
        longer than the timeout is marked unhealthy. `marked` lists their ids
        in the order the map was visited, and `notices` the `node_unhealthy`
        event published for each, in the same order. */
    method HeartbeatTick(now: int) returns (marked: seq<string>, notices: seq<Notice>)
      requires Valid()
      modifies nodes.Values
      ensures Valid()
      ensures forall id | id in nodes ::
        nodes[id].status == (if now - nodes[id].lastPing > config.nodeTimeout then StatusUnhealthy else old(nodes[id].status))
      ensures forall id | id in nodes ::
        nodes[id].load == old(nodes[id].load) && nodes[id].lastPing == old(nodes[id].lastPing)
        && nodes[id].agents == old(nodes[id].agents)
      ensures forall i | 0 <= i < |marked| :: marked[i] in nodes
      ensures forall id | id in nodes :: id in marked <==> now - nodes[id].lastPing > config.nodeTimeout
      ensures Announces(marked, notices)
    {
      var pending := nodes.Keys;
      marked, notices := [], [];
      ghost var markedIds: set<string> := {};
      while pending != {}
        invariant pending <= nodes.Keys
        invariant forall id | id in nodes :: nodes[id].config.id == id
        invariant forall id | id in nodes ::
          nodes[id].load == old(nodes[id].load) && nodes[id].lastPing == old(nodes[id].lastPing)
          && nodes[id].agents == old(nodes[id].agents)
        invariant forall id | id in nodes ::
          nodes[id].status == (if id !in pending && now - old(nodes[id].lastPing) > config.nodeTimeout then StatusUnhealthy else old(nodes[id].status))
        invariant markedIds <= nodes.Keys
        invariant forall id | id in nodes :: id in markedIds <==> id !in pending && now - old(nodes[id].lastPing) > config.nodeTimeout
        invariant forall id :: id in marked <==> id in markedIds
        invariant Announces(marked, notices)
        decreases |pending|
      {
        var id :| id in pending;
        var silent := MarkOne(id, now);
        if silent {
          AnnounceOneMore(marked, notices, id);
          marked, notices := marked + [id], notices + [UnhealthyNotice(id)];
          markedIds := markedIds + {id};
        }
        pending := pending - {id};
      }
    }
  }
}
