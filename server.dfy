/** The request handlers of the agent server in pkg/communication/server.go.
    Requests and responses are the protocol messages' fields as datatypes; the
    listener, the gRPC registration and the stream of `StreamEvents` are left
    out, but the conversion between events and bus messages is modelled. */
module Servers {
  import opened Wrappers
  import opened MessageBuses
  import opened StateStores
  import opened EventSystems

  /** A protocol event (`pb.Event`). */
  datatype WireEvent = WireEvent(eventType: string, payload: string, sourceAgent: string,
                                 timestamp: int, metadata: map<string, string>)

  datatype ExecuteResponse = ExecuteResponse(result: string, metadata: map<string, string>)

  datatype PublishResponse = PublishResponse(success: bool, error: string)

  datatype SyncResponse = SyncResponse(success: bool, version: int)

  /** Unix seconds of Go's zero `time.Time`, the timestamp of a message built
      without one. */
  const ZeroTimeUnix: int := -62135596800

  /** The bus message `PublishEvent` builds from a protocol event: no id, no
      recipient and a zero timestamp. */
  function EventMessage(ev: WireEvent): (m: Message)
    ensures m.msgType == ev.eventType && m.content == ev.payload
    ensures m.from == ev.sourceAgent && m.metadata == ev.metadata
    ensures m.id == "" && m.to == "" && m.timestamp == ZeroTimeUnix
  {
    Message("", ev.sourceAgent, "", ev.payload, ZeroTimeUnix, ev.eventType, ev.metadata)
  }

  /** The protocol event `StreamEvents` sends for a bus message. */
  function StreamedEvent(m: Message): (ev: WireEvent)
    ensures ev.eventType == m.msgType && ev.payload == m.content
    ensures ev.sourceAgent == m.from && ev.metadata == m.metadata && ev.timestamp == m.timestamp
  {
    WireEvent(m.msgType, m.content, m.from, m.timestamp, m.metadata)
  }

  /** An event published and then streamed to a subscriber arrives with its
      type, payload, source and metadata intact; only its timestamp is lost. */
  lemma PublishThenStream(ev: WireEvent)
    ensures StreamedEvent(EventMessage(ev)) == ev.(timestamp := ZeroTimeUnix)
  {
  }

  const ExecutedPrefix: string := "Executed task for agent "

  /** The text of `executeTask`. */
  function ExecutedText(agentId: string, task: string): (s: string)
    ensures |s| == |ExecutedPrefix| + |agentId| + 2 + |task|
    ensures s[..|ExecutedPrefix|] == ExecutedPrefix
    ensures s[|ExecutedPrefix|..][..|agentId|] == agentId
    ensures s[|ExecutedPrefix| + |agentId|..][..2] == ": "
    ensures s[|s| - |task|..] == task
  {
    var s := ExecutedPrefix + agentId + ": " + task;
    assert s[|ExecutedPrefix|..] == agentId + ": " + task;
    assert s[|ExecutedPrefix| + |agentId|..] == ": " + task;
    s
  }

  /** For agent ids without a colon, the text names the agent and the task
      unambiguously: the agent id is what precedes the first colon after the
      prefix, and the task is what follows the ": " after it. */
  lemma ExecutedTextDetermines(a1: string, t1: string, a2: string, t2: string)
    requires ':' !in a1 && ':' !in a2
    requires ExecutedText(a1, t1) == ExecutedText(a2, t2)
    ensures a1 == a2 && t1 == t2
  {
    var s := ExecutedText(a1, t1);
    var p := |ExecutedPrefix|;
    assert s[p + |a1|] == ':' by { assert s[p + |a1|..][..2][0] == s[p + |a1|]; }
    assert s[p + |a2|] == ':' by { assert s[p + |a2|..][..2][0] == s[p + |a2|]; }
    if |a1| < |a2| {
      assert false;
    } else if |a2| < |a1| {
      assert false;
    }
    assert a1 == s[p..][..|a1|] == a2;
    assert |t1| == |t2|;
    assert t1 == s[|s| - |t1|..] == t2;
  }

  class AgentServer {
    const messageBus: MessageBus
    const eventSys: EventSystem
    const stateStore: StateStore

    ghost predicate Valid()
      reads this, messageBus, stateStore
    {
      messageBus.Valid() && stateStore.Valid()
    }

    /** `NewAgentServer`: a fresh bus, event system and state store. */
    constructor ()
      ensures Valid() && fresh(messageBus) && fresh(eventSys) && fresh(stateStore)
      ensures messageBus.subscribers == map[] && stateStore.states == map[] && stateStore.log == []
    {
      messageBus := new MessageBus();
      eventSys := new EventSystem();
      stateStore := new StateStore();
    }

    /** `Execute`: the task's text, with the request's metadata echoed back.
        `executeTask` cannot fail, so neither can this. */
    method Execute(agentId: string, task: string, metadata: map<string, string>) returns (r: Result<ExecuteResponse>)
      ensures r.Ok? && r.value.metadata == metadata
      ensures r.value.result == ExecutedText(agentId, task)
    {
      var result := ExecutedText(agentId, task);
      return Ok(ExecuteResponse(result, metadata));
    }

    /** `PublishEvent`: publishes the event's message on the topic named by its
        source agent; a publishing error becomes an unsuccessful response that
        carries the error's text. */
    method PublishEvent(ev: WireEvent, cancelled: nat -> bool, ctxErr: Error) returns (resp: PublishResponse, stopped: nat)
      requires Valid()
      modifies messageBus
      ensures Valid()
      ensures resp.success ==> resp.error == ""
      ensures !resp.success ==> resp.error == Wrappers.Message(ctxErr)
      ensures ev.sourceAgent !in old(messageBus.subscribers) ==>
        resp.success && messageBus.subscribers == old(messageBus.subscribers)
      ensures ev.sourceAgent in old(messageBus.subscribers) ==>
        messageBus.subscribers.Keys == old(messageBus.subscribers).Keys
        && var before := old(messageBus.subscribers)[ev.sourceAgent];
        var after := messageBus.subscribers[ev.sourceAgent];
        (forall t | t in messageBus.subscribers && t != ev.sourceAgent :: messageBus.subscribers[t] == old(messageBus.subscribers)[t])
        && |after| == |before|
        && stopped <= |before|
        // success exactly when the bus publish reached every subscriber
        && (resp.success <==> stopped == |before|)
        && (!resp.success ==> cancelled(stopped))
        && (forall i | 0 <= i < stopped :: after[i] == Deliver(before[i], EventMessage(ev)))
        && (forall i | stopped <= i < |before| :: after[i] == before[i])
      ensures (ev.sourceAgent in old(messageBus.subscribers)
               && forall i | 0 <= i < |old(messageBus.subscribers)[ev.sourceAgent]| :: !cancelled(i)) ==> resp.success
    {
      var r;
      r, stopped := messageBus.Publish(ev.sourceAgent, EventMessage(ev), cancelled, ctxErr);
      if r.Fail? {
        return PublishResponse(false, Wrappers.Message(r.error)), stopped;
      }
      return PublishResponse(true, ""), stopped;
    }

    /** `SyncState`: stores the value and answers with the key's new version,
        which counts every write to that key. */
    method SyncState(key: string, value: string, now: int) returns (resp: SyncResponse)
      requires Valid()
      modifies stateStore
      ensures Valid() && stateStore.log == old(stateStore.log) + [Write(key, value, now)]
      ensures resp.success
      ensures resp.version == if key in old(stateStore.states) then old(stateStore.states)[key].version + 1 else 1
      ensures resp.version == WritesTo(stateStore.log, key)
      ensures key in stateStore.states && stateStore.states[key].value == value
    {
      stateStore.Set(key, value, now);
      var entry, _ := stateStore.Get(key);
      return SyncResponse(true, entry.version);
    }
  }
}
