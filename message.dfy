/** The topic-based message bus of pkg/communication/message.go. Each
    subscriber channel is a bounded buffer of capacity 100; what the bus holds
    for a topic is the sequence of those buffers, in subscription order. */
module MessageBuses {
  import opened Wrappers

  datatype Message = Message(id: string, from: string, to: string, content: string,
                             timestamp: int, msgType: string, metadata: map<string, string>)

  /** The buffer size of every subscriber channel. */
  const QueueCapacity: nat := 100

  /** A non-blocking send: the message is queued if the buffer has room and
      dropped otherwise. */
  function Deliver(q: seq<Message>, m: Message): (r: seq<Message>)
    ensures |q| < QueueCapacity ==> r == q + [m]
    ensures |q| >= QueueCapacity ==> r == q
  {
    if |q| < QueueCapacity then q + [m] else q
  }

  /** A send never overfills a buffer that was within its capacity, keeps what
      was queued, and queues the message exactly when the buffer had room. */
  lemma DeliverKeepsBound(q: seq<Message>, m: Message)
    requires |q| <= QueueCapacity
    ensures |Deliver(q, m)| <= QueueCapacity
    ensures Deliver(q, m)[..|q|] == q
    ensures |Deliver(q, m)| == |q| + 1 <==> |q| < QueueCapacity
    ensures |q| < QueueCapacity ==> Deliver(q, m)[|q|] == m
  {
  }

  class MessageBus {
    var subscribers: map<string, seq<seq<Message>>>

    ghost predicate Valid()
      reads this
    {
      forall t | t in subscribers :: forall i | 0 <= i < |subscribers[t]| :: |subscribers[t][i]| <= QueueCapacity
    }

    /** `NewMessageBus`. */
    constructor ()
      ensures subscribers == map[] && Valid()
    {
      subscribers := map[];
    }

    /** `Subscribe(topic)`: adds an empty channel for `topic` and returns its
        position among the topic's subscribers. */
    method Subscribe(topic: string) returns (index: nat)
      requires Valid()
      modifies this
      ensures Valid()
      ensures var before := if topic in old(subscribers) then old(subscribers)[topic] else [];
        subscribers == old(subscribers)[topic := before + [[]]] && index == |before|
    {
      var before := if topic in subscribers then subscribers[topic] else [];
      subscribers := subscribers[topic := before + [[]]];
      index := |before|;
    }

    /** `Publish(topic, msg)`. The channels are visited in order; at each one the
        send happens if there is room, unless the context is done, in which case
        Go's `select` may pick either ready case, and must return the context
        error if the channel is full. `stopped` is the index of the channel at
        which the context error was returned, or the number of channels. */
    method Publish(topic: string, msg: Message, cancelled: nat -> bool, ctxErr: Error)
      returns (r: Outcome, stopped: nat)
      requires Valid()
      modifies this
      ensures Valid()
      ensures topic !in old(subscribers) ==> r == Pass && subscribers == old(subscribers)
      ensures topic in old(subscribers) ==>
        var before := old(subscribers)[topic];
        subscribers.Keys == old(subscribers).Keys
        && (forall t | t in subscribers && t != topic :: subscribers[t] == old(subscribers)[t])
        && |subscribers[topic]| == |before|
        && stopped <= |before|
        && (r == Pass <==> stopped == |before|)
        && (r.Fail? ==> r.error == ctxErr && cancelled(stopped))
        && (forall i | 0 <= i < stopped :: subscribers[topic][i] == Deliver(before[i], msg))
        && (forall i | 0 <= i < stopped :: |before[i]| >= QueueCapacity ==> !cancelled(i))
        && (forall i | stopped <= i < |before| :: subscribers[topic][i] == before[i])
    {
      if topic !in subscribers {
        return Pass, 0;
      }
      var qs := subscribers[topic];
      var i := 0;
      r := Pass;
      while i < |qs|
        invariant 0 <= i <= |qs| && |qs| == |old(subscribers)[topic]|
        invariant subscribers == old(subscribers)
        invariant forall j | 0 <= j < i :: qs[j] == Deliver(old(subscribers)[topic][j], msg)
        invariant forall j | 0 <= j < i :: |old(subscribers)[topic][j]| >= QueueCapacity ==> !cancelled(j)
        invariant forall j | i <= j < |qs| :: qs[j] == old(subscribers)[topic][j]
        invariant forall j | 0 <= j < |qs| :: |qs[j]| <= QueueCapacity
      {
        var room := |qs[i]| < QueueCapacity;
        if cancelled(i) {
          // both cases of the select are ready when the channel has room
          var pickDone: bool :| true;
          if pickDone || !room {
            r := Fail(ctxErr);
            break;
          }
        }
        qs := qs[i := Deliver(qs[i], msg)];
        i := i + 1;
      }
      subscribers := subscribers[topic := qs];
      stopped := i;
    }
  }
}
