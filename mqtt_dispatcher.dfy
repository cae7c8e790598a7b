/**
 * The plant module's MQTT dispatcher: a table from topic to (handler, FIFO
 * queue of payloads). Incoming messages on a registered topic are queued for
 * that topic's handler; each topic has a consumer task, created with the
 * topic, that takes its payloads in order while the dispatcher is running and
 * ends for good once it finds it not running. The broker connection is
 * reduced to the set of subscribed topics, the handlers to opaque ids, the
 * messages to the sequence they arrive in, and the event loop to the order in
 * which the caller lets each consumer take its turn.
 */
module Dispatcher {
  import opened Wrappers
  import opened Utf8

  type Topic = string

  /** Stands for the `MQTTHandler` registered on a topic. */
  type HandlerId = nat

  /** A message payload as the client delivers it: bytes, or some other value with its `str()`. */
  datatype Payload = Bytes(bytes: seq<Byte>) | Other(text: string)

  datatype Message = Message(topic: Topic, payload: Payload)

  datatype DispatchError = DuplicateTopic(topic: Topic)

  /** Where a topic's `_process_queue` task is. */
  datatype Consumer =
    | NotStarted   // created, has not yet run
    | Waiting      // inside its loop, waiting on the queue for the next payload
    | Finished     // its loop test found the dispatcher not running, and it returned

  /** What is queued for a payload: bytes as they are, anything else as the UTF-8 bytes of its text. */
  function QueuedBytes(p: Payload): (bs: seq<Byte>)
    ensures p.Other? ==> Decode(bs) == Some(p.text)
    ensures p.Bytes? ==> bs == p.bytes
  {
    match p
    case Bytes(b) => b
    case Other(t) => DecodeEncode(t); Encode(t)
  }

  /** The queued bytes of the messages on `topic`, in arrival order. */
  function OnTopic(msgs: seq<Message>, topic: Topic): seq<seq<Byte>>
  {
    if msgs == [] then []
    else (if msgs[0].topic == topic then [QueuedBytes(msgs[0].payload)] else [])
         + OnTopic(msgs[1..], topic)
  }

  /** The queues after `msgs` have been routed with the known topics `known`. */
  function Routed(queues: map<Topic, seq<seq<Byte>>>, known: seq<Topic>, msgs: seq<Message>)
    : map<Topic, seq<seq<Byte>>>
    requires forall t | t in known :: t in queues
    decreases |msgs|
  {
    if msgs == [] then queues
    else
      var m := msgs[0];
      var queues' := if m.topic in known then queues[m.topic := queues[m.topic] + [QueuedBytes(m.payload)]]
                     else queues;
      Routed(queues', known, msgs[1..])
  }

  /**
   * Routing appends to each known topic's queue exactly the payloads that
   * arrived on it, in arrival order, and touches no other queue: messages on
   * unknown topics are dropped.
   */
  lemma {:induction false} RoutedQueues(queues: map<Topic, seq<seq<Byte>>>, known: seq<Topic>, msgs: seq<Message>)
    requires forall t | t in known :: t in queues
    ensures Routed(queues, known, msgs).Keys == queues.Keys
    ensures forall t | t in known :: Routed(queues, known, msgs)[t] == queues[t] + OnTopic(msgs, t)
    ensures forall t | t in queues && t !in known :: Routed(queues, known, msgs)[t] == queues[t]
    decreases |msgs|
  {
    if msgs != [] {
      var m := msgs[0];
      var queues' := if m.topic in known then queues[m.topic := queues[m.topic] + [QueuedBytes(m.payload)]]
                     else queues;
      var r := Routed(queues', known, msgs[1..]);
      assert Routed(queues, known, msgs) == r;
      RoutedQueues(queues', known, msgs[1..]);
      forall t | t in known
        ensures r[t] == queues[t] + OnTopic(msgs, t)
      {
        var here := if m.topic == t then [QueuedBytes(m.payload)] else [];
        assert OnTopic(msgs, t) == here + OnTopic(msgs[1..], t);
        assert queues'[t] == queues[t] + here;
        assert r[t] == queues'[t] + OnTopic(msgs[1..], t);
      }
    }
  }

  /** Registered topics have no duplicates. */
  ghost predicate Distinct(topics: seq<Topic>) {
    forall i, j :: 0 <= i < j < |topics| ==> topics[i] != topics[j]
  }

  class MqttDispatcher {
    /** The registered topics, in registration order (the key order of `handlers`). */
    var topics: seq<Topic>
    var handlers: map<Topic, HandlerId>
    var queues: map<Topic, seq<seq<Byte>>>
    /** `_running` */
    var running: bool
    /** The topics the broker client is subscribed to. */
    var subscribed: set<Topic>
    /** The consumer task of each topic (`tasks`). */
    var consumers: map<Topic, Consumer>

    ghost predicate Valid()
      reads this
    {
      && Distinct(topics)
      && (forall t :: t in handlers <==> t in topics)
      && (forall t :: t in queues <==> t in topics)
      && (forall t :: t in consumers <==> t in topics)
    }

    constructor ()
      ensures Valid()
      ensures topics == [] && handlers == map[] && queues == map[] && !running && subscribed == {}
      ensures consumers == map[]
    {
      topics, handlers, queues, running, subscribed := [], map[], map[], false, {};
      consumers := map[];
    }

    /**
     * `add_handler`: a second handler for a topic is refused and nothing
     * changes; otherwise the topic is registered with an empty queue and a
     * consumer task that has not run yet.
     */
    method AddHandler(topic: Topic, handler: HandlerId) returns (r: Result<(), DispatchError>)
      requires Valid()
      modifies this
      ensures Valid()
      ensures r.Err? <==> topic in old(topics)
      ensures r.Err? ==> r.error == DuplicateTopic(topic) && unchanged(this)
      ensures r.Ok? ==>
                && topics == old(topics) + [topic]
                && handlers == old(handlers)[topic := handler]
                && queues == old(queues)[topic := []]
                && consumers == old(consumers)[topic := NotStarted]
                && running == old(running) && subscribed == old(subscribed)
    {
      if topic in handlers {
        return Err(DuplicateTopic(topic));
      }
      topics := topics + [topic];
      handlers := handlers[topic := handler];
      queues := queues[topic := []];
      consumers := consumers[topic := NotStarted];
      r := Ok(());
    }

    /** `start`: subscribe every registered topic, then set running. */
    method Start()
      requires Valid()
      modifies this
      ensures Valid()
      ensures subscribed == old(subscribed) + set t | t in topics
      ensures running
      ensures topics == old(topics) && handlers == old(handlers) && queues == old(queues)
      ensures consumers == old(consumers)
    {
      var i := 0;
      while i < |topics|
        invariant 0 <= i <= |topics|
        invariant subscribed == old(subscribed) + set t | t in topics[..i]
        invariant topics == old(topics) && handlers == old(handlers) && queues == old(queues)
        invariant consumers == old(consumers)
      {
        subscribed := subscribed + {topics[i]};
        assert topics[..i + 1] == topics[..i] + [topics[i]];
        i := i + 1;
      }
      assert topics[..i] == topics;
      running := true;
    }

    /** `stop`: unsubscribe every registered topic, then clear running. */
    method Stop()
      requires Valid()
      modifies this
      ensures Valid()
      ensures subscribed == old(subscribed) - set t | t in topics
      ensures !running
      ensures topics == old(topics) && handlers == old(handlers) && queues == old(queues)
      ensures consumers == old(consumers)
    {
      var i := 0;
      while i < |topics|
        invariant 0 <= i <= |topics|
        invariant subscribed == old(subscribed) - set t | t in topics[..i]
        invariant topics == old(topics) && handlers == old(handlers) && queues == old(queues)
        invariant consumers == old(consumers)
      {
        subscribed := subscribed - {topics[i]};
        assert topics[..i + 1] == topics[..i] + [topics[i]];
        i := i + 1;
      }
      assert topics[..i] == topics;
      running := false;
    }

    /**
     * `run_dispatch` over the messages `msgs`: the topics are taken once at the
     * start; a message on another topic is skipped; any other is converted to
     * bytes and appended to its topic's queue.
     */
    method RunDispatch(msgs: seq<Message>)
      requires Valid()
      modifies this
      ensures Valid()
      ensures queues == Routed(old(queues), old(topics), msgs)
      ensures topics == old(topics) && handlers == old(handlers) && consumers == old(consumers)
      ensures running == old(running) && subscribed == old(subscribed)
    {
      var known := topics;
      var i := 0;
      while i < |msgs|
        invariant 0 <= i <= |msgs|
        invariant topics == known && Valid()
        invariant handlers == old(handlers) && running == old(running) && subscribed == old(subscribed)
        invariant consumers == old(consumers)
        invariant Routed(queues, known, msgs[i..]) == Routed(old(queues), known, msgs)
      {
        var m := msgs[i];
        if m.topic in known {
          var payload := QueuedBytes(m.payload);
          queues := queues[m.topic := queues[m.topic] + [payload]];
        }
        assert msgs[i..][1..] == msgs[i + 1..];
        i := i + 1;
      }
    }

    /**
     * One turn of `topic`'s consumer task, until it waits on an empty queue
     * or returns. A task that has not run yet first tests `_running`; one
     * waiting on the queue first takes the oldest payload, hands it to the
     * handler, and only then tests `_running`. While running, it hands over
     * payload after payload, in order, whatever the handler does (an
     * exception is caught and logged); once it finds the dispatcher not
     * running, it returns and never takes a payload again. Returns the
     * payloads handed over, in the order they were.
     */
    method ProcessQueue(topic: Topic) returns (handled: seq<seq<Byte>>)
      requires Valid() && topic in topics
      modifies this
      ensures Valid()
      ensures old(consumers[topic]).Finished? || (old(consumers[topic]).Waiting? && old(queues[topic]) == []) ==>
                handled == [] && queues == old(queues) && consumers == old(consumers)
      ensures running && !old(consumers[topic]).Finished? ==>
                handled == old(queues[topic]) && queues == old(queues)[topic := []]
                && consumers == old(consumers)[topic := Waiting]
      ensures !running && old(consumers[topic]).NotStarted? ==>
                handled == [] && queues == old(queues) && consumers == old(consumers)[topic := Finished]
      ensures !running && old(consumers[topic]).Waiting? && old(queues[topic]) != [] ==>
                handled == [old(queues[topic])[0]] && queues == old(queues)[topic := old(queues[topic])[1..]]
                && consumers == old(consumers)[topic := Finished]
      ensures topics == old(topics) && handlers == old(handlers)
      ensures running == old(running) && subscribed == old(subscribed)
    {
      var c := consumers[topic];
      if c.Finished? || (c.Waiting? && queues[topic] == []) {
        return [];
      }
      var first: seq<seq<Byte>> := [];
      if c.Waiting? {
        // woken by a payload: it is handled before the loop test
        first := [queues[topic][0]];
        queues := queues[topic := queues[topic][1..]];
      }
      if running {
        var rest := Drain(topic);
        handled := first + rest;
        consumers := consumers[topic := Waiting];
      } else {
        handled := first;
        consumers := consumers[topic := Finished];
      }
    }

    /** The loop of `_process_queue` while running: every queued payload is handed over, oldest first. */
    method Drain(topic: Topic) returns (handled: seq<seq<Byte>>)
      requires Valid() && topic in topics
      modifies this
      ensures Valid()
      ensures handled == old(queues[topic]) && queues == old(queues)[topic := []]
      ensures topics == old(topics) && handlers == old(handlers) && consumers == old(consumers)
      ensures running == old(running) && subscribed == old(subscribed)
    {
      handled := [];
      while queues[topic] != []
        invariant topic in queues
        invariant handled + queues[topic] == old(queues[topic])
        invariant queues == old(queues)[topic := queues[topic]]
        invariant topics == old(topics) && handlers == old(handlers) && consumers == old(consumers)
        invariant running == old(running) && subscribed == old(subscribed)
        decreases |queues[topic]|
      {
        var payload := queues[topic][0];
        assert [payload] + queues[topic][1..] == queues[topic];
        queues := queues[topic := queues[topic][1..]];
        handled := handled + [payload];
      }
      assert queues.Keys == old(queues).Keys;
    }
  }

  /**
   * The plant module's wiring as written: the handler is added, creating its
   * consumer task, before the dispatcher is started, and the task first runs
   * at the first suspension after that, while `_running` is still false; it
   * returns at once. The messages that then arrive on the topic pile up in its
   * queue and none is ever handled.
   */
  method WiringAsWritten(topic: Topic, handler: HandlerId, msgs: seq<Message>)
    returns (handled: seq<seq<Byte>>, pending: seq<seq<Byte>>)
    ensures handled == []
    ensures pending == OnTopic(msgs, topic)
  {
    var d := new MqttDispatcher();
    var added := d.AddHandler(topic, handler);
    assert d.queues == map[topic := []] && d.topics == [topic] && d.consumers[topic].NotStarted?;
    var first := d.ProcessQueue(topic);
    d.Start();
    d.RunDispatch(msgs);
    RoutedQueues(map[topic := []], [topic], msgs);
    assert d.queues[topic] == OnTopic(msgs, topic) && d.consumers[topic].Finished?;
    var later := d.ProcessQueue(topic);
    handled := first + later;
    pending := d.queues[topic];
  }

  /**
   * The wiring with each consumer task's first turn after `_running` is set
   * (the tasks created at the end of `start` rather than in `add_handler`):
   * every message on the topic is handled, in arrival order.
   */
  method CorrectedWiring(topic: Topic, handler: HandlerId, msgs: seq<Message>)
    returns (handled: seq<seq<Byte>>, pending: seq<seq<Byte>>)
    ensures handled == OnTopic(msgs, topic)
    ensures pending == []
  {
    var d := new MqttDispatcher();
    var added := d.AddHandler(topic, handler);
    assert d.queues == map[topic := []] && d.topics == [topic] && d.consumers[topic].NotStarted?;
    d.Start();
    var first := d.ProcessQueue(topic);
    assert first == [] && d.queues == map[topic := []] && d.consumers[topic].Waiting?;
    d.RunDispatch(msgs);
    RoutedQueues(map[topic := []], [topic], msgs);
    assert d.queues[topic] == OnTopic(msgs, topic) && d.running;
    var later := d.ProcessQueue(topic);
    handled := first + later;
    pending := d.queues[topic];
  }

  /**
   * End to end: with freshly registered (empty) queues, routing leaves in a
   * registered topic's queue exactly that topic's payloads, in arrival order.
   */
  lemma DeliveredInArrivalOrder(topics: seq<Topic>, msgs: seq<Message>, t: Topic)
    requires t in topics
    ensures var empty: map<Topic, seq<seq<Byte>>> := map u | u in topics :: [];
            && t in Routed(empty, topics, msgs)
            && Routed(empty, topics, msgs)[t] == OnTopic(msgs, t)
  {
    var empty: map<Topic, seq<seq<Byte>>> := map u | u in topics :: [];
    RoutedQueues(empty, topics, msgs);
  }
}
