/** The RabbitMQ side of LoanBot: queue declaration, the publisher and the
    consumer's message handler. A queue holds decoded payloads: `Some(e)`
    for a body that deserialises to an event, `None` for one that
    deserialises to null. Connections, channels and the JSON/UTF-8 encoding
    are not modelled. */
module LoanBroker {
  import opened Wrappers
  import opened LoanModels

  type Payload = Option<LoanApplicationEvent>

  /** The queue name as written at each call site. */
  const PublisherDeclaredQueue := "loan_applications"
  const PublishRoutingKey := "loan_applications"
  const ConsumerDeclaredQueue := "loan_applications"
  const ConsumeQueue := "loan_applications"

  /** Declared queues and their pending payloads. */
  datatype Broker = Broker(queues: map<string, seq<Payload>>)

  /** `QueueDeclare`: creates an empty queue, or leaves an existing one alone. */
  function Declare(b: Broker, name: string): (b': Broker)
    ensures name in b'.queues
    ensures b'.queues.Keys == b.queues.Keys + {name}
    ensures name in b.queues ==> b' == b
    ensures name !in b.queues ==> b'.queues[name] == []
    ensures forall q :: q in b.queues ==> b'.queues[q] == b.queues[q]
  {
    if name in b.queues then b else Broker(b.queues[name := []])
  }

  /** `BasicPublish` on the default exchange: the payload joins the queue
      named by the routing key; with no such queue it is dropped. */
  function BasicPublish(b: Broker, routingKey: string, p: Payload): (b': Broker)
    ensures b'.queues.Keys == b.queues.Keys
    ensures routingKey in b.queues ==> b'.queues[routingKey] == b.queues[routingKey] + [p]
    ensures routingKey !in b.queues ==> b' == b
    ensures forall q :: q in b.queues && q != routingKey ==> b'.queues[q] == b.queues[q]
  {
    if routingKey in b.queues then Broker(b.queues[routingKey := b.queues[routingKey] + [p]]) else b
  }

  /** Constructing a `RabbitMQPublisher` declares its queue. */
  function NewPublisher(b: Broker): (b': Broker)
    ensures PublishRoutingKey in b'.queues
    ensures b'.queues.Keys == b.queues.Keys + {PublisherDeclaredQueue}
    ensures forall q :: q in b.queues ==> b'.queues[q] == b.queues[q]
    ensures PublisherDeclaredQueue !in b.queues ==> b'.queues[PublisherDeclaredQueue] == []
  {
    Declare(b, PublisherDeclaredQueue)
  }

  /** `RabbitMQPublisher.Publish`: exactly one message carrying the event. */
  function Publish(b: Broker, e: LoanApplicationEvent): (b': Broker)
    requires PublishRoutingKey in b.queues
    ensures b'.queues.Keys == b.queues.Keys
    ensures |b'.queues[PublishRoutingKey]| == |b.queues[PublishRoutingKey]| + 1
    ensures b'.queues[PublishRoutingKey][..|b.queues[PublishRoutingKey]|] == b.queues[PublishRoutingKey]
    ensures b'.queues[PublishRoutingKey][|b.queues[PublishRoutingKey]|] == Some(e)
    ensures forall q :: q in b.queues && q != PublishRoutingKey ==> b'.queues[q] == b.queues[q]
  {
    BasicPublish(b, PublishRoutingKey, Some(e))
  }

  /** What the consumer subscribed with `ConsumeQueue` has pending. */
  function Pending(b: Broker): seq<Payload> {
    if ConsumeQueue in b.queues then b.queues[ConsumeQueue] else []
  }

  /** Starting the consumer declares its queue before subscribing to it. */
  function StartConsumer(b: Broker): (b': Broker)
    ensures ConsumeQueue in b'.queues
    ensures b'.queues.Keys == b.queues.Keys + {ConsumerDeclaredQueue}
    ensures forall q :: q in b.queues ==> b'.queues[q] == b.queues[q]
    ensures ConsumerDeclaredQueue !in b.queues ==> b'.queues[ConsumerDeclaredQueue] == []
  {
    Declare(b, ConsumerDeclaredQueue)
  }

  /** Publisher and consumer meet on one queue whichever starts first: an
      event published through a new publisher ends up pending on the queue
      the consumer declared and subscribes to. */
  lemma ConsumerSeesPublished(b: Broker, e: LoanApplicationEvent)
    ensures var after := Publish(NewPublisher(StartConsumer(b)), e);
      && ConsumerDeclaredQueue in after.queues
      && Pending(after) == after.queues[ConsumerDeclaredQueue]
      && Pending(after) == Pending(StartConsumer(b)) + [Some(e)]
    ensures var after := StartConsumer(Publish(NewPublisher(b), e));
      && ConsumerDeclaredQueue in after.queues
      && Pending(after) == after.queues[ConsumerDeclaredQueue]
      && Some(e) in Pending(after)
  {
  }

  /** A freshly constructed publisher's message becomes pending for the consumer. */
  lemma PublishReachesConsumer(b: Broker, e: LoanApplicationEvent)
    ensures Some(e) in Pending(Publish(NewPublisher(b), e))
    ensures multiset(Pending(Publish(NewPublisher(b), e))) == multiset(Pending(b)) + multiset{Some(e)}
  {
  }

  /** Declaring twice is the same as declaring once. */
  lemma DeclareIdempotent(b: Broker, name: string)
    ensures Declare(Declare(b, name), name) == Declare(b, name)
  {
  }

  // ---------------------------------------------------------------- consumer

  /** What the consumer process has done so far: the rows persisted by its
      store and the number of messages acknowledged. */
  datatype ConsumerState = ConsumerState(store: seq<LoanApplication>, acked: nat)

  /** One delivery: the decoded payload, the id the store assigns if the row
      is saved, and whether `SaveChanges` succeeds. */
  datatype Delivery = Delivery(payload: Payload, assignedId: int, saveSucceeds: bool)

  /** The `Received` handler under `autoAck: true`: the message counts as
      acknowledged on delivery whatever happens next; a null payload is
      ignored; otherwise a new row copying the event is added and saved.
      There is no duplicate check. */
  function Receive(st: ConsumerState, d: Delivery): (st': ConsumerState)
    ensures st'.acked == st.acked + 1
    ensures d.payload.None? || !d.saveSucceeds ==> st'.store == st.store
    ensures d.payload.Some? && d.saveSucceeds ==>
      && |st'.store| == |st.store| + 1
      && st'.store[..|st.store|] == st.store
      && Copies(st'.store[|st.store|], d.payload.value)
      && st'.store[|st.store|].id == d.assignedId
  {
    match d.payload
    case None => st.(acked := st.acked + 1)
    case Some(e) =>
      var row := LoanApplication(d.assignedId, e.applicant, e.loanType, e.bank, e.timestamp);
      if d.saveSucceeds then ConsumerState(st.store + [row], st.acked + 1)
      else st.(acked := st.acked + 1)
  }

  /** The handler applied to a sequence of deliveries, in delivery order. */
  function ConsumeAll(st: ConsumerState, ds: seq<Delivery>): ConsumerState
    decreases |ds|
  {
    if |ds| == 0 then st else ConsumeAll(Receive(st, ds[0]), ds[1..])
  }

  /** Deliveries that end in a saved row. */
  function Persisting(ds: seq<Delivery>): nat
    decreases |ds|
  {
    if |ds| == 0 then 0
    else (if ds[0].payload.Some? && ds[0].saveSucceeds then 1 else 0) + Persisting(ds[1..])
  }

  /** Every delivery is acknowledged, each persisting delivery appends one
      row, and rows already stored are never changed. */
  lemma {:induction false} ConsumeAllAccounting(st: ConsumerState, ds: seq<Delivery>)
    ensures ConsumeAll(st, ds).acked == st.acked + |ds|
    ensures |ConsumeAll(st, ds).store| == |st.store| + Persisting(ds)
    ensures ConsumeAll(st, ds).store[..|st.store|] == st.store
    decreases |ds|
  {
    if |ds| > 0 {
      var st1 := Receive(st, ds[0]);
      ConsumeAllAccounting(st1, ds[1..]);
      var fin := ConsumeAll(st1, ds[1..]);
      assert fin.store[..|st.store|] == fin.store[..|st1.store|][..|st.store|];
    }
  }

  /** A null decode result persists nothing, though the message is acknowledged. */
  lemma NullPayloadPersistsNothing(st: ConsumerState, id: int, ok: bool)
    ensures Receive(st, Delivery(None, id, ok)).store == st.store
    ensures Receive(st, Delivery(None, id, ok)).acked == st.acked + 1
  {
  }

  /** Redelivering the same event stores it twice: the handler is not idempotent. */
  lemma RedeliveryDuplicates(st: ConsumerState, e: LoanApplicationEvent, id1: int, id2: int)
    ensures var fin := ConsumeAll(st, [Delivery(Some(e), id1, true), Delivery(Some(e), id2, true)]);
      && |fin.store| == |st.store| + 2
      && Copies(fin.store[|st.store|], e)
      && Copies(fin.store[|st.store| + 1], e)
  {
    var d1, d2 := Delivery(Some(e), id1, true), Delivery(Some(e), id2, true);
    var st1 := Receive(st, d1);
    var st2 := Receive(st1, d2);
    assert [d1, d2][1..] == [d2];
    assert ConsumeAll(st1, [d2]) == ConsumeAll(st2, []);
    assert st2.store[..|st1.store|] == st1.store;
  }

  /** A failed save still acknowledges the message, so it is never redelivered. */
  lemma AckedEvenWhenSaveFails(st: ConsumerState, e: LoanApplicationEvent, id: int)
    ensures Receive(st, Delivery(Some(e), id, false)).acked == st.acked + 1
    ensures Receive(st, Delivery(Some(e), id, false)).store == st.store
  {
  }
}
