/** QuickKart's domain values. `Guid` and `DateTime` are opaque integers:
    only their equality matters to the handlers. */
module Orders {
  type Guid = int

  datatype Order = Order(id: Guid, customerName: string, items: seq<string>, placedAt: int)
  datatype PlaceOrderCommand = PlaceOrderCommand(customerName: string, items: seq<string>)
  datatype OrderPlacedEvent = OrderPlacedEvent(orderId: Guid)
  datatype GetOrderByIdQuery = GetOrderByIdQuery(orderId: Guid)
}

/** The in-memory `OrderRepository`: an append-only list with first-match lookup. */
module OrderRepository {
  import opened Wrappers
  import opened Orders
  import Seqs

  /** `AddAsync`: appends, with no check for a duplicate id. */
  function AddAsync(orders: seq<Order>, o: Order): (r: seq<Order>)
    ensures |r| == |orders| + 1
    ensures r[..|orders|] == orders
    ensures r[|orders|] == o
  {
    orders + [o]
  }

  /** `GetByIdAsync`: the earliest stored order with that id, or null. */
  function GetByIdAsync(orders: seq<Order>, id: Guid): (r: Option<Order>)
    ensures r.None? <==> forall i :: 0 <= i < |orders| ==> orders[i].id != id
    ensures r.Some? ==> r.value.id == id
    ensures r.Some? ==> exists i :: 0 <= i < |orders| && orders[i] == r.value && (forall j :: 0 <= j < i ==> orders[j].id != id)
  {
    match Seqs.FirstIndex(orders, (o: Order) => o.id == id)
    case None => None
    case Some(i) => Some(orders[i])
  }

  /** Adding an order whose id is new makes it the answer for that id. */
  lemma AddThenGetFresh(orders: seq<Order>, o: Order)
    requires forall i :: 0 <= i < |orders| ==> orders[i].id != o.id
    ensures GetByIdAsync(AddAsync(orders, o), o.id) == Some(o)
  {
  }

  /** Lookup is first-match, so adding never changes the answer for an id
      already present, even when the new order repeats that id. */
  lemma AddKeepsExistingLookup(orders: seq<Order>, o: Order, id: Guid)
    requires GetByIdAsync(orders, id).Some?
    ensures GetByIdAsync(AddAsync(orders, o), id) == GetByIdAsync(orders, id)
  {
  }
}

/** The MediatR handlers of QuickKart as state transitions. `Send` and
    `Publish` routing is not modelled: a handler is a function of the
    repository state, and a notification is an effect in the trace. */
module OrderHandlers {
  import opened Wrappers
  import opened Orders
  import OrderRepository

  /** Side effects of `PlaceOrderHandler.Handle`, in the order they happen. */
  datatype Effect = Added(order: Order) | Committed | Published(event: OrderPlacedEvent)

  datatype PlaceOrderOutcome = PlaceOrderOutcome(orders: seq<Order>, trace: seq<Effect>, result: Option<Guid>)

  /** The shipped `UnitOfWork.CommitAsync` is a completed task: it never fails. */
  const ShippedCommitSucceeds := true

  /** `PlaceOrderHandler.Handle`: build the order from the command (with the
      fresh id and clock reading its initialisers would produce), add it,
      commit, publish `OrderPlacedEvent`, return the id. A failing commit
      throws: the add has already happened, nothing is published and no id
      is returned. */
  function PlaceOrder(orders: seq<Order>, cmd: PlaceOrderCommand, freshId: Guid, now: int, commitSucceeds: bool)
    : (out: PlaceOrderOutcome)
    ensures |out.orders| == |orders| + 1 && out.orders[..|orders|] == orders
    ensures out.orders[|orders|].customerName == cmd.customerName
    ensures out.orders[|orders|].items == cmd.items
    ensures out.orders[|orders|].id == freshId
    ensures |out.trace| >= 1 && out.trace[0] == Added(out.orders[|orders|])
    ensures commitSucceeds ==>
      && out.trace == [Added(out.orders[|orders|]), Committed, Published(OrderPlacedEvent(freshId))]
      && out.result == Some(freshId)
    ensures !commitSucceeds ==> out.trace == [Added(out.orders[|orders|])] && out.result.None?
    ensures forall i :: 0 <= i < |out.trace| && out.trace[i].Published? ==> Committed in out.trace[..i]
  {
    var order := Order(freshId, cmd.customerName, cmd.items, now);
    var orders' := OrderRepository.AddAsync(orders, order);
    if commitSucceeds then
      var trace := [Added(order), Committed, Published(OrderPlacedEvent(order.id))];
      assert trace[..2] == [Added(order), Committed];
      PlaceOrderOutcome(orders', trace, Some(order.id))
    else
      PlaceOrderOutcome(orders', [Added(order)], None)
  }

  /** `GetOrderByIdHandler.Handle`: the repository lookup for the query's id;
      the repository is not an output, so it is left as it was. */
  function GetOrderById(orders: seq<Order>, q: GetOrderByIdQuery): (r: Option<Order>)
    ensures r.None? <==> forall i :: 0 <= i < |orders| ==> orders[i].id != q.orderId
    ensures r.Some? ==> r.value in orders && r.value.id == q.orderId
    ensures r == OrderRepository.GetByIdAsync(orders, q.orderId)
  {
    OrderRepository.GetByIdAsync(orders, q.orderId)
  }

  /** With the shipped unit of work, placing an order always yields its id,
      which is also the id in the single published event. */
  lemma ShippedPlaceOrderSucceeds(orders: seq<Order>, cmd: PlaceOrderCommand, freshId: Guid, now: int)
    ensures var out := PlaceOrder(orders, cmd, freshId, now, ShippedCommitSucceeds);
      && out.result == Some(freshId)
      && multiset(out.trace)[Published(OrderPlacedEvent(freshId))] == 1
  {
  }

  /** Querying the id returned by a successful placement, when that id was
      fresh, yields the placed order with the command's contents. */
  lemma PlaceThenQuery(orders: seq<Order>, cmd: PlaceOrderCommand, freshId: Guid, now: int)
    requires forall i :: 0 <= i < |orders| ==> orders[i].id != freshId
    ensures var out := PlaceOrder(orders, cmd, freshId, now, true);
      && out.result.Some?
      && GetOrderById(out.orders, GetOrderByIdQuery(out.result.value)) == Some(Order(freshId, cmd.customerName, cmd.items, now))
  {
  }
}
