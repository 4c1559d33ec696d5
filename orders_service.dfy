/**
 * `OrdersService`: the server-side order lifecycle. Orders move DRAFT, CONFIRMED,
 * IN_PROGRESS, READY, CLOSED; their items move PENDING, IN_PROGRESS, READY and may be
 * soft-cancelled. Every write inside a transaction is a conditional update
 * (`updateMany` guarded by the expected current status) whose count must be one.
 *
 * `confirm`, `updateItemStatus` and `close` read the order before they open their
 * transaction. Each is modelled as a read phase (a `Prepare…` function of the tables)
 * followed by a transaction (a `Commit…` method), so that what another request may do
 * between the two can be stated; the public operation runs the two back to back.
 */
module OrdersService {
  import opened Common
  import opened Contracts
  import opened Db
  import Query

  /** The realtime events the service hands to `EventsEmitterService`. */
  datatype OrderEvent =
    | OrderNewEvent(
        orderId: Id, restaurantId: Id, tableSessionId: Id, status: OrderStatus,
        items: map<Id, OrderItem>, createdAt: Time)
    | OrderStatusChangedEvent(
        orderId: Id, restaurantId: Id, previousStatus: OrderStatus,
        newStatus: OrderStatus, updatedAt: Time)
    | ItemStatusChangedEvent(
        orderId: Id, itemId: Id, restaurantId: Id, previousItemStatus: ItemStatus,
        newItemStatus: ItemStatus, updatedAt: Time)

  datatype CreateOrderDto = CreateOrderDto(tableSessionId: Id, notes: Option<string>)

  datatype AddOrderItemDto = AddOrderItemDto(
    name: string, qty: nat, unitPrice: Option<Price>, notes: Option<string>)

  /** Each field is `undefined` (None) when the request leaves it out. */
  datatype UpdateOrderItemDto = UpdateOrderItemDto(
    name: Option<string>, qty: Option<nat>, unitPrice: Option<Price>, notes: Option<string>)

  /** An order with its items, as `mapOrderToResponse` returns it. */
  datatype OrderView = OrderView(order: Order, items: map<Id, OrderItem>)

  // ------------------------------------------------------------ pure rules

  /** `isValidStatusTransition`. */
  predicate IsValidStatusTransition(current: ItemStatus, next: ItemStatus) {
    if current.PENDING? then next.IN_PROGRESS? || next.CANCELLED?
    else if current.IN_PROGRESS? then next.READY? || next.CANCELLED?
    else if current.READY? then false
    else false
  }

  /** The allowed item moves, all of them: READY and CANCELLED are terminal and no status loops. */
  lemma TransitionsAllowed(current: ItemStatus, next: ItemStatus)
    ensures IsValidStatusTransition(current, next) <==>
      (current.PENDING? && next.IN_PROGRESS?) || (current.PENDING? && next.CANCELLED?) ||
      (current.IN_PROGRESS? && next.READY?) || (current.IN_PROGRESS? && next.CANCELLED?)
    ensures current.READY? || current.CANCELLED? ==> !IsValidStatusTransition(current, next)
    ensures !IsValidStatusTransition(current, current)
  {
  }

  /** `findFirst({ where: { id, restaurantId } })` on orders. */
  predicate OrderFound(orders: map<Id, Order>, restaurantId: Id, orderId: Id) {
    orderId in orders && orders[orderId].restaurantId == restaurantId
  }

  /** `findFirst({ where: { id, orderId, restaurantId } })` on items. */
  predicate ItemFound(items: map<Id, OrderItem>, restaurantId: Id, orderId: Id, itemId: Id) {
    itemId in items && items[itemId].orderId == orderId && items[itemId].restaurantId == restaurantId
  }

  /** `findFirst({ where: { id, restaurantId } })` on table sessions. */
  predicate SessionFound(sessions: map<Id, TableSession>, restaurantId: Id, sessionId: Id) {
    sessionId in sessions && sessions[sessionId].restaurantId == restaurantId
  }

  /** Every item is PENDING. */
  predicate AllPending(items: map<Id, OrderItem>) {
    forall i :: i in items ==> items[i].status.PENDING?
  }

  /** Some item is CANCELLED. */
  predicate HasCancelled(items: map<Id, OrderItem>) {
    exists i :: i in items && items[i].status.CANCELLED?
  }

  /** The order's non-cancelled items are all READY (vacuously so when there are none). */
  predicate ActiveItemsReady(items: map<Id, OrderItem>) {
    forall i :: i in items && !items[i].status.CANCELLED? ==> items[i].status.READY?
  }

  /**
   * The order status `updateItemStatus` moves the order to, if any, when one of its items
   * goes to `itemTarget`; `allActiveReady` says whether every non-cancelled item of the
   * order is READY after the item write.
   */
  function AutoAdvance(orderStatus: OrderStatus, itemTarget: ItemStatus, allActiveReady: bool): (r: Option<OrderStatus>)
    ensures r == Some(OrderStatus.IN_PROGRESS) <==> itemTarget.IN_PROGRESS? && orderStatus.CONFIRMED?
    ensures r == Some(OrderStatus.READY) <==> itemTarget.READY? && orderStatus.IN_PROGRESS? && allActiveReady
    ensures r.Some? ==> r == Some(OrderStatus.IN_PROGRESS) || r == Some(OrderStatus.READY)
    ensures r.Some? ==> OrderRank(r.value) == OrderRank(orderStatus) + 1
    ensures itemTarget.CANCELLED? || itemTarget.PENDING? ==> r.None?
  {
    if itemTarget.IN_PROGRESS? && orderStatus.CONFIRMED? then Some(OrderStatus.IN_PROGRESS)
    else if itemTarget.READY? && orderStatus.IN_PROGRESS? && allActiveReady then Some(OrderStatus.READY)
    else None
  }

  /**
   * Cancelling an item never advances its order, and once the items of an IN_PROGRESS
   * order are all READY or CANCELLED none of them has a move left: cancelling the last
   * unfinished item leaves the order IN_PROGRESS, and no later item move takes it to READY.
   */
  lemma CancellingLastItemStrandsOrder(items: map<Id, OrderItem>, orderId: Id)
    requires forall i :: i in items && items[i].orderId == orderId ==> items[i].status.READY? || items[i].status.CANCELLED?
    ensures forall b :: AutoAdvance(OrderStatus.IN_PROGRESS, ItemStatus.CANCELLED, b).None?
    ensures forall i, next :: i in items && items[i].orderId == orderId ==> !IsValidStatusTransition(items[i].status, next)
  {
    forall i, next | i in items && items[i].orderId == orderId ensures !IsValidStatusTransition(items[i].status, next) {
      TransitionsAllowed(items[i].status, next);
    }
  }

  /**
   * The `findMany` of `updateItemStatus`'s transaction: the order's non-cancelled items
   * of the tenant are all READY.
   */
  predicate AllActiveReady(items: map<Id, OrderItem>, orderId: Id, restaurantId: Id) {
    forall i :: (i in items && items[i].orderId == orderId && items[i].restaurantId == restaurantId &&
                 !items[i].status.CANCELLED?) ==> items[i].status.READY?
  }

  /** The order statuses in which the kitchen may move items. */
  predicate Workable(s: OrderStatus) {
    s.CONFIRMED? || s.IN_PROGRESS?
  }

  /** The item the ticket names still has the status the read phase saw. */
  predicate ItemMatches(items: map<Id, OrderItem>, t: ItemStatusTicket) {
    ItemFound(items, t.restaurantId, t.orderId, t.itemId) && items[t.itemId].status == t.previousStatus
  }

  /** `findActive`'s status filter: the requested statuses, or every open status when none is given. */
  function ActiveStatuses(statuses: seq<OrderStatus>): (r: seq<OrderStatus>)
    ensures |statuses| > 0 ==> r == statuses
    ensures |statuses| == 0 ==> forall s :: s in r <==> !(s.CLOSED? || s.CANCELLED?)
  {
    if |statuses| > 0 then statuses else [DRAFT, CONFIRMED, OrderStatus.IN_PROGRESS, OrderStatus.READY]
  }

  /** `findActive`'s `where`. */
  predicate MatchesActive(o: Order, restaurantId: Id, statuses: seq<OrderStatus>, tableSessionId: Option<Id>) {
    o.restaurantId == restaurantId && o.status in ActiveStatuses(statuses) &&
    (tableSessionId.Some? ==> o.tableSessionId == tableSessionId.value)
  }

  /** `updateItem`'s `updateData`: only the supplied fields change, and the row is stamped. */
  function ApplyItemUpdate(item: OrderItem, dto: UpdateOrderItemDto, now: Time): (r: OrderItem)
    ensures r.id == item.id && r.orderId == item.orderId && r.restaurantId == item.restaurantId
    ensures r.status == item.status && r.createdAt == item.createdAt && r.updatedAt == now
    ensures r.name == (if dto.name.Some? then dto.name.value else item.name)
    ensures r.qty == (if dto.qty.Some? then dto.qty.value else item.qty)
    ensures r.unitPrice == (if dto.unitPrice.Some? then PriceOrNull(dto.unitPrice) else item.unitPrice)
    ensures r.notes == (if dto.notes.Some? then OrNull(dto.notes) else item.notes)
  {
    var withName := if dto.name.Some? then item.(name := dto.name.value) else item;
    var withQty := if dto.qty.Some? then withName.(qty := dto.qty.value) else withName;
    var withPrice := if dto.unitPrice.Some? then withQty.(unitPrice := PriceOrNull(dto.unitPrice)) else withQty;
    var withNotes := if dto.notes.Some? then withPrice.(notes := OrNull(dto.notes)) else withPrice;
    withNotes.(updatedAt := now)
  }

  // ------------------------------------------------------------ lifecycle coherence

  /**
   * The item statuses an order in status `o` can hold: none has started while the
   * order is DRAFT or CONFIRMED, and every non-cancelled one is READY once the order
   * is READY or CLOSED.
   */
  predicate ItemFits(o: OrderStatus, s: ItemStatus) {
    (o.DRAFT? || o.CONFIRMED? ==> s.PENDING? || s.CANCELLED?) &&
    (o.READY? || o.CLOSED? ==> s.READY? || s.CANCELLED?)
  }

  /** Every item fits the status of its order. */
  predicate Coherent(orders: map<Id, Order>, items: map<Id, OrderItem>) {
    forall i :: i in items && items[i].orderId in orders ==> ItemFits(orders[items[i].orderId].status, items[i].status)
  }

  /** Writing an order row keeps coherence when its items fit its new status. */
  lemma OrderWriteKeepsCoherence(orders: map<Id, Order>, items: map<Id, OrderItem>, o: Order)
    requires Coherent(orders, items)
    requires forall i :: i in items && items[i].orderId == o.id ==> ItemFits(o.status, items[i].status)
    ensures Coherent(orders[o.id := o], items)
  {
  }

  /** Writing an item row keeps coherence when it fits its order's status. */
  lemma ItemWriteKeepsCoherence(orders: map<Id, Order>, items: map<Id, OrderItem>, x: OrderItem)
    requires Coherent(orders, items)
    requires x.orderId in orders ==> ItemFits(orders[x.orderId].status, x.status)
    ensures Coherent(orders, items[x.id := x])
  {
  }

  /** A new order row keeps coherence: no item refers to it yet. */
  lemma NewOrderKeepsCoherence(orders: map<Id, Order>, items: map<Id, OrderItem>, o: Order)
    requires Coherent(orders, items) && ItemsWellFormed(items, orders) && o.id !in orders
    ensures Coherent(orders[o.id := o], items)
  {
    OrderWriteKeepsCoherence(orders, items, o);
  }

  /**
   * `close`'s item check is defensive: in a coherent store a READY order always passes it.
   */
  lemma ReadyOrderPassesCloseCheck(orders: map<Id, Order>, items: map<Id, OrderItem>, orderId: Id)
    requires Coherent(orders, items) && orderId in orders && orders[orderId].status.READY?
    ensures ActiveItemsReady(ItemsOf(items, orderId))
  {
  }

  /**
   * On a CONFIRMED order every accepted item move either starts the item, and then the
   * order auto-advances to IN_PROGRESS, or cancels it.
   */
  lemma {:induction false} ConfirmedOrderMoves(orders: map<Id, Order>, items: map<Id, OrderItem>, t: ItemStatusTicket)
    requires Coherent(orders, items) && ItemMatches(items, t) && t.orderId in orders
    requires orders[t.orderId].status.CONFIRMED? && IsValidStatusTransition(t.previousStatus, t.newStatus)
    ensures t.previousStatus.PENDING?
    ensures t.newStatus.IN_PROGRESS? || t.newStatus.CANCELLED?
    ensures forall b :: t.newStatus.IN_PROGRESS? ==>
      AutoAdvance(orders[t.orderId].status, t.newStatus, b) == Some(OrderStatus.IN_PROGRESS)
  {
    assert ItemFits(orders[items[t.itemId].orderId].status, items[t.itemId].status);
  }

  /**
   * A successful `updateItemStatus` transaction keeps the store coherent: the item write
   * together with the auto-advance never leaves an item ahead of, or behind, its order.
   */
  lemma {:induction false} ItemStatusKeepsCoherence(
    orders: map<Id, Order>, items: map<Id, OrderItem>, t: ItemStatusTicket, now: Time)
    requires Coherent(orders, items) && ItemsWellFormed(items, orders)
    requires ItemMatches(items, t) && OrderFound(orders, t.restaurantId, t.orderId)
    requires Workable(orders[t.orderId].status) && IsValidStatusTransition(t.previousStatus, t.newStatus)
    ensures
      var items1 := items[t.itemId := items[t.itemId].(status := t.newStatus, updatedAt := now)];
      var advance := AutoAdvance(orders[t.orderId].status, t.newStatus, AllActiveReady(items1, t.orderId, t.restaurantId));
      var orders1 := if advance.Some? then orders[t.orderId := orders[t.orderId].(status := advance.value, updatedAt := now)]
                     else orders;
      Coherent(orders1, items1)
  {
    var items1 := items[t.itemId := items[t.itemId].(status := t.newStatus, updatedAt := now)];
    var ready := AllActiveReady(items1, t.orderId, t.restaurantId);
    var advance := AutoAdvance(orders[t.orderId].status, t.newStatus, ready);
    var orders1 := if advance.Some? then orders[t.orderId := orders[t.orderId].(status := advance.value, updatedAt := now)]
                   else orders;
    if orders[t.orderId].status.CONFIRMED? {
      ConfirmedOrderMoves(orders, items, t);
    }
    forall i | i in items1 && items1[i].orderId in orders1
      ensures ItemFits(orders1[items1[i].orderId].status, items1[i].status)
    {
      assert items1[i].orderId in orders;
      if items1[i].orderId == t.orderId && advance == Some(OrderStatus.READY) {
        assert items1[i].restaurantId == t.restaurantId;
      } else if i != t.itemId {
        assert ItemFits(orders[items[i].orderId].status, items[i].status);
      }
    }
  }

  // ------------------------------------------------------------ read phases

  /** What `confirm` established before its transaction. */
  datatype ConfirmTicket = ConfirmTicket(restaurantId: Id, orderId: Id)

  /** `confirm` up to its transaction: lookup, then the checks on the items. */
  function PrepareConfirm(orders: map<Id, Order>, items: map<Id, OrderItem>, restaurantId: Id, orderId: Id)
    : Result<ConfirmTicket, HttpError>
  {
    if !OrderFound(orders, restaurantId, orderId) then Err(NotFound("Order not found"))
    else CheckConfirmable(ItemsOf(items, orderId), ConfirmTicket(restaurantId, orderId))
  }

  /** The item checks of `confirm`, in the source's order. */
  function CheckConfirmable(orderItems: map<Id, OrderItem>, t: ConfirmTicket): Result<ConfirmTicket, HttpError> {
    if |orderItems| == 0 then Err(BadRequest("Order must have at least one item"))
    else if HasCancelled(orderItems) then
      Err(Conflict("Cannot confirm order with cancelled items"))
    else if exists i :: i in orderItems && !orderItems[i].status.PENDING? then
      Err(Conflict("All items must be in PENDING status to confirm order"))
    else Ok(t)
  }

  /** What `updateItemStatus` read before its transaction. */
  datatype ItemStatusTicket = ItemStatusTicket(
    restaurantId: Id, orderId: Id, itemId: Id, previousStatus: ItemStatus, newStatus: ItemStatus)

  /** `updateItemStatus` up to its transaction. */
  function PrepareItemStatus(
    orders: map<Id, Order>, items: map<Id, OrderItem>,
    restaurantId: Id, orderId: Id, itemId: Id, newStatus: ItemStatus): Result<ItemStatusTicket, HttpError>
  {
    if !OrderFound(orders, restaurantId, orderId) then Err(NotFound("Order not found"))
    else if !(orders[orderId].status.CONFIRMED? || orders[orderId].status.IN_PROGRESS?) then
      Err(Conflict("Cannot update item status when order is in " + OrderStatusName(orders[orderId].status) +
        " status. Order must be CONFIRMED or IN_PROGRESS."))
    else if !(itemId in items && items[itemId].orderId == orderId) then Err(NotFound("Order item not found"))
    else if !IsValidStatusTransition(items[itemId].status, newStatus) then
      Err(Conflict("Invalid status transition from " + ItemStatusName(items[itemId].status) + " to " +
        ItemStatusName(newStatus)))
    else Ok(ItemStatusTicket(restaurantId, orderId, itemId, items[itemId].status, newStatus))
  }

  /** What `close` read before its transaction, `previousStatus` included. */
  datatype CloseTicket = CloseTicket(restaurantId: Id, orderId: Id, previousStatus: OrderStatus)

  /** `close` up to its transaction. */
  function PrepareClose(orders: map<Id, Order>, items: map<Id, OrderItem>, restaurantId: Id, orderId: Id)
    : Result<CloseTicket, HttpError>
  {
    if !OrderFound(orders, restaurantId, orderId) then Err(NotFound("Order not found"))
    else if !ActiveItemsReady(ItemsOf(items, orderId)) then
      Err(BadRequest("All items must be READY before closing order"))
    else Ok(CloseTicket(restaurantId, orderId, orders[orderId].status))
  }

  // ------------------------------------------------------------ the service

  class OrdersService {
    const db: Database

    /** Every event handed to `EventsEmitterService`, oldest first. */
    ghost var events: seq<OrderEvent>

    constructor (db: Database)
      ensures this.db == db && events == []
    {
      this.db := db;
      events := [];
    }

    /** `create`: a DRAFT order without items on an open session of the tenant. */
    method Create(restaurantId: Id, userId: Id, dto: CreateOrderDto, now: Time) returns (r: Result<OrderView, HttpError>)
      requires db.Valid()
      modifies db`orders, db`nextId
      ensures db.Valid()
      ensures Coherent(old(db.orders), old(db.items)) ==> Coherent(db.orders, db.items)
      ensures !SessionFound(db.sessions, restaurantId, dto.tableSessionId) ==>
        r == Err(NotFound("Table session not found"))
      ensures SessionFound(db.sessions, restaurantId, dto.tableSessionId) && db.sessions[dto.tableSessionId].status.CLOSED? ==>
        r == Err(BadRequest("Cannot create order for closed table session"))
      ensures r.Err? ==> unchanged(db)
      ensures SessionFound(db.sessions, restaurantId, dto.tableSessionId) && !db.sessions[dto.tableSessionId].status.CLOSED? ==>
        r.Ok? && r.value.items == map[] &&
        r.value.order == Order(old(db.nextId), restaurantId, dto.tableSessionId, userId, DRAFT,
          OrNull(dto.notes), None, None, now, now) &&
        db.orders == old(db.orders)[r.value.order.id := r.value.order]
    {
      if !SessionFound(db.sessions, restaurantId, dto.tableSessionId) {
        return Err(NotFound("Table session not found"));
      }
      var session := db.sessions[dto.tableSessionId];
      if session.status.CLOSED? {
        return Err(BadRequest("Cannot create order for closed table session"));
      }
      var id := db.FreshId();
      var order := Order(id, restaurantId, dto.tableSessionId, userId, DRAFT, OrNull(dto.notes), None, None, now, now);
      if Coherent(db.orders, db.items) {
        NewOrderKeepsCoherence(db.orders, db.items, order);
      }
      db.PutOrder(order);
      r := Ok(OrderView(order, map[]));
    }

    /** `addItem`: a PENDING item, only while the order is DRAFT. */
    method AddItem(restaurantId: Id, orderId: Id, dto: AddOrderItemDto, now: Time) returns (r: Result<OrderItem, HttpError>)
      requires db.Valid()
      requires dto.name != "" && dto.qty >= 1
      modifies db`items, db`nextId
      ensures db.Valid()
      ensures Coherent(old(db.orders), old(db.items)) ==> Coherent(db.orders, db.items)
      ensures !OrderFound(db.orders, restaurantId, orderId) ==> r == Err(NotFound("Order not found"))
      ensures OrderFound(db.orders, restaurantId, orderId) && !db.orders[orderId].status.DRAFT? ==>
        r == Err(Conflict("Cannot add items to order that is not in DRAFT status"))
      ensures r.Err? ==> unchanged(db)
      ensures OrderFound(db.orders, restaurantId, orderId) && db.orders[orderId].status.DRAFT? ==>
        r == Ok(OrderItem(old(db.nextId), restaurantId, orderId, dto.name, dto.qty,
          PriceOrNull(dto.unitPrice), PENDING, OrNull(dto.notes), now, now)) &&
        db.items == old(db.items)[r.value.id := r.value]
    {
      if !OrderFound(db.orders, restaurantId, orderId) {
        return Err(NotFound("Order not found"));
      }
      // the transaction, under the order's lock
      if !db.orders[orderId].status.DRAFT? {
        return Err(Conflict("Cannot add items to order that is not in DRAFT status"));
      }
      var id := db.FreshId();
      var item := OrderItem(id, restaurantId, orderId, dto.name, dto.qty,
        PriceOrNull(dto.unitPrice), PENDING, OrNull(dto.notes), now, now);
      db.PutItem(item);
      r := Ok(item);
    }

    /** `updateItem`: changes the supplied fields of a non-cancelled item of a DRAFT order. */
    method UpdateItem(restaurantId: Id, orderId: Id, itemId: Id, dto: UpdateOrderItemDto, now: Time)
      returns (r: Result<OrderItem, HttpError>)
      requires db.Valid()
      requires dto.qty.Some? ==> dto.qty.value >= 1
      modifies db`items
      ensures db.Valid()
      ensures Coherent(old(db.orders), old(db.items)) ==> Coherent(db.orders, db.items)
      ensures !OrderFound(db.orders, restaurantId, orderId) ==> r == Err(NotFound("Order not found"))
      ensures OrderFound(db.orders, restaurantId, orderId) && !ItemFound(old(db.items), restaurantId, orderId, itemId) ==>
        r == Err(NotFound("Order item not found"))
      ensures r.Err? ==> unchanged(db)
      ensures OrderFound(db.orders, restaurantId, orderId) && ItemFound(old(db.items), restaurantId, orderId, itemId) ==>
        (!db.orders[orderId].status.DRAFT? ==>
          r == Err(Conflict("Cannot update items in order that is not in DRAFT status"))) &&
        (db.orders[orderId].status.DRAFT? && old(db.items)[itemId].status.CANCELLED? ==>
          r == Err(Conflict("Cannot update cancelled item"))) &&
        (db.orders[orderId].status.DRAFT? && !old(db.items)[itemId].status.CANCELLED? ==>
          r == Ok(ApplyItemUpdate(old(db.items)[itemId], dto, now)) &&
          db.items == old(db.items)[itemId := r.value])
    {
      if !OrderFound(db.orders, restaurantId, orderId) {
        return Err(NotFound("Order not found"));
      }
      if !ItemFound(db.items, restaurantId, orderId, itemId) {
        return Err(NotFound("Order item not found"));
      }
      // the transaction, under the order's lock
      if !db.orders[orderId].status.DRAFT? {
        return Err(Conflict("Cannot update items in order that is not in DRAFT status"));
      }
      var count := 0;
      if !db.items[itemId].status.CANCELLED? {
        db.PutItem(ApplyItemUpdate(db.items[itemId], dto, now));
        count := 1;
      }
      if count != 1 {
        // the item is there, so the failed condition is the cancelled status
        return Err(Conflict("Cannot update cancelled item"));
      }
      r := Ok(db.items[itemId]);
    }

    /** `deleteItem`: a soft cancel, only while the order is DRAFT or CONFIRMED; nothing is removed. */
    method DeleteItem(restaurantId: Id, orderId: Id, itemId: Id, now: Time) returns (r: Result<OrderItem, HttpError>)
      requires db.Valid()
      modifies db`items
      ensures db.Valid()
      ensures Coherent(old(db.orders), old(db.items)) ==> Coherent(db.orders, db.items)
      ensures db.items.Keys == old(db.items).Keys
      ensures !OrderFound(db.orders, restaurantId, orderId) ==> r == Err(NotFound("Order not found"))
      ensures OrderFound(db.orders, restaurantId, orderId) && !ItemFound(old(db.items), restaurantId, orderId, itemId) ==>
        r == Err(NotFound("Order item not found"))
      ensures r.Err? ==> unchanged(db)
      ensures OrderFound(db.orders, restaurantId, orderId) && ItemFound(old(db.items), restaurantId, orderId, itemId) ==>
        (!(db.orders[orderId].status.DRAFT? || db.orders[orderId].status.CONFIRMED?) ==>
          r == Err(Conflict("Cannot cancel items from order that is not in DRAFT or CONFIRMED status"))) &&
        ((db.orders[orderId].status.DRAFT? || db.orders[orderId].status.CONFIRMED?) &&
          old(db.items)[itemId].status.CANCELLED? ==>
          r == Err(Conflict("Item is already cancelled"))) &&
        ((db.orders[orderId].status.DRAFT? || db.orders[orderId].status.CONFIRMED?) &&
          !old(db.items)[itemId].status.CANCELLED? ==>
          r == Ok(old(db.items)[itemId].(status := ItemStatus.CANCELLED, updatedAt := now)) &&
          db.items == old(db.items)[itemId := r.value])
    {
      if !OrderFound(db.orders, restaurantId, orderId) {
        return Err(NotFound("Order not found"));
      }
      if !ItemFound(db.items, restaurantId, orderId, itemId) {
        return Err(NotFound("Order item not found"));
      }
      // the transaction, under the order's lock
      if !(db.orders[orderId].status.DRAFT? || db.orders[orderId].status.CONFIRMED?) {
        return Err(Conflict("Cannot cancel items from order that is not in DRAFT or CONFIRMED status"));
      }
      var count := 0;
      if !db.items[itemId].status.CANCELLED? {
        var cancelled := db.items[itemId].(status := ItemStatus.CANCELLED, updatedAt := now);
        if Coherent(db.orders, db.items) {
          ItemWriteKeepsCoherence(db.orders, db.items, cancelled);
        }
        db.PutItem(cancelled);
        assert db.items == old(db.items)[itemId := cancelled];
        count := 1;
      }
      if count != 1 {
        return Err(Conflict("Item is already cancelled"));
      }
      r := Ok(db.items[itemId]);
    }

    /**
     * The transaction of `confirm`: the conditional update DRAFT to CONFIRMED (the item
     * checks were made before the lock was taken), then the `order.new` event with the
     * order's items. No status-changed event is emitted.
     */
    method CommitConfirm(t: ConfirmTicket, now: Time) returns (r: Result<OrderView, HttpError>)
      requires db.Valid()
      modifies db`orders, this`events
      ensures db.Valid()
      ensures Coherent(old(db.orders), old(db.items)) ==> Coherent(db.orders, db.items)
      ensures !(OrderFound(old(db.orders), t.restaurantId, t.orderId) && old(db.orders)[t.orderId].status.DRAFT?) ==>
        r == Err(Conflict("Order is not in DRAFT status or was already modified")) &&
        unchanged(db) && events == old(events)
      ensures OrderFound(old(db.orders), t.restaurantId, t.orderId) && old(db.orders)[t.orderId].status.DRAFT? ==>
        ConfirmedAs(r, old(db.orders), old(events), t, now)
    {
      var count := 0;
      if OrderFound(db.orders, t.restaurantId, t.orderId) && db.orders[t.orderId].status.DRAFT? {
        if Coherent(db.orders, db.items) {
          OrderWriteKeepsCoherence(db.orders, db.items,
            db.orders[t.orderId].(status := CONFIRMED, confirmedAt := Some(now), updatedAt := now));
        }
        db.PutOrder(db.orders[t.orderId].(status := CONFIRMED, confirmedAt := Some(now), updatedAt := now));
        count := 1;
      }
      if count != 1 {
        return Err(Conflict("Order is not in DRAFT status or was already modified"));
      }
      var confirmed := db.orders[t.orderId];
      var orderItems := ItemsOf(db.items, t.orderId);
      events := events + [OrderNewEvent(confirmed.id, confirmed.restaurantId, confirmed.tableSessionId,
        confirmed.status, orderItems, confirmed.createdAt)];
      r := Ok(OrderView(confirmed, orderItems));
    }

    /** The conditional write DRAFT to CONFIRMED and the `order.new` event. */
    ghost predicate ConfirmedAs(r: Result<OrderView, HttpError>, orders0: map<Id, Order>, events0: seq<OrderEvent>,
      t: ConfirmTicket, now: Time)
      requires t.orderId in orders0
      reads this, db
    {
      var confirmed := orders0[t.orderId].(status := CONFIRMED, confirmedAt := Some(now), updatedAt := now);
      r == Ok(OrderView(confirmed, ItemsOf(db.items, t.orderId))) &&
      db.orders == orders0[t.orderId := confirmed] &&
      events == events0 + [OrderNewEvent(t.orderId, confirmed.restaurantId, confirmed.tableSessionId,
        CONFIRMED, ItemsOf(db.items, t.orderId), confirmed.createdAt)]
    }

    /**
     * `confirm`: a DRAFT order with at least one item, all of them PENDING, becomes
     * CONFIRMED and an `order.new` event is emitted; nothing else is emitted.
     */
    method Confirm(restaurantId: Id, orderId: Id, now: Time) returns (r: Result<OrderView, HttpError>)
      requires db.Valid()
      modifies db`orders, this`events
      ensures db.Valid()
      ensures Coherent(old(db.orders), old(db.items)) ==> Coherent(db.orders, db.items)
      ensures r.Err? ==> unchanged(db) && events == old(events)
      ensures !OrderFound(db.orders, restaurantId, orderId) ==> r == Err(NotFound("Order not found"))
      ensures OrderFound(db.orders, restaurantId, orderId) && |ItemsOf(db.items, orderId)| == 0 ==>
        r == Err(BadRequest("Order must have at least one item"))
      ensures (OrderFound(db.orders, restaurantId, orderId) && |ItemsOf(db.items, orderId)| >= 1 &&
        HasCancelled(ItemsOf(db.items, orderId))) ==>
        r == Err(Conflict("Cannot confirm order with cancelled items"))
      ensures OrderFound(db.orders, restaurantId, orderId) && !AllPending(ItemsOf(db.items, orderId)) ==>
        r.Err? && r.error.Conflict?
      ensures (OrderFound(db.orders, restaurantId, orderId) && !HasCancelled(ItemsOf(db.items, orderId)) &&
        !AllPending(ItemsOf(db.items, orderId))) ==>
        r == Err(Conflict("All items must be in PENDING status to confirm order"))
      ensures OrderFound(old(db.orders), restaurantId, orderId) && !old(db.orders)[orderId].status.DRAFT? ==>
        r.Err? &&
        (|ItemsOf(db.items, orderId)| >= 1 && AllPending(ItemsOf(db.items, orderId)) ==>
          r == Err(Conflict("Order is not in DRAFT status or was already modified")))
      ensures (OrderFound(old(db.orders), restaurantId, orderId) && old(db.orders)[orderId].status.DRAFT? &&
        |ItemsOf(db.items, orderId)| >= 1 && AllPending(ItemsOf(db.items, orderId))) ==>
        ConfirmedAs(r, old(db.orders), old(events), ConfirmTicket(restaurantId, orderId), now)
    {
      var ticket := PrepareConfirm(db.orders, db.items, restaurantId, orderId);
      if ticket.Err? {
        return Err(ticket.error);
      }
      r := CommitConfirm(ticket.value, now);
    }

    /**
     * The transaction of `updateItemStatus`: the item write is conditional on the status
     * read before, then the order may auto-advance; an item event is emitted, and an
     * order event when the order changed.
     */
    method CommitItemStatus(t: ItemStatusTicket, now: Time) returns (r: Result<OrderItem, HttpError>)
      requires db.Valid() && t.orderId in db.orders
      modifies db`items, db`orders, this`events
      ensures db.Valid()
      ensures !ItemMatches(old(db.items), t) ==>
        r == Err(Conflict("Item status changed concurrently. Expected " + ItemStatusName(t.previousStatus) +
          ", but item was modified.")) &&
        unchanged(db) && events == old(events)
      ensures ItemMatches(old(db.items), t) ==> ItemStatusWritten(r, old(db.items), old(db.orders), old(events), t, now)
    {
      if !ItemMatches(db.items, t) {
        return Err(Conflict("Item status changed concurrently. Expected " + ItemStatusName(t.previousStatus) +
          ", but item was modified."));
      }
      ghost var items0, orders0, events0 := db.items, db.orders, events;
      var item, previousOrderStatus, advance := WriteItemStatus(t, now);
      var itemEvent := ItemStatusChangedEvent(t.orderId, t.itemId, t.restaurantId, t.previousStatus,
        item.status, item.updatedAt);
      if advance.Some? {
        events := events + [itemEvent] + [OrderStatusChangedEvent(t.orderId, t.restaurantId, previousOrderStatus,
          advance.value, db.orders[t.orderId].updatedAt)];
      } else {
        events := events + [itemEvent];
      }
      r := Ok(item);
    }

    /**
     * The writes of `updateItemStatus`'s transaction once the item still has the status
     * read before: the item gets its new status, then the order may auto-advance.
     */
    method WriteItemStatus(t: ItemStatusTicket, now: Time)
      returns (item: OrderItem, previousOrderStatus: OrderStatus, advance: Option<OrderStatus>)
      requires db.Valid() && t.orderId in db.orders && ItemMatches(db.items, t)
      modifies db`items, db`orders
      ensures db.Valid()
      ensures item == old(db.items)[t.itemId].(status := t.newStatus, updatedAt := now)
      ensures db.items == old(db.items)[t.itemId := item]
      ensures previousOrderStatus == old(db.orders)[t.orderId].status
      ensures advance == AutoAdvance(previousOrderStatus, t.newStatus, AllActiveReady(db.items, t.orderId, t.restaurantId))
      ensures db.orders == if advance.Some? then
        old(db.orders)[t.orderId := old(db.orders)[t.orderId].(status := advance.value, updatedAt := now)]
        else old(db.orders)
    {
      item := db.items[t.itemId].(status := t.newStatus, updatedAt := now);
      assert db.orders[item.orderId].restaurantId == item.restaurantId;
      db.PutItem(item);
      previousOrderStatus := db.orders[t.orderId].status;
      advance := AdvanceOrder(t, now);
    }

    /**
     * The auto-advance inside `updateItemStatus`'s transaction: the order moves from
     * CONFIRMED to IN_PROGRESS when an item starts, and from IN_PROGRESS to READY when an
     * item becomes READY and every non-cancelled item of the order is READY.
     */
    method AdvanceOrder(t: ItemStatusTicket, now: Time) returns (advance: Option<OrderStatus>)
      requires db.Valid() && t.orderId in db.orders && db.orders[t.orderId].restaurantId == t.restaurantId
      modifies db`orders
      ensures db.Valid()
      ensures advance == AutoAdvance(old(db.orders)[t.orderId].status, t.newStatus,
        AllActiveReady(db.items, t.orderId, t.restaurantId))
      ensures db.orders == if advance.Some? then
        old(db.orders)[t.orderId := old(db.orders)[t.orderId].(status := advance.value, updatedAt := now)]
        else old(db.orders)
    {
      var current := db.orders[t.orderId];
      advance := None;
      if t.newStatus.IN_PROGRESS? && current.status.CONFIRMED? {
        var count := 0;
        if current.restaurantId == t.restaurantId && current.status.CONFIRMED? {
          db.PutOrder(current.(status := OrderStatus.IN_PROGRESS, updatedAt := now));
          count := 1;
        }
        if count == 1 {
          advance := Some(OrderStatus.IN_PROGRESS);
        }
      } else if t.newStatus.READY? && current.status.IN_PROGRESS? {
        var allReady := AllActiveReady(db.items, t.orderId, t.restaurantId);
        if allReady {
          var count := 0;
          if current.restaurantId == t.restaurantId && current.status.IN_PROGRESS? {
            db.PutOrder(current.(status := OrderStatus.READY, updatedAt := now));
            count := 1;
          }
          if count == 1 {
            advance := Some(OrderStatus.READY);
          }
        }
      }
    }

    /** The writes and events of a successful `updateItemStatus` transaction. */
    ghost predicate ItemStatusWritten(r: Result<OrderItem, HttpError>, items0: map<Id, OrderItem>,
      orders0: map<Id, Order>, events0: seq<OrderEvent>, t: ItemStatusTicket, now: Time)
      requires t.itemId in items0 && t.orderId in orders0
      reads this, db
    {
      var item := items0[t.itemId].(status := t.newStatus, updatedAt := now);
      var order0 := orders0[t.orderId];
      var advance := AutoAdvance(order0.status, t.newStatus,
        AllActiveReady(items0[t.itemId := item], t.orderId, t.restaurantId));
      r == Ok(item) &&
      db.items == items0[t.itemId := item] &&
      db.orders == (if advance.Some? then orders0[t.orderId := order0.(status := advance.value, updatedAt := now)]
                    else orders0) &&
      events == events0 + [ItemStatusChangedEvent(t.orderId, t.itemId, t.restaurantId, t.previousStatus, t.newStatus, now)] +
        (if advance.Some? then [OrderStatusChangedEvent(t.orderId, t.restaurantId, order0.status, advance.value, now)]
         else [])
    }

    /**
     * `updateItemStatus`: an allowed move of an item of a CONFIRMED or IN_PROGRESS order,
     * with the order's auto-advance and the events.
     */
    method UpdateItemStatus(restaurantId: Id, orderId: Id, itemId: Id, newStatus: ItemStatus, now: Time)
      returns (r: Result<OrderItem, HttpError>)
      requires db.Valid()
      modifies db`items, db`orders, this`events
      ensures db.Valid()
      ensures Coherent(old(db.orders), old(db.items)) ==> Coherent(db.orders, db.items)
      ensures r.Err? ==> unchanged(db) && events == old(events)
      ensures !OrderFound(old(db.orders), restaurantId, orderId) ==> r == Err(NotFound("Order not found"))
      ensures OrderFound(old(db.orders), restaurantId, orderId) && !Workable(old(db.orders)[orderId].status) ==>
        r == Err(Conflict("Cannot update item status when order is in " + OrderStatusName(old(db.orders)[orderId].status) +
          " status. Order must be CONFIRMED or IN_PROGRESS."))
      ensures OrderFound(old(db.orders), restaurantId, orderId) && Workable(old(db.orders)[orderId].status) ==>
        (!(itemId in old(db.items) && old(db.items)[itemId].orderId == orderId) ==>
          r == Err(NotFound("Order item not found"))) &&
        (itemId in old(db.items) && old(db.items)[itemId].orderId == orderId ==>
          (!IsValidStatusTransition(old(db.items)[itemId].status, newStatus) ==>
            r == Err(Conflict("Invalid status transition from " + ItemStatusName(old(db.items)[itemId].status) +
              " to " + ItemStatusName(newStatus)))) &&
          (IsValidStatusTransition(old(db.items)[itemId].status, newStatus) ==>
            ItemStatusWritten(r, old(db.items), old(db.orders), old(events),
              ItemStatusTicket(restaurantId, orderId, itemId, old(db.items)[itemId].status, newStatus), now)))
    {
      var ticket := PrepareItemStatus(db.orders, db.items, restaurantId, orderId, itemId, newStatus);
      if ticket.Err? {
        return Err(ticket.error);
      }
      ghost var orders0, items0 := db.orders, db.items;
      r := CommitItemStatus(ticket.value, now);
      if Coherent(orders0, items0) {
        ItemStatusKeepsCoherence(orders0, items0, ticket.value, now);
      }
    }

    /**
     * The transaction of `close`: the conditional update READY to CLOSED, then one
     * `order.status.changed` event whose previous status is the one read before the lock.
     */
    method CommitClose(t: CloseTicket, now: Time) returns (r: Result<OrderView, HttpError>)
      requires db.Valid()
      modifies db`orders, this`events
      ensures db.Valid()
      ensures Coherent(old(db.orders), old(db.items)) ==> Coherent(db.orders, db.items)
      ensures !(OrderFound(old(db.orders), t.restaurantId, t.orderId) && old(db.orders)[t.orderId].status.READY?) ==>
        r == Err(Conflict("Order is not in READY status or was already modified")) &&
        unchanged(db) && events == old(events)
      ensures OrderFound(old(db.orders), t.restaurantId, t.orderId) && old(db.orders)[t.orderId].status.READY? ==>
        ClosedAs(r, old(db.orders), old(events), t.orderId, t.previousStatus, now)
    {
      var count := 0;
      if OrderFound(db.orders, t.restaurantId, t.orderId) && db.orders[t.orderId].status.READY? {
        if Coherent(db.orders, db.items) {
          OrderWriteKeepsCoherence(db.orders, db.items,
            db.orders[t.orderId].(status := OrderStatus.CLOSED, closedAt := Some(now), updatedAt := now));
        }
        db.PutOrder(db.orders[t.orderId].(status := OrderStatus.CLOSED, closedAt := Some(now), updatedAt := now));
        count := 1;
      }
      if count != 1 {
        return Err(Conflict("Order is not in READY status or was already modified"));
      }
      var closed := db.orders[t.orderId];
      events := events + [OrderStatusChangedEvent(closed.id, closed.restaurantId, t.previousStatus, closed.status,
        closed.updatedAt)];
      r := Ok(OrderView(closed, ItemsOf(db.items, t.orderId)));
    }

    ghost predicate ClosedAs(r: Result<OrderView, HttpError>, orders0: map<Id, Order>, events0: seq<OrderEvent>,
      orderId: Id, reported: OrderStatus, now: Time)
      requires orderId in orders0
      reads this, db
    {
      var closed := orders0[orderId].(status := OrderStatus.CLOSED, closedAt := Some(now), updatedAt := now);
      r == Ok(OrderView(closed, ItemsOf(db.items, orderId))) &&
      db.orders == orders0[orderId := closed] &&
      events == events0 + [OrderStatusChangedEvent(orderId, closed.restaurantId, reported, OrderStatus.CLOSED, now)]
    }

    /**
     * `close`: a READY order whose non-cancelled items are all READY becomes CLOSED, with
     * exactly one `order.status.changed` event carrying the status before the close.
     */
    method Close(restaurantId: Id, orderId: Id, now: Time) returns (r: Result<OrderView, HttpError>)
      requires db.Valid()
      modifies db`orders, this`events
      ensures db.Valid()
      ensures Coherent(old(db.orders), old(db.items)) ==> Coherent(db.orders, db.items)
      ensures r.Err? ==> unchanged(db) && events == old(events)
      ensures !OrderFound(old(db.orders), restaurantId, orderId) ==> r == Err(NotFound("Order not found"))
      ensures OrderFound(old(db.orders), restaurantId, orderId) && !ActiveItemsReady(ItemsOf(db.items, orderId)) ==>
        r == Err(BadRequest("All items must be READY before closing order"))
      ensures OrderFound(old(db.orders), restaurantId, orderId) && ActiveItemsReady(ItemsOf(db.items, orderId)) ==>
        (!old(db.orders)[orderId].status.READY? ==>
          r == Err(Conflict("Order is not in READY status or was already modified"))) &&
        (old(db.orders)[orderId].status.READY? ==>
          ClosedAs(r, old(db.orders), old(events), orderId, old(db.orders)[orderId].status, now))
    {
      var ticket := PrepareClose(db.orders, db.items, restaurantId, orderId);
      if ticket.Err? {
        return Err(ticket.error);
      }
      r := CommitClose(ticket.value, now);
    }

    /**
     * `findActive`: the tenant's orders with a requested status (by default every open
     * status), optionally of one session, newest `createdAt` first, each with its items.
     */
    method FindActive(restaurantId: Id, statuses: seq<OrderStatus>, tableSessionId: Option<Id>)
      returns (r: seq<OrderView>)
      requires db.Valid()
      ensures forall k :: 0 <= k < |r| ==>
        r[k].order.id in db.orders && r[k].order == db.orders[r[k].order.id] &&
        r[k].items == ItemsOf(db.items, r[k].order.id) &&
        MatchesActive(r[k].order, restaurantId, statuses, tableSessionId)
      ensures forall o :: o in db.orders && MatchesActive(db.orders[o], restaurantId, statuses, tableSessionId) ==>
        exists k :: 0 <= k < |r| && r[k].order.id == o
      ensures forall j, k :: 0 <= j < k < |r| ==>
        r[j].order.id != r[k].order.id && r[j].order.createdAt >= r[k].order.createdAt
    {
      var ids := Query.SelectSorted(db.orders, (o: Order) => MatchesActive(o, restaurantId, statuses, tableSessionId),
        (o: Order) => o.createdAt);
      var orders, items := db.orders, db.items;
      r := seq(|ids|, k requires 0 <= k < |ids| => OrderView(orders[ids[k]], ItemsOf(items, ids[k])));
      forall o | o in db.orders && MatchesActive(db.orders[o], restaurantId, statuses, tableSessionId)
        ensures exists k :: 0 <= k < |r| && r[k].order.id == o
      {
        var k :| 0 <= k < |ids| && ids[k] == o;
        assert r[k].order.id == o;
      }
    }
  }
}
