/**
 * The web client's normalised cache of orders (`useOrdersStore`): orders and items
 * by id, the item ids of each order, the order ids of each status, and the ids of
 * the realtime events already applied. Snapshots from the REST API replace the
 * cache; realtime events are deduplicated, checked for staleness and merged; the
 * kitchen screens change an item's status optimistically and roll it back on failure.
 *
 * Ids are strings, timestamps are milliseconds. The value `CacheState` is the
 * store's state; each action is a function from state to state (the specification)
 * and a method of `OrdersCache` that performs it step by step.
 */
module OrdersStore {
  import opened Common
  import opened Contracts
  import opened Strings
  import Query

  type Time = int

  /** `NormalizedOrder`: an order without its items. */
  datatype CachedOrder = CachedOrder(
    id: string, restaurantId: string, tableSessionId: string, createdByUserId: string,
    status: OrderStatus, notes: Option<string>, confirmedAt: Option<Time>, closedAt: Option<Time>,
    createdAt: Time, updatedAt: Time)

  /** `NormalizedOrderItem`, which has the fields of `OrderItemResponseDto`. */
  datatype CachedItem = CachedItem(
    id: string, orderId: string, name: string, qty: int, unitPrice: Option<string>,
    status: ItemStatus, notes: Option<string>, createdAt: Time, updatedAt: Time)

  /** One `OrderResponseDto` of a snapshot: the order's own fields and its items. */
  datatype OrderSnapshot = OrderSnapshot(order: CachedOrder, items: seq<CachedItem>)

  /** `OrderNewEvent`, with the optional `eventId` a sender may add. */
  datatype OrderNewPayload = OrderNewPayload(
    eventId: Option<string>, orderId: string, restaurantId: string, tableSessionId: string,
    status: OrderStatus, items: seq<CachedItem>, createdAt: Time)

  /** `OrderStatusChangedEvent`. */
  datatype OrderStatusPayload = OrderStatusPayload(
    eventId: Option<string>, orderId: string, restaurantId: string,
    previousStatus: OrderStatus, newStatus: OrderStatus, updatedAt: Time)

  /** `OrderItemStatusChangedEvent`. */
  datatype ItemStatusPayload = ItemStatusPayload(
    eventId: Option<string>, orderId: string, itemId: string, restaurantId: string,
    previousStatus: ItemStatus, newStatus: ItemStatus, updatedAt: Time)

  /** A realtime event as the store receives it: its name is given by its kind. */
  datatype Payload =
    | NewOrder(newOrder: OrderNewPayload)
    | OrderChange(orderChange: OrderStatusPayload)
    | ItemChange(itemChange: ItemStatusPayload)

  // ---------------------------------------------------------------- event ids

  function ExplicitId(e: Payload): Option<string> {
    match e
    case NewOrder(p) => p.eventId
    case OrderChange(p) => p.eventId
    case ItemChange(p) => p.eventId
  }

  /** The event's `eventId` when the sender gave a non-empty one. */
  predicate HasExplicitId(e: Payload) {
    ExplicitId(e).Some? && ExplicitId(e).value != ""
  }

  /** The parts of the composite id: event name, order id, (item id,) (status,) timestamp. */
  function EventFields(e: Payload): (r: seq<string>)
    ensures |r| >= 3
  {
    match e
    case NewOrder(p) => [ORDER_NEW, p.orderId, IntToString(p.createdAt)]
    case OrderChange(p) => [ORDER_STATUS_CHANGED, p.orderId, OrderStatusName(p.newStatus), IntToString(p.updatedAt)]
    case ItemChange(p) =>
      [ORDER_ITEM_STATUS_CHANGED, p.orderId, p.itemId, ItemStatusName(p.newStatus), IntToString(p.updatedAt)]
  }

  predicate NoColon(s: string) {
    ':' !in s
  }

  /** The ids an event names (order id, and item id for an item event) hold no ':'. */
  predicate PlainIds(e: Payload) {
    match e
    case NewOrder(p) => NoColon(p.orderId)
    case OrderChange(p) => NoColon(p.orderId)
    case ItemChange(p) => NoColon(p.orderId) && NoColon(p.itemId)
  }

  /**
   * `generateEventId`: the sender's id when there is one, otherwise the fields of the
   * event joined by ':', which read back by splitting on ':' when the ids hold no ':'.
   */
  function GenerateEventId(e: Payload): (r: string)
    ensures HasExplicitId(e) ==> r == ExplicitId(e).value
    ensures !HasExplicitId(e) && PlainIds(e) ==> Split(r, ':') == EventFields(e)
  {
    if HasExplicitId(e) then ExplicitId(e).value
    else
      CompositeSplits(e);
      Join(EventFields(e), ':')
  }

  lemma CompositeSplits(e: Payload)
    ensures PlainIds(e) ==> Split(Join(EventFields(e), ':'), ':') == EventFields(e)
  {
    if PlainIds(e) {
      FieldsPlain(e);
      SplitJoin(EventFields(e), ':');
    }
  }

  lemma FieldsPlain(e: Payload)
    requires PlainIds(e)
    ensures forall i :: 0 <= i < |EventFields(e)| ==> ':' !in EventFields(e)[i]
  {
    match e
    case NewOrder(p) =>
    case OrderChange(p) =>
      assert ':' !in OrderStatusName(p.newStatus) by {
        match p.newStatus
        case DRAFT => case CONFIRMED => case IN_PROGRESS => case READY => case CANCELLED => case CLOSED =>
      }
    case ItemChange(p) =>
      assert ':' !in ItemStatusName(p.newStatus) by {
        match p.newStatus
        case PENDING => case IN_PROGRESS => case READY => case CANCELLED =>
      }
  }

  /** Two events are the same occurrence for deduplication: same kind and same identifying fields. */
  predicate SameOccurrence(a: Payload, b: Payload) {
    match (a, b)
    case (NewOrder(p), NewOrder(q)) => p.orderId == q.orderId && p.createdAt == q.createdAt
    case (OrderChange(p), OrderChange(q)) =>
      p.orderId == q.orderId && p.newStatus == q.newStatus && p.updatedAt == q.updatedAt
    case (ItemChange(p), ItemChange(q)) =>
      p.orderId == q.orderId && p.itemId == q.itemId && p.newStatus == q.newStatus && p.updatedAt == q.updatedAt
    case _ => false
  }

  /**
   * Without a sender id, two events get the same generated id exactly when they are the
   * same occurrence, so deduplication drops replays and nothing else.
   */
  lemma GeneratedIdIdentifies(a: Payload, b: Payload)
    requires !HasExplicitId(a) && !HasExplicitId(b) && PlainIds(a) && PlainIds(b)
    ensures GenerateEventId(a) == GenerateEventId(b) <==> SameOccurrence(a, b)
  {
    if GenerateEventId(a) == GenerateEventId(b) {
      var fa, fb := EventFields(a), EventFields(b);
      FieldsPlain(a);
      FieldsPlain(b);
      JoinInjective(fa, fb, ':');
      assert |fa[0]| == NameLength(a) && |fb[0]| == NameLength(b);
      if a.NewOrder? {
        IntToStringInjective(a.newOrder.createdAt, b.newOrder.createdAt);
      } else if a.OrderChange? {
        OrderStatusNameInjective(a.orderChange.newStatus, b.orderChange.newStatus);
        IntToStringInjective(a.orderChange.updatedAt, b.orderChange.updatedAt);
      } else {
        ItemStatusNameInjective(a.itemChange.newStatus, b.itemChange.newStatus);
        IntToStringInjective(a.itemChange.updatedAt, b.itemChange.updatedAt);
      }
    }
  }

  /** The three event names have different lengths, so the name tells the kind. */
  function NameLength(e: Payload): (n: nat)
    ensures n == |EventFields(e)[0]|
  {
    match e
    case NewOrder(_) => 9
    case OrderChange(_) => 20
    case ItemChange(_) => 25
  }

  // ---------------------------------------------------------------- status index

  /** An index with a bucket for each of the six order statuses. */
  predicate HasAllBuckets(index: map<OrderStatus, seq<string>>) {
    forall s: OrderStatus :: s in index
  }

  /** The index with six empty buckets. */
  function EmptyIndex(): (r: map<OrderStatus, seq<string>>)
    ensures HasAllBuckets(r)
    ensures forall s :: r[s] == []
  {
    var r := map[OrderStatus.DRAFT := [], OrderStatus.CONFIRMED := [], OrderStatus.IN_PROGRESS := [],
                 OrderStatus.READY := [], OrderStatus.CANCELLED := [], OrderStatus.CLOSED := []];
    SixBuckets(r);
    r
  }

  lemma SixBuckets(r: map<OrderStatus, seq<string>>)
    requires OrderStatus.DRAFT in r && OrderStatus.CONFIRMED in r && OrderStatus.IN_PROGRESS in r
    requires OrderStatus.READY in r && OrderStatus.CANCELLED in r && OrderStatus.CLOSED in r
    ensures HasAllBuckets(r)
  {
    forall s: OrderStatus ensures s in r {
      match s
      case DRAFT => case CONFIRMED => case IN_PROGRESS => case READY => case CANCELLED => case CLOSED =>
    }
  }

  /** `arr.indexOf(x)` for an `x` that occurs: the position of its first occurrence. */
  function IndexOf(b: seq<string>, x: string): (i: nat)
    requires x in b
    ensures i < |b| && b[i] == x && x !in b[..i]
  {
    if b[0] == x then 0
    else
      assert x in b[1..] by { assert b == [b[0]] + b[1..]; }
      var j := IndexOf(b[1..], x);
      assert b[..1 + j] == [b[0]] + b[1..][..j];
      1 + j
  }

  /**
   * `arr.splice(arr.indexOf(x), 1)` when `x` occurs: the first occurrence goes and the
   * other ids keep their order; a bucket without `x` is left as it is.
   */
  function RemoveFirst(b: seq<string>, x: string): (r: seq<string>)
    ensures x !in b ==> r == b
    ensures x in b ==>
      (|r| == |b| - 1 && r[..IndexOf(b, x)] == b[..IndexOf(b, x)] && r[IndexOf(b, x)..] == b[IndexOf(b, x) + 1..])
    ensures multiset(r) == multiset(b) - multiset{x}
  {
    if x in b then
      var i := IndexOf(b, x);
      assert b == b[..i] + [b[i]] + b[i + 1..];
      b[..i] + b[i + 1..]
    else
      assert multiset(b)[x] == 0;
      b
  }

  /**
   * `removeFromStatusIndex`: the bucket of `status` loses the first occurrence of
   * `orderId`, the other ids keeping their order; other buckets are untouched.
   */
  function RemoveFromStatusIndex(index: map<OrderStatus, seq<string>>, status: OrderStatus, orderId: string)
    : (r: map<OrderStatus, seq<string>>)
    requires HasAllBuckets(index)
    ensures HasAllBuckets(r)
    ensures forall s :: s != status ==> r[s] == index[s]
    ensures orderId !in index[status] ==> r == index
    ensures orderId in index[status] ==>
      var i := IndexOf(index[status], orderId);
      |r[status]| == |index[status]| - 1 && r[status][..i] == index[status][..i] && r[status][i..] == index[status][i + 1..]
    ensures multiset(r[status]) == multiset(index[status]) - multiset{orderId}
  {
    var b := RemoveFirst(index[status], orderId);
    assert orderId in index[status] ==> var i := IndexOf(index[status], orderId);
      |b| == |index[status]| - 1 && b[..i] == index[status][..i] && b[i..] == index[status][i + 1..];
    index[status := b]
  }

  /** `addToStatusIndex`: `orderId` is appended to the bucket of `status` unless already there. */
  function AddToStatusIndex(index: map<OrderStatus, seq<string>>, status: OrderStatus, orderId: string)
    : (r: map<OrderStatus, seq<string>>)
    requires HasAllBuckets(index)
    ensures HasAllBuckets(r)
    ensures forall s :: s != status ==> r[s] == index[s]
    ensures index[status] <= r[status]
    ensures forall x :: x in r[status] <==> x in index[status] || x == orderId
    ensures orderId in index[status] ==> r == index
    ensures orderId !in index[status] ==> r[status] == index[status] + [orderId]
    ensures Query.Distinct(index[status]) ==> Query.Distinct(r[status])
  {
    if orderId in index[status] then index else index[status := index[status] + [orderId]]
  }

  /** A distinct bucket without one occurrence of `x` no longer holds `x`. */
  lemma RemovedFromDistinct(b: seq<string>, x: string)
    requires Query.Distinct(b)
    ensures Query.Distinct(RemoveFirst(b, x))
    ensures forall y :: y in RemoveFirst(b, x) <==> y in b && y != x
  {
    var r := RemoveFirst(b, x);
    assert forall y :: y in b ==> multiset(b)[y] == 1 by {
      forall y | y in b ensures multiset(b)[y] == 1 {
        DistinctCount(b, y);
      }
    }
    forall y ensures y in r <==> y in b && y != x {
      assert y in r <==> multiset(r)[y] > 0;
      assert y in b <==> multiset(b)[y] > 0;
    }
    forall i, j | 0 <= i < j < |r| ensures r[i] != r[j] {
      if r[i] == r[j] {
        CountTwo(r, i, j);
        assert multiset(r)[r[i]] >= 2;
        assert multiset(b)[r[i]] >= 2;
        DistinctCount(b, r[i]);
      }
    }
  }

  lemma {:induction false} DistinctCount(b: seq<string>, y: string)
    requires Query.Distinct(b)
    ensures multiset(b)[y] <= 1
  {
    if b != [] {
      assert b == [b[0]] + b[1..];
      assert Query.Distinct(b[1..]) by {
        forall i, j | 0 <= i < j < |b[1..]| ensures b[1..][i] != b[1..][j] {
          assert b[i + 1] != b[j + 1];
        }
      }
      DistinctCount(b[1..], y);
      if b[0] == y {
        assert y !in b[1..] by {
          forall k | 0 <= k < |b[1..]| ensures b[1..][k] != y {
            assert b[0] != b[k + 1];
          }
        }
      }
    }
  }

  lemma CountTwo(r: seq<string>, i: int, j: int)
    requires 0 <= i < j < |r| && r[i] == r[j]
    ensures multiset(r)[r[i]] >= 2
  {
    assert r == r[..i] + [r[i]] + r[i + 1..j] + [r[j]] + r[j + 1..];
  }

  /**
   * The index agrees with the orders: every order is keyed by its own id, each bucket
   * is free of duplicates, and an id is in a bucket exactly when it is a known order
   * with that status, so each known order appears exactly once in the whole index.
   */
  ghost predicate IndexConsistent(entities: map<string, CachedOrder>, index: map<OrderStatus, seq<string>>) {
    HasAllBuckets(index) &&
    (forall k :: k in entities ==> entities[k].id == k) &&
    (forall s :: Query.Distinct(index[s])) &&
    (forall s, id :: id in index[s] <==> id in entities && entities[id].status == s)
  }

  // ---------------------------------------------------------------- cache state

  datatype CacheState = CacheState(
    entities: map<string, CachedOrder>,
    items: map<string, CachedItem>,
    itemsByOrder: map<string, seq<string>>,
    indexByStatus: map<OrderStatus, seq<string>>,
    seenEventIds: set<string>)

  /** The state the store is created with. */
  function InitialState(): (r: CacheState)
    ensures IndexConsistent(r.entities, r.indexByStatus)
    ensures r.seenEventIds == {}
  {
    CacheState(map[], map[], map[], EmptyIndex(), {})
  }

  /** Writes the items in order into `items`; a later item with the same id wins. */
  function PutItems(items: map<string, CachedItem>, xs: seq<CachedItem>): (r: map<string, CachedItem>)
  {
    if xs == [] then items
    else PutItems(items, xs[..|xs| - 1])[xs[|xs| - 1].id := xs[|xs| - 1]]
  }

  /**
   * `PutItems` adds exactly the ids of `xs`, keeps every other item, and the last item of
   * `xs` with a given id is the one stored.
   */
  lemma {:induction false} PutItemsWrites(items: map<string, CachedItem>, xs: seq<CachedItem>)
    ensures forall k :: k in PutItems(items, xs) <==> k in items || k in ItemIds(xs)
    ensures forall k :: k in items && k !in ItemIds(xs) ==> PutItems(items, xs)[k] == items[k]
    ensures forall i :: 0 <= i < |xs| ==> xs[i].id in PutItems(items, xs)
    ensures forall i :: 0 <= i < |xs| && (forall j :: i < j < |xs| ==> xs[j].id != xs[i].id) ==>
      PutItems(items, xs)[xs[i].id] == xs[i]
  {
    if xs != [] {
      var init := xs[..|xs| - 1];
      PutItemsWrites(items, init);
      assert ItemIds(xs) == ItemIds(init) + [xs[|xs| - 1].id];
      forall i | 0 <= i < |xs| - 1 && (forall j :: i < j < |xs| ==> xs[j].id != xs[i].id)
        ensures PutItems(items, xs)[xs[i].id] == xs[i]
      {
        assert init[i] == xs[i];
        assert forall j :: i < j < |init| ==> init[j].id != init[i].id;
      }
    }
  }

  /** The ids of `xs`, in order. */
  function ItemIds(xs: seq<CachedItem>): (r: seq<string>)
    ensures |r| == |xs| && forall i :: 0 <= i < |xs| ==> r[i] == xs[i].id
  {
    seq(|xs|, i requires 0 <= i < |xs| => xs[i].id)
  }

  /** The four tables `hydrateSnapshot` builds from a snapshot. */
  datatype Normalized = Normalized(
    entities: map<string, CachedOrder>,
    items: map<string, CachedItem>,
    itemsByOrder: map<string, seq<string>>,
    index: map<OrderStatus, seq<string>>)

  /** The tables built from the snapshot's orders, one order after another. */
  function HydrateFold(orders: seq<OrderSnapshot>): (r: Normalized)
    ensures HasAllBuckets(r.index)
    ensures forall k :: k in r.entities <==> k in SnapshotIds(orders)
  {
    if orders == [] then Normalized(map[], map[], map[], EmptyIndex())
    else
      var prev := HydrateFold(orders[..|orders| - 1]);
      var o := orders[|orders| - 1];
      assert SnapshotIds(orders) == SnapshotIds(orders[..|orders| - 1]) + [o.order.id];
      Normalized(
        prev.entities[o.order.id := o.order],
        PutItems(prev.items, o.items),
        prev.itemsByOrder[o.order.id := ItemIds(o.items)],
        AddToStatusIndex(prev.index, o.order.status, o.order.id))
  }

  /** `hydrateSnapshot`: the tables come from the snapshot alone; the seen event ids stay. */
  function HydrateStep(st: CacheState, orders: seq<OrderSnapshot>): (r: CacheState)
    ensures r.seenEventIds == st.seenEventIds
    ensures forall k :: k in r.entities <==> k in SnapshotIds(orders)
  {
    var n := HydrateFold(orders);
    CacheState(n.entities, n.items, n.itemsByOrder, n.index, st.seenEventIds)
  }

  /** The ids of the snapshot's orders, in order. */
  function SnapshotIds(orders: seq<OrderSnapshot>): (r: seq<string>)
    ensures |r| == |orders| && forall i :: 0 <= i < |orders| ==> r[i] == orders[i].order.id
  {
    seq(|orders|, i requires 0 <= i < |orders| => orders[i].order.id)
  }

  /** All the items of the snapshot's orders, order after order. */
  function SnapshotItems(orders: seq<OrderSnapshot>): (r: seq<CachedItem>)
    ensures forall i, k :: 0 <= i < |orders| && 0 <= k < |orders[i].items| ==> orders[i].items[k] in r
  {
    if orders == [] then []
    else
      var init := orders[..|orders| - 1];
      var rest := SnapshotItems(init);
      assert forall i :: 0 <= i < |init| ==> init[i] == orders[i];
      rest + orders[|orders| - 1].items
  }

  /** Writing `xs` then `ys` is writing `xs + ys`. */
  lemma {:induction false} PutItemsAppend(items: map<string, CachedItem>, xs: seq<CachedItem>, ys: seq<CachedItem>)
    ensures PutItems(items, xs + ys) == PutItems(PutItems(items, xs), ys)
  {
    if ys == [] {
      assert xs + ys == xs;
    } else {
      var zs := xs + ys;
      assert zs[..|zs| - 1] == xs + ys[..|ys| - 1];
      assert zs[|zs| - 1] == ys[|ys| - 1];
      PutItemsAppend(items, xs, ys[..|ys| - 1]);
    }
  }

  /** The item lists are kept for exactly the snapshot's orders. */
  lemma {:induction false} HydrateListsKeys(orders: seq<OrderSnapshot>)
    ensures forall k :: k in HydrateFold(orders).itemsByOrder <==> k in SnapshotIds(orders)
  {
    if orders != [] {
      var init := orders[..|orders| - 1];
      HydrateListsKeys(init);
      assert SnapshotIds(orders) == SnapshotIds(init) + [orders[|orders| - 1].order.id];
    }
  }

  /** The last order of the snapshot with its id is the one stored, with its item ids as its list. */
  lemma {:induction false} HydrateLastWinsAt(orders: seq<OrderSnapshot>, i: nat)
    requires i < |orders| && forall j :: i < j < |orders| ==> orders[j].order.id != orders[i].order.id
    ensures orders[i].order.id in HydrateFold(orders).entities && orders[i].order.id in HydrateFold(orders).itemsByOrder
    ensures HydrateFold(orders).entities[orders[i].order.id] == orders[i].order
    ensures HydrateFold(orders).itemsByOrder[orders[i].order.id] == ItemIds(orders[i].items)
  {
    if i < |orders| - 1 {
      var init := orders[..|orders| - 1];
      assert init[i] == orders[i];
      HydrateLastWinsAt(init, i);
    }
  }

  /** Every order that no later order of the snapshot shares an id with is stored as given. */
  lemma HydrateLastWins(orders: seq<OrderSnapshot>)
    ensures forall i :: 0 <= i < |orders| && (forall j :: i < j < |orders| ==> orders[j].order.id != orders[i].order.id) ==>
      orders[i].order.id in HydrateFold(orders).entities && orders[i].order.id in HydrateFold(orders).itemsByOrder &&
      HydrateFold(orders).entities[orders[i].order.id] == orders[i].order &&
      HydrateFold(orders).itemsByOrder[orders[i].order.id] == ItemIds(orders[i].items)
  {
    forall i | 0 <= i < |orders| && (forall j :: i < j < |orders| ==> orders[j].order.id != orders[i].order.id)
      ensures orders[i].order.id in HydrateFold(orders).entities && orders[i].order.id in HydrateFold(orders).itemsByOrder
      ensures HydrateFold(orders).entities[orders[i].order.id] == orders[i].order
      ensures HydrateFold(orders).itemsByOrder[orders[i].order.id] == ItemIds(orders[i].items)
    {
      HydrateLastWinsAt(orders, i);
    }
  }

  /** The item table is every snapshot item written in turn into an empty table. */
  lemma {:induction false} HydrateItems(orders: seq<OrderSnapshot>)
    ensures HydrateFold(orders).items == PutItems(map[], SnapshotItems(orders))
  {
    if orders != [] {
      var init := orders[..|orders| - 1];
      HydrateItems(init);
      PutItemsAppend(map[], SnapshotItems(init), orders[|orders| - 1].items);
    }
  }

  /**
   * What `hydrateSnapshot` stores, whatever the cache held before: each order as the
   * snapshot's last order with its id gives it, with the ids of that order's items as its
   * list; an item list for exactly the snapshot's orders; and the items of all orders
   * written in turn into an empty table.
   */
  lemma HydrateContents(st: CacheState, orders: seq<OrderSnapshot>)
    ensures forall k :: k in HydrateStep(st, orders).itemsByOrder <==> k in SnapshotIds(orders)
    ensures forall i :: 0 <= i < |orders| && (forall j :: i < j < |orders| ==> orders[j].order.id != orders[i].order.id) ==>
      HydrateStep(st, orders).entities[orders[i].order.id] == orders[i].order &&
      HydrateStep(st, orders).itemsByOrder[orders[i].order.id] == ItemIds(orders[i].items)
    ensures HydrateStep(st, orders).items == PutItems(map[], SnapshotItems(orders))
  {
    HydrateListsKeys(orders);
    HydrateLastWins(orders);
    HydrateItems(orders);
  }

  /** Two caches hydrated from the same snapshot differ at most in their seen event ids. */
  lemma HydrateDiscardsState(st1: CacheState, st2: CacheState, orders: seq<OrderSnapshot>)
    ensures HydrateStep(st1, orders) == HydrateStep(st2, orders).(seenEventIds := st1.seenEventIds)
  {
  }

  /** A snapshot whose orders have distinct ids yields a consistent index. */
  lemma {:induction false} HydrateIndexConsistent(orders: seq<OrderSnapshot>)
    requires Query.Distinct(SnapshotIds(orders))
    ensures IndexConsistent(HydrateFold(orders).entities, HydrateFold(orders).index)
  {
    if orders != [] {
      var init := orders[..|orders| - 1];
      var o := orders[|orders| - 1];
      assert SnapshotIds(orders) == SnapshotIds(init) + [o.order.id];
      assert Query.Distinct(SnapshotIds(init));
      HydrateIndexConsistent(init);
      var prev := HydrateFold(init);
      assert o.order.id !in prev.entities;
    }
  }

  // ---------------------------------------------------------------- realtime events

  /** The order `applyOrderNew` stores: no creator, no notes, confirmed at creation when CONFIRMED. */
  function NewOrderEntity(p: OrderNewPayload): CachedOrder {
    CachedOrder(p.orderId, p.restaurantId, p.tableSessionId, "", p.status, None,
      if p.status == OrderStatus.CONFIRMED then Some(p.createdAt) else None, None,
      p.createdAt, p.createdAt)
  }

  /** An `order.new` is applied when it is unseen and the order is unknown or strictly newer. */
  predicate OrderNewApplies(st: CacheState, p: OrderNewPayload) {
    GenerateEventId(NewOrder(p)) !in st.seenEventIds &&
    (p.orderId in st.entities ==> p.createdAt > st.entities[p.orderId].createdAt)
  }

  /**
   * `applyOrderNew`. A seen event, or one whose `createdAt` is not strictly newer than
   * the known order's, changes nothing; otherwise the order is (re)placed, its items are
   * written, its item list is replaced, it moves to the bucket of its status, and the
   * event id is recorded.
   */
  function ApplyOrderNewStep(st: CacheState, p: OrderNewPayload): (r: CacheState)
    requires HasAllBuckets(st.indexByStatus)
    ensures HasAllBuckets(r.indexByStatus)
    ensures !OrderNewApplies(st, p) ==> r == st
    ensures OrderNewApplies(st, p) ==>
      r.seenEventIds == st.seenEventIds + {GenerateEventId(NewOrder(p))} &&
      r.entities == st.entities[p.orderId := NewOrderEntity(p)] &&
      r.itemsByOrder == st.itemsByOrder[p.orderId := ItemIds(p.items)] &&
      r.items == PutItems(st.items, p.items) &&
      p.orderId in r.indexByStatus[p.status]
    ensures OrderNewApplies(st, p) ==>
      forall s :: (s != p.status && (p.orderId in st.entities ==> s != st.entities[p.orderId].status)) ==>
        r.indexByStatus[s] == st.indexByStatus[s]
    ensures (OrderNewApplies(st, p) && p.orderId in st.entities && st.entities[p.orderId].status != p.status) ==>
      r.indexByStatus[st.entities[p.orderId].status]
        == RemoveFirst(st.indexByStatus[st.entities[p.orderId].status], st.entities[p.orderId].id)
    ensures OrderNewApplies(st, p) ==>
      var b := if p.orderId in st.entities && st.entities[p.orderId].status == p.status
        then RemoveFirst(st.indexByStatus[p.status], st.entities[p.orderId].id)
        else st.indexByStatus[p.status];
      r.indexByStatus[p.status] == b + (if p.orderId in b then [] else [p.orderId])
  {
    var id := GenerateEventId(NewOrder(p));
    if id in st.seenEventIds then st
    else if p.orderId in st.entities && p.createdAt <= st.entities[p.orderId].createdAt then st
    else
      var index := if p.orderId in st.entities
        then RemoveFromStatusIndex(st.indexByStatus, st.entities[p.orderId].status, st.entities[p.orderId].id)
        else st.indexByStatus;
      CacheState(
        st.entities[p.orderId := NewOrderEntity(p)],
        PutItems(st.items, p.items),
        st.itemsByOrder[p.orderId := ItemIds(p.items)],
        AddToStatusIndex(index, p.status, p.orderId),
        st.seenEventIds + {id})
  }

  /** `applyItemStatusChanged`: a seen event, an unknown item or a strictly older event changes nothing. */
  function ApplyItemStatusStep(st: CacheState, p: ItemStatusPayload): (r: CacheState)
    ensures GenerateEventId(ItemChange(p)) in st.seenEventIds ==> r == st
    ensures p.itemId !in st.items ==> r == st
    ensures p.itemId in st.items && p.updatedAt < st.items[p.itemId].updatedAt ==> r == st
    ensures (GenerateEventId(ItemChange(p)) !in st.seenEventIds && p.itemId in st.items &&
      p.updatedAt >= st.items[p.itemId].updatedAt) ==>
      r == st.(items := st.items[p.itemId := st.items[p.itemId].(status := p.newStatus, updatedAt := p.updatedAt)],
               seenEventIds := st.seenEventIds + {GenerateEventId(ItemChange(p))})
  {
    var id := GenerateEventId(ItemChange(p));
    if id in st.seenEventIds || p.itemId !in st.items then st
    else
      var item := st.items[p.itemId];
      if p.updatedAt < item.updatedAt then st
      else st.(items := st.items[p.itemId := item.(status := p.newStatus, updatedAt := p.updatedAt)],
               seenEventIds := st.seenEventIds + {id})
  }

  /** The order after an applied status change: `confirmedAt`/`closedAt` are stamped on entering CONFIRMED/CLOSED. */
  function ChangedOrder(o: CachedOrder, p: OrderStatusPayload): (r: CachedOrder)
    ensures r.id == o.id && r.status == p.newStatus && r.updatedAt == p.updatedAt
    ensures r.confirmedAt == if p.newStatus == OrderStatus.CONFIRMED then Some(p.updatedAt) else o.confirmedAt
    ensures r.closedAt == if p.newStatus == OrderStatus.CLOSED then Some(p.updatedAt) else o.closedAt
    ensures r.(status := o.status, updatedAt := o.updatedAt, confirmedAt := o.confirmedAt, closedAt := o.closedAt) == o
  {
    o.(status := p.newStatus, updatedAt := p.updatedAt,
       confirmedAt := if p.newStatus == OrderStatus.CONFIRMED then Some(p.updatedAt) else o.confirmedAt,
       closedAt := if p.newStatus == OrderStatus.CLOSED then Some(p.updatedAt) else o.closedAt)
  }

  /** An order status change is applied when it is unseen, the order is known and the event is not older. */
  predicate OrderStatusApplies(st: CacheState, p: OrderStatusPayload) {
    GenerateEventId(OrderChange(p)) !in st.seenEventIds && p.orderId in st.entities &&
    p.updatedAt >= st.entities[p.orderId].updatedAt
  }

  /**
   * `applyOrderStatusChanged`: a seen event, an unknown order or a strictly older event
   * changes nothing; otherwise the order takes the new status and moves to its bucket.
   */
  function ApplyOrderStatusStep(st: CacheState, p: OrderStatusPayload): (r: CacheState)
    requires HasAllBuckets(st.indexByStatus)
    ensures HasAllBuckets(r.indexByStatus)
    ensures GenerateEventId(OrderChange(p)) in st.seenEventIds ==> r == st
    ensures p.orderId !in st.entities ==> r == st
    ensures p.orderId in st.entities && p.updatedAt < st.entities[p.orderId].updatedAt ==> r == st
    ensures OrderStatusApplies(st, p) ==>
      r.seenEventIds == st.seenEventIds + {GenerateEventId(OrderChange(p))} &&
      r.entities == st.entities[p.orderId := ChangedOrder(st.entities[p.orderId], p)] &&
      r.items == st.items && r.itemsByOrder == st.itemsByOrder &&
      p.orderId in r.indexByStatus[p.newStatus]
    ensures OrderStatusApplies(st, p) ==>
      forall s :: (s != p.newStatus && s != st.entities[p.orderId].status) ==> r.indexByStatus[s] == st.indexByStatus[s]
    ensures (OrderStatusApplies(st, p) && st.entities[p.orderId].status != p.newStatus) ==>
      r.indexByStatus[st.entities[p.orderId].status]
        == RemoveFirst(st.indexByStatus[st.entities[p.orderId].status], st.entities[p.orderId].id)
    ensures OrderStatusApplies(st, p) ==>
      var b := if st.entities[p.orderId].status == p.newStatus
        then RemoveFirst(st.indexByStatus[p.newStatus], st.entities[p.orderId].id)
        else st.indexByStatus[p.newStatus];
      r.indexByStatus[p.newStatus] == b + (if p.orderId in b then [] else [p.orderId])
  {
    var id := GenerateEventId(OrderChange(p));
    if id in st.seenEventIds || p.orderId !in st.entities then st
    else
      var order := st.entities[p.orderId];
      if p.updatedAt < order.updatedAt then st
      else
        var index := RemoveFromStatusIndex(st.indexByStatus, order.status, order.id);
        st.(entities := st.entities[p.orderId := ChangedOrder(order, p)],
            indexByStatus := AddToStatusIndex(index, p.newStatus, p.orderId),
            seenEventIds := st.seenEventIds + {id})
  }

  /** Any realtime event. */
  function ApplyEvent(st: CacheState, e: Payload): (r: CacheState)
    requires HasAllBuckets(st.indexByStatus)
    ensures HasAllBuckets(r.indexByStatus)
  {
    match e
    case NewOrder(p) => ApplyOrderNewStep(st, p)
    case OrderChange(p) => ApplyOrderStatusStep(st, p)
    case ItemChange(p) => ApplyItemStatusStep(st, p)
  }

  /** An event either changes nothing or is recorded as seen; a replay of it then changes nothing. */
  lemma ReplayIsIdempotent(st: CacheState, e: Payload)
    requires HasAllBuckets(st.indexByStatus)
    ensures ApplyEvent(ApplyEvent(st, e), e) == ApplyEvent(st, e)
  {
    var r := ApplyEvent(st, e);
    if r != st {
      assert GenerateEventId(e) in r.seenEventIds;
    }
  }

  /** Moving an order between buckets of a consistent index keeps it consistent. */
  lemma {:induction false} MoveKeepsIndex(
    entities: map<string, CachedOrder>, index: map<OrderStatus, seq<string>>, o: CachedOrder)
    requires IndexConsistent(entities, index)
    ensures
      var index1 := if o.id in entities then RemoveFromStatusIndex(index, entities[o.id].status, o.id) else index;
      IndexConsistent(entities[o.id := o], AddToStatusIndex(index1, o.status, o.id))
  {
    var index1 := if o.id in entities then RemoveFromStatusIndex(index, entities[o.id].status, o.id) else index;
    var e1 := entities[o.id := o];
    if o.id in entities {
      RemovedFromDistinct(index[entities[o.id].status], o.id);
    }
    assert forall s :: Query.Distinct(index1[s]);
    assert forall s, id :: id in index1[s] <==> id in entities && id != o.id && entities[id].status == s;
    var index2 := AddToStatusIndex(index1, o.status, o.id);
    forall s, id ensures id in index2[s] <==> id in e1 && e1[id].status == s {
      if s == o.status {
        assert id in index2[s] <==> id in index1[s] || id == o.id;
      } else {
        assert index2[s] == index1[s];
      }
    }
  }

  /** `applyOrderNew` keeps the index consistent. */
  lemma OrderNewKeepsIndex(st: CacheState, p: OrderNewPayload)
    requires IndexConsistent(st.entities, st.indexByStatus)
    ensures IndexConsistent(ApplyOrderNewStep(st, p).entities, ApplyOrderNewStep(st, p).indexByStatus)
  {
    MoveKeepsIndex(st.entities, st.indexByStatus, NewOrderEntity(p));
  }

  /** `applyOrderStatusChanged` keeps the index consistent. */
  lemma OrderStatusKeepsIndex(st: CacheState, p: OrderStatusPayload)
    requires IndexConsistent(st.entities, st.indexByStatus)
    ensures IndexConsistent(ApplyOrderStatusStep(st, p).entities, ApplyOrderStatusStep(st, p).indexByStatus)
  {
    if p.orderId in st.entities {
      MoveKeepsIndex(st.entities, st.indexByStatus, ChangedOrder(st.entities[p.orderId], p));
    }
  }

  /** Every event keeps the index consistent; an item event does not touch it at all. */
  lemma EventKeepsIndex(st: CacheState, e: Payload)
    requires IndexConsistent(st.entities, st.indexByStatus)
    ensures IndexConsistent(ApplyEvent(st, e).entities, ApplyEvent(st, e).indexByStatus)
    ensures e.ItemChange? ==>
      ApplyEvent(st, e).entities == st.entities && ApplyEvent(st, e).indexByStatus == st.indexByStatus
  {
    match e
    case NewOrder(p) => OrderNewKeepsIndex(st, p);
    case OrderChange(p) => OrderStatusKeepsIndex(st, p);
    case ItemChange(p) =>
  }

  // ---------------------------------------------------------------- optimistic update

  /**
   * `setItemStatusOptimistic`: fails with the source's message when the item is unknown
   * or belongs to another order; otherwise the item takes the new status, stamped `now`,
   * and its previous status is returned for the rollback.
   */
  function OptimisticStep(st: CacheState, orderId: string, itemId: string, newStatus: ItemStatus, now: Time)
    : (r: (CacheState, Result<ItemStatus, string>))
    ensures !(itemId in st.items && st.items[itemId].orderId == orderId) ==>
      r == (st, Err("Item " + itemId + " not found in order " + orderId))
    ensures itemId in st.items && st.items[itemId].orderId == orderId ==>
      r.1 == Ok(st.items[itemId].status) &&
      r.0 == st.(items := st.items[itemId := st.items[itemId].(status := newStatus, updatedAt := now)])
  {
    if itemId !in st.items || st.items[itemId].orderId != orderId then
      (st, Err("Item " + itemId + " not found in order " + orderId))
    else
      var item := st.items[itemId];
      (st.(items := st.items[itemId := item.(status := newStatus, updatedAt := now)]), Ok(item.status))
  }

  /** The `rollback` closure: the item gets back its previous status and keeps everything else. */
  function RollbackStep(st: CacheState, itemId: string, previousStatus: ItemStatus): (r: CacheState)
    ensures r.entities == st.entities && r.itemsByOrder == st.itemsByOrder
    ensures r.indexByStatus == st.indexByStatus && r.seenEventIds == st.seenEventIds
    ensures r.items.Keys == st.items.Keys
    ensures forall k :: k in st.items && k != itemId ==> r.items[k] == st.items[k]
    ensures itemId in st.items ==> r.items[itemId] == st.items[itemId].(status := previousStatus)
  {
    if itemId in st.items then st.(items := st.items[itemId := st.items[itemId].(status := previousStatus)])
    else st
  }

  /**
   * Rolling back straight after the optimistic update restores the item's status but
   * not its `updatedAt`, which keeps the optimistic stamp.
   */
  lemma RollbackRestoresStatus(st: CacheState, orderId: string, itemId: string, newStatus: ItemStatus, now: Time)
    requires itemId in st.items && st.items[itemId].orderId == orderId
    ensures
      var (st1, prev) := OptimisticStep(st, orderId, itemId, newStatus, now);
      prev.Ok? &&
      RollbackStep(st1, itemId, prev.value) == st.(items := st.items[itemId := st.items[itemId].(updatedAt := now)])
  {
    var (st1, prev) := OptimisticStep(st, orderId, itemId, newStatus, now);
    assert RollbackStep(st1, itemId, prev.value).items == st.items[itemId := st.items[itemId].(updatedAt := now)];
  }

  // ---------------------------------------------------------------- getters

  /** The values of the ids present in `m`, in the order of `ids` (`ids.map(id => m[id]).filter(Boolean)`). */
  function LookupAll<V(!new)>(ids: seq<string>, m: map<string, V>): (r: seq<V>)
    ensures |r| <= |ids|
    ensures forall v :: v in r <==> exists id :: id in ids && id in m && m[id] == v
    ensures (forall id :: id in ids ==> id in m) ==>
      |r| == |ids| && forall i :: 0 <= i < |ids| ==> r[i] == m[ids[i]]
    ensures (forall id :: id in ids ==> id !in m) ==> r == []
  {
    if ids == [] then []
    else
      var rest := LookupAll(ids[1..], m);
      assert forall id :: id in ids <==> id == ids[0] || id in ids[1..];
      if ids[0] in m then [m[ids[0]]] + rest else rest
  }

  /** Looking up two lists of ids one after the other gives the two results one after the other. */
  lemma {:induction false} LookupAllAppend<V(!new)>(a: seq<string>, b: seq<string>, m: map<string, V>)
    ensures LookupAll(a + b, m) == LookupAll(a, m) + LookupAll(b, m)
  {
    if a == [] {
      assert a + b == b;
    } else {
      var head := if a[0] in m then [m[a[0]]] else [];
      LookupAllAppend(a[1..], b, m);
      assert (a + b)[0] == a[0] && (a + b)[1..] == a[1..] + b;
      assert LookupAll(a + b, m) == head + LookupAll(a[1..] + b, m);
      assert LookupAll(a, m) == head + LookupAll(a[1..], m);
    }
  }

  /** An order with its items, as `getOrderWithItems` returns it. */
  datatype OrderWithItems = OrderWithItems(order: CachedOrder, items: seq<CachedItem>)

  /** `getOrder`. */
  function GetOrder(st: CacheState, orderId: string): (r: Option<CachedOrder>)
    ensures r.Some? <==> orderId in st.entities
    ensures r.Some? ==> r.value == st.entities[orderId]
  {
    if orderId in st.entities then Some(st.entities[orderId]) else None
  }

  /** The item ids listed for an order, none when there is no list (`|| []`). */
  function ListedItems(st: CacheState, orderId: string): seq<string> {
    if orderId in st.itemsByOrder then st.itemsByOrder[orderId] else []
  }

  /** `getOrderWithItems`: the order with those of its listed items that are in the cache. */
  function GetOrderWithItems(st: CacheState, orderId: string): (r: Option<OrderWithItems>)
    ensures r.Some? <==> orderId in st.entities
    ensures r.Some? ==> r.value.order == st.entities[orderId]
    ensures r.Some? ==> forall x :: x in r.value.items <==>
      exists id :: id in ListedItems(st, orderId) && id in st.items && st.items[id] == x
    ensures r.Some? && (forall id :: id in ListedItems(st, orderId) ==> id in st.items) ==>
      |r.value.items| == |ListedItems(st, orderId)| &&
      forall i :: 0 <= i < |r.value.items| ==> r.value.items[i] == st.items[ListedItems(st, orderId)[i]]
  {
    if orderId !in st.entities then None
    else Some(OrderWithItems(st.entities[orderId], LookupAll(ListedItems(st, orderId), st.items)))
  }

  /** The bucket of a status, none when absent (`|| []`). */
  function Bucket(st: CacheState, status: OrderStatus): seq<string> {
    if status in st.indexByStatus then st.indexByStatus[status] else []
  }

  /** `getOrdersByStatus`. */
  function GetOrdersByStatus(st: CacheState, status: OrderStatus): (r: seq<CachedOrder>)
    ensures |r| <= |Bucket(st, status)|
    ensures forall o :: o in r <==> exists id :: id in Bucket(st, status) && id in st.entities && st.entities[id] == o
    ensures (forall id :: id in Bucket(st, status) ==> id in st.entities) ==>
      |r| == |Bucket(st, status)| && forall i :: 0 <= i < |r| ==> r[i] == st.entities[Bucket(st, status)[i]]
  {
    LookupAll(Bucket(st, status), st.entities)
  }

  /**
   * With a consistent index, `getOrdersByStatus` gives exactly the orders with that status,
   * one per id of the bucket and in the bucket's order.
   */
  lemma OrdersByStatusExact(st: CacheState, status: OrderStatus)
    requires IndexConsistent(st.entities, st.indexByStatus)
    ensures forall o :: o in GetOrdersByStatus(st, status) <==> o in st.entities.Values && o.status == status
    ensures |GetOrdersByStatus(st, status)| == |Bucket(st, status)|
    ensures forall i :: 0 <= i < |Bucket(st, status)| ==>
      GetOrdersByStatus(st, status)[i] == st.entities[Bucket(st, status)[i]]
  {
    assert forall id :: id in Bucket(st, status) ==> id in st.entities;
    forall o ensures o in GetOrdersByStatus(st, status) <==> o in st.entities.Values && o.status == status {
      if o in st.entities.Values && o.status == status {
        var k :| k in st.entities && st.entities[k] == o;
        assert k in Bucket(st, status);
      }
    }
  }

  /** `getAllOrderIds`: the keys of `entities`. */
  function GetAllOrderIds(st: CacheState): (r: set<string>)
    ensures forall id :: id in r <==> GetOrder(st, id).Some?
  {
    st.entities.Keys
  }

  /** With a consistent index, the known order ids are exactly the ids in the six buckets. */
  lemma AllIdsAreIndexed(st: CacheState)
    requires IndexConsistent(st.entities, st.indexByStatus)
    ensures forall id :: id in GetAllOrderIds(st) <==> exists s :: id in st.indexByStatus[s]
  {
    forall id | id in GetAllOrderIds(st) ensures exists s :: id in st.indexByStatus[s] {
      assert id in st.indexByStatus[st.entities[id].status];
    }
  }

  // ---------------------------------------------------------------- the store

  /** `useOrdersStore`: the state fields, replaced by each action. */
  class OrdersCache {
    var entities: map<string, CachedOrder>
    var items: map<string, CachedItem>
    var itemsByOrder: map<string, seq<string>>
    var indexByStatus: map<OrderStatus, seq<string>>
    var seenEventIds: set<string>

    ghost predicate Valid()
      reads this
    {
      HasAllBuckets(indexByStatus)
    }

    function State(): CacheState
      reads this
    {
      CacheState(entities, items, itemsByOrder, indexByStatus, seenEventIds)
    }

    constructor ()
      ensures Valid() && State() == InitialState()
    {
      entities, items, itemsByOrder := map[], map[], map[];
      indexByStatus := EmptyIndex();
      seenEventIds := {};
    }

    /** The item loop of `hydrateSnapshot` and `applyOrderNew`: writes the items, collecting their ids. */
    static method NormalizeItems(base: map<string, CachedItem>, xs: seq<CachedItem>)
      returns (written: map<string, CachedItem>, itemIds: seq<string>)
      ensures written == PutItems(base, xs) && itemIds == ItemIds(xs)
    {
      written, itemIds := base, [];
      var j := 0;
      while j < |xs|
        invariant 0 <= j <= |xs|
        invariant written == PutItems(base, xs[..j]) && itemIds == ItemIds(xs[..j])
      {
        assert xs[..j + 1][..j] == xs[..j];
        assert PutItems(base, xs[..j + 1]) == PutItems(base, xs[..j])[xs[j].id := xs[j]];
        assert ItemIds(xs[..j + 1]) == ItemIds(xs[..j]) + [xs[j].id];
        written := written[xs[j].id := xs[j]];
        itemIds := itemIds + [xs[j].id];
        j := j + 1;
      }
      assert xs[..j] == xs;
    }

    /** `hydrateSnapshot`. */
    method HydrateSnapshot(orders: seq<OrderSnapshot>)
      requires Valid()
      modifies this`entities, this`items, this`itemsByOrder, this`indexByStatus
      ensures Valid() && State() == HydrateStep(old(State()), orders)
    {
      var es: map<string, CachedOrder> := map[];
      var its: map<string, CachedItem> := map[];
      var byOrder: map<string, seq<string>> := map[];
      var index := EmptyIndex();
      var k := 0;
      while k < |orders|
        invariant 0 <= k <= |orders|
        invariant Normalized(es, its, byOrder, index) == HydrateFold(orders[..k])
      {
        assert orders[..k + 1][..k] == orders[..k];
        var order := orders[k];
        var itemIds;
        its, itemIds := NormalizeItems(its, order.items);
        es := es[order.order.id := order.order];
        byOrder := byOrder[order.order.id := itemIds];
        index := AddToStatusIndex(index, order.order.status, order.order.id);
        k := k + 1;
      }
      assert orders[..k] == orders;
      assert HydrateFold(orders) == Normalized(es, its, byOrder, index);
      entities, items, itemsByOrder, indexByStatus := es, its, byOrder, index;
    }

    /** `applyOrderNew`. */
    method ApplyOrderNew(p: OrderNewPayload)
      requires Valid()
      modifies this
      ensures Valid() && State() == ApplyOrderNewStep(old(State()), p)
    {
      var eventId := GenerateEventId(NewOrder(p));
      if eventId in seenEventIds {
        return;
      }
      var existing := GetOrder(State(), p.orderId);
      if existing.Some? && p.createdAt <= existing.value.createdAt {
        return;
      }
      var written, itemIds := NormalizeItems(items, p.items);
      var index := indexByStatus;
      if existing.Some? {
        index := RemoveFromStatusIndex(index, existing.value.status, existing.value.id);
      }
      entities := entities[p.orderId := NewOrderEntity(p)];
      itemsByOrder := itemsByOrder[p.orderId := itemIds];
      index := AddToStatusIndex(index, p.status, p.orderId);
      items, indexByStatus := written, index;
      seenEventIds := seenEventIds + {eventId};
    }

    /** `applyItemStatusChanged`. */
    method ApplyItemStatusChanged(p: ItemStatusPayload)
      requires Valid()
      modifies this`items, this`seenEventIds
      ensures Valid() && State() == ApplyItemStatusStep(old(State()), p)
    {
      var eventId := GenerateEventId(ItemChange(p));
      if eventId in seenEventIds {
        return;
      }
      if p.itemId !in items {
        return;
      }
      var item := items[p.itemId];
      if p.updatedAt < item.updatedAt {
        return;
      }
      items := items[p.itemId := item.(status := p.newStatus, updatedAt := p.updatedAt)];
      seenEventIds := seenEventIds + {eventId};
    }

    /** `applyOrderStatusChanged`. */
    method ApplyOrderStatusChanged(p: OrderStatusPayload)
      requires Valid()
      modifies this`entities, this`indexByStatus, this`seenEventIds
      ensures Valid() && State() == ApplyOrderStatusStep(old(State()), p)
    {
      ghost var st := State();
      var eventId := GenerateEventId(OrderChange(p));
      if eventId in seenEventIds {
        return;
      }
      if p.orderId !in entities {
        return;
      }
      var order := entities[p.orderId];
      if p.updatedAt < order.updatedAt {
        return;
      }
      var index := RemoveFromStatusIndex(indexByStatus, order.status, order.id);
      entities := entities[p.orderId := ChangedOrder(order, p)];
      index := AddToStatusIndex(index, p.newStatus, p.orderId);
      indexByStatus := index;
      seenEventIds := seenEventIds + {eventId};
      assert State() == st.(entities := entities, indexByStatus := index, seenEventIds := seenEventIds);
    }

    /**
     * `setItemStatusOptimistic`, the clock reading given as `now`. A success returns the
     * previous status, which `Rollback` takes.
     */
    method SetItemStatusOptimistic(orderId: string, itemId: string, newStatus: ItemStatus, now: Time)
      returns (r: Result<ItemStatus, string>)
      requires Valid()
      modifies this`items
      ensures Valid()
      ensures (State(), r) == OptimisticStep(old(State()), orderId, itemId, newStatus, now)
    {
      if itemId !in items || items[itemId].orderId != orderId {
        return Err("Item " + itemId + " not found in order " + orderId);
      }
      var item := items[itemId];
      var previousStatus := item.status;
      items := items[itemId := item.(status := newStatus, updatedAt := now)];
      r := Ok(previousStatus);
    }

    /** The `rollback` closure returned by `setItemStatusOptimistic`. */
    method Rollback(itemId: string, previousStatus: ItemStatus)
      requires Valid()
      modifies this`items
      ensures Valid() && State() == RollbackStep(old(State()), itemId, previousStatus)
    {
      if itemId in items {
        items := items[itemId := items[itemId].(status := previousStatus)];
      }
    }
  }
}
