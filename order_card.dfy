/**
 * `OrderCard`: the waiter/kitchen card of one order. Its buttons move an item
 * PENDING -> IN_PROGRESS ("Start") and IN_PROGRESS -> READY ("Done"). A click updates the
 * store optimistically, calls the API, and on failure rolls the store back and shows
 * the error under the item; while the call is running the item is in `updatingItems`
 * and its buttons are disabled.
 */
module OrderCard {
  import opened Common
  import opened Contracts
  import opened Strings
  import opened OrdersStore
  import OrdersService

  // ---------------------------------------------------------------- the client guard

  /** `canTransitionTo`: the moves the card offers. */
  predicate CanTransitionTo(status: ItemStatus, target: ItemStatus) {
    (status == ItemStatus.PENDING && target == ItemStatus.IN_PROGRESS) ||
    (status == ItemStatus.IN_PROGRESS && target == ItemStatus.READY)
  }

  /**
   * The card offers only moves the server accepts, and not all of them: cancelling,
   * which the server allows from PENDING and IN_PROGRESS, is not offered.
   */
  lemma ClientGuardWithinServerRule()
    ensures forall s, t :: CanTransitionTo(s, t) ==> OrdersService.IsValidStatusTransition(s, t)
    ensures forall s, t :: OrdersService.IsValidStatusTransition(s, t) && !CanTransitionTo(s, t) <==>
      t == ItemStatus.CANCELLED && (s == ItemStatus.PENDING || s == ItemStatus.IN_PROGRESS)
  {
    forall s, t ensures OrdersService.IsValidStatusTransition(s, t) <==>
      CanTransitionTo(s, t) || (t == ItemStatus.CANCELLED && (s == ItemStatus.PENDING || s == ItemStatus.IN_PROGRESS))
    {
      OrdersService.TransitionsAllowed(s, t);
    }
  }

  // ---------------------------------------------------------------- labels

  datatype Variant = Success | Warn | Info | Muted

  /** `getOrderStatusVariant`, on the status string of the order. */
  function OrderStatusVariant(status: string): Variant {
    if status == "READY" then Success
    else if status == "IN_PROGRESS" then Warn
    else if status == "CONFIRMED" then Info
    else Muted
  }

  /** Exactly the three statuses the kitchen works on are highlighted, each differently. */
  lemma OrderVariantHighlightsKitchenStatuses()
    ensures forall s :: OrderStatusVariant(OrderStatusName(s)) != Muted <==>
      s == OrderStatus.CONFIRMED || s == OrderStatus.IN_PROGRESS || s == OrderStatus.READY
    ensures forall s, t :: OrderStatusVariant(OrderStatusName(s)) != Muted && s != t ==>
      OrderStatusVariant(OrderStatusName(s)) != OrderStatusVariant(OrderStatusName(t))
  {
    forall s ensures OrderStatusVariant(OrderStatusName(s)) != Muted <==>
      s == OrderStatus.CONFIRMED || s == OrderStatus.IN_PROGRESS || s == OrderStatus.READY
    {
      match s
      case DRAFT => case CONFIRMED => case IN_PROGRESS => case READY => case CANCELLED => case CLOSED =>
    }
  }

  /** `getItemStatusVariant`. */
  function ItemStatusVariant(status: ItemStatus): Variant {
    match status
    case READY => Success
    case IN_PROGRESS => Warn
    case PENDING => Info
    case CANCELLED => Muted
  }

  /** `getItemStatusLabel`: the Spanish label of an item status. */
  function ItemStatusLabel(status: ItemStatus): string {
    match status
    case PENDING => "Pendiente"
    case IN_PROGRESS => "Cocinando"
    case READY => "Listo"
    case CANCELLED => "Cancelado"
  }

  /** Different item statuses show different labels and different badge variants. */
  lemma ItemBadgesDistinguishStatuses(a: ItemStatus, b: ItemStatus)
    ensures ItemStatusLabel(a) == ItemStatusLabel(b) <==> a == b
    ensures ItemStatusVariant(a) == ItemStatusVariant(b) <==> a == b
  {
    if ItemStatusLabel(a) == ItemStatusLabel(b) {
      assert |ItemStatusLabel(a)| == |ItemStatusLabel(b)|;
      assert ItemStatusLabel(a)[0] == ItemStatusLabel(b)[0];
    }
  }

  /** `order.id.slice(-6).toUpperCase()`. */
  function ShortOrderId(id: string): (r: string)
    ensures |r| == if |id| < 6 then |id| else 6
    ensures r == ToUpper(id[|id| - |r|..])
  {
    ToUpper(SliceLast(id, 6))
  }

  /** `order.tableSessionId.slice(-4)`. */
  function TableLabel(tableSessionId: string): (r: string)
    ensures |r| == if |tableSessionId| < 4 then |tableSessionId| else 4
    ensures tableSessionId == tableSessionId[..|tableSessionId| - |r|] + r
  {
    SliceLast(tableSessionId, 4)
  }

  // ---------------------------------------------------------------- the handler

  /** An item as the card receives it. */
  datatype CardItem = CardItem(id: string, name: string, qty: int, status: ItemStatus)

  /** The card's `order` prop. */
  datatype CardOrder = CardOrder(
    id: string, status: string, tableSessionId: string, createdAt: Time, updatedAt: Time, items: seq<CardItem>)

  /** `order.items.find((i) => i.id === itemId)`: the first item with that id. */
  function FindItem(items: seq<CardItem>, itemId: string): (r: Option<CardItem>)
    ensures r.None? <==> forall i :: 0 <= i < |items| ==> items[i].id != itemId
    ensures r.Some? ==> r.value.id == itemId
    ensures r.Some? ==> exists i :: 0 <= i < |items| && items[i] == r.value && (forall j :: 0 <= j < i ==> items[j].id != itemId)
  {
    if items == [] then None
    else if items[0].id == itemId then Some(items[0])
    else
      FindItem(items[1..], itemId)
  }

  /** How the awaited `updateOrderItemStatus` call ends: resolved, or rejected with an `Error` message or with something else. */
  datatype ApiOutcome = Resolved | Rejected(message: Option<string>)

  /** The text stored for a rejected call. */
  function RejectionText(outcome: ApiOutcome): string
    requires outcome.Rejected?
  {
    outcome.message.GetOr("Error al actualizar")
  }

  /** The card's own state: the items being updated and the error shown under each item. */
  datatype CardState = CardState(updatingItems: set<string>, errors: map<string, string>)

  /** The guard of the handler: the item is on the card and the card offers the move. */
  predicate Offered(order: CardOrder, itemId: string, newStatus: ItemStatus) {
    FindItem(order.items, itemId).Some? && CanTransitionTo(FindItem(order.items, itemId).value.status, newStatus)
  }

  /**
   * The handler with the optimistic update inside the `try`. An unknown item or a move
   * the card does not offer changes nothing; otherwise the store is updated optimistically,
   * the store is rolled back and the error recorded when the call is rejected (or the
   * optimistic update itself fails), and the item leaves `updatingItems` in every case.
   */
  function HandleStep(card: CardState, st: CacheState, order: CardOrder, itemId: string, newStatus: ItemStatus,
                      outcome: ApiOutcome, now: Time): (r: (CardState, CacheState))
  {
    if !Offered(order, itemId, newStatus) then (card, st)
    else
      var cleared := card.errors - {itemId};
      var (st1, optimistic) := OptimisticStep(st, order.id, itemId, newStatus, now);
      if optimistic.Err? then
        (CardState(card.updatingItems - {itemId}, cleared[itemId := optimistic.error]), st)
      else if outcome.Resolved? then
        (CardState(card.updatingItems - {itemId}, cleared), st1)
      else
        (CardState(card.updatingItems - {itemId}, cleared[itemId := RejectionText(outcome)]),
         RollbackStep(st1, itemId, optimistic.value))
  }

  /**
   * The handler as written: the optimistic update runs before the `try`, so when it
   * throws the exception leaves the handler with the item still in `updatingItems`.
   * The second component tells whether the handler threw.
   */
  function HandleStepAsWritten(card: CardState, st: CacheState, order: CardOrder, itemId: string,
                               newStatus: ItemStatus, outcome: ApiOutcome, now: Time): (r: (CardState, CacheState, bool))
  {
    if !Offered(order, itemId, newStatus) then (card, st, false)
    else
      var cleared := card.errors - {itemId};
      var (st1, optimistic) := OptimisticStep(st, order.id, itemId, newStatus, now);
      if optimistic.Err? then (CardState(card.updatingItems + {itemId}, cleared), st, true)
      else
        var (card1, st2) := HandleStep(card, st, order, itemId, newStatus, outcome, now);
        (card1, st2, false)
  }

  /**
   * As written, a click on an item the store no longer holds for this order (a snapshot
   * replaced the store after the card was drawn) throws and leaves the item in
   * `updatingItems`, so its buttons stay disabled.
   */
  lemma AsWrittenLeavesItemUpdating(card: CardState, st: CacheState, order: CardOrder, itemId: string,
                                    newStatus: ItemStatus, outcome: ApiOutcome, now: Time)
    requires Offered(order, itemId, newStatus)
    requires !(itemId in st.items && st.items[itemId].orderId == order.id)
    ensures var (card1, st1, threw) := HandleStepAsWritten(card, st, order, itemId, newStatus, outcome, now);
      threw && itemId in card1.updatingItems && itemId !in card1.errors && st1 == st
  {
  }

  /** Concrete case: an empty store and a card showing one PENDING item. */
  lemma AsWrittenStuckExample()
    ensures
      var order := CardOrder("order-1", "CONFIRMED", "session-1", 0, 0, [CardItem("item-1", "Pasta", 1, ItemStatus.PENDING)]);
      var (card1, _, threw) := HandleStepAsWritten(CardState({}, map[]), InitialState(), order, "item-1",
        ItemStatus.IN_PROGRESS, Resolved, 0);
      threw && "item-1" in card1.updatingItems
  {
    var order := CardOrder("order-1", "CONFIRMED", "session-1", 0, 0, [CardItem("item-1", "Pasta", 1, ItemStatus.PENDING)]);
    assert FindItem(order.items, "item-1") == Some(order.items[0]);
  }

  /** After the handler the item is never left updating, and no other item's flag or error changes. */
  lemma HandlerReleasesItem(card: CardState, st: CacheState, order: CardOrder, itemId: string,
                            newStatus: ItemStatus, outcome: ApiOutcome, now: Time)
    requires itemId !in card.updatingItems
    ensures var (card1, _) := HandleStep(card, st, order, itemId, newStatus, outcome, now);
      itemId !in card1.updatingItems &&
      card1.updatingItems == card.updatingItems &&
      (forall k :: k != itemId ==> (k in card1.errors <==> k in card.errors)) &&
      (forall k :: k != itemId && k in card.errors ==> card1.errors[k] == card.errors[k])
  {
  }

  /**
   * A move the card does not offer, or an item not on the card, changes nothing; an
   * offered move that the API accepts leaves the item with the new status and no error;
   * a rejected one leaves the store item with its old status and shows the rejection.
   */
  lemma HandlerOutcomes(card: CardState, st: CacheState, order: CardOrder, itemId: string,
                        newStatus: ItemStatus, outcome: ApiOutcome, now: Time)
    ensures !Offered(order, itemId, newStatus) ==>
      HandleStep(card, st, order, itemId, newStatus, outcome, now) == (card, st)
    ensures Offered(order, itemId, newStatus) && itemId in st.items && st.items[itemId].orderId == order.id ==>
      var (card1, st1) := HandleStep(card, st, order, itemId, newStatus, outcome, now);
      itemId in st1.items &&
      st1.items[itemId].status == (if outcome.Resolved? then newStatus else st.items[itemId].status) &&
      (outcome.Resolved? ==> itemId !in card1.errors) &&
      (outcome.Rejected? ==> itemId in card1.errors && card1.errors[itemId] == RejectionText(outcome)) &&
      st1.entities == st.entities && st1.indexByStatus == st.indexByStatus && st1.seenEventIds == st.seenEventIds
  {
  }

  /** A button under an item: the status it asks for and whether it can be pressed. */
  datatype Action = Action(target: ItemStatus, enabled: bool)

  /** The buttons drawn for an item: "Start" on a PENDING item, "Done" on an IN_PROGRESS one, disabled while it updates. */
  function ItemActions(item: CardItem, updatingItems: set<string>): seq<Action> {
    var enabled := item.id !in updatingItems;
    if item.status == ItemStatus.PENDING then [Action(ItemStatus.IN_PROGRESS, enabled)]
    else if item.status == ItemStatus.IN_PROGRESS then [Action(ItemStatus.READY, enabled)]
    else []
  }

  /**
   * The buttons offer exactly the moves the handler's guard lets through, and each can be
   * pressed exactly when the item is not being updated.
   */
  lemma ActionsMatchGuard(item: CardItem, updatingItems: set<string>)
    ensures forall a :: a in ItemActions(item, updatingItems) ==>
      CanTransitionTo(item.status, a.target) && (a.enabled <==> item.id !in updatingItems)
    ensures forall t :: CanTransitionTo(item.status, t) ==>
      exists a :: a in ItemActions(item, updatingItems) && a.target == t
  {
    forall t | CanTransitionTo(item.status, t) ensures exists a :: a in ItemActions(item, updatingItems) && a.target == t {
      assert ItemActions(item, updatingItems)[0].target == t;
    }
  }

  /**
   * As written, once the optimistic update has thrown, none of the item's buttons can be
   * pressed again on this card.
   */
  lemma AsWrittenLocksItem(card: CardState, st: CacheState, order: CardOrder, item: CardItem,
                           newStatus: ItemStatus, outcome: ApiOutcome, now: Time)
    requires Offered(order, item.id, newStatus)
    requires !(item.id in st.items && st.items[item.id].orderId == order.id)
    ensures var (card1, _, _) := HandleStepAsWritten(card, st, order, item.id, newStatus, outcome, now);
      forall a :: a in ItemActions(item, card1.updatingItems) ==> !a.enabled
  {
    AsWrittenLeavesItemUpdating(card, st, order, item.id, newStatus, outcome, now);
  }

  /** The card's local state, bound to the shared store. */
  class CardView {
    const order: CardOrder
    const store: OrdersCache
    var updatingItems: set<string>
    var errors: map<string, string>

    function Card(): CardState
      reads this
    {
      CardState(updatingItems, errors)
    }

    constructor (order: CardOrder, store: OrdersCache)
      ensures this.order == order && this.store == store && Card() == CardState({}, map[])
    {
      this.order, this.store := order, store;
      updatingItems, errors := {}, map[];
    }

    /** `handleItemStatusChange` with the optimistic update moved inside the `try`. */
    method HandleItemStatusChange(itemId: string, newStatus: ItemStatus, outcome: ApiOutcome, now: Time)
      requires store.Valid()
      modifies this`updatingItems, this`errors, store`items
      ensures store.Valid()
      ensures (Card(), store.State()) ==
        HandleStep(old(Card()), old(store.State()), order, itemId, newStatus, outcome, now)
    {
      var item := FindItem(order.items, itemId);
      if item.None? || !CanTransitionTo(item.value.status, newStatus) {
        return;
      }
      updatingItems := updatingItems + {itemId};
      errors := errors - {itemId};
      var optimistic := store.SetItemStatusOptimistic(order.id, itemId, newStatus, now);
      if optimistic.Err? {
        errors := errors[itemId := optimistic.error];
      } else if outcome.Rejected? {
        store.Rollback(itemId, optimistic.value);
        errors := errors[itemId := RejectionText(outcome)];
      }
      updatingItems := updatingItems - {itemId};
      assert updatingItems == old(updatingItems) - {itemId};
    }

    /**
     * `handleItemStatusChange` as written: `thrown` carries the message of the error the
     * optimistic update throws, which escapes the handler before the `finally`.
     */
    method HandleItemStatusChangeAsWritten(itemId: string, newStatus: ItemStatus, outcome: ApiOutcome, now: Time)
      returns (thrown: Option<string>)
      requires store.Valid()
      modifies this`updatingItems, this`errors, store`items
      ensures store.Valid()
      ensures var (card1, st1, threw) :=
        HandleStepAsWritten(old(Card()), old(store.State()), order, itemId, newStatus, outcome, now);
        Card() == card1 && store.State() == st1 && thrown.Some? == threw
    {
      thrown := None;
      var item := FindItem(order.items, itemId);
      if item.None? || !CanTransitionTo(item.value.status, newStatus) {
        return;
      }
      updatingItems := updatingItems + {itemId};
      errors := errors - {itemId};
      var optimistic := store.SetItemStatusOptimistic(order.id, itemId, newStatus, now);
      if optimistic.Err? {
        return Some(optimistic.error);
      }
      if outcome.Rejected? {
        store.Rollback(itemId, optimistic.value);
        errors := errors[itemId := RejectionText(outcome)];
      }
      updatingItems := updatingItems - {itemId};
    }
  }
}
