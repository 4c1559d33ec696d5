/**
 * `OrderCardKDS`: the kitchen-display card. It shares the order card's guard, handler,
 * short id and buttons, and adds a "ready" checkbox per item and a footer shown when
 * every item is READY.
 */
module OrderCardKds {
  import opened Common
  import opened Contracts
  import opened OrdersStore
  import opened OrderCard

  /** `order.items.every((item) => item.status === READY)`. */
  predicate AllItemsReady(items: seq<CardItem>) {
    forall i :: 0 <= i < |items| ==> items[i].status == ItemStatus.READY
  }

  /** `order.items.some((item) => item.status === IN_PROGRESS)`. */
  predicate HasInProgress(items: seq<CardItem>) {
    exists i :: 0 <= i < |items| && items[i].status == ItemStatus.IN_PROGRESS
  }

  /**
   * The footer appears when nothing is left to cook: no item offers a button, and no
   * item is cooking. An order without items shows it too.
   */
  lemma ReadyFooterMeansNothingLeft(items: seq<CardItem>, updatingItems: set<string>)
    ensures AllItemsReady(items) ==> !HasInProgress(items)
    ensures AllItemsReady(items) ==> forall i :: 0 <= i < |items| ==> ItemActions(items[i], updatingItems) == []
    ensures items == [] ==> AllItemsReady(items)
    ensures HasInProgress(items) ==> !AllItemsReady(items)
  {
  }

  /** `checked={isReady}`. */
  predicate CheckboxChecked(item: CardItem) {
    item.status == ItemStatus.READY
  }

  /** `disabled={isUpdating || !isInProgress}`, negated. */
  predicate CheckboxEnabled(item: CardItem, updatingItems: set<string>) {
    !(item.id in updatingItems || item.status != ItemStatus.IN_PROGRESS)
  }

  /** The checkbox's `onChange`: marks an IN_PROGRESS item READY through the handler. */
  function OnCheckboxChange(card: CardState, st: CacheState, order: CardOrder, item: CardItem,
                            outcome: ApiOutcome, now: Time): (CardState, CacheState) {
    if item.status == ItemStatus.IN_PROGRESS then
      HandleStep(card, st, order, item.id, ItemStatus.READY, outcome, now)
    else (card, st)
  }

  /**
   * The checkbox is a second "Listo" button: it can be ticked exactly when the item's
   * READY button can be pressed, it is never enabled and checked at once, and ticking it
   * on an item the store holds for this order makes the store item READY when the call
   * succeeds and leaves its status unchanged when it fails.
   */
  lemma CheckboxIsReadyButton(card: CardState, st: CacheState, order: CardOrder, item: CardItem,
                              outcome: ApiOutcome, now: Time)
    requires FindItem(order.items, item.id) == Some(item)
    ensures CheckboxEnabled(item, card.updatingItems) <==>
      Action(ItemStatus.READY, true) in ItemActions(item, card.updatingItems)
    ensures !(CheckboxEnabled(item, card.updatingItems) && CheckboxChecked(item))
    ensures item.status == ItemStatus.IN_PROGRESS && item.id in st.items && st.items[item.id].orderId == order.id ==>
      var (card1, st1) := OnCheckboxChange(card, st, order, item, outcome, now);
      st1.items[item.id].status == (if outcome.Resolved? then ItemStatus.READY else st.items[item.id].status) &&
      item.id !in card1.updatingItems - card.updatingItems
    ensures item.status != ItemStatus.IN_PROGRESS ==> OnCheckboxChange(card, st, order, item, outcome, now) == (card, st)
  {
    if item.status == ItemStatus.IN_PROGRESS && item.id in st.items && st.items[item.id].orderId == order.id {
      HandlerOutcomes(card, st, order, item.id, ItemStatus.READY, outcome, now);
    }
  }
}
