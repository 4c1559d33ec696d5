# Restaurant order management, modelled in Dafny

This project models the core of a restaurant order-management system, which has a NestJS
backend and a Next.js web client.

**Server side**
- The order lifecycle, where every write is a conditional update guarded by the status it
  expects.
- Tables, whose number is unique per restaurant.
- Table sessions, with at most one OPEN session per table.
- The gate that bootstraps a restaurant together with its first administrator.
- The socket gateway's authentication middleware, its per-restaurant rooms and the socket
  guard.
- The environment flags.

**Web client side**
- The normalised order cache, fed by REST snapshots and deduplicated realtime events.
- The kitchen selector.
- The order cards, with their optimistic item updates and rollbacks.
- The elapsed-time badge.
- The socket and authentication stores.
- The two JWT helper modules.

**How the source maps onto Dafny**
- Services and stores that update state in place are classes. Their fields are maps,
  sequences and sets.
- Every state-changing method is proved equal to a specification function on a state
  value, such as `OrdersStore.ApplyOrderNewStep` or `AuthStore.HydrateStep`. For a
  server service, the method's contract states each branch of the source directly.
- The lemmas about those functions carry the properties.
- Pure helpers are functions.
- Timestamps are integers in milliseconds. Clocks, password hashes, signature
  verification, base64 plus `JSON.parse`, and socket creation are parameters.

| file | module | source |
|---|---|---|
| common.dfy, strings.dfy, json.dfy, query.dfy | helpers | `Option`/`Result`, ASCII string primitives, JSON values, sorted selection |
| contracts.dfy | `Contracts` | the status enums and the HTTP exceptions |
| db.dfy | `Db` | the Prisma tables as maps, with the uniqueness invariants of the schema |
| orders_service.dfy | `OrdersService` | backend/src/modules/orders/orders.service.ts |
| orders_store.dfy | `OrdersStore` | apps/web/src/features/orders/store/orders.store.ts |
| orders_selectors.dfy | `OrdersSelectors` | apps/web/src/features/orders/store/orders.selectors.ts |
| order_card.dfy | `OrderCard` | apps/web/src/features/orders/components/OrderCard.tsx (the handler is shared with OrderCardKDS.tsx) |
| order_card_kds.dfy | `OrderCardKds` | apps/web/src/features/orders/components/OrderCardKDS.tsx |
| tables.dfy | `Tables` | backend/src/modules/tables/tables.service.ts |
| table_sessions.dfy | `TableSessions` | backend/src/modules/table-sessions/table-sessions.service.ts |
| restaurants.dfy | `Restaurants` | backend/src/modules/restaurants/restaurants.service.ts |
| socket_store.dfy | `SocketStore` | apps/web/src/core/socket/socket.store.ts |
| auth_store.dfy | `AuthStore` | apps/web/src/core/auth/auth.store.ts |
| core_jwt.dfy | `CoreJwt` | apps/web/src/core/auth/jwt.ts |
| shared_jwt.dfy | `SharedJwt` | apps/web/src/shared/auth/jwt.ts |
| gateway.dfy | `Gateway` | backend/src/websocket/websocket.gateway.ts |
| ws_guard.dfy | `WsGuard` | backend/src/websocket/guards/ws-jwt.guard.ts |
| env.dfy | `Env` | backend/src/config/env.ts |
| time_badge.dfy | `TimeBadge` | apps/web/src/features/orders/components/TimeBadge.tsx |

Two behaviours of the code that the model keeps as written:
- `confirm` emits only an `order.new` event, with no status-changed event.
- The session statuses are the strings the service writes (`CHECKOUT`), not the contract
  enums.

## Model

| member | source | states |
|---|---|---|
| Contracts.OrderStatusNameInjective | packages/contracts/src/types/orders.ts:6-13 | different order statuses have different wire names |
| Contracts.ItemStatusNameInjective | packages/contracts/src/types/orders.ts:18-23 | different item statuses have different wire names |
| OrdersService.TransitionsAllowed | backend/src/modules/orders/orders.service.ts:442-467 | the allowed item moves are exactly PENDING→IN_PROGRESS, PENDING→CANCELLED, IN_PROGRESS→READY and IN_PROGRESS→CANCELLED; READY and CANCELLED are terminal; no status moves to itself |
| OrdersService.AutoAdvance | backend/src/modules/orders/orders.service.ts:548-588 | the order moves to IN_PROGRESS exactly when an item starts on a CONFIRMED order; it moves to READY exactly when an item becomes READY on an IN_PROGRESS order whose active items are all READY; an advance is always one step along the lifecycle; a CANCELLED target never advances the order |
| OrdersService.CancellingLastItemStrandsOrder | backend/src/modules/orders/orders.service.ts:442-467 | a cancelled item never advances an IN_PROGRESS order, and once all of an order's items are READY or CANCELLED none of them may move again, so nothing item-driven takes the order to READY |
| OrdersService.ActiveStatuses | backend/src/modules/orders/orders.service.ts:407-425 | the requested statuses are used when some are given; otherwise every status except CLOSED and CANCELLED |
| OrdersService.ApplyItemUpdate | backend/src/modules/orders/orders.service.ts:180-190 | only the supplied fields change; an empty note becomes null, a zero price becomes null; the row is stamped |
| OrdersService.OrderWriteKeepsCoherence | backend/src/modules/orders/orders.service.ts:361-402 | writing an order keeps every item consistent with its order's status when its items fit the new status |
| OrdersService.ItemWriteKeepsCoherence | backend/src/modules/orders/orders.service.ts:513-546 | writing an item whose status fits its order keeps the store coherent |
| OrdersService.NewOrderKeepsCoherence | backend/src/modules/orders/orders.service.ts:60-88 | a new order row keeps coherence, since no item refers to it |
| OrdersService.ReadyOrderPassesCloseCheck | backend/src/modules/orders/orders.service.ts:646-655 | in a coherent store a READY order always passes `close`'s item check |
| OrdersService.ConfirmedOrderMoves | backend/src/modules/orders/orders.service.ts:548-560 | on a CONFIRMED order an accepted move either starts a PENDING item, and then the order advances to IN_PROGRESS, or cancels it |
| OrdersService.ItemStatusKeepsCoherence | backend/src/modules/orders/orders.service.ts:513-625 | the item write followed by the auto-advance never leaves an item ahead of, or behind, its order |
| OrdersService.OrdersService.Create | backend/src/modules/orders/orders.service.ts:55-91 | NotFound for a missing or foreign session; BadRequest for a CLOSED one; otherwise a new DRAFT order of the tenant with no items; an error changes nothing |
| OrdersService.OrdersService.AddItem | backend/src/modules/orders/orders.service.ts:93-147 | NotFound for a missing order; Conflict unless it is DRAFT; otherwise one new PENDING item with the order's tenant and id; an error changes nothing |
| OrdersService.OrdersService.UpdateItem | backend/src/modules/orders/orders.service.ts:149-242 | NotFound for a missing order or item; Conflict unless DRAFT; Conflict for a CANCELLED item; otherwise only the supplied fields change |
| OrdersService.OrdersService.DeleteItem | backend/src/modules/orders/orders.service.ts:244-325 | a soft cancel allowed only while DRAFT or CONFIRMED; a second cancel gives Conflict; no item is ever removed |
| OrdersService.OrdersService.CommitConfirm | backend/src/modules/orders/orders.service.ts:361-402 | the conditional write DRAFT→CONFIRMED with `confirmedAt`, then one `order.new` event; Conflict with nothing changed when the order is no longer DRAFT |
| OrdersService.OrdersService.Confirm | backend/src/modules/orders/orders.service.ts:327-405 | BadRequest with no items; Conflict with a cancelled item, then with a non-PENDING item, each with its own message, or when the order is not DRAFT; otherwise CONFIRMED with only `order.new` emitted; a failure emits nothing and changes nothing |
| OrdersService.OrdersService.CommitItemStatus | backend/src/modules/orders/orders.service.ts:513-625 | the item write succeeds only if the item still has the status read before; otherwise Conflict with nothing changed; on success the auto-advance and the events follow |
| OrdersService.OrdersService.WriteItemStatus | backend/src/modules/orders/orders.service.ts:517-590 | the item gets its new status and time, the order's previous status is returned, and the order moves exactly as `AutoAdvance` says given the items after the write |
| OrdersService.OrdersService.AdvanceOrder | backend/src/modules/orders/orders.service.ts:548-588 | the order is written exactly when `AutoAdvance` gives a status, and to that status |
| OrdersService.OrdersService.UpdateItemStatus | backend/src/modules/orders/orders.service.ts:469-628 | NotFound for an unknown order or item; Conflict naming the order's status unless it is CONFIRMED or IN_PROGRESS, and Conflict naming both item statuses for an invalid move; an item event always follows success, and an order event only when the order changed |
| OrdersService.OrdersService.CommitClose | backend/src/modules/orders/orders.service.ts:657-696 | the conditional write READY→CLOSED with `closedAt`, then exactly one status-changed event carrying the status read before the lock |
| OrdersService.OrdersService.Close | backend/src/modules/orders/orders.service.ts:630-700 | BadRequest unless every active item is READY (vacuously so with none); Conflict unless the order is READY; otherwise CLOSED with one event; a failure emits nothing |
| OrdersService.OrdersService.FindActive | backend/src/modules/orders/orders.service.ts:407-440 | exactly the tenant's orders with a requested status (and session, when given), each once, newest `createdAt` first, each with its items |
| OrdersStore.EventFields | apps/web/src/features/orders/store/orders.store.ts:84-93 | an event has at least three id fields: its name, its order id and its timestamp |
| OrdersStore.GenerateEventId | apps/web/src/features/orders/store/orders.store.ts:75-93 | the sender's `eventId` when present; otherwise the fields joined by ':'; with the model's integer timestamps these split back into those fields, so distinct occurrences get distinct ids (in the source the ISO timestamps themselves hold ':') |
| OrdersStore.CompositeSplits | apps/web/src/features/orders/store/orders.store.ts:84-93 | splitting a composite id on ':' gives back its fields when the ids hold no ':' and the timestamps are the model's integers |
| OrdersStore.GeneratedIdIdentifies | apps/web/src/features/orders/store/orders.store.ts:79-93 | without a sender id, two events get the same id exactly when they are the same occurrence, so deduplication drops replays and nothing else |
| OrdersStore.NameLength | apps/web/src/features/orders/store/orders.store.ts:84-93 | the length of the event's name, which is 9, 20 or 25 depending on the kind |
| OrdersStore.EmptyIndex | apps/web/src/features/orders/store/orders.store.ts:132-139 | the index starts with an empty bucket for each of the six statuses |
| OrdersStore.IndexOf | apps/web/src/features/orders/store/orders.store.ts:108 | the position of the first occurrence of the id |
| OrdersStore.RemoveFirst | apps/web/src/features/orders/store/orders.store.ts:107-111 | a bucket without the id is unchanged; otherwise the ids before its first occurrence stay in place, the ids after it move up by one, and exactly one occurrence is gone |
| OrdersStore.RemoveFromStatusIndex | apps/web/src/features/orders/store/orders.store.ts:102-112 | only the named bucket changes; it loses the first occurrence of the id, the other ids keeping their order, and is unchanged without one |
| OrdersStore.AddToStatusIndex | apps/web/src/features/orders/store/orders.store.ts:117-126 | only the named bucket changes: it is left as it was when it already holds the id, and otherwise gets the id at its end; it never duplicates the id |
| OrdersStore.RemovedFromDistinct | apps/web/src/features/orders/store/orders.store.ts:107-111 | removing from a duplicate-free bucket removes the id completely and keeps the bucket duplicate-free |
| OrdersStore.InitialState | apps/web/src/features/orders/store/orders.store.ts:128-141 | the initial state has a consistent index and no seen events |
| OrdersStore.PutItemsWrites | apps/web/src/features/orders/store/orders.store.ts:160-175 | the item loop adds exactly the ids written, keeps every other item, and stores the last item written for each id |
| OrdersStore.HydrateFold | apps/web/src/features/orders/store/orders.store.ts:142-189 | the rebuilt orders are exactly the snapshot's, with six buckets |
| OrdersStore.HydrateStep | apps/web/src/features/orders/store/orders.store.ts:142-193 | afterwards the cached order ids are exactly the snapshot's ids, whatever was cached before; `seenEventIds` is untouched |
| OrdersStore.SnapshotItems | apps/web/src/features/orders/store/orders.store.ts:156-173 | every item of every snapshot order is among the items written |
| OrdersStore.PutItemsAppend | apps/web/src/features/orders/store/orders.store.ts:159-173 | writing two lists of items in turn is writing their concatenation |
| OrdersStore.HydrateListsKeys | apps/web/src/features/orders/store/orders.store.ts:156-190 | the rebuilt item lists are kept for exactly the snapshot's orders |
| OrdersStore.HydrateLastWinsAt | apps/web/src/features/orders/store/orders.store.ts:156-190 | an order of the snapshot that no later order shares an id with is stored as given, with its item ids as its list |
| OrdersStore.HydrateLastWins | apps/web/src/features/orders/store/orders.store.ts:156-190 | the same for every such order of the snapshot at once |
| OrdersStore.HydrateItems | apps/web/src/features/orders/store/orders.store.ts:156-173 | the rebuilt item table is every snapshot item written in turn into an empty table |
| OrdersStore.HydrateContents | apps/web/src/features/orders/store/orders.store.ts:142-193 | whatever was cached before, each order is the snapshot's last order with its id, its item list is the ids of that order's items, the item lists are kept for exactly the snapshot's orders, and the item table is all the snapshot's items written in turn into an empty table |
| OrdersStore.HydrateDiscardsState | apps/web/src/features/orders/store/orders.store.ts:142-193 | two caches hydrated from the same snapshot are equal except for their seen event ids: nothing else cached before survives |
| OrdersStore.HydrateIndexConsistent | apps/web/src/features/orders/store/orders.store.ts:177-189 | a snapshot with distinct order ids yields an index where each order sits once, in its status's bucket |
| OrdersStore.ApplyOrderNewStep | apps/web/src/features/orders/store/orders.store.ts:195-267 | a seen event, or one not strictly newer than the known order, changes nothing; an unseen event for an unknown or strictly newer order writes the order, its item list and its items, records exactly its event id, takes the first occurrence of the known order's id out of its previous status's bucket, pushes the id onto the end of its status's bucket unless still there (so an order keeping its status moves to the end), and leaves every other bucket as it was |
| OrdersStore.ApplyItemStatusStep | apps/web/src/features/orders/store/orders.store.ts:269-306 | a seen event, an unknown item or a strictly older event changes nothing; otherwise only that item's status and `updatedAt` change and its id is recorded |
| OrdersStore.ChangedOrder | apps/web/src/features/orders/store/orders.store.ts:337-347 | the new status and time; `confirmedAt`/`closedAt` are stamped on entering CONFIRMED/CLOSED and kept otherwise; nothing else changes |
| OrdersStore.ApplyOrderStatusStep | apps/web/src/features/orders/store/orders.store.ts:308-357 | a seen event, an unknown order or a strictly older event changes nothing; otherwise the order gets its new status and stamps and the event id is recorded; the first occurrence of its id leaves the previous status's bucket, it is pushed onto the end of the new status's bucket unless still there, and every other bucket keeps its contents and order |
| OrdersStore.ApplyEvent | apps/web/src/features/orders/store/orders.store.ts:195-357 | every event keeps the six buckets |
| OrdersStore.ReplayIsIdempotent | apps/web/src/features/orders/store/orders.store.ts:200-203 | applying the same event twice is the same as applying it once |
| OrdersStore.MoveKeepsIndex | apps/web/src/features/orders/store/orders.store.ts:337-350 | moving an order between buckets keeps each known order exactly once, in its status's bucket |
| OrdersStore.OrderNewKeepsIndex | apps/web/src/features/orders/store/orders.store.ts:236-258 | `applyOrderNew` keeps the index consistent |
| OrdersStore.OrderStatusKeepsIndex | apps/web/src/features/orders/store/orders.store.ts:337-350 | `applyOrderStatusChanged` keeps the index consistent |
| OrdersStore.EventKeepsIndex | apps/web/src/features/orders/store/orders.store.ts:295-305 | every event keeps the index consistent; an item event leaves orders and index untouched |
| OrdersStore.OptimisticStep | apps/web/src/features/orders/store/orders.store.ts:385-404 | the source's error when the item is unknown or belongs to another order, with nothing changed; otherwise only that item changes, to the new status stamped now, and the previous status is returned |
| OrdersStore.RollbackStep | apps/web/src/features/orders/store/orders.store.ts:408-416 | the item gets back its previous status only; no other item and no other table changes |
| OrdersStore.RollbackRestoresStatus | apps/web/src/features/orders/store/orders.store.ts:393-416 | rolling back right after the optimistic update restores the status but leaves the optimistic `updatedAt` |
| OrdersStore.LookupAll | apps/web/src/features/orders/store/orders.store.ts:370 | the values of exactly the ids present in the map; when every id is present, one value per id in the order of the ids; none when no id is present |
| OrdersStore.LookupAllAppend | apps/web/src/features/orders/store/orders.store.ts:370 | looking up two id lists in turn gives the two results in turn, so the order of the ids is kept |
| OrdersStore.GetOrder | apps/web/src/features/orders/store/orders.store.ts:360-362 | the order exactly when it is known |
| OrdersStore.GetOrderWithItems | apps/web/src/features/orders/store/orders.store.ts:364-373 | the order exactly when it is known, with exactly its listed items that are cached; when all are cached, one item per listed id, in the list's order |
| OrdersStore.GetOrdersByStatus | apps/web/src/features/orders/store/orders.store.ts:375-379 | at most as many orders as the bucket lists, exactly the cached orders of its ids; when all its ids are cached, one order per id in the bucket's order |
| OrdersStore.OrdersByStatusExact | apps/web/src/features/orders/store/orders.store.ts:375-379 | with a consistent index, exactly the known orders with that status, one per bucket id in the bucket's order |
| OrdersStore.GetAllOrderIds | apps/web/src/features/orders/store/orders.store.ts:381-383 | exactly the ids `getOrder` finds |
| OrdersStore.AllIdsAreIndexed | apps/web/src/features/orders/store/orders.store.ts:381-383 | with a consistent index, the known ids are exactly those in the buckets |
| OrdersStore.OrdersCache.constructor | apps/web/src/features/orders/store/orders.store.ts:128-141 | the store starts in the initial state |
| OrdersStore.OrdersCache.HydrateSnapshot | apps/web/src/features/orders/store/orders.store.ts:142-193 | the loops build the state `HydrateStep` specifies |
| OrdersStore.OrdersCache.ApplyOrderNew | apps/web/src/features/orders/store/orders.store.ts:195-267 | the new state is `ApplyOrderNewStep` of the old |
| OrdersStore.OrdersCache.ApplyItemStatusChanged | apps/web/src/features/orders/store/orders.store.ts:269-306 | the new state is `ApplyItemStatusStep` of the old |
| OrdersStore.OrdersCache.ApplyOrderStatusChanged | apps/web/src/features/orders/store/orders.store.ts:308-357 | the new state is `ApplyOrderStatusStep` of the old |
| OrdersStore.OrdersCache.SetItemStatusOptimistic | apps/web/src/features/orders/store/orders.store.ts:385-418 | the new state and the outcome are `OptimisticStep` of the old state |
| OrdersStore.OrdersCache.Rollback | apps/web/src/features/orders/store/orders.store.ts:408-416 | the new state is `RollbackStep` of the old |
| OrdersSelectors.CollectBucket | apps/web/src/features/orders/store/orders.selectors.ts:21-22 | exactly the orders that a bucket id finds, ids without a cached order dropped; when every id has an order, one order per id, in the bucket's order |
| OrdersSelectors.CollectAll | apps/web/src/features/orders/store/orders.selectors.ts:20-23 | exactly the orders collected from the buckets of the given statuses; one status gives its bucket's collection |
| OrdersSelectors.CollectAllAppend | apps/web/src/features/orders/store/orders.selectors.ts:20-23 | collecting two status lists in turn gives the two collections in turn, so the buckets are concatenated in the order of the statuses |
| OrdersSelectors.RelevantOrdersInBucketOrder | apps/web/src/features/orders/store/orders.selectors.ts:14-23 | the collected orders are the CONFIRMED bucket's, then the IN_PROGRESS bucket's, then the READY bucket's |
| OrdersSelectors.RelevantOrdersExact | apps/web/src/features/orders/store/orders.selectors.ts:14-23 | with a consistent index, the collected orders are exactly the cached CONFIRMED, IN_PROGRESS and READY ones |
| OrdersSelectors.ReadyOrders | apps/web/src/features/orders/store/orders.selectors.ts:32-36 | the READY orders, in order |
| OrdersSelectors.UnreadyOrders | apps/web/src/features/orders/store/orders.selectors.ts:38-47 | the other orders, in order |
| OrdersSelectors.SplitIsPartition | apps/web/src/features/orders/store/orders.selectors.ts:26-50 | every collected order lands in exactly one list |
| OrdersSelectors.Partition | apps/web/src/features/orders/store/orders.selectors.ts:26-50 | the loop puts exactly the READY orders in `ready` and every other order in `inProgress`, each in collection order, so the fallback push at line 48 never adds anything |
| OrdersSelectors.InsertByTimeKeeps | apps/web/src/features/orders/store/orders.selectors.ts:53-60 | inserting into a newest-first list keeps it newest first, with the same orders plus one |
| OrdersSelectors.SortByTimeSorts | apps/web/src/features/orders/store/orders.selectors.ts:53-60 | the sort is a permutation, and newest `updatedAt` first |
| OrdersSelectors.UseKitchenOrders | apps/web/src/features/orders/store/orders.selectors.ts:9-67 | the two lists partition the collected orders, READY ones apart, both newest first; `all` is the first list followed by the second |
| OrderCard.ClientGuardWithinServerRule | apps/web/src/features/orders/components/OrderCard.tsx:70-78 | every move the card offers (the KDS card's guard, OrderCardKDS.tsx:30-38, is the same rule) is allowed by the server; the server allows exactly the card's moves plus cancelling a PENDING or IN_PROGRESS item |
| OrderCard.OrderVariantHighlightsKitchenStatuses | apps/web/src/features/orders/components/OrderCard.tsx:29-40 | READY, IN_PROGRESS and CONFIRMED get success, warn and info; every other status is muted |
| OrderCard.ItemBadgesDistinguishStatuses | apps/web/src/features/orders/components/OrderCard.tsx:42-68 | different item statuses show different labels and different badge variants |
| OrderCard.ShortOrderId | apps/web/src/features/orders/components/OrderCard.tsx:123 | the last six characters of the id (all of a shorter one), upper-cased, as both cards show it (also OrderCardKDS.tsx:84) |
| OrderCard.FindItem | apps/web/src/features/orders/components/OrderCard.tsx:89 | none exactly when no item has the id; otherwise the first item with it |
| OrderCard.HandlerReleasesItem | apps/web/src/features/orders/components/OrderCard.tsx:94-120 | after the handler (also the KDS card's, OrderCardKDS.tsx:57-81) the item is never left updating, and no other item's flag or error changes |
| OrderCard.HandlerOutcomes | apps/web/src/features/orders/components/OrderCard.tsx:89-120 | an unknown item or a move not offered changes nothing; an accepted call leaves the new status with no error; a rejected one restores the old status and shows the error; the KDS card's handler (OrderCardKDS.tsx:52-81) is the same |
| OrderCard.ActionsMatchGuard | apps/web/src/features/orders/components/OrderCard.tsx:161-185 | the buttons offer exactly the moves the guard allows, each enabled exactly while the item is not updating |
| OrderCard.AsWrittenLeavesItemUpdating | apps/web/src/features/orders/components/OrderCard.tsx:94-104 | as written, when the optimistic update throws, the handler throws with the item still updating |
| OrderCard.AsWrittenStuckExample | apps/web/src/features/orders/components/OrderCard.tsx:94-104 | a concrete card and an empty store on which the written handler throws and leaves the item updating |
| OrderCard.AsWrittenLocksItem | apps/web/src/features/orders/components/OrderCard.tsx:161-185 | as written, after that throw every button of the item stays disabled |
| OrderCard.CardView.constructor | apps/web/src/features/orders/components/OrderCard.tsx:80-83 | a card starts with no item updating and no errors |
| OrderCard.CardView.HandleItemStatusChange | apps/web/src/features/orders/components/OrderCard.tsx:85-121 | the corrected handler's card state and store state are those `HandleStep` specifies |
| OrderCard.CardView.HandleItemStatusChangeAsWritten | apps/web/src/features/orders/components/OrderCard.tsx:85-121 | the handler as written: its card state, its store state and whether it throws are those `HandleStepAsWritten` specifies |
| OrderCardKds.ReadyFooterMeansNothingLeft | apps/web/src/features/orders/components/OrderCardKDS.tsx:87-88 | when all items are READY no item is cooking and no button is drawn; an order without items counts as all READY |
| OrderCardKds.CheckboxIsReadyButton | apps/web/src/features/orders/components/OrderCardKDS.tsx:128-139 | the checkbox is enabled exactly when the READY button is; it is never enabled and checked together; ticking it makes the item READY on success and keeps its status on failure |
| Tables.NumberTakenPerRestaurant | backend/src/modules/tables/tables.service.ts:33-38 | a new table takes its number only in its own restaurant; other restaurants may reuse it |
| Tables.TablesService.FindAll | backend/src/modules/tables/tables.service.ts:10-29 | exactly the tenant's tables, each once, by ascending number |
| Tables.TablesService.Create | backend/src/modules/tables/tables.service.ts:31-64 | Conflict with nothing changed when the number is taken in the restaurant; otherwise one new AVAILABLE table, with a null area when it is missing or empty; numbers stay unique |
| Tables.TablesService.FindOneById | backend/src/modules/tables/tables.service.ts:66-79 | the table when it belongs to the tenant; otherwise NotFound |
| TableSessions.Respond | backend/src/modules/table-sessions/table-sessions.service.ts:69-91 | the response carries the session's fields and its table's id and status |
| TableSessions.Occupy | backend/src/modules/table-sessions/table-sessions.service.ts:49-56 | an AVAILABLE table becomes OCCUPIED; a table in any other status is unchanged |
| TableSessions.OnlyOpenSessionsBlock | backend/src/modules/table-sessions/table-sessions.service.ts:37-47 | a CHECKOUT or CLOSED session never blocks opening a new one |
| TableSessions.TableSessionsService.OpenSession | backend/src/modules/table-sessions/table-sessions.service.ts:17-92 | NotFound for a missing or foreign table; Conflict when it has an OPEN session; otherwise a new OPEN session opened by the caller; at most one OPEN session per table is kept |
| TableSessions.TableSessionsService.RequestCheckout | backend/src/modules/table-sessions/table-sessions.service.ts:94-150 | NotFound for a foreign or missing session; Conflict unless it is OPEN; otherwise the session and its table become CHECKOUT |
| TableSessions.CheckoutCloseFreesOccupiedTable | backend/src/modules/table-sessions/table-sessions.service.ts:38-187 | while a table's only unclosed session is in CHECKOUT, a new session may open there and leaves the CHECKOUT table as it is; closing the older session then makes the table AVAILABLE although the newer session is OPEN |
| TableSessions.TableSessionsService.CloseSession | backend/src/modules/table-sessions/table-sessions.service.ts:152-211 | Conflict when already CLOSED; otherwise the session becomes CLOSED with `closedAt`, and its table becomes AVAILABLE |
| TableSessions.TableSessionsService.FindActiveSessions | backend/src/modules/table-sessions/table-sessions.service.ts:213-245 | exactly the tenant's OPEN and CHECKOUT sessions, each once, newest `openedAt` first |
| Restaurants.GateNeedsConfiguredSecret | backend/src/modules/restaurants/restaurants.service.ts:17-28 | without a non-empty configured secret only the first restaurant can be bootstrapped; with one, a caller who does not send it is refused once a restaurant exists |
| Restaurants.RestaurantsService.CreateRestaurantAndAdmin | backend/src/modules/restaurants/restaurants.service.ts:46-67 | one ACTIVE restaurant and one active admin of that restaurant, ADMIN unless another role is given |
| Restaurants.RestaurantsService.Bootstrap | backend/src/modules/restaurants/restaurants.service.ts:15-83 | Forbidden when the gate is closed; Conflict when any user has the e-mail; both change nothing; otherwise the pair is created and echoed in the response |
| SocketStore.Initial | apps/web/src/core/socket/socket.store.ts:20-21 | disconnected, no error, no socket |
| SocketStore.ConnectStep | apps/web/src/core/socket/socket.store.ts:23-55 | the new socket is held while connecting with a cleared error; if creating it throws, the status is error with its message (default "Failed to create socket") and no socket is held |
| SocketStore.EventStep | apps/web/src/core/socket/socket.store.ts:36-50 | connect gives connected with no error; disconnect keeps the error; connect_error records the message; error records the message, or "Socket error" when it is empty; the socket is kept |
| SocketStore.DisconnectStep | apps/web/src/core/socket/socket.store.ts:57-63 | disconnected, no error, no socket |
| SocketStore.StepsKeepWellFormed | apps/web/src/core/socket/socket.store.ts:20-63 | a connecting or connected store holds a socket and has no error, and an error status has a message, after every action |
| SocketStore.SocketSession.Connect | apps/web/src/core/socket/socket.store.ts:23-55 | the held socket is dropped first; the new state is `ConnectStep` of the old |
| SocketStore.SocketSession.OnEvent | apps/web/src/core/socket/socket.store.ts:36-50 | the new state is `EventStep` of the old |
| SocketStore.SocketSession.Disconnect | apps/web/src/core/socket/socket.store.ts:57-63 | the held socket is dropped; the new state is `DisconnectStep` of the old |
| AuthStore.Initial | apps/web/src/core/auth/auth.store.ts:23-25 | anon, with no token and no user |
| AuthStore.HydrateStep | apps/web/src/core/auth/auth.store.ts:27-53 | without a window nothing changes; otherwise no stored token signs out, an invalid one is removed from storage and signs out, and a valid one signs in with the user its claims name |
| AuthStore.SetTokenStep | apps/web/src/core/auth/auth.store.ts:55-74 | without a window nothing happens; an invalid token throws and changes nothing; a valid one is stored under the key and signs in with its claims' user |
| AuthStore.LogoutStep | apps/web/src/core/auth/auth.store.ts:76-81 | the key is removed and the store signs out; without a window nothing changes |
| AuthStore.ActionsKeepConsistent | apps/web/src/core/auth/auth.store.ts:28-80 | after every action the status is authenticated exactly when a token and a user are held |
| AuthStore.SessionSurvivesReload | apps/web/src/core/auth/auth.store.ts:27-74 | hydrating after a successful `setToken`, while the token is still valid, gives back the same session; hydrating after `logout` gives a signed-out one |
| AuthStore.AuthSession.HydrateFromStorage | apps/web/src/core/auth/auth.store.ts:27-53 | the new state is `HydrateStep` of the old |
| AuthStore.AuthSession.SetToken | apps/web/src/core/auth/auth.store.ts:55-74 | the new state and the thrown error are `SetTokenStep` of the old state |
| AuthStore.AuthSession.Logout | apps/web/src/core/auth/auth.store.ts:76-81 | the new state is `LogoutStep` of the old |
| CoreJwt.DecodeJwt | apps/web/src/core/auth/jwt.ts:8-31 | none unless the token has exactly three parts; otherwise the decoding of the base64url-normalised payload part; it never throws |
| CoreJwt.ValidityRule | apps/web/src/core/auth/jwt.ts:38-57 | false for no payload and for a missing or empty role or restaurant id; otherwise true exactly when `exp` is absent, 0, or not below the current second |
| CoreJwt.ExpiryIsMonotone | apps/web/src/core/auth/jwt.ts:49-56 | an expired token stays expired as time passes; a token valid later was valid earlier |
| SharedJwt.JwtFormatIsTwoDots | apps/web/src/shared/auth/jwt.ts:8-14 | the JWT shape holds exactly when the string has two dots; empty parts are allowed, and the empty string is rejected |
| SharedJwt.FromBase64Url | apps/web/src/shared/auth/jwt.ts:31 | '-' becomes '+' and '_' becomes '/', every other character is kept, so no '-' or '_' is left |
| SharedJwt.PaddingLength | apps/web/src/shared/auth/jwt.ts:34 | the padding is between 0 and 3 and completes the length to a multiple of four |
| SharedJwt.Pad | apps/web/src/shared/auth/jwt.ts:34 | the padded text starts with the input, continues with '=' only, and has a length that is a multiple of four |
| SharedJwt.DecodeJwtPayload | apps/web/src/shared/auth/jwt.ts:21-45 | none for a token without the JWT shape |
| SharedJwt.IsTokenUsable | apps/web/src/shared/auth/jwt.ts:52-80 | ok exactly when there is no reason; an ok result carries an object payload, the one the trimmed token decodes to; a rejected one carries none; the reason is "empty" exactly for a blank token (checked first), "format" exactly for a non-blank token whose trimmed form lacks the three-part shape, "decode" exactly when that shape holds but the payload does not decode or is falsy, "object" exactly when it decodes to a non-object |
| SharedJwt.UsabilityOfTrimmed | apps/web/src/shared/auth/jwt.ts:61-80 | any other token is judged by its trimmed form; an ok result has the JWT shape and the payload its trimmed form decodes to |
| Gateway.ExtractToken | backend/src/websocket/websocket.gateway.ts:68-85 | a present header wins: without "Bearer " when it has the prefix, whole otherwise; with no header, a present `auth.token`; otherwise none |
| Gateway.HeaderWins | backend/src/websocket/websocket.gateway.ts:70-81 | a present header decides the token whatever `auth.token` holds |
| Gateway.BearerRoundTrip | backend/src/websocket/websocket.gateway.ts:71-74 | extracting from "Bearer " followed by a token gives the token back |
| Gateway.SecretOf | backend/src/websocket/websocket.gateway.ts:45 | the configured secret when it is non-empty, "your-secret-key" otherwise |
| Gateway.RoomOf | backend/src/websocket/websocket.gateway.ts:54 | the room name is "restaurant:" followed by the restaurant id |
| Gateway.RoomsSeparateRestaurants | backend/src/websocket/websocket.gateway.ts:54 | two restaurants share a room only when they are the same restaurant |
| Gateway.Authenticate | backend/src/websocket/websocket.gateway.ts:37-65 | refused with "No token provided" when no non-empty token is found, with "Invalid token" when it does not verify; accepted with the claims exactly otherwise |
| Gateway.BareBearerRefused | backend/src/websocket/websocket.gateway.ts:40-42 | a header of exactly "Bearer " is refused for having no token, even when `auth.token` holds one |
| Gateway.RealtimeGateway.Middleware | backend/src/websocket/websocket.gateway.ts:37-65 | a refused socket is left unchanged and gets the error; an accepted one gets the claims and joins its restaurant's room |
| Gateway.BroadcastReachesOwnRestaurant | backend/src/websocket/websocket.gateway.ts:108-110 | `emitToRestaurant` targets the room a socket joined exactly when the socket's claims name that restaurant |
| WsGuard.ExtractToken | backend/src/websocket/guards/ws-jwt.guard.ts:37-50 | a present header with the "Bearer " prefix gives the rest; any other header is ignored in favour of a present `auth.token` |
| WsGuard.GuardAndGatewayTokens | backend/src/websocket/guards/ws-jwt.guard.ts:39-48 | the guard and the gateway read the same token except for a non-empty header without the prefix, which the gateway takes whole and the guard ignores |
| WsGuard.RawHeaderReadDifferently | backend/src/websocket/guards/ws-jwt.guard.ts:39-48 | a concrete handshake that the two read differently |
| WsGuard.Decide | backend/src/websocket/guards/ws-jwt.guard.ts:14-35 | Unauthorized "No token provided" without a token; Unauthorized "Invalid token" when it does not verify; the claims exactly otherwise |
| WsGuard.GuardAgreesWithMiddleware | backend/src/websocket/guards/ws-jwt.guard.ts:14-35 | without a raw header, the guard admits exactly the clients the middleware admits, with the same claims |
| WsGuard.WsJwtGuard.CanActivate | backend/src/websocket/guards/ws-jwt.guard.ts:14-35 | true, with the claims copied onto the client, or the Unauthorized error with the client unchanged |
| Env.Coalesce | backend/src/config/env.ts:15 | only an undefined explicit value falls back |
| Env.ExplicitValueWins | backend/src/config/env.ts:14-63 | an explicit value, even an empty one, decides every flag whatever the environment holds; an undefined one acts like passing the environment's value |
| Env.DevelopmentIsNormalizedMembership | backend/src/config/env.ts:14-28 | development means the normalised value is one of development, dev or local; normalising is idempotent |
| Env.UnsetNormalizedIsDevelopment | backend/src/config/env.ts:26-28 | with nothing set, the normalised value is "development" |
| Env.UnsetIsNotDevelopment | backend/src/config/env.ts:14-17 | with nothing set, the environment is not a development one |
| Env.UnsetEnvironment | backend/src/config/env.ts:37-51 | with nothing set, `getNodeEnvInfo` reports no raw value, "development" and false |
| Env.UnsetDevLoginIsOff | backend/src/config/env.ts:60-63 | an unset or empty dev-login value is off |
| Env.FlagsIgnoreCaseAndSpace | backend/src/config/env.ts:14-63 | letter case and surrounding white space never change a flag |
| TimeBadge.FormatElapsed | apps/web/src/features/orders/components/TimeBadge.tsx:16-31 | under a minute, the seconds and "s"; otherwise a colon and a two-digit field, ending in "m" below an hour and "h" from an hour on |
| TimeBadge.FormatElapsedReadsBack | apps/web/src/features/orders/components/TimeBadge.tsx:23-31 | the text reads back: minutes·60 + seconds = diff below an hour; hours·60 + minutes = whole minutes from an hour on; the field is below 60 |
| TimeBadge.Classify | apps/web/src/features/orders/components/TimeBadge.tsx:41-43 | urgent exactly from 10 minutes, warning exactly from 5 to 9, normal exactly below 5 |
| TimeBadge.MinutesAgree | apps/web/src/features/orders/components/TimeBadge.tsx:18-41 | the whole minutes used for the class equal the whole seconds divided by 60 |

## Left out

- Concurrency. The Postgres advisory locks and transaction isolation are not modelled:
  each transaction is one sequential method. For `confirm`, `updateItemStatus` and
  `close` the read before the transaction is a separate step, so what another request
  does in between can be stated.
- I/O and transport. Logging, `EventsEmitterService` (modelled as a ghost log of the
  events handed to it), the socket.io broadcast, HTTP, React rendering and
  `socket.client.ts` are not modelled.
- Library calls are parameters of the model:
  - `bcrypt`: the password hash;
  - `jwtService.verify`: `verify`, which gives none where it throws;
  - `atob` with `JSON.parse`: `parse`;
  - `createSocket`: its outcome;
  - the clock: `now` / `nowMs`;
  - `window` and `localStorage`: `hasWindow` and a map.
- Dates. ISO-8601 strings and `Date` parsing are integers in milliseconds.
- Prisma's `@updatedAt`. It is written explicitly with `now`.
- The constants file that defines `AUTH_TOKEN_KEY` is not part of this model. The key is
  a parameter of `AuthStore.AuthSession`.
- The event-id fallback of `generateEventId` (time plus `Math.random`) is not modelled:
  every modelled event has one of the three known names, so the fallback cannot be
  reached.
- OrdersStore.RollbackStep: when the item has disappeared from the store before the
  rollback runs, the source writes a record holding only `status`. The model leaves the
  store as it is in that case.
- OrdersStore.OrdersCache: the bucket arrays that `applyOrderNew` shares with the previous
  state through a shallow copy are modelled as values. That aliasing is not captured.
- OrdersStore.HydrateIndexConsistent: requires the snapshot's order ids to be distinct.
  `addToStatusIndex` skips an id already in the bucket, so an id repeated with the same
  status is listed once. An id repeated with a different status stays in the earlier,
  stale bucket as well as the new one, and the index is then not consistent.
- OrdersSelectors.SortByTimeSorts: proves that the result is sorted and a permutation. It
  does not prove how orders with equal times are ordered relative to each other.
- OrdersSelectors.UseKitchenOrders: the `updatedAt || createdAt` fallback is dropped,
  since every cached order has an `updatedAt`.
- CoreJwt.ValidateJwtPayload: only a numeric `exp` is compared with the clock. A string
  `exp`, which JavaScript would coerce, is treated as never expiring.
- SharedJwt.DecodeJwtPayload: states only that a token without the JWT shape gives none.
  The outcome for a well-shaped token is whatever `parse` gives.
- SocketStore.EventStep: events from a socket the store has already dropped are not
  modelled. The well-formedness lemma assumes the event comes from the held socket.
- SocketStore.SocketSession.Connect: the synchronous `disconnect` callback that dropping
  the old socket fires is not modelled separately. `connect` overwrites the status and
  error right after it anyway.
- TimeBadge: the one-second interval that refreshes the text is not modelled, only the
  text and the class for a given clock reading.
- Strings: `toLowerCase`, `toUpperCase` and `trim` are modelled on ASCII only.

## Findings

| source | as written | input that shows it | evidently intended | confidence | as-written member | corrected member |
|---|---|---|---|---|---|---|
| apps/web/src/features/orders/components/OrderCard.tsx:102 (same at OrderCardKDS.tsx:64) | `setItemStatusOptimistic` runs before the `try`, so its exception skips the `finally` that clears `updatingItems` | a card showing item "item-1" of order "order-1" while the store no longer holds that item for that order (for example after a snapshot replaced it); clicking "Start" throws, and the item's buttons stay disabled | the failed optimistic update is reported as the item's error, and the item always leaves `updatingItems` | not executed | OrderCard.AsWrittenStuckExample | OrderCard.HandlerReleasesItem |
