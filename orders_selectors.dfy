/**
 * `useKitchenOrders`: the orders the kitchen screen shows, read from the store's state.
 * The CONFIRMED, IN_PROGRESS and READY buckets are read in that order, ids without an
 * order in the cache are dropped, the rest are split into READY orders and the others,
 * and both lists are sorted newest `updatedAt` first.
 */
module OrdersSelectors {
  import opened Common
  import opened Contracts
  import opened OrdersStore

  /** The statuses the kitchen sees, in the order their buckets are read. */
  const RELEVANT_STATUSES: seq<OrderStatus> := [OrderStatus.CONFIRMED, OrderStatus.IN_PROGRESS, OrderStatus.READY]

  predicate Relevant(s: OrderStatus) {
    s == OrderStatus.CONFIRMED || s == OrderStatus.IN_PROGRESS || s == OrderStatus.READY
  }

  /** `orderIds.map((id) => getOrderWithItems(id)).filter(Boolean)`. */
  function CollectBucket(st: CacheState, ids: seq<string>): (r: seq<OrderWithItems>)
    ensures |r| <= |ids|
    ensures forall o :: o in r <==> exists id :: id in ids && GetOrderWithItems(st, id) == Some(o)
    ensures (forall id :: id in ids ==> id in st.entities) ==>
      |r| == |ids| && forall i :: 0 <= i < |ids| ==> Some(r[i]) == GetOrderWithItems(st, ids[i])
  {
    if ids == [] then []
    else
      var rest := CollectBucket(st, ids[1..]);
      assert forall id :: id in ids <==> id == ids[0] || id in ids[1..];
      match GetOrderWithItems(st, ids[0])
      case Some(o) => [o] + rest
      case None => rest
  }

  /** `relevantStatuses.flatMap(...)`: the collected buckets one after another. */
  function CollectAll(st: CacheState, statuses: seq<OrderStatus>): (r: seq<OrderWithItems>)
    ensures forall o :: o in r <==> exists s :: s in statuses && o in CollectBucket(st, Bucket(st, s))
    ensures |statuses| == 1 ==> r == CollectBucket(st, Bucket(st, statuses[0]))
  {
    if statuses == [] then []
    else
      assert forall s :: s in statuses <==> s == statuses[0] || s in statuses[1..];
      CollectBucket(st, Bucket(st, statuses[0])) + CollectAll(st, statuses[1..])
  }

  /** Collecting two lists of statuses in turn gives the two collections in turn. */
  lemma {:induction false} CollectAllAppend(st: CacheState, a: seq<OrderStatus>, b: seq<OrderStatus>)
    ensures CollectAll(st, a + b) == CollectAll(st, a) + CollectAll(st, b)
  {
    if a == [] {
      assert a + b == b;
    } else {
      var head := CollectBucket(st, Bucket(st, a[0]));
      CollectAllAppend(st, a[1..], b);
      assert (a + b)[0] == a[0] && (a + b)[1..] == a[1..] + b;
      assert CollectAll(st, a + b) == head + CollectAll(st, a[1..] + b);
      assert CollectAll(st, a) == head + CollectAll(st, a[1..]);
    }
  }

  /** `allRelevantOrders`. */
  function RelevantOrders(st: CacheState): seq<OrderWithItems> {
    CollectAll(st, RELEVANT_STATUSES)
  }

  /**
   * The collected orders are the CONFIRMED bucket's, then the IN_PROGRESS bucket's, then
   * the READY bucket's, each bucket in its own order.
   */
  lemma RelevantOrdersInBucketOrder(st: CacheState)
    ensures RelevantOrders(st) ==
      CollectBucket(st, Bucket(st, OrderStatus.CONFIRMED)) +
      CollectBucket(st, Bucket(st, OrderStatus.IN_PROGRESS)) +
      CollectBucket(st, Bucket(st, OrderStatus.READY))
  {
    var c, i, d := [OrderStatus.CONFIRMED], [OrderStatus.IN_PROGRESS], [OrderStatus.READY];
    assert RELEVANT_STATUSES == c + (i + d);
    CollectAllAppend(st, c, i + d);
    CollectAllAppend(st, i, d);
    var xc, xi, xd := CollectAll(st, c), CollectAll(st, i), CollectAll(st, d);
    assert xc == CollectBucket(st, Bucket(st, OrderStatus.CONFIRMED));
    assert xi == CollectBucket(st, Bucket(st, OrderStatus.IN_PROGRESS));
    assert xd == CollectBucket(st, Bucket(st, OrderStatus.READY));
    assert RelevantOrders(st) == xc + (xi + xd);
    assert xc + (xi + xd) == xc + xi + xd;
  }

  /**
   * With a consistent index, the collected orders are exactly the cached orders whose
   * status is CONFIRMED, IN_PROGRESS or READY, each with its items.
   */
  lemma RelevantOrdersExact(st: CacheState)
    requires IndexConsistent(st.entities, st.indexByStatus)
    ensures forall o :: o in RelevantOrders(st) ==> Relevant(o.order.status) && o.order in st.entities.Values
    ensures forall id :: id in st.entities && Relevant(st.entities[id].status) ==>
      GetOrderWithItems(st, id).value in RelevantOrders(st)
  {
    forall o | o in RelevantOrders(st) ensures Relevant(o.order.status) && o.order in st.entities.Values {
      var s :| s in RELEVANT_STATUSES && o in CollectBucket(st, Bucket(st, s));
      var id :| id in Bucket(st, s) && GetOrderWithItems(st, id) == Some(o);
      assert st.entities[id].status == s;
    }
    forall id | id in st.entities && Relevant(st.entities[id].status)
      ensures GetOrderWithItems(st, id).value in RelevantOrders(st)
    {
      var s := st.entities[id].status;
      assert id in Bucket(st, s);
      assert s in RELEVANT_STATUSES;
    }
  }

  // ---------------------------------------------------------------- partition

  /** `order.items.some(item => PENDING or IN_PROGRESS)`. */
  predicate HasPendingOrInProgress(o: OrderWithItems) {
    exists i :: 0 <= i < |o.items| && (o.items[i].status == ItemStatus.PENDING || o.items[i].status == ItemStatus.IN_PROGRESS)
  }

  /** The READY orders of `xs`, in order. */
  function ReadyOrders(xs: seq<OrderWithItems>): (r: seq<OrderWithItems>)
    ensures forall o :: o in r <==> o in xs && o.order.status == OrderStatus.READY
  {
    if xs == [] then []
    else
      var rest := ReadyOrders(xs[..|xs| - 1]);
      var o := xs[|xs| - 1];
      assert forall x :: x in xs <==> x in xs[..|xs| - 1] || x == o;
      if o.order.status == OrderStatus.READY then rest + [o] else rest
  }

  /** The other orders of `xs`, in order. */
  function UnreadyOrders(xs: seq<OrderWithItems>): (r: seq<OrderWithItems>)
    ensures forall o :: o in r <==> o in xs && o.order.status != OrderStatus.READY
  {
    if xs == [] then []
    else
      var rest := UnreadyOrders(xs[..|xs| - 1]);
      var o := xs[|xs| - 1];
      assert forall x :: x in xs <==> x in xs[..|xs| - 1] || x == o;
      if o.order.status != OrderStatus.READY then rest + [o] else rest
  }

  /** Every order lands in exactly one of the two lists. */
  lemma {:induction false} SplitIsPartition(xs: seq<OrderWithItems>)
    ensures multiset(UnreadyOrders(xs)) + multiset(ReadyOrders(xs)) == multiset(xs)
    ensures |UnreadyOrders(xs)| + |ReadyOrders(xs)| == |xs|
  {
    if xs != [] {
      var init := xs[..|xs| - 1];
      SplitIsPartition(init);
      assert xs == init + [xs[|xs| - 1]];
    }
  }

  /**
   * The partition loop. A READY order goes to `ready`; any other goes to `inProgress`,
   * by a test whose second half already holds, so its `ready` branch is never taken.
   */
  method Partition(orders: seq<OrderWithItems>) returns (inProgress: seq<OrderWithItems>, ready: seq<OrderWithItems>)
    ensures inProgress == UnreadyOrders(orders) && ready == ReadyOrders(orders)
  {
    inProgress, ready := [], [];
    var k := 0;
    while k < |orders|
      invariant 0 <= k <= |orders|
      invariant inProgress == UnreadyOrders(orders[..k]) && ready == ReadyOrders(orders[..k])
    {
      assert orders[..k + 1][..k] == orders[..k];
      var order := orders[k];
      if order.order.status == OrderStatus.READY {
        ready := ready + [order];
      } else {
        var hasPendingOrInProgress := HasPendingOrInProgress(order);
        if hasPendingOrInProgress || order.order.status != OrderStatus.READY {
          inProgress := inProgress + [order];
        } else {
          ready := ready + [order];
        }
      }
      k := k + 1;
    }
    assert orders[..k] == orders;
  }

  // ---------------------------------------------------------------- sort

  /** `sortByTime`'s key: the order's `updatedAt`. */
  function TimeKey(o: OrderWithItems): int {
    o.order.updatedAt
  }

  predicate SortedByTime(xs: seq<OrderWithItems>) {
    forall i, j :: 0 <= i < j < |xs| ==> TimeKey(xs[i]) >= TimeKey(xs[j])
  }

  /** Puts `x` before the first order that is not newer, after the newer ones. */
  function InsertByTime(x: OrderWithItems, ys: seq<OrderWithItems>): seq<OrderWithItems> {
    if ys == [] || TimeKey(x) >= TimeKey(ys[0]) then [x] + ys
    else [ys[0]] + InsertByTime(x, ys[1..])
  }

  /**
   * `array.sort(sortByTime)`: newest first, by insertion; an order is put ahead of the
   * later-listed orders with the same time.
   */
  function SortByTime(xs: seq<OrderWithItems>): seq<OrderWithItems> {
    if xs == [] then [] else InsertByTime(xs[0], SortByTime(xs[1..]))
  }

  /** Putting an order in front of a newest-first list that holds nothing newer keeps it newest first. */
  lemma ConsSorted(a: OrderWithItems, r: seq<OrderWithItems>)
    requires SortedByTime(r)
    requires forall i :: 0 <= i < |r| ==> TimeKey(a) >= TimeKey(r[i])
    ensures SortedByTime([a] + r)
  {
    var ar := [a] + r;
    forall i, j | 0 <= i < j < |ar| ensures TimeKey(ar[i]) >= TimeKey(ar[j]) {
      assert ar[j] == r[j - 1];
      if i > 0 {
        assert ar[i] == r[i - 1];
      }
    }
  }

  /** Inserting adds exactly `x` to the orders. */
  lemma {:induction false} InsertByTimePermutes(x: OrderWithItems, ys: seq<OrderWithItems>)
    ensures multiset(InsertByTime(x, ys)) == multiset(ys) + multiset{x}
  {
    if ys != [] && TimeKey(x) < TimeKey(ys[0]) {
      InsertByTimePermutes(x, ys[1..]);
      assert ys == [ys[0]] + ys[1..];
    }
  }

  lemma {:induction false} InsertByTimeKeeps(x: OrderWithItems, ys: seq<OrderWithItems>)
    requires SortedByTime(ys)
    ensures SortedByTime(InsertByTime(x, ys))
    ensures multiset(InsertByTime(x, ys)) == multiset(ys) + multiset{x}
  {
    InsertByTimePermutes(x, ys);
    if ys == [] || TimeKey(x) >= TimeKey(ys[0]) {
      forall i | 0 <= i < |ys| ensures TimeKey(x) >= TimeKey(ys[i]) {
        assert TimeKey(ys[0]) >= TimeKey(ys[i]);
      }
      ConsSorted(x, ys);
    } else {
      var tail := ys[1..];
      InsertByTimeKeeps(x, tail);
      var r := InsertByTime(x, tail);
      InsertByTimePermutes(x, tail);
      forall i | 0 <= i < |r| ensures TimeKey(ys[0]) >= TimeKey(r[i]) {
        assert r[i] in multiset(r);
        if r[i] != x {
          assert r[i] in multiset(tail);
          var k :| 0 <= k < |tail| && tail[k] == r[i];
          assert tail[k] == ys[k + 1];
        }
      }
      ConsSorted(ys[0], r);
    }
  }

  /** The sort yields the same orders, newest first. */
  lemma {:induction false} SortByTimeSorts(xs: seq<OrderWithItems>)
    ensures SortedByTime(SortByTime(xs))
    ensures multiset(SortByTime(xs)) == multiset(xs)
  {
    if xs != [] {
      SortByTimeSorts(xs[1..]);
      InsertByTimeKeeps(xs[0], SortByTime(xs[1..]));
      assert xs == [xs[0]] + xs[1..];
    }
  }

  // ---------------------------------------------------------------- the selector

  datatype KitchenOrders = KitchenOrders(inProgress: seq<OrderWithItems>, ready: seq<OrderWithItems>, all: seq<OrderWithItems>)

  /**
   * `useKitchenOrders`: the collected orders split into not-READY and READY ones, each
   * list newest first, and `all` the first list followed by the second.
   */
  method UseKitchenOrders(st: CacheState) returns (view: KitchenOrders)
    ensures multiset(view.inProgress) + multiset(view.ready) == multiset(RelevantOrders(st))
    ensures forall o :: o in view.inProgress ==> o.order.status != OrderStatus.READY
    ensures forall o :: o in view.ready ==> o.order.status == OrderStatus.READY
    ensures SortedByTime(view.inProgress) && SortedByTime(view.ready)
    ensures view.all == view.inProgress + view.ready
    ensures |view.all| == |view.inProgress| + |view.ready|
  {
    var allRelevantOrders := RelevantOrders(st);
    var inProgress, ready := Partition(allRelevantOrders);
    SplitIsPartition(allRelevantOrders);
    SortByTimeSorts(inProgress);
    SortByTimeSorts(ready);
    var sortedInProgress, sortedReady := SortByTime(inProgress), SortByTime(ready);
    forall o | o in sortedInProgress ensures o.order.status != OrderStatus.READY {
      assert o in multiset(sortedInProgress);
    }
    forall o | o in sortedReady ensures o.order.status == OrderStatus.READY {
      assert o in multiset(sortedReady);
    }
    view := KitchenOrders(sortedInProgress, sortedReady, sortedInProgress + sortedReady);
  }
}
