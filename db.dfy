/**
 * The Prisma database the NestJS services share: one map per table, keyed by row id,
 * a counter standing in for the database-generated ids, and the integrity the schema
 * and the services maintain together.
 */
module Db {
  import opened Common
  import opened Contracts

  /** Row ids. The database generates them; here a counter hands out fresh ones. */
  type Id = nat

  /** Instants, in milliseconds since the epoch. */
  type Time = int

  /** A `Decimal` unit price, kept opaque: only whether it is zero matters to the services. */
  type Price = int

  datatype RestaurantStatus = ACTIVE | INACTIVE | SUSPENDED

  datatype Restaurant = Restaurant(id: Id, name: string, status: RestaurantStatus)

  datatype User = User(
    id: Id, restaurantId: Id, name: string, email: string,
    passwordHash: string, role: Role, isActive: bool)

  /** The table statuses the services write. */
  datatype TableStatus = AVAILABLE | OCCUPIED | CHECKOUT

  datatype Table = Table(
    id: Id, restaurantId: Id, number: int, area: Option<string>,
    status: TableStatus, createdAt: Time, updatedAt: Time)

  /** The session statuses the services write. */
  datatype SessionStatus = OPEN | CHECKOUT | CLOSED

  datatype TableSession = TableSession(
    id: Id, restaurantId: Id, tableId: Id, openedByUserId: Id,
    status: SessionStatus, openedAt: Time, closedAt: Option<Time>,
    createdAt: Time, updatedAt: Time)

  datatype Order = Order(
    id: Id, restaurantId: Id, tableSessionId: Id, createdByUserId: Id,
    status: OrderStatus, notes: Option<string>,
    confirmedAt: Option<Time>, closedAt: Option<Time>,
    createdAt: Time, updatedAt: Time)

  datatype OrderItem = OrderItem(
    id: Id, restaurantId: Id, orderId: Id, name: string, qty: nat,
    unitPrice: Option<Price>, status: ItemStatus, notes: Option<string>,
    createdAt: Time, updatedAt: Time)

  /** `s || null` for an optional string: the empty string is stored as null. */
  function OrNull(s: Option<string>): (r: Option<string>)
    ensures r.Some? <==> s.Some? && s.value != ""
    ensures r.Some? ==> r == s
  {
    if s.Some? && s.value != "" then s else None
  }

  /** `price ? new Decimal(price) : null`: a zero price is stored as null. */
  function PriceOrNull(p: Option<Price>): (r: Option<Price>)
    ensures r.Some? <==> p.Some? && p.value != 0
    ensures r.Some? ==> r == p
  {
    if p.Some? && p.value != 0 then p else None
  }

  /** `include: { items: true }`: the items whose `orderId` is `orderId`, cancelled ones included. */
  function ItemsOf(items: map<Id, OrderItem>, orderId: Id): (r: map<Id, OrderItem>)
    ensures forall i :: i in r <==> i in items && items[i].orderId == orderId
    ensures forall i :: i in r ==> r[i] == items[i]
  {
    map i | i in items && items[i].orderId == orderId :: items[i]
  }

  // ------------------------------------------------------------ integrity

  /** Every row is stored under its own id, and every id is below the counter. */
  ghost predicate KeysMatch(db: Database)
    reads db
  {
    (forall k :: k in db.restaurants ==> db.restaurants[k].id == k && k < db.nextId) &&
    (forall k :: k in db.users ==> db.users[k].id == k && k < db.nextId) &&
    (forall k :: k in db.tables ==> db.tables[k].id == k && k < db.nextId) &&
    (forall k :: k in db.sessions ==> db.sessions[k].id == k && k < db.nextId) &&
    (forall k :: k in db.orders ==> db.orders[k].id == k && k < db.nextId) &&
    (forall k :: k in db.items ==> db.items[k].id == k && k < db.nextId)
  }

  /** The unique index on (`restaurantId`, `number`). */
  predicate TableNumbersUnique(tables: map<Id, Table>) {
    forall a, b ::
      a in tables && b in tables && a != b && tables[a].restaurantId == tables[b].restaurantId
      ==> tables[a].number != tables[b].number
  }

  /** At most one OPEN session per table. */
  predicate OneOpenSessionPerTable(sessions: map<Id, TableSession>) {
    forall a, b ::
      a in sessions && b in sessions && sessions[a].status.OPEN? && sessions[b].status.OPEN? &&
      sessions[a].tableId == sessions[b].tableId
      ==> a == b
  }

  /** Sessions belong to a table of their own restaurant; `closedAt` is set exactly when closed. */
  predicate SessionsWellFormed(sessions: map<Id, TableSession>, tables: map<Id, Table>) {
    forall s :: s in sessions ==>
      sessions[s].tableId in tables &&
      tables[sessions[s].tableId].restaurantId == sessions[s].restaurantId &&
      (sessions[s].status.CLOSED? <==> sessions[s].closedAt.Some?)
  }

  /**
   * Orders belong to a session of their own restaurant; `confirmedAt` is set exactly
   * when the order has left DRAFT, `closedAt` exactly when it is CLOSED.
   */
  predicate OrdersWellFormed(orders: map<Id, Order>, sessions: map<Id, TableSession>) {
    forall o :: o in orders ==>
      orders[o].tableSessionId in sessions &&
      sessions[orders[o].tableSessionId].restaurantId == orders[o].restaurantId &&
      !orders[o].status.CANCELLED? &&
      (orders[o].status.DRAFT? <==> orders[o].confirmedAt.None?) &&
      (orders[o].status.CLOSED? <==> orders[o].closedAt.Some?)
  }

  /** Items belong to an order of their own restaurant, with a quantity of at least one. */
  predicate ItemsWellFormed(items: map<Id, OrderItem>, orders: map<Id, Order>) {
    forall i :: i in items ==>
      items[i].orderId in orders &&
      orders[items[i].orderId].restaurantId == items[i].restaurantId &&
      items[i].qty >= 1
  }

  /** Users belong to a restaurant; e-mail addresses are unique over all restaurants. */
  predicate UsersWellFormed(users: map<Id, User>, restaurants: map<Id, Restaurant>) {
    (forall u :: u in users ==> users[u].restaurantId in restaurants) &&
    (forall a, b :: a in users && b in users && users[a].email == users[b].email ==> a == b)
  }

  class Database {
    var restaurants: map<Id, Restaurant>
    var users: map<Id, User>
    var tables: map<Id, Table>
    var sessions: map<Id, TableSession>
    var orders: map<Id, Order>
    var items: map<Id, OrderItem>
    var nextId: Id

    ghost predicate Valid()
      reads this
    {
      KeysMatch(this) &&
      TableNumbersUnique(tables) &&
      OneOpenSessionPerTable(sessions) &&
      SessionsWellFormed(sessions, tables) &&
      OrdersWellFormed(orders, sessions) &&
      ItemsWellFormed(items, orders) &&
      UsersWellFormed(users, restaurants)
    }

    /** An empty database. */
    constructor ()
      ensures Valid()
      ensures restaurants == map[] && users == map[] && tables == map[]
      ensures sessions == map[] && orders == map[] && items == map[]
    {
      restaurants, users, tables := map[], map[], map[];
      sessions, orders, items := map[], map[], map[];
      nextId := 0;
    }

    /** A database-generated id, distinct from every id in use. */
    method FreshId() returns (id: Id)
      requires Valid()
      modifies this`nextId
      ensures Valid()
      ensures id == old(nextId) && nextId == id + 1
      ensures id !in restaurants && id !in users && id !in tables
      ensures id !in sessions && id !in orders && id !in items
    {
      id := nextId;
      nextId := nextId + 1;
    }

    // Each write below is one row written by the Prisma client; its requires are the
    // integrity the written row must keep.

    method PutRestaurant(x: Restaurant)
      requires Valid() && x.id < nextId
      modifies this`restaurants
      ensures Valid() && restaurants == old(restaurants)[x.id := x]
    {
      restaurants := restaurants[x.id := x];
    }

    method PutUser(x: User)
      requires Valid() && x.id < nextId && x.restaurantId in restaurants
      requires forall u :: u in users && u != x.id ==> users[u].email != x.email
      modifies this`users
      ensures Valid() && users == old(users)[x.id := x]
    {
      users := users[x.id := x];
    }

    method PutTable(x: Table)
      requires Valid() && x.id < nextId
      requires forall t :: t in tables && t != x.id && tables[t].restaurantId == x.restaurantId ==>
        tables[t].number != x.number
      requires x.id in tables ==> tables[x.id].restaurantId == x.restaurantId
      modifies this`tables
      ensures Valid() && tables == old(tables)[x.id := x]
    {
      tables := tables[x.id := x];
    }

    method PutSession(x: TableSession)
      requires Valid() && x.id < nextId
      requires x.tableId in tables && tables[x.tableId].restaurantId == x.restaurantId
      requires x.status.CLOSED? <==> x.closedAt.Some?
      requires x.status.OPEN? ==>
        forall s :: s in sessions && s != x.id && sessions[s].tableId == x.tableId ==> !sessions[s].status.OPEN?
      requires x.id in sessions ==> sessions[x.id].restaurantId == x.restaurantId
      modifies this`sessions
      ensures Valid() && sessions == old(sessions)[x.id := x]
    {
      sessions := sessions[x.id := x];
    }

    method PutOrder(x: Order)
      requires Valid() && x.id < nextId
      requires x.tableSessionId in sessions && sessions[x.tableSessionId].restaurantId == x.restaurantId
      requires !x.status.CANCELLED? && (x.status.DRAFT? <==> x.confirmedAt.None?)
      requires x.status.CLOSED? <==> x.closedAt.Some?
      requires x.id in orders ==> orders[x.id].restaurantId == x.restaurantId
      modifies this`orders
      ensures Valid() && orders == old(orders)[x.id := x]
    {
      orders := orders[x.id := x];
    }

    method PutItem(x: OrderItem)
      requires Valid() && x.id < nextId
      requires x.orderId in orders && orders[x.orderId].restaurantId == x.restaurantId && x.qty >= 1
      modifies this`items
      ensures Valid() && items == old(items)[x.id := x]
    {
      items := items[x.id := x];
    }
  }
}
