/**
 * `TablesService`: a restaurant's tables. A table number is unique within its
 * restaurant (the unique index on `restaurantId` and `number`), and the same number may be
 * used again by another restaurant.
 */
module Tables {
  import opened Common
  import opened Contracts
  import opened Strings
  import opened Db
  import Query

  /** `CreateTableDto`; validation guarantees `number >= 1`. */
  datatype CreateTableDto = CreateTableDto(number: int, area: Option<string>)

  /** The `findUnique` on (`restaurantId`, `number`) finds a row. */
  predicate NumberTaken(tables: map<Id, Table>, restaurantId: Id, number: int) {
    exists t :: t in tables && tables[t].restaurantId == restaurantId && tables[t].number == number
  }

  /** `findFirst({ id, restaurantId })` finds the table. */
  predicate TableFound(tables: map<Id, Table>, restaurantId: Id, tableId: Id) {
    tableId in tables && tables[tableId].restaurantId == restaurantId
  }

  function TableNotFound(tableId: Id): HttpError {
    NotFound("Table with ID " + NatToString(tableId) + " not found")
  }

  /**
   * Whether a number is taken depends on the tables of that restaurant alone: adding a
   * table elsewhere never makes a number taken here, and a table added here takes
   * exactly its own number.
   */
  lemma NumberTakenPerRestaurant(tables: map<Id, Table>, t: Table, restaurantId: Id, number: int)
    requires t.id !in tables
    ensures NumberTaken(tables[t.id := t], restaurantId, number) <==>
      NumberTaken(tables, restaurantId, number) || (t.restaurantId == restaurantId && t.number == number)
  {
    if NumberTaken(tables[t.id := t], restaurantId, number) && !(t.restaurantId == restaurantId && t.number == number) {
      var k :| k in tables[t.id := t] && tables[t.id := t][k].restaurantId == restaurantId && tables[t.id := t][k].number == number;
      assert k in tables;
    }
    if NumberTaken(tables, restaurantId, number) {
      var k :| k in tables && tables[k].restaurantId == restaurantId && tables[k].number == number;
      assert k in tables[t.id := t];
    }
    if t.restaurantId == restaurantId && t.number == number {
      assert tables[t.id := t][t.id] == t;
    }
  }

  class TablesService {
    const db: Database

    constructor (db: Database)
      ensures this.db == db
    {
      this.db := db;
    }

    /** `findAll`: the restaurant's tables, each once, by ascending number. */
    method FindAll(restaurantId: Id) returns (r: seq<Table>)
      requires db.Valid()
      ensures forall k :: 0 <= k < |r| ==> r[k].id in db.tables && db.tables[r[k].id] == r[k] && r[k].restaurantId == restaurantId
      ensures forall t :: t in db.tables && db.tables[t].restaurantId == restaurantId ==>
        exists k :: 0 <= k < |r| && r[k].id == t
      ensures forall j, k :: 0 <= j < k < |r| ==> r[j].id != r[k].id && r[j].number <= r[k].number
    {
      var ids := Query.SelectSorted(db.tables, (t: Table) => t.restaurantId == restaurantId, (t: Table) => -t.number);
      var tables := db.tables;
      r := seq(|ids|, k requires 0 <= k < |ids| => tables[ids[k]]);
      forall t | t in db.tables && db.tables[t].restaurantId == restaurantId
        ensures exists k :: 0 <= k < |r| && r[k].id == t
      {
        var k :| 0 <= k < |ids| && ids[k] == t;
        assert r[k].id == t;
      }
    }

    /**
     * `create`: Conflict when the restaurant already has a table with that number;
     * otherwise a new AVAILABLE table, with an empty area stored as null.
     */
    method Create(restaurantId: Id, dto: CreateTableDto, now: Time) returns (r: Result<Table, HttpError>)
      requires db.Valid() && dto.number >= 1
      modifies db`tables, db`nextId
      ensures db.Valid()
      ensures NumberTaken(old(db.tables), restaurantId, dto.number) ==>
        r == Err(Conflict("Table number " + IntToString(dto.number) + " already exists")) && unchanged(db)
      ensures !NumberTaken(old(db.tables), restaurantId, dto.number) ==>
        r == Ok(Table(old(db.nextId), restaurantId, dto.number, OrNull(dto.area), AVAILABLE, now, now)) &&
        db.tables == old(db.tables)[r.value.id := r.value] && r.value.id !in old(db.tables)
    {
      if NumberTaken(db.tables, restaurantId, dto.number) {
        return Err(Conflict("Table number " + IntToString(dto.number) + " already exists"));
      }
      var id := db.FreshId();
      var table := Table(id, restaurantId, dto.number, OrNull(dto.area), AVAILABLE, now, now);
      db.PutTable(table);
      r := Ok(table);
    }

    /** `findOneById`: the table when it belongs to the restaurant, NotFound otherwise. */
    method FindOneById(restaurantId: Id, tableId: Id) returns (r: Result<Table, HttpError>)
      requires db.Valid()
      ensures TableFound(db.tables, restaurantId, tableId) ==> r == Ok(db.tables[tableId])
      ensures !TableFound(db.tables, restaurantId, tableId) ==> r == Err(TableNotFound(tableId))
    {
      if !TableFound(db.tables, restaurantId, tableId) {
        return Err(TableNotFound(tableId));
      }
      r := Ok(db.tables[tableId]);
    }
  }
}
