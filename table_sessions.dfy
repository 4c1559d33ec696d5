/**
 * `TableSessionsService`: a table's service from seating to payment. A session is
 * OPEN, then CHECKOUT when the bill is asked for, then CLOSED; a table has at most one
 * OPEN session. Opening occupies an AVAILABLE table, checkout marks the table CHECKOUT,
 * and closing makes it AVAILABLE again.
 */
module TableSessions {
  import opened Common
  import opened Contracts
  import opened Strings
  import opened Db
  import opened Tables
  import Query

  /** The table as a session response shows it. */
  datatype TableSummary = TableSummary(id: Id, number: int, area: Option<string>, status: TableStatus)

  /** `SessionResponseDto`. */
  datatype SessionResponse = SessionResponse(
    id: Id, tableId: Id, table: TableSummary, openedByUserId: Id, status: SessionStatus,
    openedAt: Time, closedAt: Option<Time>, createdAt: Time, updatedAt: Time)

  /** The response built from a session and its table. */
  function Respond(s: TableSession, t: Table): (r: SessionResponse)
    ensures r.id == s.id && r.tableId == s.tableId && r.status == s.status && r.closedAt == s.closedAt
    ensures r.table.id == t.id && r.table.status == t.status
  {
    SessionResponse(s.id, s.tableId, TableSummary(t.id, t.number, t.area, t.status), s.openedByUserId,
      s.status, s.openedAt, s.closedAt, s.createdAt, s.updatedAt)
  }

  /** The in-transaction `findFirst` for an OPEN session of the table. */
  predicate HasOpenSession(sessions: map<Id, TableSession>, restaurantId: Id, tableId: Id) {
    exists s :: s in sessions && sessions[s].tableId == tableId && sessions[s].restaurantId == restaurantId &&
      sessions[s].status.OPEN?
  }

  /** `findFirst({ id, restaurantId })` finds the session. */
  predicate SessionFound(sessions: map<Id, TableSession>, restaurantId: Id, sessionId: Id) {
    sessionId in sessions && sessions[sessionId].restaurantId == restaurantId
  }

  function SessionNotFound(sessionId: Id): HttpError {
    NotFound("Session with ID " + NatToString(sessionId) + " not found")
  }

  /** Opening occupies an AVAILABLE table and leaves a table in any other status as it was. */
  function Occupy(t: Table, now: Time): (r: Table)
    ensures r.id == t.id && r.restaurantId == t.restaurantId && r.number == t.number && r.area == t.area
    ensures t.status.AVAILABLE? ==> r.status.OCCUPIED?
    ensures !t.status.AVAILABLE? ==> r == t
  {
    if t.status.AVAILABLE? then t.(status := OCCUPIED, updatedAt := now) else t
  }

  /** A session that is not OPEN (CHECKOUT or CLOSED) never blocks opening a new one. */
  lemma OnlyOpenSessionsBlock(sessions: map<Id, TableSession>, s: TableSession, restaurantId: Id, tableId: Id)
    requires s.id !in sessions && !s.status.OPEN?
    ensures HasOpenSession(sessions[s.id := s], restaurantId, tableId) <==> HasOpenSession(sessions, restaurantId, tableId)
  {
    if HasOpenSession(sessions[s.id := s], restaurantId, tableId) {
      var k :| k in sessions[s.id := s] && sessions[s.id := s][k].tableId == tableId &&
        sessions[s.id := s][k].restaurantId == restaurantId && sessions[s.id := s][k].status.OPEN?;
      assert k in sessions;
    }
    if HasOpenSession(sessions, restaurantId, tableId) {
      var k :| k in sessions && sessions[k].tableId == tableId && sessions[k].restaurantId == restaurantId &&
        sessions[k].status.OPEN?;
      assert k in sessions[s.id := s];
    }
  }

  /**
   * A session in CHECKOUT does not stop a new session from opening at its table, and the
   * new session leaves the CHECKOUT table as it is; closing the older session then makes
   * the table AVAILABLE while the newer session is still OPEN.
   */
  lemma CheckoutCloseFreesOccupiedTable(
    sessions: map<Id, TableSession>, table: Table, c: Id, s: TableSession, now: Time)
    requires c in sessions && sessions[c].status.CHECKOUT? && sessions[c].tableId == table.id
    requires forall k :: k in sessions && k != c && sessions[k].tableId == table.id ==> sessions[k].status.CLOSED?
    requires table.status.CHECKOUT?
    requires s.id !in sessions && s.status.OPEN? && s.tableId == table.id && s.restaurantId == sessions[c].restaurantId
    ensures !HasOpenSession(sessions, s.restaurantId, table.id)
    ensures Occupy(table, now) == table
    ensures var closed := sessions[s.id := s][c := sessions[c].(status := SessionStatus.CLOSED)];
      HasOpenSession(closed, s.restaurantId, table.id) && table.(status := AVAILABLE, updatedAt := now).status.AVAILABLE?
  {
    var closed := sessions[s.id := s][c := sessions[c].(status := SessionStatus.CLOSED)];
    assert s.id != c;
    assert s.id in closed && closed[s.id] == s;
  }

  /** The statuses `findActiveSessions` lists. */
  predicate Active(s: TableSession, restaurantId: Id) {
    s.restaurantId == restaurantId && (s.status.OPEN? || s.status.CHECKOUT?)
  }

  class TableSessionsService {
    const db: Database

    constructor (db: Database)
      ensures this.db == db
    {
      this.db := db;
    }

    /**
     * `openSession`: NotFound for a table of another restaurant or none, Conflict when the
     * table already has an OPEN session; otherwise a new OPEN session opened by the
     * caller, and the table occupied if it was AVAILABLE.
     */
    method OpenSession(restaurantId: Id, userId: Id, tableId: Id, now: Time) returns (r: Result<SessionResponse, HttpError>)
      requires db.Valid()
      modifies db`tables, db`sessions, db`nextId
      ensures db.Valid()
      ensures !TableFound(old(db.tables), restaurantId, tableId) ==> r == Err(TableNotFound(tableId)) && unchanged(db)
      ensures TableFound(old(db.tables), restaurantId, tableId) && HasOpenSession(old(db.sessions), restaurantId, tableId) ==>
        r == Err(Conflict("Table already has an open session")) && unchanged(db)
      ensures TableFound(old(db.tables), restaurantId, tableId) && !HasOpenSession(old(db.sessions), restaurantId, tableId) ==>
        var s := TableSession(old(db.nextId), restaurantId, tableId, userId, OPEN, now, None, now, now);
        var t := Occupy(old(db.tables)[tableId], now);
        s.id !in old(db.sessions) &&
        db.sessions == old(db.sessions)[s.id := s] &&
        db.tables == old(db.tables)[tableId := t] &&
        r == Ok(Respond(s, t))
    {
      if !TableFound(db.tables, restaurantId, tableId) {
        return Err(TableNotFound(tableId));
      }
      var table := db.tables[tableId];
      // the transaction
      if HasOpenSession(db.sessions, restaurantId, tableId) {
        return Err(Conflict("Table already has an open session"));
      }
      var updatedTable := table;
      if table.status.AVAILABLE? {
        updatedTable := table.(status := OCCUPIED, updatedAt := now);
        db.PutTable(updatedTable);
      }
      var id := db.FreshId();
      var session := TableSession(id, restaurantId, tableId, userId, OPEN, now, None, now, now);
      db.PutSession(session);
      r := Ok(Respond(session, updatedTable));
    }

    /**
     * `requestCheckout`: NotFound for a session of another restaurant or none, Conflict
     * unless the session is OPEN; otherwise the session and its table become CHECKOUT.
     */
    method RequestCheckout(restaurantId: Id, sessionId: Id, now: Time) returns (r: Result<SessionResponse, HttpError>)
      requires db.Valid()
      modifies db`tables, db`sessions
      ensures db.Valid()
      ensures !SessionFound(old(db.sessions), restaurantId, sessionId) ==> r == Err(SessionNotFound(sessionId)) && unchanged(db)
      ensures SessionFound(old(db.sessions), restaurantId, sessionId) && !old(db.sessions)[sessionId].status.OPEN? ==>
        r == Err(Conflict("Session is not open")) && unchanged(db)
      ensures SessionFound(old(db.sessions), restaurantId, sessionId) && old(db.sessions)[sessionId].status.OPEN? ==>
        var s := old(db.sessions)[sessionId].(status := SessionStatus.CHECKOUT, updatedAt := now);
        var t := old(db.tables)[s.tableId].(status := TableStatus.CHECKOUT, updatedAt := now);
        db.sessions == old(db.sessions)[sessionId := s] &&
        db.tables == old(db.tables)[s.tableId := t] &&
        r == Ok(Respond(s, t))
    {
      if !SessionFound(db.sessions, restaurantId, sessionId) {
        return Err(SessionNotFound(sessionId));
      }
      var session := db.sessions[sessionId];
      if !session.status.OPEN? {
        return Err(Conflict("Session is not open"));
      }
      // the transaction
      var updatedSession := session.(status := SessionStatus.CHECKOUT, updatedAt := now);
      db.PutSession(updatedSession);
      var updatedTable := db.tables[session.tableId].(status := TableStatus.CHECKOUT, updatedAt := now);
      db.PutTable(updatedTable);
      r := Ok(Respond(updatedSession, updatedTable));
    }

    /**
     * `closeSession`: NotFound for a session of another restaurant or none, Conflict when
     * it is already CLOSED; otherwise, from OPEN or CHECKOUT, the session is CLOSED at
     * `now` and its table becomes AVAILABLE, whatever other sessions the table has.
     */
    method CloseSession(restaurantId: Id, sessionId: Id, now: Time) returns (r: Result<SessionResponse, HttpError>)
      requires db.Valid()
      modifies db`tables, db`sessions
      ensures db.Valid()
      ensures !SessionFound(old(db.sessions), restaurantId, sessionId) ==> r == Err(SessionNotFound(sessionId)) && unchanged(db)
      ensures SessionFound(old(db.sessions), restaurantId, sessionId) && old(db.sessions)[sessionId].status.CLOSED? ==>
        r == Err(Conflict("Session is already closed")) && unchanged(db)
      ensures SessionFound(old(db.sessions), restaurantId, sessionId) && !old(db.sessions)[sessionId].status.CLOSED? ==>
        var s := old(db.sessions)[sessionId].(status := SessionStatus.CLOSED, closedAt := Some(now), updatedAt := now);
        var t := old(db.tables)[s.tableId].(status := AVAILABLE, updatedAt := now);
        db.sessions == old(db.sessions)[sessionId := s] &&
        db.tables == old(db.tables)[s.tableId := t] &&
        r == Ok(Respond(s, t))
    {
      if !SessionFound(db.sessions, restaurantId, sessionId) {
        return Err(SessionNotFound(sessionId));
      }
      var session := db.sessions[sessionId];
      if session.status.CLOSED? {
        return Err(Conflict("Session is already closed"));
      }
      // the transaction
      var updatedSession := session.(status := SessionStatus.CLOSED, closedAt := Some(now), updatedAt := now);
      db.PutSession(updatedSession);
      var updatedTable := db.tables[session.tableId].(status := AVAILABLE, updatedAt := now);
      db.PutTable(updatedTable);
      r := Ok(Respond(updatedSession, updatedTable));
    }

    /** `findActiveSessions`: the restaurant's OPEN and CHECKOUT sessions, each once, newest `openedAt` first. */
    method FindActiveSessions(restaurantId: Id) returns (r: seq<SessionResponse>)
      requires db.Valid()
      ensures forall k :: 0 <= k < |r| ==>
        r[k].id in db.sessions && Active(db.sessions[r[k].id], restaurantId) &&
        r[k] == Respond(db.sessions[r[k].id], db.tables[db.sessions[r[k].id].tableId])
      ensures forall s :: s in db.sessions && Active(db.sessions[s], restaurantId) ==>
        exists k :: 0 <= k < |r| && r[k].id == s
      ensures forall j, k :: 0 <= j < k < |r| ==> r[j].id != r[k].id && r[j].openedAt >= r[k].openedAt
    {
      var ids := Query.SelectSorted(db.sessions, (s: TableSession) => Active(s, restaurantId),
        (s: TableSession) => s.openedAt);
      var sessions, tables := db.sessions, db.tables;
      r := seq(|ids|, k requires 0 <= k < |ids| => Respond(sessions[ids[k]], tables[sessions[ids[k]].tableId]));
      forall s | s in db.sessions && Active(db.sessions[s], restaurantId)
        ensures exists k :: 0 <= k < |r| && r[k].id == s
      {
        var k :| 0 <= k < |ids| && ids[k] == s;
        assert r[k].id == s;
      }
    }
  }
}
