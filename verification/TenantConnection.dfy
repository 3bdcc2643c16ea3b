/** The request's own database connection: the rows and outbox events as its transaction sees them,
    the aborted flag that a failed statement sets, and the stack of savepoints. The booking
    repository's statements run here. */
module TenantConnection {
  import opened Wrappers
  import opened Sequences
  import opened BookingDomain
  import RecurrenceExpander

  datatype Error =
    | SlotTaken | NotFound | BadRequest | Unprocessable | Stale | PreconditionFailed
    | DbError   // any other database failure, and every statement of an aborted transaction

  type DbResult<+T> = Result<T, Error>

  /** A stored recurrence; its id is its position in the table. */
  datatype SeriesRow = SeriesRow(tenant: int, staff: int, service: int, customer: int, rule: RecurrenceExpander.Rule)

  datatype Savepoint = Savepoint(name: nat, rows: Rows, events: seq<Event>, series: seq<SeriesRow>)

  /** The most recent savepoint of that name, or -1. */
  function Find(savepoints: seq<Savepoint>, name: nat): (k: int)
    ensures -1 <= k < |savepoints|
    ensures k >= 0 ==> savepoints[k].name == name
    ensures forall j :: k < j < |savepoints| ==> savepoints[j].name != name
  {
    if savepoints == [] then -1
    else if savepoints[|savepoints| - 1].name == name then |savepoints| - 1
    else Find(savepoints[..|savepoints| - 1], name)
  }

  function SeriesIds(rows: Rows, tenant: int, recurrence: int, now: int): set<int> {
    set id | id in rows && InSeries(rows[id], tenant, recurrence, now)
  }

  function CancelAll(rows: Rows, ids: set<int>): Rows {
    map id | id in rows :: if id in ids then WithStatus(rows[id], Cancelled) else rows[id]
  }

  /** The table after the cancellation of a series, row by row. */
  predicate SeriesCancelled(rows: Rows, rows': Rows, tenant: int, recurrence: int, now: int) {
    && rows'.Keys == rows.Keys
    && forall id :: id in rows ==>
         var b := rows[id];
         rows'[id] ==
           if b.recurrence == Some(recurrence) && b.tenant == tenant && b.startsAt > now
              && (b.status == Pending || b.status == Confirmed)
           then Booking(b.tenant, b.staff, b.service, b.customer, b.price, b.startsAt, b.endsAt, Cancelled,
                        b.recurrence, b.version + 1)
           else b
  }

  /** `ids` lists the set, each element once. */
  ghost predicate Lists(ids: seq<int>, all: set<int>) {
    && |ids| == |all|
    && (forall id :: id in ids <==> id in all)
    && NoRepeats(ids)
  }

  class Connection {
    const tenant: int
    /** Rows the database refuses for a reason other than the slot, such as a deleted staff member. */
    const refused: Booking -> bool
    var rows: Rows
    var events: seq<Event>
    var series: seq<SeriesRow>
    var nextId: nat
    var aborted: bool
    var savepoints: seq<Savepoint>
    /** What other transactions see: the state before this transaction, until it commits. */
    var committedRows: Rows
    var committedEvents: seq<Event>
    var committedSeries: seq<SeriesRow>

    predicate Valid()
      reads this
    {
      && (forall id :: id in rows ==> 0 <= id < nextId)
      && (forall id :: id in committedRows ==> 0 <= id < nextId)
    }

    constructor (tenant: int, refused: Booking -> bool, rows: Rows, events: seq<Event>, series: seq<SeriesRow>, nextId: nat)
      requires forall id :: id in rows ==> 0 <= id < nextId
      ensures Valid() && this.tenant == tenant && this.refused == refused
      ensures this.rows == rows && this.events == events && this.series == series && this.nextId == nextId
      ensures !aborted && savepoints == []
      ensures committedRows == rows && committedEvents == events && committedSeries == series
    {
      this.tenant, this.refused := tenant, refused;
      this.rows, this.events, this.series, this.nextId := rows, events, series, nextId;
      aborted, savepoints := false, [];
      committedRows, committedEvents, committedSeries := rows, events, series;
    }

    /** Ends the transaction; committing an aborted one is a rollback. */
    method Commit() returns (ok: bool)
      modifies this`rows, this`events, this`series, this`aborted, this`savepoints
      modifies this`committedRows, this`committedEvents, this`committedSeries
      ensures ok == !old(aborted) && !aborted && savepoints == []
      ensures rows == committedRows == if ok then old(rows) else old(committedRows)
      ensures events == committedEvents == if ok then old(events) else old(committedEvents)
      ensures series == committedSeries == if ok then old(series) else old(committedSeries)
    {
      ok := !aborted;
      if ok {
        committedRows, committedEvents, committedSeries := rows, events, series;
      } else {
        rows, events, series := committedRows, committedEvents, committedSeries;
      }
      aborted, savepoints := false, [];
    }

    method Rollback()
      modifies this`rows, this`events, this`series, this`aborted, this`savepoints
      ensures rows == committedRows && events == committedEvents && series == committedSeries
      ensures !aborted && savepoints == []
    {
      rows, events, series, aborted, savepoints := committedRows, committedEvents, committedSeries, false, [];
    }

    /** Stores a recurrence and returns its id. */
    method AddSeries(row: SeriesRow) returns (r: DbResult<nat>)
      modifies this`series
      ensures r == if aborted then Err(DbError) else Ok(|old(series)|)
      ensures series == if r.Ok? then old(series) + [row] else old(series)
    {
      if aborted { return Err(DbError); }
      series := series + [row];
      return Ok(|series| - 1);
    }

    method OpenSavepoint(name: nat) returns (ok: bool)
      modifies this`savepoints
      ensures ok == !aborted
      ensures savepoints == if ok then old(savepoints) + [Savepoint(name, rows, events, series)] else old(savepoints)
    {
      ok := !aborted;
      if ok { savepoints := savepoints + [Savepoint(name, rows, events, series)]; }
    }

    /** Forgets the savepoint and all later ones; an unknown name is an error like any other. */
    method ReleaseSavepoint(name: nat) returns (ok: bool)
      modifies this`savepoints, this`aborted
      ensures ok == (!old(aborted) && Find(old(savepoints), name) >= 0)
      ensures savepoints == if ok then old(savepoints)[..Find(old(savepoints), name)] else old(savepoints)
      ensures aborted == !ok
    {
      var k := Find(savepoints, name);
      ok := !aborted && k >= 0;
      if ok { savepoints := savepoints[..k]; } else { aborted := true; }
    }

    /** Restores rows and events and clears the aborted flag; the savepoint itself stays defined. */
    method RollbackToSavepoint(name: nat) returns (ok: bool)
      modifies this`rows, this`events, this`series, this`savepoints, this`aborted
      ensures ok == (Find(old(savepoints), name) >= 0)
      ensures ok ==>
        var k := Find(old(savepoints), name);
        rows == old(savepoints)[k].rows && events == old(savepoints)[k].events && series == old(savepoints)[k].series
        && savepoints == old(savepoints)[..k + 1] && !aborted
      ensures !ok ==>
        rows == old(rows) && events == old(events) && series == old(series) && savepoints == old(savepoints) && aborted
    {
      var k := Find(savepoints, name);
      ok := k >= 0;
      if ok {
        rows, events, series, aborted := savepoints[k].rows, savepoints[k].events, savepoints[k].series, false;
        savepoints := savepoints[..k + 1];
      } else {
        aborted := true;
      }
    }

    /** Inserts a booking; 23P01 is reported as the taken slot. Any failure aborts the transaction. */
    method Create(b: Booking) returns (r: DbResult<int>)
      requires Valid()
      modifies this`rows, this`nextId, this`aborted
      ensures Valid()
      ensures old(aborted) ==> r == Err(DbError)
      ensures !old(aborted) && !SlotFree(old(rows), old(nextId), b) ==> r == Err(SlotTaken)
      ensures !old(aborted) && SlotFree(old(rows), old(nextId), b) && refused(b) ==> r == Err(DbError)
      ensures !old(aborted) && SlotFree(old(rows), old(nextId), b) && !refused(b) ==>
        r == Ok(old(nextId)) && rows == old(rows)[old(nextId) := b] && nextId == old(nextId) + 1
      ensures r.Err? ==> rows == old(rows) && nextId == old(nextId)
      ensures aborted == r.Err?
    {
      if aborted { return Err(DbError); }
      if !SlotFree(rows, nextId, b) {
        aborted := true;
        return Err(SlotTaken);
      }
      if refused(b) {
        aborted := true;
        return Err(DbError);
      }
      rows, nextId := rows[nextId := b], nextId + 1;
      return Ok(nextId - 1);
    }

    method FindById(id: int) returns (r: DbResult<Booking>)
      ensures aborted ==> r == Err(DbError)
      ensures !aborted ==> r == if id in rows && rows[id].tenant == tenant then Ok(rows[id]) else Err(NotFound)
    {
      if aborted { return Err(DbError); }
      return if id in rows && rows[id].tenant == tenant then Ok(rows[id]) else Err(NotFound);
    }

    /** Optimistic status change; tells whether a row matched. */
    method ApplyStatus(id: int, version: int, to: Status) returns (r: DbResult<bool>)
      requires Valid()
      modifies this`rows, this`aborted
      ensures Valid()
      ensures old(aborted) ==> r == Err(DbError)
      ensures !old(aborted) ==>
        if id !in old(rows) || old(rows)[id].tenant != tenant || old(rows)[id].version != version then r == Ok(false)
        else
          var a := old(rows)[id];
          var b := Booking(a.tenant, a.staff, a.service, a.customer, a.price, a.startsAt, a.endsAt, to, a.recurrence,
                           version + 1);
          if SlotFree(old(rows), id, b) then r == Ok(true) && rows == old(rows)[id := b] else r == Err(DbError)
      ensures r != Ok(true) ==> rows == old(rows)
      ensures aborted == r.Err?
    {
      if aborted { return Err(DbError); }
      if id !in rows || rows[id].tenant != tenant || rows[id].version != version { return Ok(false); }
      var b := WithStatus(rows[id], to);
      if !SlotFree(rows, id, b) {
        aborted := true;
        return Err(DbError);
      }
      rows := rows[id := b];
      return Ok(true);
    }

    /** Optimistic reschedule; the exclusion constraint is checked for the new range. */
    method ApplyReschedule(id: int, version: int, startsAt: int, endsAt: int) returns (r: DbResult<bool>)
      requires Valid()
      modifies this`rows, this`aborted
      ensures Valid()
      ensures old(aborted) ==> r == Err(DbError)
      ensures !old(aborted) ==>
        if id !in old(rows) || old(rows)[id].tenant != tenant || old(rows)[id].version != version then r == Ok(false)
        else
          var a := old(rows)[id];
          var b := Booking(a.tenant, a.staff, a.service, a.customer, a.price, startsAt, endsAt, a.status, a.recurrence,
                           version + 1);
          if SlotFree(old(rows), id, b) then r == Ok(true) && rows == old(rows)[id := b] else r == Err(SlotTaken)
      ensures r != Ok(true) ==> rows == old(rows)
      ensures aborted == r.Err?
    {
      if aborted { return Err(DbError); }
      if id !in rows || rows[id].tenant != tenant || rows[id].version != version { return Ok(false); }
      var b := WithRange(rows[id], startsAt, endsAt);
      if !SlotFree(rows, id, b) {
        aborted := true;
        return Err(SlotTaken);
      }
      rows := rows[id := b];
      return Ok(true);
    }

    /** Cancels the series' future active rows in one statement and returns their ids. */
    method CancelFutureSeries(recurrence: int, now: int) returns (r: DbResult<seq<int>>)
      requires Valid()
      modifies this`rows
      ensures Valid()
      ensures aborted ==> r == Err(DbError) && rows == old(rows)
      ensures !aborted ==>
        var ids := SeriesIds(old(rows), tenant, recurrence, now);
        && r.Ok? && Lists(r.value, ids) && rows == CancelAll(old(rows), ids)
        && SeriesCancelled(old(rows), rows, tenant, recurrence, now)
    {
      if aborted { return Err(DbError); }
      var ids: seq<int> := [];
      for id := 0 to nextId
        invariant Lists(ids, set i | i in SeriesIds(rows, tenant, recurrence, now) && i < id)
      {
        if id in rows && InSeries(rows[id], tenant, recurrence, now) {
          assert (set i | i in SeriesIds(rows, tenant, recurrence, now) && i < id + 1)
              == (set i | i in SeriesIds(rows, tenant, recurrence, now) && i < id) + {id};
          ids := ids + [id];
        } else {
          assert (set i | i in SeriesIds(rows, tenant, recurrence, now) && i < id + 1)
              == (set i | i in SeriesIds(rows, tenant, recurrence, now) && i < id);
        }
      }
      assert (set i | i in SeriesIds(rows, tenant, recurrence, now) && i < nextId)
          == SeriesIds(rows, tenant, recurrence, now);
      rows := CancelAll(rows, SeriesIds(rows, tenant, recurrence, now));
      return Ok(ids);
    }

    /** Writes an outbox event on the same transaction. */
    method Record(e: Event) returns (ok: bool)
      modifies this`events
      ensures ok == !aborted
      ensures events == if ok then old(events) + [e] else old(events)
    {
      ok := !aborted;
      if ok { events := events + [e]; }
    }
  }
}
