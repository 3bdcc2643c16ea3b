/** The booking service: each operation runs on the request's connection and either makes its whole
    change with its event or leaves rows and events as they were. */
module BookingServiceModule {
  import opened Wrappers
  import opened BookingDomain
  import opened TenantConnection

  const MINUTE_MS := 60_000

  datatype ServiceInfo = ServiceInfo(durationMin: nat, price: nat, bufferBeforeMin: nat, bufferAfterMin: nat)

  /** What the neighbouring services answer for the current tenant. */
  datatype Catalog = Catalog(services: map<int, ServiceInfo>, capable: seq<(int, int)>, customers: set<int>)

  datatype Spec = Spec(staff: int, service: int, customer: int, price: nat, durationMs: int)

  function SpecOf(staff: int, service: int, customer: int, info: ServiceInfo): Spec {
    Spec(staff, service, customer, info.price, info.durationMin * MINUTE_MS)
  }

  function NewBooking(tenant: int, spec: Spec, startsAt: int, recurrence: Option<int>): Booking {
    Booking(tenant, spec.staff, spec.service, spec.customer, spec.price,
            startsAt, startsAt + spec.durationMs, Pending, recurrence, 1)
  }

  /** A row in `done` has gained exactly its cancellation event, any other row nothing. */
  predicate CancelledOnce(events: seq<Event>, events': seq<Event>, rows: Rows, done: set<int>, id: int) {
    History(events', id) == History(events, id) +
      (if id in done && id in rows then [Emitted(id, WithStatus(rows[id], Cancelled), ChangedTo(Cancelled))] else [])
  }

  ghost function First(ids: seq<int>, k: nat): set<int>
    requires k <= |ids|
  {
    set j | 0 <= j < k :: ids[j]
  }

  lemma ListedIsIn(ids: seq<int>, all: set<int>, k: nat)
    requires Lists(ids, all) && k < |ids|
    ensures ids[k] in all
  {
    var id: int :| id == ids[k];
    assert id in ids;
  }

  lemma FirstOfAll(ids: seq<int>, all: set<int>)
    requires Lists(ids, all)
    ensures First(ids, |ids|) == all
  {
    forall id | id in all ensures id in First(ids, |ids|) {
      assert id in ids;
    }
    forall id | id in First(ids, |ids|) ensures id in all {
      var j :| 0 <= j < |ids| && ids[j] == id;
      ListedIsIn(ids, all, j);
    }
  }

  class BookingService {
    const db: Connection
    const catalog: Catalog

    constructor (db: Connection, catalog: Catalog)
      ensures this.db == db && this.catalog == catalog
    {
      this.db, this.catalog := db, catalog;
    }

    /** Inserts one occurrence and records its event. */
    method CreateOccurrence(spec: Spec, startsAt: int, recurrence: Option<int>) returns (r: DbResult<int>)
      requires db.Valid() && !db.aborted
      modifies db`rows, db`nextId, db`aborted, db`events
      ensures db.Valid()
      ensures
        var b := Booking(db.tenant, spec.staff, spec.service, spec.customer, spec.price,
                         startsAt, startsAt + spec.durationMs, Pending, recurrence, 1);
        if !SlotFree(old(db.rows), old(db.nextId), b) then r == Err(SlotTaken)
        else if db.refused(b) then r == Err(DbError)
        else r == Ok(old(db.nextId)) && db.rows == old(db.rows)[old(db.nextId) := b]
             && db.events == old(db.events) + [Emitted(old(db.nextId), b, Created)]
             && db.nextId == old(db.nextId) + 1
      ensures r.Err? ==> db.rows == old(db.rows) && db.events == old(db.events) && db.nextId == old(db.nextId)
      ensures db.aborted == r.Err?
    {
      var b := NewBooking(db.tenant, spec, startsAt, recurrence);
      r := db.Create(b);
      if r.Ok? {
        var ok := db.Record(Emitted(r.value, b, Created));
      }
    }

    /** 404, 400 and 404 come before the insert; then only the slot or the database can refuse. */
    method DoCreate(staff: int, service: int, customer: int, startsAt: int) returns (r: DbResult<int>)
      requires db.Valid() && !db.aborted
      modifies db`rows, db`nextId, db`aborted, db`events
      ensures db.Valid()
      ensures
        if service !in catalog.services then r == Err(NotFound)
        else if (staff, service) !in catalog.capable then r == Err(BadRequest)
        else if customer !in catalog.customers then r == Err(NotFound)
        else
          var info := catalog.services[service];
          var b := Booking(db.tenant, staff, service, customer, info.price,
                           startsAt, startsAt + info.durationMin * 60_000, Pending, None, 1);
          if !SlotFree(old(db.rows), old(db.nextId), b) then r == Err(SlotTaken)
          else if db.refused(b) then r == Err(DbError)
          else r == Ok(old(db.nextId)) && db.rows == old(db.rows)[old(db.nextId) := b]
               && db.events == old(db.events) + [Emitted(old(db.nextId), b, Created)]
      ensures r.Err? ==> db.rows == old(db.rows) && db.events == old(db.events)
      ensures r.Ok? ==> !db.aborted
    {
      if service !in catalog.services { return Err(NotFound); }
      if (staff, service) !in catalog.capable { return Err(BadRequest); }
      if customer !in catalog.customers { return Err(NotFound); }
      r := CreateOccurrence(SpecOf(staff, service, customer, catalog.services[service]), startsAt, None);
    }

    /** confirm, complete, cancel and noShow. */
    method Transition(id: int, version: int, to: Status) returns (r: DbResult<Booking>)
      requires db.Valid() && !db.aborted && NoOverlap(db.rows)
      modifies db`rows, db`aborted, db`events
      ensures db.Valid() && !db.aborted && NoOverlap(db.rows)
      ensures
        if id !in old(db.rows) || old(db.rows)[id].tenant != db.tenant then r == Err(NotFound)
        else if !CanTransition(old(db.rows)[id].status, to) then r == Err(Unprocessable)
        else if old(db.rows)[id].version != version then r == Err(Stale)
        else
          var a := old(db.rows)[id];
          && r == Ok(Booking(a.tenant, a.staff, a.service, a.customer, a.price, a.startsAt, a.endsAt, to,
                             a.recurrence, version + 1))
          && RowStep(a, r.value) && db.rows == old(db.rows)[id := r.value]
          && db.events == old(db.events) + [Emitted(id, r.value, ChangedTo(to))]
      ensures r.Err? ==> db.rows == old(db.rows) && db.events == old(db.events)
    {
      var found := db.FindById(id);
      if found.Err? { return Err(found.error); }
      if !CanTransition(found.value.status, to) { return Err(Unprocessable); }
      assert forall j :: j in db.rows && j != id ==> !Conflict(db.rows[id], db.rows[j]);
      var applied := db.ApplyStatus(id, version, to);
      if applied.Err? { assert false; }   // the slot is kept, so the constraint has nothing to refuse
      if !applied.value { return Err(Stale); }
      var updated := db.FindById(id);
      var ok := db.Record(Emitted(id, updated.value, ChangedTo(to)));
      return Ok(updated.value);
    }

    /** The If-Match version wins over the body's and turns a mismatch from 409 into 412. */
    method Reschedule(id: int, bodyVersion: Option<int>, ifMatch: Option<int>, startsAt: int) returns (r: DbResult<Booking>)
      requires db.Valid() && !db.aborted && NoOverlap(db.rows)
      modifies db`rows, db`aborted, db`events
      ensures db.Valid() && NoOverlap(db.rows)
      ensures
        var version := if ifMatch.Some? then ifMatch else bodyVersion;
        if version.None? then r == Err(BadRequest)
        else if id !in old(db.rows) || old(db.rows)[id].tenant != db.tenant then r == Err(NotFound)
        else if !Active(old(db.rows)[id].status) then r == Err(Unprocessable)
        else if old(db.rows)[id].service !in catalog.services then r == Err(NotFound)
        else if old(db.rows)[id].version != version.value then
          r == Err(if ifMatch.Some? then PreconditionFailed else Stale)
        else
          var a := old(db.rows)[id];
          var b := Booking(a.tenant, a.staff, a.service, a.customer, a.price,
                           startsAt, startsAt + catalog.services[a.service].durationMin * 60_000, a.status,
                           a.recurrence, version.value + 1);
          if !SlotFree(old(db.rows), id, b) then r == Err(SlotTaken)
          else r == Ok(b) && RowStep(old(db.rows)[id], b) && db.rows == old(db.rows)[id := b]
               && db.events == old(db.events) + [Emitted(id, b, Rescheduled)]
      ensures r.Err? ==> db.rows == old(db.rows) && db.events == old(db.events)
      ensures db.aborted == (r == Err(SlotTaken))
    {
      var version := if ifMatch.Some? then ifMatch else bodyVersion;
      if version.None? { return Err(BadRequest); }
      var found := db.FindById(id);
      if found.Err? { return Err(found.error); }
      if !Active(found.value.status) { return Err(Unprocessable); }
      if found.value.service !in catalog.services { return Err(NotFound); }
      var endsAt := startsAt + catalog.services[found.value.service].durationMin * MINUTE_MS;
      var applied := db.ApplyReschedule(id, version.value, startsAt, endsAt);
      if applied.Err? { return Err(applied.error); }
      if !applied.value { return Err(if ifMatch.Some? then PreconditionFailed else Stale); }
      var updated := db.FindById(id);
      var ok := db.Record(Emitted(id, updated.value, Rescheduled));
      return Ok(updated.value);
    }

    /** Cancels the future of a series and records one cancelled event for each booking it touched;
        the order of those events is the order in which the database returned the ids. */
    method CancelSeries(recurrence: int, now: int) returns (r: DbResult<nat>)
      requires db.Valid() && !db.aborted
      modifies db`rows, db`events
      ensures db.Valid()
      ensures
        var ids := SeriesIds(old(db.rows), db.tenant, recurrence, now);
        && r == Ok(|ids|)
        && db.rows == CancelAll(old(db.rows), ids)
        && SeriesCancelled(old(db.rows), db.rows, db.tenant, recurrence, now)
        && |db.events| == |old(db.events)| + |ids|
        && (forall id :: CancelledOnce(old(db.events), db.events, old(db.rows), ids, id))
    {
      var result := db.CancelFutureSeries(recurrence, now);
      var ids := result.value;
      for k := 0 to |ids|
        invariant db.rows == CancelAll(old(db.rows), SeriesIds(old(db.rows), db.tenant, recurrence, now))
        invariant |db.events| == |old(db.events)| + k
        invariant forall id :: CancelledOnce(old(db.events), db.events, old(db.rows), First(ids, k), id)
      {
        ghost var before, gone := db.events, First(ids, k + 1);
        ListedIsIn(ids, SeriesIds(old(db.rows), db.tenant, recurrence, now), k);
        var booking := db.FindById(ids[k]);
        var ok := db.Record(Emitted(ids[k], booking.value, ChangedTo(Cancelled)));
        ghost var after := db.events;
        forall id ensures CancelledOnce(old(db.events), after, old(db.rows), gone, id) {
          HistoryAppend(before, Emitted(ids[k], booking.value, ChangedTo(Cancelled)), id);
          assert CancelledOnce(old(db.events), before, old(db.rows), First(ids, k), id);
        }
      }
      FirstOfAll(ids, SeriesIds(old(db.rows), db.tenant, recurrence, now));
      return Ok(|ids|);
    }
  }
}
