/** `BookingService.create` under an Idempotency-Key: claim, create and store in the request's own
    transaction, or replay what the first request stored. */
module IdempotentBooking {
  import opened Wrappers
  import opened BookingDomain
  import opened TenantConnection
  import opened BookingServiceModule
  import Keys = IdempotencyProtocol

  datatype Dto = Dto(staff: int, service: int, customer: int, startsAt: int)

  datatype Reply = Made(id: int) | Refused(error: Error) | KeyReused | InProgress

  /** The outcome of a request that nobody has made before: what it is refused for, or the one row, with
      the request's own staff, service, customer and start, and its one event. */
  predicate Outcome(service: BookingService, dto: Dto, r: Reply, newId: int, before: Rows, rows: Rows, events: seq<Event>, events': seq<Event>)
  {
    if dto.service !in service.catalog.services then r == Refused(NotFound)
    else if (dto.staff, dto.service) !in service.catalog.capable then r == Refused(BadRequest)
    else if dto.customer !in service.catalog.customers then r == Refused(NotFound)
    else
      var info := service.catalog.services[dto.service];
      var b := Booking(service.db.tenant, dto.staff, dto.service, dto.customer, info.price,
                       dto.startsAt, dto.startsAt + info.durationMin * 60_000, Pending, None, 1);
      if !SlotFree(before, newId, b) then r == Refused(SlotTaken)
      else if service.db.refused(b) then r == Refused(DbError)
      else r == Made(newId) && rows == before[newId := b] && events' == events + [Emitted(newId, b, EventKind.Created)]
  }

  class BookingApi {
    const service: BookingService
    /** SHA-256 of the serialised body. */
    const hash: Dto -> int
    var keys: map<string, Keys.KeyRow>
    var committedKeys: map<string, Keys.KeyRow>

    predicate Valid()
      reads this, service.db
    {
      && service.db.Valid()
      && (forall k :: k in committedKeys ==> committedKeys[k].response.Some?)
    }

    /** Between two requests: nothing uncommitted. */
    predicate Settled()
      reads this, service.db
    {
      && Valid() && keys == committedKeys && !service.db.aborted
      && service.db.rows == service.db.committedRows && service.db.events == service.db.committedEvents
    }

    constructor (service: BookingService, hash: Dto -> int)
      requires service.db.Valid()
      ensures this.service == service && this.hash == hash && keys == committedKeys == map[] && Valid()
    {
      this.service, this.hash, keys, committedKeys := service, hash, map[], map[];
    }

    /** Insert or ignore; tells whether this request owns the key now. */
    method Claim(key: string, requestHash: int) returns (claimed: bool)
      modifies this`keys
      ensures claimed == (key !in old(keys))
      ensures keys == if claimed then old(keys)[key := Keys.KeyRow(requestHash, None)] else old(keys)
    {
      claimed := key !in keys;
      if claimed { keys := keys[key := Keys.KeyRow(requestHash, None)]; }
    }

    method Replay(key: string, requestHash: int) returns (r: Reply)
      ensures key !in keys || keys[key].hash != requestHash ==> r == KeyReused
      ensures key in keys && keys[key].hash == requestHash ==>
        r == if keys[key].response.None? then InProgress else Made(keys[key].response.value)
    {
      if key !in keys || keys[key].hash != requestHash { return KeyReused; }
      if keys[key].response.None? { return InProgress; }
      return Made(keys[key].response.value);
    }

    /** `run` around `doCreate`. An empty key counts as none. */
    method Create(key: Option<string>, dto: Dto) returns (r: Reply)
      requires Settled()
      modifies this`keys, service.db
      ensures Valid() && committedKeys == old(committedKeys)
      ensures service.db.committedRows == old(service.db.committedRows)
      ensures service.db.committedEvents == old(service.db.committedEvents)
      ensures r != InProgress
      ensures (key.None? || key.value == "") ==> keys == old(keys) && r != KeyReused
      ensures key.Some? && key.value != "" && key.value in old(keys) ==>
        && service.db.rows == old(service.db.rows) && service.db.events == old(service.db.events)
        && keys == old(keys) && !service.db.aborted
        && r == if old(keys)[key.value].hash == hash(dto) then Made(old(keys)[key.value].response.value) else KeyReused
      ensures key.None? || key.value == "" || key.value !in old(keys) ==>
        && Outcome(service, dto, r, old(service.db.nextId), old(service.db.rows), service.db.rows,
                   old(service.db.events), service.db.events)
        && (r.Made? ==> !service.db.aborted && r.id !in old(service.db.rows))
      ensures key.Some? && key.value != "" && key.value !in old(keys) && r.Made? ==>
        keys == old(keys)[key.value := Keys.KeyRow(hash(dto), Some(r.id))]
    {
      if key.None? || key.value == "" {
        var plain := service.DoCreate(dto.staff, dto.service, dto.customer, dto.startsAt);
        return if plain.Ok? then Made(plain.value) else Refused(plain.error);
      }
      var claimed := Claim(key.value, hash(dto));
      if !claimed {
        r := Replay(key.value, hash(dto));
        return;
      }
      var made := service.DoCreate(dto.staff, dto.service, dto.customer, dto.startsAt);
      if made.Err? { return Refused(made.error); }
      keys := keys[key.value := keys[key.value].(response := Some(made.value))];
      return Made(made.value);
    }

    /** The whole request: only an answer that reports a booking commits. */
    method Handle(key: Option<string>, dto: Dto) returns (r: Reply)
      requires Settled()
      modifies this, service.db
      ensures Settled() && r != InProgress
      ensures !r.Made? ==>
        keys == old(keys) && service.db.rows == old(service.db.rows) && service.db.events == old(service.db.events)
      ensures r.Made? && key.Some? && key.value != "" ==>
        key.value in keys && keys[key.value] == Keys.KeyRow(hash(dto), Some(r.id))
      ensures key.Some? && key.value != "" && key.value in old(keys) ==>
        && keys == old(keys) && service.db.rows == old(service.db.rows) && service.db.events == old(service.db.events)
        && r == if old(keys)[key.value].hash == hash(dto) then Made(old(keys)[key.value].response.value) else KeyReused
      ensures key.None? || key.value == "" || key.value !in old(keys) ==>
        && Outcome(service, dto, r, old(service.db.nextId), old(service.db.rows), service.db.rows,
                   old(service.db.events), service.db.events)
        && (r.Made? ==> r.id !in old(service.db.rows))
    {
      r := Create(key, dto);
      if r.Made? {
        var ok := service.db.Commit();
        committedKeys := keys;
      } else {
        service.db.Rollback();
        keys := committedKeys;
      }
    }

    /** A client that sends the same request twice gets the same booking, made once. */
    method SendTwice(key: string, dto: Dto) returns (first: Reply, second: Reply)
      requires Settled() && key != ""
      modifies this, service.db
      ensures Settled()
      ensures first.Made? ==> second == first && key in keys && keys[key] == Keys.KeyRow(hash(dto), Some(first.id))
      ensures first.Made? && key !in old(keys) ==>
        && Outcome(service, dto, first, old(service.db.nextId), old(service.db.rows), service.db.rows,
                   old(service.db.events), service.db.events)
      ensures |service.db.events| <= |old(service.db.events)| + 1
    {
      first := Handle(Some(key), dto);
      second := Handle(Some(key), dto);
    }
  }
}
