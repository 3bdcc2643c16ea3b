/** Insertion of a series inside one request transaction: first fit with a savepoint for each
    occurrence, or all or nothing. */
module RecurrenceServiceModule {
  import opened Wrappers
  import opened BookingDomain
  import opened TenantConnection
  import opened BookingServiceModule
  import Expander = RecurrenceExpander

  datatype Policy = SkipConflictsPolicy | AllOrNothingPolicy

  datatype Request = Request(staff: int, service: int, customer: int, rule: Expander.Rule, policy: Policy)

  // ----- the meaning of skipping conflicts -----

  datatype Outcome = Outcome(rows: Rows, events: seq<Event>, nextId: nat, created: seq<int>, skipped: seq<int>)

  datatype Series = Series(tenant: int, spec: Spec, recurrence: int)

  function Occurrence(series: Series, startsAt: int): Booking {
    NewBooking(series.tenant, series.spec, startsAt, Some(series.recurrence))
  }

  function Place(o: Outcome, series: Series, startsAt: int): Outcome {
    var b := Occurrence(series, startsAt);
    if SlotFree(o.rows, o.nextId, b) then
      Outcome(o.rows[o.nextId := b], o.events + [Emitted(o.nextId, b, Created)], o.nextId + 1,
              o.created + [startsAt], o.skipped)
    else
      o.(skipped := o.skipped + [startsAt])
  }

  /** Greedy first fit: each occurrence in turn is placed if its slot is still free. */
  function FirstFit(o: Outcome, series: Series, starts: seq<int>): Outcome {
    if starts == [] then o
    else Place(FirstFit(o, series, starts[..|starts| - 1]), series, starts[|starts| - 1])
  }

  /** `created` and `skipped` split `starts`, both in order. */
  predicate Splits(starts: seq<int>, created: seq<int>, skipped: seq<int>) {
    if starts == [] then created == [] && skipped == []
    else
      var init, last := starts[..|starts| - 1], starts[|starts| - 1];
      || (created != [] && created[|created| - 1] == last && Splits(init, created[..|created| - 1], skipped))
      || (skipped != [] && skipped[|skipped| - 1] == last && Splits(init, created, skipped[..|skipped| - 1]))
  }

  predicate IdsBelow(rows: Rows, nextId: nat) {
    forall id :: id in rows ==> 0 <= id < nextId
  }

  predicate Extends(rows: Rows, rows': Rows) {
    forall id :: id in rows ==> id in rows' && rows'[id] == rows[id]
  }

  predicate Blocked(rows: Rows, b: Booking) {
    exists id :: id in rows && Conflict(b, rows[id])
  }

  predicate Present(rows: Rows, b: Booking) {
    exists id :: id in rows && rows[id] == b
  }

  /** Every row that is new is an occurrence of this series, field by field. */
  predicate NewRowsAre(rows: Rows, rows': Rows, tenant: int, req: Request, info: ServiceInfo, recurrence: int, created: seq<int>) {
    forall id :: id in rows' && id !in rows ==>
      && rows'[id].startsAt in created
      && rows'[id] == Booking(tenant, req.staff, req.service, req.customer, info.price, rows'[id].startsAt,
                              rows'[id].startsAt + info.durationMin * 60_000, Pending, Some(recurrence), 1)
  }

  ghost predicate Sound(o: Outcome, series: Series, r: Outcome) {
    && IdsBelow(r.rows, r.nextId) && o.nextId <= r.nextId
    && Extends(o.rows, r.rows)
    && (forall id :: id in r.rows && id !in o.rows ==>
          o.nextId <= id && exists s :: s in r.created && r.rows[id] == Occurrence(series, s))
    && (forall s :: s in r.created ==> Present(r.rows, Occurrence(series, s)))
    && (forall s :: s in r.skipped ==> Blocked(r.rows, Occurrence(series, s)))
    && |r.created| == r.nextId - o.nextId
  }

  function Nothing(rows: Rows, events: seq<Event>, nextId: nat): Outcome {
    Outcome(rows, events, nextId, [], [])
  }

  lemma PresenceLasts(rows: Rows, rows': Rows, b: Booking)
    requires Extends(rows, rows')
    ensures Present(rows, b) ==> Present(rows', b)
    ensures Blocked(rows, b) ==> Blocked(rows', b)
  {
    if id :| id in rows && rows[id] == b { assert rows'[id] == b; }
    if id :| id in rows && Conflict(b, rows[id]) { assert rows'[id] == rows[id]; }
  }

  lemma PlaceIsSound(o: Outcome, series: Series, r: Outcome, startsAt: int)
    requires Sound(o, series, r)
    ensures Sound(o, series, Place(r, series, startsAt))
  {
    var b := Occurrence(series, startsAt);
    var r' := Place(r, series, startsAt);
    if SlotFree(r.rows, r.nextId, b) {
      assert r'.rows[r.nextId] == b && r'.created[|r.created|] == startsAt;
      forall id | id in r'.rows && id !in o.rows
        ensures o.nextId <= id && exists s :: s in r'.created && r'.rows[id] == Occurrence(series, s)
      {
        if id != r.nextId { var s :| s in r.created && r.rows[id] == Occurrence(series, s); assert s in r'.created; }
      }
      forall s | s in r'.created ensures Present(r'.rows, Occurrence(series, s)) {
        PresenceLasts(r.rows, r'.rows, Occurrence(series, s));
      }
      forall s | s in r'.skipped ensures Blocked(r'.rows, Occurrence(series, s)) {
        PresenceLasts(r.rows, r'.rows, Occurrence(series, s));
      }
    }
  }

  lemma PlaceKeepsNoOverlap(r: Outcome, series: Series, startsAt: int)
    requires NoOverlap(r.rows)
    ensures NoOverlap(Place(r, series, startsAt).rows)
  {
  }

  lemma PlaceSplits(starts: seq<int>, r: Outcome, series: Series)
    requires starts != [] && Splits(starts[..|starts| - 1], r.created, r.skipped)
    ensures
      var r' := Place(r, series, starts[|starts| - 1]);
      Splits(starts, r'.created, r'.skipped)
  {
    var r' := Place(r, series, starts[|starts| - 1]);
    assert r'.created == r.created || r'.created[..|r'.created| - 1] == r.created;
    assert r'.skipped == r.skipped || r'.skipped[..|r'.skipped| - 1] == r.skipped;
  }

  /** Whatever was placed is there, whatever was skipped overlaps an active booking of the final
      state, nothing else changed, and the two lists split the occurrences in order. */
  lemma {:induction false} FirstFitIsSound(rows: Rows, events: seq<Event>, nextId: nat, series: Series, starts: seq<int>)
    requires IdsBelow(rows, nextId)
    ensures
      var o := Nothing(rows, events, nextId); var r := FirstFit(o, series, starts);
      Sound(o, series, r) && Splits(starts, r.created, r.skipped) && (NoOverlap(rows) ==> NoOverlap(r.rows))
  {
    if starts != [] {
      var n := |starts| - 1;
      FirstFitIsSound(rows, events, nextId, series, starts[..n]);
      var o := Nothing(rows, events, nextId);
      var r := FirstFit(o, series, starts[..n]);
      PlaceIsSound(o, series, r, starts[n]);
      PlaceSplits(starts, r, series);
      if NoOverlap(rows) { PlaceKeepsNoOverlap(r, series, starts[n]); }
    }
  }

  /** The trail of each booking of the series is its one creation event; older trails are as before. */
  lemma {:induction false} FirstFitTrails(rows: Rows, events: seq<Event>, nextId: nat, series: Series, starts: seq<int>, id: int)
    requires IdsBelow(rows, nextId) && forall i :: i >= nextId ==> History(events, i) == []
    ensures
      var r := FirstFit(Nothing(rows, events, nextId), series, starts);
      && (forall i :: i >= r.nextId ==> History(r.events, i) == [])
      && r.nextId >= nextId
      && History(r.events, id) == History(events, id) +
           (if nextId <= id < r.nextId && id in r.rows then [Emitted(id, r.rows[id], Created)] else [])
      && (nextId <= id < r.nextId ==> id in r.rows)
  {
    if starts != [] {
      var n := |starts| - 1;
      FirstFitTrails(rows, events, nextId, series, starts[..n], id);
      var r := FirstFit(Nothing(rows, events, nextId), series, starts[..n]);
      var e := Emitted(r.nextId, Occurrence(series, starts[n]), Created);
      forall i ensures History(r.events + [e], i) == History(r.events, i) + (if i == r.nextId then [e] else []) {
        HistoryAppend(r.events, e, i);
      }
    }
  }

  /** The choice is greedy: an occurrence is created exactly if it overlaps no booking that was there
      before and no earlier occurrence that was created. */
  lemma FirstFitIsGreedy(rows: Rows, events: seq<Event>, nextId: nat, series: Series, starts: seq<int>, k: nat)
    requires IdsBelow(rows, nextId) && k < |starts|
    requires forall i, j :: 0 <= i < j < |starts| ==> starts[i] < starts[j]
    ensures
      var r := FirstFit(Nothing(rows, events, nextId), series, starts);
      starts[k] in r.created <==>
        && !Blocked(rows, Occurrence(series, starts[k]))
        && forall j :: 0 <= j < k && starts[j] in r.created ==>
             !Conflict(Occurrence(series, starts[k]), Occurrence(series, starts[j]))
  {
    var o := Nothing(rows, events, nextId);
    var before, r := FirstFit(o, series, starts[..k]), FirstFit(o, series, starts);
    FirstFitIsSound(rows, events, nextId, series, starts[..k]);
    LaterStartsLeaveEarlier(o, series, starts, k);
    LaterStartsLeaveEarlier(o, series, starts, k + 1);
    OnlyStartsCreated(starts[..k], series, o);
    var b := Occurrence(series, starts[k]);
    assert starts[..k + 1][..k] == starts[..k];
    assert FirstFit(o, series, starts[..k + 1]) == Place(before, series, starts[k]);
    assert starts[k] !in before.created;
    GreedyStep(o, series, before, starts[..k], b);
    forall j | 0 <= j < k ensures starts[j] in r.created <==> starts[..k][j] in before.created {
    }
  }

  /** Given the bookings before and the occurrences created so far, a free slot means just that. */
  lemma GreedyStep(o: Outcome, series: Series, r: Outcome, done: seq<int>, b: Booking)
    requires Sound(o, series, r) && o.created == []
    requires forall s :: s in r.created ==> s in done
    ensures SlotFree(r.rows, r.nextId, b) <==>
      !Blocked(o.rows, b) && forall j :: 0 <= j < |done| && done[j] in r.created ==> !Conflict(b, Occurrence(series, done[j]))
  {
    if SlotFree(r.rows, r.nextId, b) {
      forall j | 0 <= j < |done| && done[j] in r.created ensures !Conflict(b, Occurrence(series, done[j])) {
        assert Present(r.rows, Occurrence(series, done[j]));
      }
    } else {
      var id :| id in r.rows && id != r.nextId && Conflict(b, r.rows[id]);
      if id !in o.rows {
        var s :| s in r.created && r.rows[id] == Occurrence(series, s);
        var j :| 0 <= j < |done| && done[j] == s;
      }
    }
  }

  lemma {:induction false} OnlyStartsCreated(starts: seq<int>, series: Series, o: Outcome)
    requires o.created == []
    ensures forall s :: s in FirstFit(o, series, starts).created ==> s in starts
  {
    if starts != [] {
      OnlyStartsCreated(starts[..|starts| - 1], series, o);
    }
  }

  /** Going on after the first `k` occurrences neither adds them to nor removes them from `created`. */
  lemma {:induction false} LaterStartsLeaveEarlier(o: Outcome, series: Series, starts: seq<int>, k: nat)
    requires k <= |starts| && o.created == []
    requires forall i, j :: 0 <= i < j < |starts| ==> starts[i] < starts[j]
    ensures forall j :: 0 <= j < k ==>
      (starts[j] in FirstFit(o, series, starts).created <==> starts[j] in FirstFit(o, series, starts[..k]).created)
  {
    if k == |starts| {
      assert starts[..k] == starts;
    } else {
      var n := |starts| - 1;
      LaterStartsLeaveEarlier(o, series, starts[..n], k);
      assert starts[..n][..k] == starts[..k];
    }
  }

  /** A skipped occurrence stays skipped, whatever follows. */
  lemma {:induction false} SkippedStays(o: Outcome, series: Series, starts: seq<int>, k: nat)
    requires k <= |starts|
    ensures FirstFit(o, series, starts[..k]).skipped <= FirstFit(o, series, starts).skipped
  {
    if k == |starts| {
      assert starts[..k] == starts;
    } else {
      var n := |starts| - 1;
      SkippedStays(o, series, starts[..n], k);
      assert starts[..n][..k] == starts[..k];
    }
  }

  /** The occurrence at `k` is free in its turn but the database refuses it for another reason. */
  predicate RefusedAt(o: Outcome, series: Series, starts: seq<int>, refused: Booking -> bool, k: nat)
    requires k < |starts|
  {
    var before := FirstFit(o, series, starts[..k]);
    SlotFree(before.rows, before.nextId, Occurrence(series, starts[k])) && refused(Occurrence(series, starts[k]))
  }

  predicate SomeRefused(o: Outcome, series: Series, starts: seq<int>, refused: Booking -> bool) {
    exists k :: 0 <= k < |starts| && RefusedAt(o, series, starts, refused, k)
  }

  predicate NoneRefused(o: Outcome, series: Series, starts: seq<int>, refused: Booking -> bool, n: nat)
    requires n <= |starts|
  {
    forall k :: 0 <= k < n ==> !RefusedAt(o, series, starts, refused, k)
  }

  /** One more occurrence is placed. */
  lemma PlacedOccurrence(o: Outcome, series: Series, starts: seq<int>, refused: Booking -> bool, k: nat)
    requires k < |starts| && NoneRefused(o, series, starts, refused, k)
    requires
      var before, b := FirstFit(o, series, starts[..k]), Occurrence(series, starts[k]);
      SlotFree(before.rows, before.nextId, b) && !refused(b)
    ensures NoneRefused(o, series, starts, refused, k + 1)
    ensures
      var before, b := FirstFit(o, series, starts[..k]), Occurrence(series, starts[k]);
      FirstFit(o, series, starts[..k + 1]) ==
        Outcome(before.rows[before.nextId := b], before.events + [Emitted(before.nextId, b, Created)], before.nextId + 1,
                before.created + [starts[k]], before.skipped)
  {
    assert starts[..k + 1][..k] == starts[..k];
  }

  /** The answer to an all-or-nothing request, or the reason for its error. */
  predicate Justified<T>(o: Outcome, series: Series, starts: seq<int>, refused: Booking -> bool, r: DbResult<T>) {
    && (r.Ok? <==> FirstFit(o, series, starts).skipped == [] && !SomeRefused(o, series, starts, refused))
    && (r.Err? ==> r.error == SlotTaken || r.error == DbError)
    && (r == Err(SlotTaken) ==> FirstFit(o, series, starts).skipped != [])
    && (r == Err(DbError) ==> SomeRefused(o, series, starts, refused))
  }

  /** An occurrence whose slot is taken in its turn makes first fit skip something. */
  lemma FailedOccurrence(o: Outcome, series: Series, starts: seq<int>, refused: Booking -> bool, k: nat, r: DbResult<Reply>)
    requires k < |starts|
    requires
      var before, b := FirstFit(o, series, starts[..k]), Occurrence(series, starts[k]);
      if !SlotFree(before.rows, before.nextId, b) then r == Err(SlotTaken) else refused(b) && r == Err(DbError)
    ensures Justified(o, series, starts, refused, r)
  {
    SkippedStays(o, series, starts, k + 1);
    assert starts[..k + 1][..k] == starts[..k];
    if r == Err(DbError) { assert RefusedAt(o, series, starts, refused, k); }
  }

  lemma AllPlaced(o: Outcome, series: Series, starts: seq<int>, refused: Booking -> bool, r: DbResult<Reply>)
    requires NoneRefused(o, series, starts, refused, |starts|) && FirstFit(o, series, starts[..|starts|]).skipped == [] && r.Ok?
    ensures FirstFit(o, series, starts) == FirstFit(o, series, starts[..|starts|]) && Justified(o, series, starts, refused, r)
  {
    assert starts[..|starts|] == starts;
  }

  datatype Reply = Reply(created: seq<int>, skipped: seq<int>)

  datatype SeriesReply = SeriesReply(recurrence: nat, created: seq<int>, skipped: seq<int>)

  class RecurrenceService {
    const db: Connection
    const bookings: BookingService
    /** The UTC instant of a local day at the rule's wall-clock time. */
    const toUtc: int -> int

    predicate Valid()
      reads this, db
    {
      bookings.db == db && db.Valid()
    }

    function Before(): Outcome
      reads db
    {
      Nothing(db.rows, db.events, db.nextId)
    }

    constructor (db: Connection, bookings: BookingService, toUtc: int -> int)
      requires bookings.db == db && db.Valid()
      ensures Valid() && this.db == db && this.bookings == bookings && this.toUtc == toUtc
    {
      this.db, this.bookings, this.toUtc := db, bookings, toUtc;
    }

    /** One occurrence of an all-or-nothing series, after others of which none was refused or skipped. */
    method PlaceOccurrence(ghost o: Outcome, series: Series, starts: seq<int>, k: nat) returns (r: DbResult<Reply>)
      requires Valid() && !db.aborted && series.tenant == db.tenant && k < |starts|
      requires FirstFit(o, series, starts[..k]) == Outcome(db.rows, db.events, db.nextId, starts[..k], [])
      requires NoneRefused(o, series, starts, db.refused, k)
      modifies db`rows, db`nextId, db`aborted, db`events
      ensures Valid() && db.aborted == r.Err?
      ensures r.Err? ==> Justified(o, series, starts, db.refused, r)
      ensures r.Ok? ==>
        && FirstFit(o, series, starts[..k + 1]) == Outcome(db.rows, db.events, db.nextId, starts[..k + 1], [])
        && NoneRefused(o, series, starts, db.refused, k + 1) && r.value == Reply(starts[..k + 1], [])
    {
      var one := bookings.CreateOccurrence(series.spec, starts[k], Some(series.recurrence));
      if one.Err? {
        FailedOccurrence(o, series, starts, db.refused, k, Err(one.error));
        return Err(one.error);
      }
      PlacedOccurrence(o, series, starts, db.refused, k);
      return Ok(Reply(starts[..k] + [starts[k]], []));
    }

    /** The first error aborts the transaction and is passed on. */
    method AllOrNothing(starts: seq<int>, series: Series) returns (r: DbResult<Reply>)
      requires Valid() && !db.aborted && series.tenant == db.tenant
      modifies db`rows, db`nextId, db`aborted, db`events
      ensures Valid() && db.aborted == r.Err?
      ensures Justified(old(Before()), series, starts, db.refused, r)
      ensures r.Ok? ==>
        && r.value == Reply(starts, [])
        && FirstFit(old(Before()), series, starts) == Outcome(db.rows, db.events, db.nextId, starts, [])
    {
      ghost var o := Before();
      r := Ok(Reply([], []));
      for k := 0 to |starts|
        invariant Valid() && !db.aborted && r == Ok(Reply(starts[..k], []))
        invariant FirstFit(o, series, starts[..k]) == Outcome(db.rows, db.events, db.nextId, starts[..k], [])
        invariant NoneRefused(o, series, starts, db.refused, k)
      {
        r := PlaceOccurrence(o, series, starts, k);
        if r.Err? { return; }
      }
      AllPlaced(o, series, starts, db.refused, r);
      assert starts[..|starts|] == starts;
    }

    /** One occurrence inside its own savepoint: kept, or undone down to rows and events; either way
        the transaction is not left aborted. */
    method TryOccurrence(k: nat, startsAt: int, series: Series) returns (one: DbResult<int>)
      requires Valid() && !db.aborted && series.tenant == db.tenant
      modifies db`rows, db`nextId, db`aborted, db`events, db`series, db`savepoints
      ensures Valid() && !db.aborted && db.series == old(db.series)
      ensures
        var b := Occurrence(series, startsAt);
        if !SlotFree(old(db.rows), old(db.nextId), b) then one == Err(SlotTaken)
        else if db.refused(b) then one == Err(DbError)
        else
          && one.Ok? && db.rows == old(db.rows)[old(db.nextId) := b]
          && db.events == old(db.events) + [Emitted(old(db.nextId), b, Created)] && db.nextId == old(db.nextId) + 1
      ensures one.Ok? ==> db.savepoints == old(db.savepoints)
      ensures one.Err? ==>
        && db.rows == old(db.rows) && db.events == old(db.events) && db.nextId == old(db.nextId)
        && db.savepoints == old(db.savepoints) + [Savepoint(k, db.rows, db.events, db.series)]
    {
      var ok := db.OpenSavepoint(k);
      one := bookings.CreateOccurrence(series.spec, startsAt, Some(series.recurrence));
      if one.Ok? {
        ok := db.ReleaseSavepoint(k);
      } else {
        ok := db.RollbackToSavepoint(k);
      }
    }

    /** A taken slot is undone and skipped; any other error is passed on. Each skipped occurrence
        leaves its savepoint on the stack. */
    method SkipConflicts(starts: seq<int>, series: Series) returns (r: DbResult<Reply>)
      requires Valid() && !db.aborted && series.tenant == db.tenant
      modifies db`rows, db`nextId, db`aborted, db`events, db`series, db`savepoints
      ensures Valid() && !db.aborted && db.series == old(db.series)
      ensures r.Ok? <==> !SomeRefused(old(Before()), series, starts, db.refused)
      ensures r.Err? ==> r.error == DbError
      ensures r.Ok? ==>
        && FirstFit(old(Before()), series, starts) == Outcome(db.rows, db.events, db.nextId, r.value.created, r.value.skipped)
        && old(db.savepoints) <= db.savepoints && |db.savepoints| == |old(db.savepoints)| + |r.value.skipped|
    {
      var created: seq<int>, skipped: seq<int> := [], [];
      for k := 0 to |starts|
        invariant Valid() && !db.aborted && db.series == old(db.series)
        invariant FirstFit(old(Before()), series, starts[..k]) == Outcome(db.rows, db.events, db.nextId, created, skipped)
        invariant forall j :: 0 <= j < k ==> !RefusedAt(old(Before()), series, starts, db.refused, j)
        invariant old(db.savepoints) <= db.savepoints && |db.savepoints| == |old(db.savepoints)| + |skipped|
      {
        assert starts[..k + 1][..k] == starts[..k];
        var one := TryOccurrence(k, starts[k], series);
        assert one == Err(DbError) <==> RefusedAt(old(Before()), series, starts, db.refused, k);
        if one.Ok? {
          created := created + [starts[k]];
        } else {
          if one.error != SlotTaken { return Err(one.error); }
          skipped := skipped + [starts[k]];
        }
      }
      assert starts[..|starts|] == starts;
      return Ok(Reply(created, skipped));
    }

    /** The occurrences, under the policy that the request names. */
    method InsertByPolicy(req: Request, recurrence: nat, starts: seq<int>) returns (r: DbResult<Reply>)
      requires Valid() && !db.aborted && req.service in bookings.catalog.services
      modifies db`rows, db`nextId, db`aborted, db`events, db`series, db`savepoints
      ensures Valid() && db.series == old(db.series) && (r.Ok? ==> !db.aborted)
      ensures r.Ok? <==> Succeeds(old(Before()), req, recurrence, starts)
      ensures r.Err? ==> Excused(old(Before()), req, recurrence, starts, r.error)
      ensures r.Ok? ==> Inserted(old(Before()), req, recurrence, starts, SeriesReply(recurrence, r.value.created, r.value.skipped))
    {
      if req.policy.AllOrNothingPolicy? {
        r := AllOrNothing(starts, SeriesOf(req, recurrence));
      } else {
        r := SkipConflicts(starts, SeriesOf(req, recurrence));
      }
    }

    /** A slot is taken, which only all-or-nothing minds, or the database refuses an occurrence. */
    predicate Excused(before: Outcome, req: Request, recurrence: nat, starts: seq<int>, error: Error)
      requires req.service in bookings.catalog.services
    {
      if error == SlotTaken then
        req.policy.AllOrNothingPolicy? && FirstFit(before, SeriesOf(req, recurrence), starts).skipped != []
      else error == DbError && SomeRefused(before, SeriesOf(req, recurrence), starts, db.refused)
    }

    /** Weekdays on a daily rule are rejected first, then a missing service, a staff member who cannot
        perform it, a missing customer, and a rule that fires on no day; only then is anything written,
        the series' own row before its occurrences. */
    method CreateInTransaction(req: Request) returns (r: DbResult<SeriesReply>, ghost starts: seq<int>)
      requires Valid() && !db.aborted && Expander.WellFormed(req.rule)
      modifies db`rows, db`nextId, db`aborted, db`events, db`series, db`savepoints
      ensures Valid()
      ensures Answered(old(Before()), req, |old(db.series)|, starts, r)
      ensures r.Ok? ==>
        && !db.aborted && Planned(req, starts) && Inserted(old(Before()), req, |old(db.series)|, starts, r.value)
        && db.series == old(db.series) + [RowOf(req)]
    {
      if req.rule.freq == Expander.Daily && req.rule.weekdays != [] { return Err(BadRequest), []; }
      if req.service !in bookings.catalog.services { return Err(NotFound), []; }
      if (req.staff, req.service) !in bookings.catalog.capable { return Err(BadRequest), []; }
      if req.customer !in bookings.catalog.customers { return Err(NotFound), []; }
      var days := Expander.ExpandRecurrence(req.rule);
      if Expander.Expands(req.rule, []) { Expander.ExpansionIsUnique(req.rule, days, []); }
      if days == [] { return Err(BadRequest), []; }
      var instants := seq(|days|, i requires 0 <= i < |days| => toUtc(days[i]));
      starts := instants;
      assert Instants(days, starts);
      var stored := db.AddSeries(RowOf(req));
      var outcome := InsertByPolicy(req, stored.value, instants);
      if outcome.Err? { return Err(outcome.error), starts; }
      return Ok(SeriesReply(stored.value, outcome.value.created, outcome.value.skipped)), starts;
    }

    /** Each rejection in the source's order; past them, success exactly as said below, a taken slot only
        under all-or-nothing, and a database error only if the database refuses an occurrence. */
    ghost predicate Answered(before: Outcome, req: Request, recurrence: nat, starts: seq<int>, r: DbResult<SeriesReply>)
      requires Expander.WellFormed(req.rule)
    {
      if req.rule.freq == Expander.Daily && req.rule.weekdays != [] then r == Err(BadRequest)
      else if req.service !in bookings.catalog.services then r == Err(NotFound)
      else if (req.staff, req.service) !in bookings.catalog.capable then r == Err(BadRequest)
      else if req.customer !in bookings.catalog.customers then r == Err(NotFound)
      else if Expander.Expands(req.rule, []) then r == Err(BadRequest)
      else
        && Planned(req, starts) && (r.Ok? <==> Succeeds(before, req, recurrence, starts))
        && (r.Err? ==> Excused(before, req, recurrence, starts, r.error))
    }

    /** No free occurrence is refused by the database and, if the policy says so, none is taken. */
    predicate Succeeds(before: Outcome, req: Request, recurrence: nat, starts: seq<int>)
      requires req.service in bookings.catalog.services
    {
      && !SomeRefused(before, SeriesOf(req, recurrence), starts, db.refused)
      && (req.policy.AllOrNothingPolicy? ==> FirstFit(before, SeriesOf(req, recurrence), starts).skipped == [])
    }

    /** The tables are the first-fit outcome under this series' id, and the answer reports it. */
    predicate Inserted(before: Outcome, req: Request, recurrence: nat, starts: seq<int>, reply: SeriesReply)
      requires req.service in bookings.catalog.services
      reads db
    {
      && reply.recurrence == recurrence
      && FirstFit(before, SeriesOf(req, recurrence), starts)
           == Outcome(db.rows, db.events, db.nextId, reply.created, reply.skipped)
      && (req.policy.AllOrNothingPolicy? ==> reply.created == starts && reply.skipped == [])
    }

    function RowOf(req: Request): SeriesRow {
      SeriesRow(db.tenant, req.staff, req.service, req.customer, req.rule)
    }

    function SeriesOf(req: Request, recurrence: nat): Series
      requires req.service in bookings.catalog.services
    {
      Series(db.tenant, SpecOf(req.staff, req.service, req.customer, bookings.catalog.services[req.service]), recurrence)
    }

    /** The request passed its checks and its rule expands to these start instants. */
    ghost predicate Planned(req: Request, starts: seq<int>) {
      && Expander.WellFormed(req.rule)
      && req.service in bookings.catalog.services
      && (req.staff, req.service) in bookings.catalog.capable && req.customer in bookings.catalog.customers
      && exists days :: Expander.Expands(req.rule, days) && days != [] && Instants(days, starts)
    }

    predicate Instants(days: seq<int>, starts: seq<int>) {
      |starts| == |days| && forall i :: 0 <= i < |days| ==> starts[i] == toUtc(days[i])
    }

    /** Nothing is uncommitted. */
    predicate Settled()
      reads db
    {
      && !db.aborted
      && db.rows == db.committedRows && db.events == db.committedEvents && db.series == db.committedSeries
    }

    /** The whole request, to the end of its transaction: an error leaves the committed tables as they
        were, an answer means that the series' row and exactly the first-fit outcome were committed. */
    method Create(req: Request) returns (r: DbResult<SeriesReply>, ghost starts: seq<int>)
      requires Valid() && Settled() && Expander.WellFormed(req.rule)
      modifies db
      ensures Valid() && Settled() && db.savepoints == []
      ensures r.Err? ==>
        db.rows == old(db.rows) && db.events == old(db.events) && db.series == old(db.series)
      ensures Answered(old(Before()), req, |old(db.series)|, starts, r)
      ensures r.Ok? ==>
        && Planned(req, starts) && Inserted(old(Before()), req, |old(db.series)|, starts, r.value)
        && db.series == old(db.series) + [SeriesRow(db.tenant, req.staff, req.service, req.customer, req.rule)]
        && NewRowsAre(old(db.rows), db.rows, db.tenant, req, bookings.catalog.services[req.service],
                      r.value.recurrence, r.value.created)
    {
      ghost var rows, events, nextId := db.rows, db.events, db.nextId;
      r, starts := CreateInTransaction(req);
      if r.Ok? { FirstFitIsSound(rows, events, nextId, SeriesOf(req, r.value.recurrence), starts); }
      if r.Ok? {
        var ok := db.Commit();
      } else {
        db.Rollback();
      }
    }
  }
}
