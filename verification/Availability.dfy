/** The availability read model: working hours minus time off minus padded bookings, and why every
    slot it offers can be booked. */
module Availability {
  import opened Wrappers
  import opened Sequences
  import opened BookingDomain
  import opened TenantConnection
  import opened BookingServiceModule
  import opened WorkingHoursModule
  import opened SlotGenerator

  datatype TimeOff = TimeOff(tenant: int, staff: int, startsAt: int, endsAt: int)

  /** Everything one request reads, plus the zone conversion of the tenant: `toUtc(date, minutes)`. */
  datatype Snapshot = Snapshot(
    tenant: int, rows: Rows, timeOff: set<TimeOff>, hours: seq<Hours>, activeStaff: set<int>,
    catalog: Catalog, toUtc: (int, int) -> int, weekdayOf: int -> int)

  datatype DateArg = NoSuchDate | OnDate(date: int)

  datatype Query = Query(service: int, date: DateArg, staff: Option<int>)

  datatype Slot = Slot(staff: int, startsAt: int, endsAt: int)

  const MINUTES_PER_DAY := 1440

  /** What the proofs assume of a zone on one date: every local minute lies between the two midnights. */
  ghost predicate DayBounds(toUtc: (int, int) -> int, date: int) {
    forall m :: 0 <= m <= MINUTES_PER_DAY ==> toUtc(date, 0) <= toUtc(date, m) <= toUtc(date, MINUTES_PER_DAY)
  }

  /** The further assumption behind disjoint slots: on that date the conversion keeps the order of the
      minutes. A day on which the clock moves forward breaks it: the minutes of the skipped hour are
      moved past later ones. */
  ghost predicate DayMonotone(toUtc: (int, int) -> int, date: int) {
    forall m, n :: 0 <= m <= n <= MINUTES_PER_DAY ==> toUtc(date, m) <= toUtc(date, n)
  }

  /** Offsets are whole minutes. */
  ghost predicate WholeMinutes(toUtc: (int, int) -> int, date: int) {
    forall m :: 0 <= m <= MINUTES_PER_DAY ==> (toUtc(date, m) - toUtc(date, 0)) % MINUTE_MS == 0
  }

  predicate ProperRows(rows: Rows) {
    forall id :: id in rows ==> rows[id].startsAt < rows[id].endsAt
  }

  // ----- blockers -----

  predicate ActiveFor(b: Booking, tenant: int, staff: int) {
    b.tenant == tenant && b.staff == staff && Active(b.status)
  }

  function Padded(b: Booking, before: int, after: int): MsInterval {
    MsInterval(b.startsAt - before, b.endsAt + after)
  }

  function TimeOffBlockers(timeOff: set<TimeOff>, tenant: int, staff: int, from: int, to: int): set<MsInterval> {
    set t | t in timeOff && t.tenant == tenant && t.staff == staff && t.startsAt < to && t.endsAt > from
      :: MsInterval(t.startsAt, t.endsAt)
  }

  function BookingBlockers(rows: Rows, tenant: int, staff: int, from: int, to: int, before: int, after: int): set<MsInterval> {
    set id | id in rows && ActiveFor(rows[id], tenant, staff) && rows[id].startsAt < to && rows[id].endsAt > from
      :: Padded(rows[id], before, after)
  }

  /** The same without the bounds of the day. */
  function AllBookingBlockers(rows: Rows, tenant: int, staff: int, before: int, after: int): set<MsInterval> {
    set id | id in rows && ActiveFor(rows[id], tenant, staff) :: Padded(rows[id], before, after)
  }

  function BuildBlockers(s: Snapshot, staff: int, from: int, to: int, before: int, after: int): set<MsInterval> {
    TimeOffBlockers(s.timeOff, s.tenant, staff, from, to)
      + BookingBlockers(s.rows, s.tenant, staff, from, to, before, after)
  }

  /** A slot inside the day that no fetched, padded booking overlaps is overlapped by no active
      booking at all. */
  lemma FreeMeansBookable(rows: Rows, tenant: int, staff: int, from: int, to: int, before: int, after: int, slot: MsInterval, id: int)
    requires before >= 0 && after >= 0
    requires from <= slot.start < slot.end <= to
    requires Free(slot, BookingBlockers(rows, tenant, staff, from, to, before, after))
    requires id in rows && ActiveFor(rows[id], tenant, staff)
    ensures !RangesOverlap(slot.start, slot.end, rows[id].startsAt, rows[id].endsAt)
  {
    var b := rows[id];
    assert b.startsAt < to && b.endsAt > from ==>
      Padded(b, before, after) in BookingBlockers(rows, tenant, staff, from, to, before, after);
  }

  /** The staff member is off at no moment of this interval, by any row of the table. */
  predicate NeverOff(timeOff: set<TimeOff>, tenant: int, staff: int, slot: MsInterval) {
    forall t :: t in timeOff && t.tenant == tenant && t.staff == staff ==> !Overlaps(slot, MsInterval(t.startsAt, t.endsAt))
  }

  /** The day-bounded fetch of time off loses nothing: for a slot of the day it blocks exactly what a
      scan of the whole table would. */
  lemma TimeOffFetchIsExact(timeOff: set<TimeOff>, tenant: int, staff: int, from: int, to: int, slot: MsInterval)
    requires from <= slot.start < slot.end <= to
    ensures Free(slot, TimeOffBlockers(timeOff, tenant, staff, from, to)) <==> NeverOff(timeOff, tenant, staff, slot)
  {
    var blockers := TimeOffBlockers(timeOff, tenant, staff, from, to);
    if Free(slot, blockers) {
      forall t | t in timeOff && t.tenant == tenant && t.staff == staff ensures !Overlaps(slot, MsInterval(t.startsAt, t.endsAt)) {
        assert t.startsAt < to && t.endsAt > from ==> MsInterval(t.startsAt, t.endsAt) in blockers;
      }
    }
  }

  predicate FetchLosesNothing(rows: Rows, tenant: int, staff: int, from: int, to: int, before: int, after: int, slot: MsInterval) {
    Free(slot, BookingBlockers(rows, tenant, staff, from, to, before, after)) <==>
    Free(slot, AllBookingBlockers(rows, tenant, staff, before, after))
  }

  ghost predicate FetchIsExact(tenant: int, staff: int, from: int, to: int, before: int, after: int) {
    forall rows: Rows, slot: MsInterval :: ProperRows(rows) && from <= slot.start < slot.end <= to ==>
      FetchLosesNothing(rows, tenant, staff, from, to, before, after, slot)
  }

  /** The day-bounded fetch agrees with a scan of all rows for every slot of the day and all bookings
      exactly when the service has no buffers: a booking outside the day can reach into it only
      through its padding. */
  lemma DayFetchIsExactWithoutBuffers(tenant: int, staff: int, from: int, to: int, before: int, after: int)
    requires from < to && before >= 0 && after >= 0
    ensures FetchIsExact(tenant, staff, from, to, before, after) <==> before == 0 && after == 0
  {
    if before == 0 && after == 0 {
      forall rows: Rows, slot: MsInterval | ProperRows(rows) && from <= slot.start < slot.end <= to
        ensures FetchLosesNothing(rows, tenant, staff, from, to, before, after, slot)
      {
        UnpaddedFetch(rows, tenant, staff, from, to, slot);
      }
    }
    var probe := Booking(tenant, staff, 0, 0, 0, from - 1, from, Pending, None, 1);
    if after > 0 {
      Reaches(probe, from, to, before, after, MsInterval(from, from + 1));
    } else if before > 0 {
      Reaches(probe.(startsAt := to, endsAt := to + 1), from, to, before, after, MsInterval(to - 1, to));
    }
  }

  lemma UnpaddedFetch(rows: Rows, tenant: int, staff: int, from: int, to: int, slot: MsInterval)
    requires ProperRows(rows) && from <= slot.start < slot.end <= to
    ensures FetchLosesNothing(rows, tenant, staff, from, to, 0, 0, slot)
  {
    if Free(slot, BookingBlockers(rows, tenant, staff, from, to, 0, 0)) {
      forall b | b in AllBookingBlockers(rows, tenant, staff, 0, 0) ensures !Overlaps(slot, b) {
        var id :| id in rows && ActiveFor(rows[id], tenant, staff) && Padded(rows[id], 0, 0) == b;
        FreeMeansBookable(rows, tenant, staff, from, to, 0, 0, slot, id);
      }
    }
    assert BookingBlockers(rows, tenant, staff, from, to, 0, 0) <= AllBookingBlockers(rows, tenant, staff, 0, 0);
  }

  /** One booking beside the day whose padding covers a slot of the day. */
  lemma Reaches(b: Booking, from: int, to: int, before: int, after: int, slot: MsInterval)
    requires Active(b.status) && b.startsAt < b.endsAt
    requires b.endsAt <= from || b.startsAt >= to
    requires Overlaps(slot, Padded(b, before, after))
    ensures !FetchLosesNothing(map[0 := b], b.tenant, b.staff, from, to, before, after, slot)
  {
    var rows := map[0 := b];
    assert 0 in rows && ActiveFor(rows[0], b.tenant, b.staff);
    assert Padded(rows[0], before, after) in AllBookingBlockers(rows, b.tenant, b.staff, before, after);
    assert BookingBlockers(rows, b.tenant, b.staff, from, to, before, after) == {};
  }

  // ----- the computed slots -----

  function DurationMs(info: ServiceInfo): int {
    info.durationMin * MINUTE_MS
  }

  function Window(s: Snapshot, date: int, h: Hours): MsInterval {
    MsInterval(s.toUtc(date, h.startMin), s.toUtc(date, h.endMin))
  }

  function DayBlockers(s: Snapshot, date: int, info: ServiceInfo, staff: int): set<MsInterval> {
    BuildBlockers(s, staff, s.toUtc(date, 0), s.toUtc(date, MINUTES_PER_DAY),
                  info.bufferBeforeMin * MINUTE_MS, info.bufferAfterMin * MINUTE_MS)
  }

  /** A staff member whose slots the query shows. */
  predicate Serves(s: Snapshot, q: Query, staff: int) {
    && (staff, q.service) in s.catalog.capable && staff in s.activeStaff
    && (q.staff.Some? ==> q.staff.value == staff)
  }

  /** The slot comes from this window. */
  predicate FromWindow(s: Snapshot, date: int, info: ServiceInfo, h: Hours, slot: Slot)
    requires info.durationMin >= 1
  {
    && OnGrid(Window(s, date, h), DurationMs(info), MsInterval(slot.startsAt, slot.endsAt))
    && Free(MsInterval(slot.startsAt, slot.endsAt), DayBlockers(s, date, info, slot.staff))
  }

  predicate ScheduledBy(s: Snapshot, date: int, h: Hours, staff: int) {
    h in s.hours && h.tenant == s.tenant && h.staff == staff && h.weekday == s.weekdayOf(date)
  }

  ghost predicate OnSchedule(s: Snapshot, date: int, info: ServiceInfo, slot: Slot)
    requires info.durationMin >= 1
  {
    exists h :: ScheduledBy(s, date, h, slot.staff) && FromWindow(s, date, info, h, slot)
  }

  predicate ProperServices(catalog: Catalog) {
    forall id :: id in catalog.services ==> catalog.services[id].durationMin >= 1
  }

  /** What it means for a slot to be on offer. */
  ghost predicate Offered(s: Snapshot, q: Query, slot: Slot)
    requires ProperServices(s.catalog)
  {
    && q.date.OnDate? && q.service in s.catalog.services && Serves(s, q, slot.staff)
    && OnSchedule(s, q.date.date, s.catalog.services[q.service], slot)
  }

  /** The same in the terms of the tables, with a minute of 60 000 milliseconds and a day of 1440 of them. */
  ghost predicate ByTheTables(s: Snapshot, q: Query, slot: Slot) {
    && q.date.OnDate? && q.service in s.catalog.services && (slot.staff, q.service) in s.catalog.capable
    && slot.staff in s.activeStaff && (q.staff.None? || q.staff.value == slot.staff)
    && slot.endsAt == slot.startsAt + s.catalog.services[q.service].durationMin * 60_000
    && (exists h :: InHours(s, q.date.date, h, slot))
    && (forall t :: t in s.timeOff && OffThatDay(s, q.date.date, t, slot.staff) ==>
          slot.endsAt <= t.startsAt || t.endsAt <= slot.startsAt)
    && (forall id :: id in s.rows && MeetsDay(s, q.date.date, s.rows[id], slot.staff) ==>
          KeepsBuffers(s.catalog.services[q.service], s.rows[id], slot))
  }

  /** A whole number of durations after the start of these hours, and over by their end. */
  predicate InHours(s: Snapshot, date: int, h: Hours, slot: Slot) {
    && h in s.hours && h.tenant == s.tenant && h.staff == slot.staff && h.weekday == s.weekdayOf(date)
    && s.toUtc(date, h.startMin) <= slot.startsAt && slot.endsAt <= s.toUtc(date, h.endMin)
    && slot.startsAt < slot.endsAt && (slot.startsAt - s.toUtc(date, h.startMin)) % (slot.endsAt - slot.startsAt) == 0
  }

  predicate OffThatDay(s: Snapshot, date: int, t: TimeOff, staff: int) {
    t.tenant == s.tenant && t.staff == staff && t.endsAt > s.toUtc(date, 0) && t.startsAt < s.toUtc(date, 1440)
  }

  predicate MeetsDay(s: Snapshot, date: int, b: Booking, staff: int) {
    && b.tenant == s.tenant && b.staff == staff && (b.status == Pending || b.status == Confirmed)
    && b.endsAt > s.toUtc(date, 0) && b.startsAt < s.toUtc(date, 1440)
  }

  /** The buffer before is kept free ahead of the booking, the buffer after behind it. */
  predicate KeepsBuffers(info: ServiceInfo, b: Booking, slot: Slot) {
    slot.endsAt <= b.startsAt - info.bufferBeforeMin * 60_000 || b.endsAt + info.bufferAfterMin * 60_000 <= slot.startsAt
  }

  lemma WindowIsHours(s: Snapshot, q: Query, slot: Slot, h: Hours)
    requires ProperServices(s.catalog) && q.date.OnDate? && q.service in s.catalog.services
    ensures
      var info := s.catalog.services[q.service];
      ScheduledBy(s, q.date.date, h, slot.staff)
        && OnGrid(Window(s, q.date.date, h), DurationMs(info), MsInterval(slot.startsAt, slot.endsAt))
      <==> InHours(s, q.date.date, h, slot) && slot.endsAt == slot.startsAt + info.durationMin * 60_000
  {
  }

  lemma FreeMeansBuffered(s: Snapshot, date: int, info: ServiceInfo, slot: Slot)
    ensures Free(MsInterval(slot.startsAt, slot.endsAt), DayBlockers(s, date, info, slot.staff)) <==>
      && (forall t :: t in s.timeOff && OffThatDay(s, date, t, slot.staff) ==>
            slot.endsAt <= t.startsAt || t.endsAt <= slot.startsAt)
      && (forall id :: id in s.rows && MeetsDay(s, date, s.rows[id], slot.staff) ==> KeepsBuffers(info, s.rows[id], slot))
  {
    var place, blockers := MsInterval(slot.startsAt, slot.endsAt), DayBlockers(s, date, info, slot.staff);
    if Free(place, blockers) {
      forall t | t in s.timeOff && OffThatDay(s, date, t, slot.staff)
        ensures slot.endsAt <= t.startsAt || t.endsAt <= slot.startsAt
      {
        assert MsInterval(t.startsAt, t.endsAt) in blockers;
      }
      forall id | id in s.rows && MeetsDay(s, date, s.rows[id], slot.staff) ensures KeepsBuffers(info, s.rows[id], slot) {
        assert Padded(s.rows[id], info.bufferBeforeMin * MINUTE_MS, info.bufferAfterMin * MINUTE_MS) in blockers;
      }
    }
  }

  /** What is on offer, with every bound, buffer and constant spelled out. */
  lemma OfferedExactly(s: Snapshot, q: Query, slot: Slot)
    requires ProperServices(s.catalog)
    ensures Offered(s, q, slot) <==> ByTheTables(s, q, slot)
  {
    if q.date.OnDate? && q.service in s.catalog.services {
      var date, info := q.date.date, s.catalog.services[q.service];
      FreeMeansBuffered(s, date, info, slot);
      forall h ensures InHours(s, date, h, slot) && slot.endsAt == slot.startsAt + info.durationMin * 60_000 <==>
        ScheduledBy(s, date, h, slot.staff)
          && OnGrid(Window(s, date, h), DurationMs(info), MsInterval(slot.startsAt, slot.endsAt))
      {
        WindowIsHours(s, q, slot, h);
      }
    }
  }

  /** Availability agrees with the booking guard: each offered slot, booked at once in the same state
      for that service and staff, meets every check of `doCreate` that concerns the slot, whatever
      the buffers are; and the staff member is not off at any moment of it. */
  lemma OfferedSlotsAreBookable(s: Snapshot, q: Query, slot: Slot, customer: int, newId: int)
    requires Tidy(s.hours) && ProperServices(s.catalog) && Offered(s, q, slot)
    requires DayBounds(s.toUtc, q.date.date)
    ensures
      var info := s.catalog.services[q.service];
      var b := NewBooking(s.tenant, SpecOf(slot.staff, q.service, customer, info), slot.startsAt, None);
      && (slot.staff, q.service) in s.catalog.capable && b.endsAt == slot.endsAt && SlotFree(s.rows, newId, b)
      && NeverOff(s.timeOff, s.tenant, slot.staff, MsInterval(slot.startsAt, slot.endsAt))
  {
    var info, date := s.catalog.services[q.service], q.date.date;
    var from, to := s.toUtc(date, 0), s.toUtc(date, MINUTES_PER_DAY);
    var before, after := info.bufferBeforeMin * MINUTE_MS, info.bufferAfterMin * MINUTE_MS;
    var place := MsInterval(slot.startsAt, slot.endsAt);
    var h :| ScheduledBy(s, date, h, slot.staff) && FromWindow(s, date, info, h, slot);
    assert Free(place, BookingBlockers(s.rows, s.tenant, slot.staff, from, to, before, after));
    assert Free(place, TimeOffBlockers(s.timeOff, s.tenant, slot.staff, from, to));
    TimeOffFetchIsExact(s.timeOff, s.tenant, slot.staff, from, to, place);
    var b := NewBooking(s.tenant, SpecOf(slot.staff, q.service, customer, info), slot.startsAt, None);
    forall id | id in s.rows && id != newId ensures !Conflict(b, s.rows[id]) {
      if ActiveFor(s.rows[id], s.tenant, slot.staff) {
        FreeMeansBookable(s.rows, s.tenant, slot.staff, from, to, before, after, place, id);
      }
    }
  }

  // ----- the computation -----

  predicate Disjoint(a: Slot, b: Slot) {
    a.staff == b.staff ==> a.endsAt <= b.startsAt || b.endsAt <= a.startsAt
  }

  predicate PairwiseDisjoint(slots: seq<Slot>) {
    forall i, j :: 0 <= i < j < |slots| ==> Disjoint(slots[i], slots[j])
  }

  predicate Sorted(slots: seq<Slot>) {
    forall i, j :: 0 <= i < j < |slots| ==> slots[i].startsAt <= slots[j].startsAt
  }

  /** The stable sort by start instant. */
  function SortByStart(slots: seq<Slot>): seq<Slot> {
    if slots == [] then [] else InsertByStart(SortByStart(slots[..|slots| - 1]), slots[|slots| - 1])
  }

  function InsertByStart(slots: seq<Slot>, x: Slot): seq<Slot> {
    if slots == [] || slots[|slots| - 1].startsAt <= x.startsAt then slots + [x]
    else InsertByStart(slots[..|slots| - 1], x) + [slots[|slots| - 1]]
  }

  lemma {:induction false} InsertElements(slots: seq<Slot>, x: Slot)
    ensures multiset(InsertByStart(slots, x)) == multiset(slots) + multiset{x}
    ensures forall y :: y in InsertByStart(slots, x) <==> y in slots || y == x
  {
    if slots != [] && slots[|slots| - 1].startsAt > x.startsAt {
      InsertElements(slots[..|slots| - 1], x);
      assert slots == slots[..|slots| - 1] + [slots[|slots| - 1]];
    }
  }

  lemma {:induction false} InsertSorted(slots: seq<Slot>, x: Slot)
    requires Sorted(slots)
    ensures Sorted(InsertByStart(slots, x))
  {
    if slots != [] && slots[|slots| - 1].startsAt > x.startsAt {
      var n := |slots| - 1;
      InsertSorted(slots[..n], x);
      InsertElements(slots[..n], x);
      var r := InsertByStart(slots[..n], x);
      forall i | 0 <= i < |r| ensures r[i].startsAt <= slots[n].startsAt {
        assert r[i] in r;
      }
    }
  }

  lemma {:induction false} InsertDisjoint(slots: seq<Slot>, x: Slot)
    requires PairwiseDisjoint(slots) && forall y :: y in slots ==> Disjoint(y, x)
    ensures PairwiseDisjoint(InsertByStart(slots, x))
  {
    if slots != [] && slots[|slots| - 1].startsAt > x.startsAt {
      var n := |slots| - 1;
      assert slots[n] in slots;
      InsertDisjoint(slots[..n], x);
      InsertElements(slots[..n], x);
      var r := InsertByStart(slots[..n], x);
      forall i | 0 <= i < |r| ensures Disjoint(r[i], slots[n]) {
        assert r[i] in r;
      }
    }
  }

  /** The sort is a sorted permutation. */
  lemma {:induction false} SortFacts(slots: seq<Slot>)
    ensures Sorted(SortByStart(slots)) && multiset(SortByStart(slots)) == multiset(slots)
    ensures forall y :: y in SortByStart(slots) <==> y in slots
  {
    if slots != [] {
      var n := |slots| - 1;
      SortFacts(slots[..n]);
      assert slots == slots[..n] + [slots[n]];
      InsertElements(SortByStart(slots[..n]), slots[n]);
      InsertSorted(SortByStart(slots[..n]), slots[n]);
    }
  }

  lemma {:induction false} SortKeepsDisjoint(slots: seq<Slot>)
    requires PairwiseDisjoint(slots)
    ensures PairwiseDisjoint(SortByStart(slots))
  {
    if slots != [] {
      var n := |slots| - 1;
      SortKeepsDisjoint(slots[..n]);
      SortFacts(slots[..n]);
      forall y | y in slots[..n] ensures Disjoint(y, slots[n]) {
        var i :| 0 <= i < n && slots[i] == y;
      }
      InsertDisjoint(SortByStart(slots[..n]), slots[n]);
    }
  }

  /** Two intervals that one staff member may have on one day. */
  predicate Apart(g: Hours, h: Hours) {
    && SameDay(g, h) && !Clash(g, h)
    && 0 <= g.startMin < g.endMin <= MINUTES_PER_DAY && 0 <= h.startMin < h.endMin <= MINUTES_PER_DAY
  }

  lemma WindowsApart(s: Snapshot, date: int, info: ServiceInfo, g: Hours, h: Hours, a: Slot, b: Slot)
    requires info.durationMin >= 1 && DayMonotone(s.toUtc, date) && Apart(g, h)
    requires FromWindow(s, date, info, g, a) && FromWindow(s, date, info, h, b)
    ensures Disjoint(a, b)
  {
    if g.endMin <= h.startMin {
      assert s.toUtc(date, g.endMin) <= s.toUtc(date, h.startMin);
    } else {
      assert s.toUtc(date, h.endMin) <= s.toUtc(date, g.startMin);
    }
  }

  /** On this date, windows of intervals that do not clash never give overlapping slots. */
  ghost predicate NeverOverlapping(s: Snapshot, date: int) {
    forall info: ServiceInfo, g: Hours, h: Hours, a: Slot, b: Slot ::
      info.durationMin >= 1 && Apart(g, h) && FromWindow(s, date, info, g, a) && FromWindow(s, date, info, h, b) ==>
        Disjoint(a, b)
  }

  /** If the conversion moves minute `m` past a later minute `n`, the hours before `m` and those from
      `n` on both give the minute that begins at `n`. */
  lemma ShiftedMinutesOverlap(s: Snapshot, date: int, m: int, n: int)
    requires 0 <= m <= n <= MINUTES_PER_DAY && s.toUtc(date, m) > s.toUtc(date, n)
    requires DayBounds(s.toUtc, date) && WholeMinutes(s.toUtc, date) && s.rows == map[] && s.timeOff == {}
    ensures !NeverOverlapping(s, date)
  {
    var g, h := Hours(s.tenant, 0, s.weekdayOf(date), 0, m), Hours(s.tenant, 0, s.weekdayOf(date), n, MINUTES_PER_DAY);
    var info := ServiceInfo(1, 0, 0, 0);
    var first, start := s.toUtc(date, 0), s.toUtc(date, n);
    var slot := Slot(0, start, start + MINUTE_MS);
    assert (start - first) % MINUTE_MS == 0 && (s.toUtc(date, m) - first) % MINUTE_MS == 0;
    assert start + MINUTE_MS <= s.toUtc(date, m) <= s.toUtc(date, MINUTES_PER_DAY);
    assert DayBlockers(s, date, info, 0) == {};
    assert FromWindow(s, date, info, g, slot) && FromWindow(s, date, info, h, slot) && Apart(g, h);
    assert !Disjoint(slot, slot);
  }

  /** The assumption on the conversion is exact: whatever hours, services, bookings and time off there
      may be, slots of one staff member on that date never overlap, if and only if the conversion keeps
      the order of that day's minutes. */
  lemma SlotsApartExactly(s: Snapshot, date: int)
    requires DayBounds(s.toUtc, date) && WholeMinutes(s.toUtc, date)
    ensures DayMonotone(s.toUtc, date) ==> NeverOverlapping(s, date)
    ensures NeverOverlapping(s.(rows := map[], timeOff := {}), date) ==> DayMonotone(s.toUtc, date)
  {
    if DayMonotone(s.toUtc, date) {
      forall info: ServiceInfo, g: Hours, h: Hours, a: Slot, b: Slot
        | info.durationMin >= 1 && Apart(g, h) && FromWindow(s, date, info, g, a) && FromWindow(s, date, info, h, b)
        ensures Disjoint(a, b)
      {
        WindowsApart(s, date, info, g, h, a, b);
      }
    } else {
      var m, n :| 0 <= m <= n <= MINUTES_PER_DAY && s.toUtc(date, m) > s.toUtc(date, n);
      ShiftedMinutesOverlap(s.(rows := map[], timeOff := {}), date, m, n);
    }
  }

  predicate FromSome(s: Snapshot, date: int, info: ServiceInfo, hours: seq<Hours>, slot: Slot)
    requires info.durationMin >= 1
  {
    exists j :: 0 <= j < |hours| && FromWindow(s, date, info, hours[j], slot)
  }

  lemma FromOneMore(s: Snapshot, date: int, info: ServiceInfo, hours: seq<Hours>, h: Hours, slot: Slot)
    requires info.durationMin >= 1
    ensures FromSome(s, date, info, hours + [h], slot) <==>
            FromSome(s, date, info, hours, slot) || FromWindow(s, date, info, h, slot)
  {
    if FromSome(s, date, info, hours, slot) {
      var j :| 0 <= j < |hours| && FromWindow(s, date, info, hours[j], slot);
      assert (hours + [h])[j] == hours[j];
    }
    assert (hours + [h])[|hours|] == h;
  }

  lemma ScheduleIsHours(s: Snapshot, date: int, info: ServiceInfo, slot: Slot)
    requires info.durationMin >= 1
    ensures FromSome(s, date, info, ForStaffWeekday(s.hours, s.tenant, slot.staff, s.weekdayOf(date)), slot)
      <==> OnSchedule(s, date, info, slot)
  {
    var hours := ForStaffWeekday(s.hours, s.tenant, slot.staff, s.weekdayOf(date));
    ForStaffWeekdayIs(s.hours, s.tenant, slot.staff, s.weekdayOf(date));
    if FromSome(s, date, info, hours, slot) {
      var j :| 0 <= j < |hours| && FromWindow(s, date, info, hours[j], slot);
      assert hours[j] in hours;
      assert ScheduledBy(s, date, hours[j], slot.staff);
    }
    if OnSchedule(s, date, info, slot) {
      var h :| ScheduledBy(s, date, h, slot.staff) && FromWindow(s, date, info, h, slot);
      assert h in hours;
      var j :| 0 <= j < |hours| && hours[j] == h;
    }
  }

  /** The slots of one working-hours window. */
  method WindowSlots(s: Snapshot, date: int, info: ServiceInfo, staff: int, h: Hours) returns (slots: seq<Slot>)
    requires info.durationMin >= 1
    ensures PairwiseDisjoint(slots)
    ensures forall slot :: slot in slots <==> slot.staff == staff && FromWindow(s, date, info, h, slot)
  {
    var found := GenerateSlots(Window(s, date, h), DurationMs(info), DayBlockers(s, date, info, staff));
    slots := seq(|found|, i requires 0 <= i < |found| => Slot(staff, found[i].start, found[i].end));
    forall slot: Slot | slot.staff == staff && FromWindow(s, date, info, h, slot) ensures slot in slots {
      var i :| 0 <= i < |found| && found[i] == MsInterval(slot.startsAt, slot.endsAt);
      assert slots[i] == slot;
    }
    forall slot | slot in slots ensures slot.staff == staff && FromWindow(s, date, info, h, slot) {
      var i :| 0 <= i < |slots| && slots[i] == slot;
      assert found[i] in found;
    }
  }

  lemma AppendDisjoint(slots: seq<Slot>, more: seq<Slot>)
    requires PairwiseDisjoint(slots) && PairwiseDisjoint(more)
    requires forall a, b :: a in slots && b in more ==> Disjoint(a, b)
    ensures PairwiseDisjoint(slots + more)
  {
    var all := slots + more;
    forall i, j | 0 <= i < j < |all| ensures Disjoint(all[i], all[j]) {
      if i < |slots| <= j { assert slots[i] in slots && more[j - |slots|] in more; }
    }
  }

  /** What the next interval gives is apart from what the ones before it gave. */
  lemma NextWindowApart(s: Snapshot, date: int, info: ServiceInfo, hours: seq<Hours>, k: nat, a: Slot, b: Slot)
    requires info.durationMin >= 1 && DayMonotone(s.toUtc, date) && k < |hours|
    requires Tidy(hours) && forall i, j :: 0 <= i < j < |hours| ==> SameDay(hours[i], hours[j])
    requires FromSome(s, date, info, hours[..k], a) && FromWindow(s, date, info, hours[k], b)
    ensures Disjoint(a, b)
  {
    var j :| 0 <= j < k && FromWindow(s, date, info, hours[..k][j], a);
    assert Apart(hours[j], hours[k]);
    WindowsApart(s, date, info, hours[j], hours[k], a, b);
  }

  /** The intervals of one staff member and weekday. */
  lemma DayHours(hours: seq<Hours>, tenant: int, staff: int, weekday: int)
    requires Tidy(hours)
    ensures
      var found := ForStaffWeekday(hours, tenant, staff, weekday);
      Tidy(found) && forall i, j :: 0 <= i < j < |found| ==> SameDay(found[i], found[j])
  {
    var found := ForStaffWeekday(hours, tenant, staff, weekday);
    ForStaffWeekdayIs(hours, tenant, staff, weekday);
    ForStaffWeekdayIsTidy(hours, tenant, staff, weekday);
    forall i, j | 0 <= i < j < |found| ensures SameDay(found[i], found[j]) {
      assert found[i] in found && found[j] in found;
    }
  }

  /** All slots of one staff member on one day. */
  method StaffSlots(s: Snapshot, date: int, info: ServiceInfo, staff: int) returns (slots: seq<Slot>)
    requires info.durationMin >= 1 && Tidy(s.hours)
    ensures DayMonotone(s.toUtc, date) ==> PairwiseDisjoint(slots)
    ensures forall slot :: slot in slots <==> slot.staff == staff && OnSchedule(s, date, info, slot)
  {
    slots := [];
    var hours := ForStaffWeekday(s.hours, s.tenant, staff, s.weekdayOf(date));
    DayHours(s.hours, s.tenant, staff, s.weekdayOf(date));
    for k := 0 to |hours|
      invariant DayMonotone(s.toUtc, date) ==> PairwiseDisjoint(slots)
      invariant forall slot :: slot in slots <==> slot.staff == staff && FromSome(s, date, info, hours[..k], slot)
    {
      var more := WindowSlots(s, date, info, staff, hours[k]);
      if DayMonotone(s.toUtc, date) {
        forall a, b | a in slots && b in more ensures Disjoint(a, b) {
          NextWindowApart(s, date, info, hours, k, a, b);
        }
        AppendDisjoint(slots, more);
      }
      forall slot { FromOneMore(s, date, info, hours[..k], hours[k], slot); }
      assert hours[..k + 1] == hours[..k] + [hours[k]];
      slots := slots + more;
    }
    assert hours[..|hours|] == hours;
    forall slot: Slot | slot.staff == staff { ScheduleIsHours(s, date, info, slot); }
  }

  /** The staff linked to a service; a link exists once. */
  function CapableStaffIds(capable: seq<(int, int)>, service: int): seq<int> {
    if capable == [] then []
    else
      var last := capable[|capable| - 1];
      CapableStaffIds(capable[..|capable| - 1], service) + if last.1 == service then [last.0] else []
  }

  lemma {:induction false} CapableStaffIdsAre(capable: seq<(int, int)>, service: int)
    requires NoRepeats(capable)
    ensures forall id :: id in CapableStaffIds(capable, service) <==> (id, service) in capable
    ensures NoRepeats(CapableStaffIds(capable, service))
  {
    if capable != [] {
      var n := |capable| - 1;
      CapableStaffIdsAre(capable[..n], service);
      assert capable == capable[..n] + [capable[n]];
      var ids := CapableStaffIds(capable[..n], service);
      forall i | 0 <= i < |ids| && capable[n].1 == service ensures ids[i] != capable[n].0 {
        var id: int :| id == ids[i];
        assert id in ids && (id, service) in capable[..n];
      }
    }
  }

  /** The whole query: exactly the offered slots, sorted; those of one staff member are disjoint if
      the zone conversion keeps the order of that day's minutes. */
  method Compute(s: Snapshot, q: Query) returns (r: DbResult<seq<Slot>>)
    requires Tidy(s.hours) && ProperServices(s.catalog)
    requires NoRepeats(s.catalog.capable)
    ensures q.date.NoSuchDate? ==> r == Err(BadRequest)
    ensures q.date.OnDate? && q.service !in s.catalog.services ==> r == Err(NotFound)
    ensures q.date.OnDate? && q.service in s.catalog.services ==>
      && r.Ok? && Sorted(r.value) && (DayMonotone(s.toUtc, q.date.date) ==> PairwiseDisjoint(r.value))
      && forall slot :: slot in r.value <==> Offered(s, q, slot)
  {
    if q.date.NoSuchDate? { return Err(BadRequest); }
    if q.service !in s.catalog.services { return Err(NotFound); }
    var info := s.catalog.services[q.service];
    var staffIds := if q.staff.Some? then [q.staff.value] else CapableStaffIds(s.catalog.capable, q.service);
    CapableStaffIdsAre(s.catalog.capable, q.service);
    var slots: seq<Slot> := [];
    for i := 0 to |staffIds|
      invariant DayMonotone(s.toUtc, q.date.date) ==> PairwiseDisjoint(slots)
      invariant forall slot :: slot in slots <==> slot.staff in staffIds[..i] && Offered(s, q, slot)
    {
      assert staffIds[..i + 1] == staffIds[..i] + [staffIds[i]];
      if q.staff.Some? && (staffIds[i], q.service) !in s.catalog.capable { continue; }
      if staffIds[i] !in s.activeStaff { continue; }
      assert staffIds[i] in staffIds;
      var more := StaffSlots(s, q.date.date, info, staffIds[i]);
      forall a, b | a in slots && b in more ensures Disjoint(a, b) {
        assert b.staff !in staffIds[..i];
      }
      slots := slots + more;
    }
    assert staffIds[..|staffIds|] == staffIds;
    SortFacts(slots);
    if DayMonotone(s.toUtc, q.date.date) { SortKeepsDisjoint(slots); }
    return Ok(SortByStart(slots));
  }

  /** The two components together: a slot taken from the answer and booked at once is booked, for
      exactly that staff member and time and outside any time off, unless the database refuses the
      row for another reason. */
  method ComputeThenBook(s: Snapshot, q: Query, service: BookingService, pick: nat, customer: int)
    returns (offers: seq<Slot>, r: DbResult<int>)
    requires Tidy(s.hours) && ProperServices(s.catalog)
    requires q.date.OnDate? ==> DayBounds(s.toUtc, q.date.date)
    requires NoRepeats(s.catalog.capable)
    requires service.db.Valid() && !service.db.aborted
    requires s.rows == service.db.rows && s.tenant == service.db.tenant && s.catalog == service.catalog
    requires customer in s.catalog.customers
    modifies service.db
    ensures forall slot :: slot in offers <==> q.date.OnDate? && q.service in s.catalog.services && Offered(s, q, slot)
    ensures pick < |offers| ==> r.Ok? || r == Err(DbError)
    ensures r.Ok? ==>
      && pick < |offers| && r.value !in old(service.db.rows) && r.value in service.db.rows
      && var b := service.db.rows[r.value];
         b.staff == offers[pick].staff && b.startsAt == offers[pick].startsAt && b.endsAt == offers[pick].endsAt
         && b.status == Pending && service.db.rows == old(service.db.rows)[r.value := b]
         && NeverOff(s.timeOff, s.tenant, b.staff, MsInterval(b.startsAt, b.endsAt))
    ensures r.Err? ==> service.db.rows == old(service.db.rows)
  {
    var slots := Compute(s, q);
    if slots.Err? { return [], Err(slots.error); }
    offers := slots.value;
    if pick >= |offers| { return offers, Err(NotFound); }
    var slot := offers[pick];
    assert slot in offers;
    OfferedSlotsAreBookable(s, q, slot, customer, service.db.nextId);
    r := service.DoCreate(slot.staff, q.service, customer, slot.startsAt);
  }
}
