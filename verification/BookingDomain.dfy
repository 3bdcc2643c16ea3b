/** The booking entity, its lifecycle table, the slot exclusion rule and the outbox event that
    records a change. Everything here is a value; the protocol and the service share it. */
module BookingDomain {
  import opened Wrappers

  datatype Status = Pending | Confirmed | Completed | Cancelled | NoShow

  /** The lifecycle table: for each status, the statuses it may change to. */
  function Transitions(from: Status): seq<Status> {
    match from
    case Pending => [Confirmed, Cancelled, NoShow]
    case Confirmed => [Completed, Cancelled, NoShow]
    case Completed => []
    case Cancelled => []
    case NoShow => []
  }

  predicate CanTransition(from: Status, to: Status) {
    to in Transitions(from)
  }

  /** The statuses that occupy a slot; the exclusion constraint guards only these. */
  predicate Active(status: Status) {
    status == Pending || status == Confirmed
  }

  datatype Booking = Booking(
    tenant: int, staff: int, service: int, customer: int, price: nat,
    startsAt: int, endsAt: int, status: Status, recurrence: Option<int>, version: nat)

  type Rows = map<int, Booking>

  /** `&&` on half-open ranges: an empty range overlaps nothing. */
  predicate RangesOverlap(s0: int, e0: int, s1: int, e1: int) {
    s0 < e0 && s1 < e1 && s0 < e1 && s1 < e0
  }

  /** The pairs that the `bookings_no_overlap` constraint forbids. */
  predicate Conflict(a: Booking, b: Booking) {
    && Active(a.status) && Active(b.status)
    && a.tenant == b.tenant && a.staff == b.staff
    && RangesOverlap(a.startsAt, a.endsAt, b.startsAt, b.endsAt)
  }

  /** The lifecycle in full; and a status is active exactly if it leads anywhere. */
  lemma LifecycleIs(from: Status, to: Status)
    ensures CanTransition(from, to) <==>
      || (from == Pending && (to == Confirmed || to == Cancelled || to == NoShow))
      || (from == Confirmed && (to == Completed || to == Cancelled || to == NoShow))
    ensures Active(from) <==> Transitions(from) != []
  {
  }

  /** The booking occupies its staff member at this instant. */
  predicate Occupies(b: Booking, t: int) {
    (b.status == Pending || b.status == Confirmed) && b.startsAt <= t < b.endsAt
  }

  /** The constraint forbids neither more nor less than that two bookings of one tenant occupy one
      staff member at one instant. */
  lemma ConflictMeans(a: Booking, b: Booking)
    ensures Conflict(a, b) <==>
      a.tenant == b.tenant && a.staff == b.staff && exists t :: Occupies(a, t) && Occupies(b, t)
  {
    if Conflict(a, b) {
      var t := if a.startsAt < b.startsAt then b.startsAt else a.startsAt;
      assert Occupies(a, t) && Occupies(b, t);
    }
  }

  predicate NoOverlap(rows: Rows) {
    forall i, j :: i in rows && j in rows && i != j ==> !Conflict(rows[i], rows[j])
  }

  predicate SlotFree(rows: Rows, id: int, b: Booking) {
    forall j :: j in rows && j != id ==> !Conflict(b, rows[j])
  }

  /** What the cancellation of a series reaches: its future active rows in this tenant. */
  predicate InSeries(b: Booking, tenant: int, recurrence: int, now: int) {
    b.recurrence == Some(recurrence) && b.tenant == tenant && Active(b.status) && b.startsAt > now
  }

  function WithStatus(b: Booking, to: Status): Booking {
    b.(status := to, version := b.version + 1)
  }

  function WithRange(b: Booking, startsAt: int, endsAt: int): Booking {
    b.(startsAt := startsAt, endsAt := endsAt, version := b.version + 1)
  }

  /** What one committed request may do to one row: one edge of the table with the slot kept,
      or a move of an active booking with the status kept. Either way the version grows by one. */
  predicate RowStep(a: Booking, b: Booking) {
    && b == a.(status := b.status, startsAt := b.startsAt, endsAt := b.endsAt, version := a.version + 1)
    && (   (CanTransition(a.status, b.status) && a.startsAt == b.startsAt && a.endsAt == b.endsAt)
        || (a.status == b.status && Active(a.status)))
  }

  datatype EventKind = Created | Rescheduled | ChangedTo(status: Status)

  datatype Event = Event(
    bookingId: int, kind: EventKind, staff: int, service: int, customer: int, startsAt: int, status: Status)

  function Emitted(id: int, b: Booking, kind: EventKind): Event {
    Event(id, kind, b.staff, b.service, b.customer, b.startsAt, b.status)
  }

  /** The events of one booking, in the order in which they were recorded. */
  function History(events: seq<Event>, id: int): seq<Event> {
    if events == [] then []
    else
      var last := events[|events| - 1];
      History(events[..|events| - 1], id) + if last.bookingId == id then [last] else []
  }

  /** What an event says of the one before it: a status event names its status, one edge further
      with the start kept; a reschedule keeps an active status. */
  predicate Follows(before: Event, e: Event) {
    match e.kind
    case Created => false
    case Rescheduled => e.status == before.status && Active(e.status)
    case ChangedTo(to) => e.status == to && CanTransition(before.status, to) && e.startsAt == before.startsAt
  }

  /** The event trail of a row: one event per version, opened (and only opened) by `booking.created`
      as pending, all about the row's staff, service and customer, and the last carrying the row's
      own status and start. */
  predicate Counted(trail: seq<Event>, b: Booking) {
    && |trail| == b.version && |trail| > 0
    && trail[0].kind == Created && trail[0].status == Pending
    && (forall k :: 0 < k < |trail| ==> trail[k].kind != Created)
    && (forall k :: 0 <= k < |trail| ==>
          trail[k].staff == b.staff && trail[k].service == b.service && trail[k].customer == b.customer)
    && trail[|trail| - 1].status == b.status
    && trail[|trail| - 1].startsAt == b.startsAt
  }

  /** The trail is a path of the lifecycle table. */
  predicate Chained(trail: seq<Event>) {
    forall k :: 0 < k < |trail| ==> Follows(trail[k - 1], trail[k])
  }

  predicate Faithful(legal: bool, trail: seq<Event>, b: Booking) {
    Counted(trail, b) && (legal ==> Chained(trail))
  }

  /** What any write of a request does to a row that is already there, legal or not. */
  predicate Rewrites(a: Booking, b: Booking) {
    b == a.(status := b.status, startsAt := b.startsAt, endsAt := b.endsAt, version := a.version + 1)
  }

  /** The step that this kind of event announces. */
  predicate Announces(kind: EventKind, a: Booking, b: Booking) {
    match kind
    case Created => false
    case Rescheduled => a.status == b.status
    case ChangedTo(to) => b.status == to && CanTransition(a.status, to)
  }

  lemma {:induction false} HistoryConcat(a: seq<Event>, b: seq<Event>, id: int)
    ensures History(a + b, id) == History(a, id) + History(b, id)
  {
    if b == [] {
      assert a + b == a;
    } else {
      var n := |b| - 1;
      assert (a + b)[..|a + b| - 1] == a + b[..n];
      HistoryConcat(a, b[..n], id);
    }
  }

  lemma HistoryAppend(a: seq<Event>, e: Event, id: int)
    ensures History(a + [e], id) == History(a, id) + (if e.bookingId == id then [e] else [])
  {
    assert (a + [e])[..|a + [e]| - 1] == a;
  }

  lemma FaithfulStep(legal: bool, trail: seq<Event>, id: int, a: Booking, b: Booking, kind: EventKind)
    requires Faithful(legal, trail, a)
    requires Rewrites(a, b) && kind != Created
    requires legal ==> RowStep(a, b) && Announces(kind, a, b)
    ensures Faithful(legal, trail + [Emitted(id, b, kind)], b)
  {
    if legal { assert Follows(trail[|trail| - 1], Emitted(id, b, kind)); }
  }
}
