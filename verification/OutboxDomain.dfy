/** Outbox events as rows: status, attempts and the exponential backoff between them. */
module OutboxDomain {
  const BATCH_SIZE := 20
  const MAX_ATTEMPTS := 5
  const BACKOFF_BASE_MS := 30_000

  datatype OutboxStatus = Pending | Dispatched | Dead

  /** `waits` is history: the delays scheduled for this event so far. */
  datatype Row = Row(
    id: int, booking: bool, createdAt: int, status: OutboxStatus, attempts: nat, availableAt: int, waits: seq<int>)

  datatype Job = Email(event: int) | Webhook(event: int)

  /** Both jobs of a booking event are in the queue. */
  predicate Enqueued(jobs: set<Job>, e: Row) {
    e.booking ==> Email(e.id) in jobs && Webhook(e.id) in jobs
  }

  predicate Served(jobs: set<Job>, e: Row) {
    e.status == Dispatched ==> Enqueued(jobs, e)
  }

  predicate Due(e: Row, now: int) {
    e.status == Pending && e.availableAt <= now
  }

  /** The relay's order: by creation, the id breaks ties. */
  predicate Earlier(a: Row, b: Row) {
    a.createdAt < b.createdAt || (a.createdAt == b.createdAt && a.id < b.id)
  }

  /** Any two events have their order, by creation first. */
  lemma EarlierIsAnOrder(a: Row, b: Row, c: Row)
    ensures Earlier(a, b) ==> a.createdAt <= b.createdAt && !Earlier(b, a)
    ensures a.id != b.id ==> Earlier(a, b) || Earlier(b, a)
    ensures Earlier(a, b) && Earlier(b, c) ==> Earlier(a, c)
    ensures a.createdAt == b.createdAt && Earlier(a, b) ==> a.id < b.id
  {
  }

  function New(id: int, booking: bool, createdAt: int): Row {
    Row(id, booking, createdAt, Pending, 0, createdAt, [])
  }

  function Pow2(n: nat): int {
    if n == 0 then 1 else 2 * Pow2(n - 1)
  }

  function MarkDispatched(e: Row): Row {
    e.(status := Dispatched)
  }

  function MarkFailed(e: Row, now: int): Row {
    var attempts := e.attempts + 1;
    if attempts >= MAX_ATTEMPTS then e.(attempts := attempts, status := Dead)
    else
      var wait := BACKOFF_BASE_MS * Pow2(attempts - 1);
      e.(attempts := attempts, availableAt := now + wait, waits := e.waits + [wait])
  }

  /** What handling one event does to its row: a delivered one is dispatched and otherwise as it was; a
      failed one has one more attempt, and is given up at the fifth or else put off, from the moment of
      the failure, by 30 s doubled for each failure before. */
  predicate Handled(e: Row, e': Row, delivered: bool, at: int) {
    && e'.id == e.id && e'.booking == e.booking && e'.createdAt == e.createdAt
    && if delivered then
         e'.status == Dispatched && e'.attempts == e.attempts && e'.availableAt == e.availableAt && e'.waits == e.waits
       else if e.attempts >= 4 then
         e'.status == Dead && e'.attempts == e.attempts + 1 && e'.availableAt == e.availableAt && e'.waits == e.waits
       else
         && e'.status == e.status && e'.attempts == e.attempts + 1
         && e'.availableAt == at + 30_000 * Pow2(e.attempts) && e'.waits == e.waits + [e'.availableAt - at]
  }

  lemma MarksHandle(e: Row, now: int)
    ensures Handled(e, MarkDispatched(e), true, now) && Handled(e, MarkFailed(e, now), false, now)
  {
  }

  lemma HandledIsNotDue(e: Row, e': Row, delivered: bool, now: int)
    requires Handled(e, e', delivered, now)
    ensures !Due(e', now)
  {
    Pow2Positive(e.attempts);
  }

  function Sum(xs: seq<int>): int {
    if xs == [] then 0 else Sum(xs[..|xs| - 1]) + xs[|xs| - 1]
  }

  /** The retry policy: one wait after each failure but the last, doubling from the base, so the
      waits after `n` failures add up to base · (2^n - 1). */
  predicate Policy(e: Row) {
    && e.attempts <= MAX_ATTEMPTS
    && (e.status == Dead <==> e.attempts == MAX_ATTEMPTS)
    && |e.waits| == (if e.attempts < MAX_ATTEMPTS then e.attempts else MAX_ATTEMPTS - 1)
    && (forall k :: 0 <= k < |e.waits| ==> e.waits[k] == BACKOFF_BASE_MS * Pow2(k))
    && Sum(e.waits) == BACKOFF_BASE_MS * (Pow2(|e.waits|) - 1)
  }

  lemma NewFollowsPolicy(id: int, booking: bool, createdAt: int)
    ensures Policy(New(id, booking, createdAt))
  {
  }

  /** Both outcomes of a delivery keep the policy and take the event out of the due ones. */
  lemma MarksFollowPolicy(e: Row, now: int)
    requires Policy(e) && e.status == Pending
    ensures Policy(MarkDispatched(e)) && !Due(MarkDispatched(e), now)
    ensures Policy(MarkFailed(e, now)) && !Due(MarkFailed(e, now), now)
  {
    var e' := MarkFailed(e, now);
    if e.attempts + 1 < MAX_ATTEMPTS {
      Pow2Positive(e.attempts);
      assert e'.waits[..|e'.waits| - 1] == e.waits;
    }
  }

  lemma Pow2Positive(n: nat)
    ensures Pow2(n) >= 1
  {
  }

  lemma DeadRowWaited(e: Row)
    requires Policy(e) && e.status == Dead
    ensures e.attempts == 5 && Sum(e.waits) == 450_000 == BACKOFF_BASE_MS * (Pow2(4) - 1)
    ensures e.waits == [30_000, 60_000, 120_000, 240_000]
  {
    assert Pow2(1) == 2 && Pow2(2) == 4;
    assert Pow2(3) == 8 && Pow2(4) == 16;
  }
}
