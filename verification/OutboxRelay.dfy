/** One relay draining the outbox at a fixed clock with nothing else locked: each batch takes the
    oldest due events out of the due set, and the tick ends. */
module OutboxRelay {
  import opened OutboxDomain

  /** The table in the relay's order. */
  predicate Ordered(rows: seq<Row>) {
    forall i, j :: 0 <= i < j < |rows| ==> Earlier(rows[i], rows[j])
  }

  predicate AllFollowPolicy(rows: seq<Row>) {
    forall e :: e in rows ==> Policy(e)
  }

  /** The due events, oldest first. */
  function DueRows(rows: seq<Row>, now: int): seq<Row> {
    if rows == [] then []
    else DueRows(rows[..|rows| - 1], now) + if Due(rows[|rows| - 1], now) then [rows[|rows| - 1]] else []
  }

  lemma {:induction false} DueRowsAre(rows: seq<Row>, now: int)
    ensures forall e :: e in DueRows(rows, now) <==> e in rows && Due(e, now)
  {
    if rows != [] {
      DueRowsAre(rows[..|rows| - 1], now);
      assert rows == rows[..|rows| - 1] + [rows[|rows| - 1]];
    }
  }

  predicate AllServed(rows: seq<Row>, jobs: set<Job>) {
    forall e :: e in rows ==> Served(jobs, e)
  }

  function Min(a: nat, b: nat): nat {
    if a < b then a else b
  }

  predicate SameEvents(rows: seq<Row>, rows': seq<Row>) {
    |rows'| == |rows| && forall i :: 0 <= i < |rows| ==>
      rows'[i].id == rows[i].id && rows'[i].booking == rows[i].booking && rows'[i].createdAt == rows[i].createdAt
  }

  lemma SameEventsOn(a: seq<Row>, b: seq<Row>, c: seq<Row>)
    requires SameEvents(a, b) && SameEvents(b, c)
    ensures SameEvents(a, c)
  {
  }

  lemma {:induction false} DueSplit(a: seq<Row>, b: seq<Row>, now: int)
    ensures DueRows(a + b, now) == DueRows(a, now) + DueRows(b, now)
  {
    if b == [] {
      assert a + b == a;
    } else {
      var n := |b| - 1;
      assert (a + b)[..|a + b| - 1] == a + b[..n];
      DueSplit(a, b[..n], now);
    }
  }

  lemma DueAt(rows: seq<Row>, i: nat, now: int)
    requires i < |rows|
    ensures DueRows(rows, now) == DueRows(rows[..i], now) + (if Due(rows[i], now) then [rows[i]] else []) + DueRows(rows[i + 1..], now)
  {
    assert rows == (rows[..i] + [rows[i]]) + rows[i + 1..];
    DueSplit(rows[..i] + [rows[i]], rows[i + 1..], now);
    assert (rows[..i] + [rows[i]])[..i] == rows[..i];
  }

  /** Nothing before the oldest due event is due. */
  lemma NoneDueBefore(rows: seq<Row>, i: nat, now: int)
    requires i < |rows| && Ordered(rows) && DueRows(rows, now) != [] && DueRows(rows, now)[0] == rows[i]
    ensures DueRows(rows[..i], now) == []
  {
    DueAt(rows, i, now);
    DueRowsAre(rows[..i], now);
  }

  /** Taking the oldest due event out of the due ones leaves the others in place. */
  lemma DueAfterMark(rows: seq<Row>, i: nat, e': Row, now: int)
    requires i < |rows| && Due(rows[i], now) && !Due(e', now)
    requires DueRows(rows, now) != [] && DueRows(rows, now)[0] == rows[i] && Ordered(rows)
    ensures DueRows(rows[i := e'], now) == DueRows(rows, now)[1..]
  {
    NoneDueBefore(rows, i, now);
    DueAt(rows, i, now);
    DueAt(rows[i := e'], i, now);
    assert rows[i := e'][..i] == rows[..i] && rows[i := e'][i + 1..] == rows[i + 1..];
  }

  lemma MarkKeepsTable(rows: seq<Row>, i: nat, e': Row)
    requires i < |rows| && Ordered(rows) && AllFollowPolicy(rows) && Policy(e')
    requires e'.id == rows[i].id && e'.createdAt == rows[i].createdAt && e'.booking == rows[i].booking
    ensures Ordered(rows[i := e']) && AllFollowPolicy(rows[i := e']) && SameEvents(rows, rows[i := e'])
  {
    var rows' := rows[i := e'];
    forall j, k | 0 <= j < k < |rows'| ensures Earlier(rows'[j], rows'[k]) {
      assert Earlier(rows[j], rows[k]);
    }
  }

  predicate Delivers(e: Row, reach: Row -> nat) {
    !e.booking || reach(e) >= 2
  }

  /** No dispatch of these events fails. */
  predicate AllDeliver(due: seq<Row>, reach: Row -> nat) {
    forall e :: e in due ==> Delivers(e, reach)
  }

  function Count(events: seq<Row>, reach: Row -> nat): nat {
    if events == [] then 0
    else Count(events[..|events| - 1], reach) + if Delivers(events[|events| - 1], reach) then 1 else 0
  }

  lemma {:induction false} CountAll(events: seq<Row>, reach: Row -> nat)
    ensures Count(events, reach) <= |events|
    ensures AllDeliver(events, reach) ==> Count(events, reach) == |events|
  {
    if events != [] { CountAll(events[..|events| - 1], reach); }
  }

  /** The rows of these events are handled, each as its own delivery goes; every other row stays. */
  predicate HandledRows(before: seq<Row>, after: seq<Row>, done: seq<Row>, reach: Row -> nat, now: int) {
    |after| == |before| && forall i :: 0 <= i < |before| ==>
      if before[i] in done then Handled(before[i], after[i], Delivers(before[i], reach), now) else after[i] == before[i]
  }

  /** Handling more due events after some others. */
  lemma HandledRowsCompose(a: seq<Row>, b: seq<Row>, c: seq<Row>, done: seq<Row>, more: seq<Row>, reach: Row -> nat, now: int)
    requires HandledRows(a, b, done, reach, now) && HandledRows(b, c, more, reach, now)
    requires forall e :: e in more ==> Due(e, now)
    ensures HandledRows(a, c, done + more, reach, now)
  {
    forall i | 0 <= i < |a|
      ensures if a[i] in done + more then Handled(a[i], c[i], Delivers(a[i], reach), now) else c[i] == a[i]
    {
      if a[i] in done {
        HandledIsNotDue(a[i], b[i], Delivers(a[i], reach), now);
        assert b[i] !in more;
      }
    }
  }

  /** What full batches leave of the due events. */
  function Left(due: seq<Row>, batches: nat): seq<Row> {
    due[Min(batches * BATCH_SIZE, |due|)..]
  }

  /** What full batches of twenty take. */
  function Taken(due: seq<Row>, batches: nat): seq<Row> {
    due[..Min(batches * 20, |due|)]
  }

  lemma OneBatchLess(due: seq<Row>, batches: nat)
    ensures Left(due, batches)[Min(BATCH_SIZE, |Left(due, batches)|)..] == Left(due, batches + 1)
    ensures Taken(due, batches) + Left(due, batches)[..Min(BATCH_SIZE, |Left(due, batches)|)] == Taken(due, batches + 1)
  {
  }

  lemma RestDelivers(due: seq<Row>, batches: nat, reach: Row -> nat)
    ensures AllDeliver(due, reach) ==> AllDeliver(Left(due, batches), reach)
  {
  }

  class Relay {
    var rows: seq<Row>
    var jobs: set<Job>
    var stopped: bool
    var inFlight: bool
    const now: int

    constructor (rows: seq<Row>, jobs: set<Job>, now: int)
      requires Ordered(rows) && AllFollowPolicy(rows) && AllServed(rows, jobs)
      ensures Valid() && this.rows == rows && this.jobs == jobs && this.now == now && !stopped && !inFlight
    {
      this.rows, this.jobs, this.now, stopped, inFlight := rows, jobs, now, false, false;
    }

    predicate Valid()
      reads this`rows, this`jobs
    {
      Ordered(rows) && AllFollowPolicy(rows) && AllServed(rows, jobs)
    }

    function DueNow(): seq<Row>
      reads this`rows
    {
      DueRows(rows, now)
    }

    method ClaimBatch(limit: nat) returns (events: seq<Row>)
      ensures events == DueNow()[..Min(limit, |DueNow()|)]
    {
      var due := DueRows(rows, now);
      return due[..Min(limit, |due|)];
    }

    /** Replaces the row of this event. */
    method Update(e: Row, e': Row)
      requires Valid() && DueNow() != [] && DueNow()[0] == e
      requires e'.id == e.id && e'.createdAt == e.createdAt && e'.booking == e.booking && Policy(e') && !Due(e', now)
      requires Served(jobs, e')
      modifies this`rows
      ensures Valid() && SameEvents(old(rows), rows) && DueNow() == old(DueNow())[1..]
      ensures forall i :: 0 <= i < |rows| ==> rows[i] == if old(rows)[i] == e then e' else old(rows)[i]
    {
      DueRowsAre(rows, now);
      assert e in DueNow();
      var i :| 0 <= i < |rows| && rows[i] == e;
      MarkKeepsTable(rows, i, e');
      DueAfterMark(rows, i, e', now);
      rows := rows[i := e'];
    }

    /** Both jobs, or an error after either of them. `reached` is how many jobs reach the queue before
        it fails. */
    method Dispatch(e: Row, reached: nat) returns (ok: bool)
      modifies this`jobs
      ensures ok == (!e.booking || reached >= 2)
      ensures old(jobs) <= jobs <= old(jobs) + {Email(e.id), Webhook(e.id)}
      ensures ok && e.booking ==> Email(e.id) in jobs && Webhook(e.id) in jobs
      ensures !e.booking ==> jobs == old(jobs)
    {
      if !e.booking { return true; }
      if reached == 0 { return false; }
      jobs := jobs + {Email(e.id)};
      if reached == 1 { return false; }
      jobs := jobs + {Webhook(e.id)};
      return true;
    }

    /** Dispatches the oldest due event and marks its row accordingly, dispatched or put off or given up:
        either way it is no longer due. */
    method Handle(e: Row, reached: nat) returns (ok: bool)
      requires Valid() && DueNow() != [] && DueNow()[0] == e
      modifies this`rows, this`jobs
      ensures Valid() && SameEvents(old(rows), rows) && DueNow() == old(DueNow())[1..]
      ensures ok == (!e.booking || reached >= 2)
      ensures forall i :: 0 <= i < |rows| ==>
        if old(rows)[i] == e then Handled(e, rows[i], ok, now) else rows[i] == old(rows)[i]
      ensures old(jobs) <= jobs <= old(jobs) + {Email(e.id), Webhook(e.id)}
    {
      DueRowsAre(rows, now);
      assert e in DueNow();
      MarksFollowPolicy(e, now);
      MarksHandle(e, now);
      ok := Dispatch(e, reached);
      Update(e, if ok then MarkDispatched(e) else OutboxDomain.MarkFailed(e, now));
    }

    /** Handles exactly the first min(limit, due) events, each as its own delivery goes, which takes them
        out of the due ones; returns how many were delivered. */
    method ProcessBatch(reach: Row -> nat, limit: nat) returns (dispatched: nat)
      requires Valid()
      modifies this`rows, this`jobs
      ensures Valid() && SameEvents(old(rows), rows)
      ensures DueNow() == old(DueNow())[Min(limit, |old(DueNow())|)..]
      ensures HandledRows(old(rows), rows, old(DueNow())[..Min(limit, |old(DueNow())|)], reach, now)
      ensures dispatched == Count(old(DueNow())[..Min(limit, |old(DueNow())|)], reach)
      ensures old(jobs) <= jobs
    {
      ghost var due := DueNow();
      var events := ClaimBatch(limit);
      dispatched := 0;
      for k := 0 to |events|
        invariant Valid() && SameEvents(old(rows), rows) && old(jobs) <= jobs
        invariant DueNow() == due[k..]
        invariant HandledRows(old(rows), rows, due[..k], reach, now)
        invariant dispatched == Count(due[..k], reach)
      {
        ghost var before := rows;
        assert DueNow()[0] == events[k];
        DueRowsAre(rows, now);
        assert events[k] in DueNow();
        var ok := Handle(events[k], reach(events[k]));
        assert HandledRows(before, rows, [events[k]], reach, now);
        HandledRowsCompose(old(rows), before, rows, due[..k], [events[k]], reach, now);
        assert due[..k + 1] == due[..k] + [events[k]] && due[..k + 1][..k] == due[..k];
        if ok { dispatched := dispatched + 1; }
      }
      assert due[..|events|] == events;
    }

    /** One more full batch of what was due when the tick began. */
    method DrainOne(reach: Row -> nat, ghost start: seq<Row>, ghost due: seq<Row>, ghost batches: nat)
      returns (processed: nat)
      requires Valid() && DueNow() == Left(due, batches)
      requires SameEvents(start, rows) && HandledRows(start, rows, Taken(due, batches), reach, now)
      modifies this`rows, this`jobs
      ensures Valid() && DueNow() == Left(due, batches + 1)
      ensures SameEvents(start, rows) && HandledRows(start, rows, Taken(due, batches + 1), reach, now)
      ensures processed > 0 ==> |DueNow()| < |old(DueNow())|
      ensures AllDeliver(due, reach) && processed == 0 ==> DueNow() == []
    {
      ghost var before := rows;
      ghost var more := DueNow()[..Min(BATCH_SIZE, |DueNow()|)];
      OneBatchLess(due, batches);
      RestDelivers(due, batches, reach);
      DueRowsAre(rows, now);
      CountAll(more, reach);
      processed := ProcessBatch(reach, BATCH_SIZE);
      SameEventsOn(start, before, rows);
      HandledRowsCompose(start, before, rows, Taken(due, batches), more, reach, now);
    }

    /** The poller's tick: batches until one delivers nothing or the relay is stopped, which happens
        here while batch number `stopAt` runs. It always ends, and is then ready for the next; every
        event of its batches is handled as its own delivery goes, and no other; if every delivery
        succeeds and nobody stops it, nothing due is left. */
    method Tick(reach: Row -> nat, stopAt: nat) returns (batches: nat)
      requires Valid()
      modifies this
      ensures Valid() && SameEvents(old(rows), rows)
      ensures
        if old(inFlight) || old(stopped) then
          batches == 0 && rows == old(rows) && jobs == old(jobs) && inFlight == old(inFlight) && stopped == old(stopped)
        else batches > 0 && !inFlight && stopped == (stopAt < batches)
      ensures DueNow() == Left(old(DueNow()), batches)
      ensures HandledRows(old(rows), rows, Taken(old(DueNow()), batches), reach, now)
      ensures !old(inFlight) && !old(stopped) && AllDeliver(old(DueNow()), reach) ==>
        stopped || DueNow() == []
    {
      ghost var start, due, allDeliver := rows, DueNow(), AllDeliver(DueNow(), reach);
      batches := 0;
      if inFlight || stopped { return; }
      inFlight := true;
      var more := true;
      while more
        invariant Valid() && SameEvents(start, rows) && inFlight
        invariant DueNow() == Left(due, batches)
        invariant HandledRows(start, rows, Taken(due, batches), reach, now)
        invariant stopped == (stopAt < batches) && (more ==> !stopped) && (!more ==> batches > 0)
        invariant !more && allDeliver ==> stopped || DueNow() == []
        decreases more, |DueNow()|
      {
        var processed := DrainOne(reach, start, due, batches);
        if batches == stopAt { stopped := true; }
        batches := batches + 1;
        more := processed > 0 && !stopped;
      }
      inFlight := false;
    }
  }
}
