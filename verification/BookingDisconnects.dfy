/** Clients that go away while their handler runs. The middleware then sends ROLLBACK on the request's
    connection, but the handler goes on with that connection until it is released. Row security keeps
    it from reading or writing bookings any more, but outbox events are outside row security: an event
    whose preceding statement was under way is recorded on its own, for work that was undone. */
module BookingDisconnects {
  import opened Wrappers
  import opened BookingDomain
  import opened BookingSlots
  import opened BookingTrail
  import opened Sequences
  import P = BookingProtocol
  import Lifecycle = BookingLifecycle

  /** `db` is the protocol in which a close is a rollback. `closed` holds, for each request that was
      closed, the event that its handler is about to record, if any; `late` is history: the events
      recorded that way. `outbox` is the table that the relay reads. */
  datatype State = State(db: P.State, closed: map<int, Option<Event>>, late: seq<Event>, outbox: seq<Event>)

  datatype Action =
    | Do(step: P.Action)
      /** `reading`: the read-back of the row that was written is under way. */
    | Close(tid: int, reading: bool)
    | LateEmit(tid: int)
    | Release(tid: int)

  const EMPTY := State(P.EMPTY, map[], [], [])

  /** A booking request emits right after its insert. Any other request reads its row back first, which
      fails after the rollback unless it was under way already. */
  function InFlight(t: P.Tx, reading: bool): Option<Event> {
    if P.Owes(t) && (t.req.Book? || reading) then Some(P.NextEvent(t)) else None
  }

  /** The id belongs to a booking that was lost with its event in flight; ids are never drawn twice. */
  predicate Taken(s: State, id: int) {
    || (exists t :: t in s.closed && Creates(s.closed[t], id))
    || (exists k :: 0 <= k < |s.late| && Creates(Some(s.late[k]), id))
  }

  predicate Creates(e: Option<Event>, id: int) {
    e.Some? && e.value.kind == Created && e.value.bookingId == id
  }

  predicate Enabled(s: State, a: P.Action) {
    match a
    case Begin(tid, _, _) => tid !in s.closed
    case Guess(tid, _, _) => tid !in s.closed
    case Insert(_, id) => !Taken(s, id)
    case _ => true
  }

  function Step(s: State, a: Action): State {
    match a
    case Do(step) =>
      if !Enabled(s, step) then s
      else
        s.(db := P.Step(s.db, step),
           outbox := if step.Commit? && P.Step(s.db, step) != s.db then s.outbox + s.db.txs[step.tid].events else s.outbox)
    case Close(tid, reading) =>
      if tid !in s.db.txs then s
      else s.(db := P.Step(s.db, P.Rollback(tid)), closed := s.closed[tid := InFlight(s.db.txs[tid], reading)])
    case LateEmit(tid) =>
      if tid !in s.closed || s.closed[tid].None? then s
      else
        var e := s.closed[tid].value;
        s.(closed := s.closed[tid := None], late := s.late + [e], outbox := s.outbox + [e])
    case Release(tid) => if tid in s.closed then s.(closed := s.closed[tid := None]) else s
  }

  function Run(s: State, actions: seq<Action>): State {
    if actions == [] then s
    else Step(Run(s, actions[..|actions| - 1]), actions[|actions| - 1])
  }

  predicate HonestClients(actions: seq<Action>) {
    forall k :: 0 <= k < |actions| ==> !(actions[k].Do? && actions[k].step.Guess?)
  }

  // ----- a close is a rollback for everything but the outbox -----

  /** The protocol step behind a step, if there is one. */
  function Erased(s: State, a: Action): seq<P.Action> {
    match a
    case Do(step) => if Enabled(s, step) then [step] else []
    case Close(tid, _) => [P.Rollback(tid)]
    case _ => []
  }

  lemma ErasedStep(s: State, a: Action)
    ensures Step(s, a).db == P.Run(s.db, Erased(s, a))
  {
    if Erased(s, a) != [] {
      assert Erased(s, a)[..0] == [];
      assert P.Run(s.db, []) == s.db;
      if a.Close? && a.tid !in s.db.txs { assert s.db.txs - {a.tid} == s.db.txs; }
    }
  }

  /** Tables, transactions and locks are at every moment those of a run of the protocol in which the
      closed requests were rolled back and silent, so all that is proved of its runs holds here. */
  lemma {:induction false} CloseIsRollback(actions: seq<Action>) returns (steps: seq<P.Action>)
    ensures Run(EMPTY, actions).db == P.Run(P.EMPTY, steps)
    ensures HonestClients(actions) ==> Lifecycle.Honest(steps)
  {
    if actions == [] {
      steps := [];
    } else {
      var n := |actions| - 1;
      var s := Run(EMPTY, actions[..n]);
      var before := CloseIsRollback(actions[..n]);
      ErasedStep(s, actions[n]);
      steps := before + Erased(s, actions[n]);
      P.RunJoin(P.EMPTY, before, Erased(s, actions[n]));
    }
  }

  // ----- what every run keeps -----

  ghost predicate DbOk(db: P.State) {
    SlotInv(db) && AllShaped(db) && TrailInv(false, db)
  }

  lemma DbStaysOk(actions: seq<Action>)
    ensures DbOk(Run(EMPTY, actions).db)
  {
    var steps := CloseIsRollback(actions);
    RunKeepsTrail(false, steps);
  }

  /** No booking of this id is there or about to be. */
  predicate Lost(db: P.State, id: int) {
    id !in db.rows && forall t :: t in db.txs ==> id !in db.txs[t].writes
  }

  /** A late `booking.created` is about a booking that was lost, any other about one that is there. */
  predicate LateOk(db: P.State, e: Event) {
    if e.kind == Created then Lost(db, e.bookingId) else e.bookingId in db.rows
  }

  predicate AllLateOk(s: State) {
    && (forall k :: 0 <= k < |s.late| ==> LateOk(s.db, s.late[k]))
    && (forall t :: t in s.closed && s.closed[t].Some? ==> LateOk(s.db, s.closed[t].value))
  }

  /** No lost booking is announced twice. */
  predicate AnnouncedOnce(s: State) {
    && (forall i, j :: 0 <= i < j < |s.late| && s.late[i].kind == Created && s.late[j].kind == Created ==>
          s.late[i].bookingId != s.late[j].bookingId)
    && (forall t, k :: t in s.closed && 0 <= k < |s.late| && s.late[k].kind == Created ==>
          !Creates(s.closed[t], s.late[k].bookingId))
    && (forall t, u :: t in s.closed && u in s.closed && t != u && s.closed[t].Some? && s.closed[t].value.kind == Created ==>
          !Creates(s.closed[u], s.closed[t].value.bookingId))
  }

  predicate ClosedAreGone(s: State) {
    forall t :: t in s.closed ==> t !in s.db.txs
  }

  predicate LateInv(s: State) {
    && ClosedAreGone(s) && Interleaves(s.db.events, s.late, s.outbox)
    && AllLateOk(s) && AnnouncedOnce(s)
  }

  lemma StepKeepsRows(db: P.State, a: P.Action, id: int)
    requires id in db.rows
    ensures id in P.Step(db, a).rows
  {
  }

  lemma StepKeepsLost(db: P.State, a: P.Action, id: int)
    requires Lost(db, id) && (a.Insert? ==> a.id != id)
    ensures Lost(P.Step(db, a), id)
  {
  }

  lemma StepEvents(db: P.State, a: P.Action)
    ensures P.Step(db, a).events
      == if a.Commit? && P.Step(db, a) != db then db.events + db.txs[a.tid].events else db.events
  {
  }

  lemma StepStarts(db: P.State, a: P.Action, t: int)
    requires t !in db.txs && !(a.Begin? && a.tid == t) && !(a.Guess? && a.tid == t)
    ensures t !in P.Step(db, a).txs
  {
  }

  lemma DbStepKeepsLateOk(s: State, a: P.Action)
    requires LateInv(s) && Enabled(s, a)
    ensures AllLateOk(s.(db := P.Step(s.db, a)))
  {
    var db' := P.Step(s.db, a);
    forall e: Event | LateOk(s.db, e) && (a.Insert? && e.kind == Created ==> e.bookingId != a.id) ensures LateOk(db', e) {
      if e.kind == Created { StepKeepsLost(s.db, a, e.bookingId); } else { StepKeepsRows(s.db, a, e.bookingId); }
    }
    forall k | 0 <= k < |s.late| ensures LateOk(db', s.late[k]) {
      assert LateOk(s.db, s.late[k]) && Creates(Some(s.late[k]), s.late[k].bookingId) == (s.late[k].kind == Created);
    }
    forall t | t in s.closed && s.closed[t].Some? ensures LateOk(db', s.closed[t].value) {
      assert Creates(s.closed[t], s.closed[t].value.bookingId) == (s.closed[t].value.kind == Created);
    }
  }

  lemma DoKeepsLate(s: State, a: P.Action)
    requires LateInv(s)
    ensures LateInv(Step(s, Do(a)))
  {
    if Enabled(s, a) {
      var s' := Step(s, Do(a));
      DbStepKeepsLateOk(s, a);
      StepEvents(s.db, a);
      if s'.outbox != s.outbox { AppendAllLeft(s.db.events, s.late, s.outbox, s.db.txs[a.tid].events); }
      forall t | t in s.closed ensures t !in s'.db.txs { StepStarts(s.db, a, t); }
      assert AnnouncedOnce(s');
      if s'.outbox == s.outbox { assert Interleaves(s'.db.events, s'.late, s'.outbox) by { NothingAppended(s, a); } }
    }
  }

  lemma NothingAppended(s: State, a: P.Action)
    requires LateInv(s) && Enabled(s, a) && Step(s, Do(a)).outbox == s.outbox
    ensures Step(s, Do(a)).db.events == s.db.events
  {
    StepEvents(s.db, a);
    if a.Commit? && P.Step(s.db, a) != s.db {
      assert |s.outbox + s.db.txs[a.tid].events| == |s.outbox|;
      assert s.db.events + s.db.txs[a.tid].events == s.db.events;
    }
  }

  /** The event in flight at a close: of a booking that is lost with it, or of a row that is there. */
  lemma InFlightIsLate(s: State, tid: int, reading: bool)
    requires DbOk(s.db) && tid in s.db.txs && InFlight(s.db.txs[tid], reading).Some?
    ensures
      var e := InFlight(s.db.txs[tid], reading).value;
      && LateOk(P.Step(s.db, P.Rollback(tid)), e)
      && (e.kind == Created <==> s.db.txs[tid].req.Book?) && !Lost(s.db, e.bookingId)
  {
    var t := s.db.txs[tid];
    assert Shaped(s.db.rows, t.req, t.owed[0], t.writes[t.owed[0]]);
  }

  lemma CaughtIsNew(s: State, tid: int, reading: bool)
    requires LateInv(s) && DbOk(s.db) && tid in s.db.txs
    ensures AnnouncedOnce(Step(s, Close(tid, reading)))
  {
    var e := InFlight(s.db.txs[tid], reading);
    if e.Some? {
      InFlightIsLate(s, tid, reading);
      forall k | 0 <= k < |s.late| && s.late[k].kind == Created ensures !Creates(e, s.late[k].bookingId) {
        assert LateOk(s.db, s.late[k]);
      }
      forall t | t in s.closed && s.closed[t].Some? && s.closed[t].value.kind == Created
        ensures s.closed[t].value.bookingId != e.value.bookingId
      {
        assert LateOk(s.db, s.closed[t].value);
      }
    }
  }

  lemma CloseKeepsLate(s: State, tid: int, reading: bool)
    requires LateInv(s) && DbOk(s.db)
    ensures LateInv(Step(s, Close(tid, reading)))
  {
    if tid in s.db.txs {
      DbStepKeepsLateOk(s, P.Rollback(tid));
      CaughtIsNew(s, tid, reading);
      if InFlight(s.db.txs[tid], reading).Some? { InFlightIsLate(s, tid, reading); }
    }
  }

  lemma LateEmitKeepsLate(s: State, tid: int)
    requires LateInv(s)
    ensures LateInv(Step(s, LateEmit(tid)))
  {
    if tid in s.closed && s.closed[tid].Some? {
      AppendRight(s.db.events, s.late, s.outbox, s.closed[tid].value);
      var s' := Step(s, LateEmit(tid));
      assert AllLateOk(s');
      assert AnnouncedOnce(s');
    }
  }

  lemma StepKeepsLate(s: State, a: Action)
    requires LateInv(s) && DbOk(s.db)
    ensures LateInv(Step(s, a))
  {
    match a
    case Do(step) => DoKeepsLate(s, step);
    case Close(tid, reading) => CloseKeepsLate(s, tid, reading);
    case LateEmit(tid) => LateEmitKeepsLate(s, tid);
    case Release(tid) =>
  }

  lemma {:induction false} RunKeepsLate(actions: seq<Action>)
    ensures LateInv(Run(EMPTY, actions))
  {
    if actions != [] {
      RunKeepsLate(actions[..|actions| - 1]);
      DbStaysOk(actions[..|actions| - 1]);
      StepKeepsLate(Run(EMPTY, actions[..|actions| - 1]), actions[|actions| - 1]);
    }
  }

  // ----- what that means for the outbox -----

  lemma HistoryGrowsLeft(a: seq<Event>, b: seq<Event>, c: seq<Event>, e: Event, id: int)
    requires Interleaves(History(a, id), History(b, id), History(c, id))
    ensures Interleaves(History(a + [e], id), History(b, id), History(c + [e], id))
  {
    HistoryAppend(a, e, id);
    HistoryAppend(c, e, id);
    AppendLeft(History(a, id), History(b, id), History(c, id), e);
    assert History(a, id) + [] == History(a, id) && History(c, id) + [] == History(c, id);
  }

  lemma HistoryGrowsRight(a: seq<Event>, b: seq<Event>, c: seq<Event>, e: Event, id: int)
    requires Interleaves(History(a, id), History(b, id), History(c, id))
    ensures Interleaves(History(a, id), History(b + [e], id), History(c + [e], id))
  {
    HistoryAppend(b, e, id);
    HistoryAppend(c, e, id);
    AppendRight(History(a, id), History(b, id), History(c, id), e);
    assert History(b, id) + [] == History(b, id) && History(c, id) + [] == History(c, id);
  }

  lemma {:induction false} HistoryInterleaves(a: seq<Event>, b: seq<Event>, c: seq<Event>, id: int)
    requires Interleaves(a, b, c)
    ensures Interleaves(History(a, id), History(b, id), History(c, id))
    decreases |c|
  {
    if c != [] {
      var n := |c| - 1;
      assert c == c[..n] + [c[n]];
      if a != [] && a[|a| - 1] == c[n] && Interleaves(a[..|a| - 1], b, c[..n]) {
        assert a == a[..|a| - 1] + [c[n]];
        HistoryInterleaves(a[..|a| - 1], b, c[..n], id);
        HistoryGrowsLeft(a[..|a| - 1], b, c[..n], c[n], id);
      } else {
        assert b == b[..|b| - 1] + [c[n]];
        HistoryInterleaves(a, b[..|b| - 1], c[..n], id);
        HistoryGrowsRight(a, b[..|b| - 1], c[..n], c[n], id);
      }
    }
  }

  lemma {:induction false} HistoryIsOf(events: seq<Event>, id: int)
    ensures forall e :: e in History(events, id) ==> e in events && e.bookingId == id
  {
    if events != [] {
      HistoryIsOf(events[..|events| - 1], id);
      assert events == events[..|events| - 1] + [events[|events| - 1]];
    }
  }

  lemma {:induction false} OnlyOne(events: seq<Event>, id: int)
    requires forall i, j :: 0 <= i < j < |events| ==> events[i].bookingId != id || events[j].bookingId != id
    ensures |History(events, id)| <= 1
  {
    if events != [] {
      var n := |events| - 1;
      var before := History(events[..n], id);
      OnlyOne(events[..n], id);
      HistoryIsOf(events[..n], id);
      forall e | e in before ensures events[n].bookingId != id {
        var k :| 0 <= k < n && events[k] == e;
      }
      assert before != [] ==> before[0] in before;
    }
  }

  /** What the relay finds of one booking: its trail with the late events merged in. A booking that is
      there has its exact trail if and only if no event of it came late. */
  lemma TrailIsExactUnlessLate(actions: seq<Action>, id: int)
    requires id in Run(EMPTY, actions).db.rows
    ensures
      var s := Run(EMPTY, actions);
      && Counted(History(s.db.events, id), s.db.rows[id])
      && Interleaves(History(s.db.events, id), History(s.late, id), History(s.outbox, id))
      && (Counted(History(s.outbox, id), s.db.rows[id]) <==> History(s.late, id) == [])
      && (forall e :: e in History(s.late, id) ==> e.kind != Created)
  {
    RunKeepsLate(actions);
    DbStaysOk(actions);
    var s := Run(EMPTY, actions);
    assert RowTrail(false, s.db.rows, s.db.events, id);
    HistoryInterleaves(s.db.events, s.late, s.outbox, id);
    InterleavingFacts(History(s.db.events, id), History(s.late, id), History(s.outbox, id));
    HistoryIsOf(s.late, id);
    forall e | e in History(s.late, id) ensures e.kind != Created {
      var k :| 0 <= k < |s.late| && s.late[k] == e;
      assert LateOk(s.db, s.late[k]);
    }
  }

  /** Of a booking that is not there the relay finds at most one event, a late `booking.created`. */
  lemma LostBookingsHaveOneEvent(actions: seq<Action>, id: int)
    requires id !in Run(EMPTY, actions).db.rows
    ensures
      var s := Run(EMPTY, actions);
      && History(s.outbox, id) == History(s.late, id) && |History(s.late, id)| <= 1
      && forall e :: e in History(s.late, id) ==> e.kind == Created
  {
    RunKeepsLate(actions);
    DbStaysOk(actions);
    var s := Run(EMPTY, actions);
    assert RowTrail(false, s.db.rows, s.db.events, id);
    HistoryInterleaves(s.db.events, s.late, s.outbox, id);
    InterleavingFacts(History(s.db.events, id), History(s.late, id), History(s.outbox, id));
    HistoryIsOf(s.late, id);
    forall k | 0 <= k < |s.late| && s.late[k].bookingId == id ensures s.late[k].kind == Created {
      assert LateOk(s.db, s.late[k]);
    }
    OnlyOne(s.late, id);
  }

  /** No close came while a row was being read back. */
  predicate NoReadCaught(actions: seq<Action>) {
    forall k :: 0 <= k < |actions| ==> !(actions[k].Close? && actions[k].reading)
  }

  predicate OnlyCreations(s: State) {
    && (forall k :: 0 <= k < |s.late| ==> s.late[k].kind == Created)
    && (forall t :: t in s.closed && s.closed[t].Some? ==> s.closed[t].value.kind == Created)
  }

  lemma StepKeepsCreations(s: State, a: Action)
    requires OnlyCreations(s) && !(a.Close? && a.reading)
    ensures OnlyCreations(Step(s, a))
  {
    if a.Close? && a.tid in s.db.txs && s.db.txs[a.tid].req.Book? {
      assert P.KindOf(s.db.txs[a.tid].req) == Created;
    }
  }

  lemma {:induction false} OnlyCreationsCaught(actions: seq<Action>)
    requires NoReadCaught(actions)
    ensures OnlyCreations(Run(EMPTY, actions))
  {
    if actions != [] {
      var n := |actions| - 1;
      forall k | 0 <= k < n ensures !(actions[..n][k].Close? && actions[..n][k].reading) {
        assert actions[..n][k] == actions[k];
      }
      OnlyCreationsCaught(actions[..n]);
      StepKeepsCreations(Run(EMPTY, actions[..n]), actions[n]);
    }
  }

  lemma CreationsInHistory(events: seq<Event>, id: int)
    requires forall k :: 0 <= k < |events| ==> events[k].kind == Created
    ensures History(events, id) != [] ==> exists e :: e in History(events, id) && e.kind == Created
  {
    HistoryIsOf(events, id);
    if History(events, id) != [] {
      var e := History(events, id)[0];
      assert e in History(events, id) && e in events;
    }
  }

  /** Closes that catch an insert in flight leave every committed booking with its exact trail. */
  lemma CaughtInsertsSpareCommitted(actions: seq<Action>, id: int)
    requires NoReadCaught(actions) && id in Run(EMPTY, actions).db.rows
    ensures Counted(History(Run(EMPTY, actions).outbox, id), Run(EMPTY, actions).db.rows[id])
  {
    OnlyCreationsCaught(actions);
    CreationsInHistory(Run(EMPTY, actions).late, id);
    TrailIsExactUnlessLate(actions, id);
  }

  // ----- exactly which closes do harm -----

  /** This step records the event that the request's close had caught in flight. */
  predicate Records(s: State, tid: int) {
    Step(s, LateEmit(tid)).outbox != s.outbox
  }

  ghost predicate RecordsLater(s: State, tid: int) {
    exists more: seq<Action> :: Records(Run(s, more), tid)
  }

  lemma {:induction false} NothingLeft(s: State, more: seq<Action>, tid: int)
    requires tid in s.closed && s.closed[tid].None? && tid !in s.db.txs
    ensures
      var s' := Run(s, more);
      tid in s'.closed && s'.closed[tid].None? && tid !in s'.db.txs
  {
    if more != [] {
      var s' := Run(s, more[..|more| - 1]);
      NothingLeft(s, more[..|more| - 1], tid);
      if more[|more| - 1].Do? && Enabled(s', more[|more| - 1].step) {
        StepStarts(s'.db, more[|more| - 1].step, tid);
      }
    }
  }

  /** The exact condition: after a close some continuation records an event for the work it undid if
      and only if the request had a row written whose event was still owed, and either it was a
      booking request or the read-back of that row was under way. */
  lemma CloseRecordsLateExactly(s: State, tid: int, reading: bool)
    requires tid in s.db.txs
    ensures RecordsLater(Step(s, Close(tid, reading)), tid)
      <==> P.Owes(s.db.txs[tid]) && (s.db.txs[tid].req.Book? || reading)
  {
    var s' := Step(s, Close(tid, reading));
    if InFlight(s.db.txs[tid], reading).Some? {
      assert Records(Run(s', []), tid);
    } else {
      forall more: seq<Action> ensures !Records(Run(s', more), tid) {
        NothingLeft(s', more, tid);
      }
    }
  }

  /** A closed request records at most one event, and none after its connection was released. */
  lemma ReleaseSilences(actions: seq<Action>, tid: int)
    requires tid in Run(EMPTY, actions).closed
    ensures !RecordsLater(Step(Run(EMPTY, actions), Release(tid)), tid)
    ensures !RecordsLater(Step(Run(EMPTY, actions), LateEmit(tid)), tid)
  {
    RunKeepsLate(actions);
    var s := Run(EMPTY, actions);
    forall more: seq<Action> ensures !Records(Run(Step(s, Release(tid)), more), tid) {
      NothingLeft(Step(s, Release(tid)), more, tid);
    }
    forall more: seq<Action> ensures !Records(Run(Step(s, LateEmit(tid)), more), tid) {
      NothingLeft(Step(s, LateEmit(tid)), more, tid);
    }
  }

  /** One booking request, its row inserted and its event still owed. */
  const BOOKING := P.Book(1, 1, 1, 0, [P.Slot(0, 1)], None, false)

  const INSERTED: seq<Action> := [Do(P.Begin(1, 1, BOOKING))] + [Do(P.Insert(1, 7))]

  lemma InsertedOwes()
    ensures
      var s := Run(EMPTY, INSERTED);
      1 in s.db.txs && P.Owes(s.db.txs[1]) && s.db.txs[1].req == BOOKING && s.db.txs[1].owed == [7] && s.outbox == []
  {
    var s1 := Step(EMPTY, Do(P.Begin(1, 1, BOOKING)));
    assert P.View(s1.db, s1.db.txs[1]) == map[];
    assert [Do(P.Begin(1, 1, BOOKING))][..0] == [];
    assert Run(EMPTY, [Do(P.Begin(1, 1, BOOKING))]) == s1;
    assert INSERTED[..1] == [Do(P.Begin(1, 1, BOOKING))];
    assert Run(EMPTY, INSERTED) == Step(s1, Do(P.Insert(1, 7)));
    assert [] + [7] == [7];
  }

  /** A client books and goes away while the INSERT is in flight: the relay finds `booking.created` for
      a booking that does not exist. */
  lemma LostBookingIsAnnounced()
    ensures
      var s := Step(Step(Run(EMPTY, INSERTED), Close(1, false)), LateEmit(1));
      7 !in s.db.rows && |s.outbox| == 1 && s.outbox[0].bookingId == 7 && s.outbox[0].kind == Created
  {
    InsertedOwes();
    var s := Run(EMPTY, INSERTED);
    DbStaysOk(INSERTED);
    InFlightIsLate(s, 1, false);
    assert [] + [P.NextEvent(s.db.txs[1])] == [P.NextEvent(s.db.txs[1])];
  }

  /** A client changes a booking and goes away while the row is being read back: the booking keeps its
      status and version, and the relay finds the event of the change all the same. */
  lemma UndoneChangeIsAnnounced(s: State, tid: int)
    requires tid in s.db.txs && P.Owes(s.db.txs[tid]) && s.db.txs[tid].req.Change?
    ensures
      var s', t := Step(Step(s, Close(tid, true)), LateEmit(tid)), s.db.txs[tid];
      && s'.db.rows == s.db.rows && s'.db.events == s.db.events
      && s'.outbox == s.outbox + [P.NextEvent(t)] && P.NextEvent(t).kind == ChangedTo(t.req.to)
  {
  }
}
