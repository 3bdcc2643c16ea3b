/** Conservation between bookings and their outbox events, over every run: creation, status change,
    reschedule, series cancellation, skipped occurrences and rolled-back requests. The proofs serve
    two claims at once: `legal` asks, of honest runs, that each trail is a path of the lifecycle. */
module BookingTrail {
  import opened Sequences
  import opened BookingDomain
  import opened BookingProtocol
  import opened BookingSlots
  import opened BookingLifecycle

  /** A pending write rewrites a committed row, or makes a new one for a booking request. */
  predicate Shaped(rows: Rows, req: Request, id: int, b: Booking) {
    if id in rows then !req.Book? && Rewrites(rows[id], b) else req.Book? && b.version == 1 && b.status == Pending
  }

  predicate AllShaped(s: State) {
    forall t, id :: t in s.txs && id in s.txs[t].writes ==> Shaped(s.rows, s.txs[t].req, id, s.txs[t].writes[id])
  }

  /** A committed booking has a faithful event trail; an id without a booking has no event. */
  predicate RowTrail(legal: bool, rows: Rows, events: seq<Event>, id: int) {
    if id in rows then Faithful(legal, History(events, id), rows[id]) else History(events, id) == []
  }

  /** The same inside a transaction: a row that was not written has no event there, a row whose
      event is still owed has none yet, and any other written row has its trail completed. */
  predicate TxTrail(legal: bool, s: State, t: Tx, id: int) {
    if id !in t.writes then id !in t.owed && History(t.events, id) == []
    else if id in t.owed then History(t.events, id) == [] && (id in s.rows || t.req.Book?)
    else Faithful(legal, History(s.events, id) + History(t.events, id), t.writes[id])
  }

  ghost predicate TrailInv(legal: bool, s: State) {
    && (forall id :: RowTrail(legal, s.rows, s.events, id))
    && (forall t, id :: t in s.txs ==> TxTrail(legal, s, s.txs[t], id))
    && (forall t :: t in s.txs ==> NoRepeats(s.txs[t].owed))
  }

  /** Replacing one transaction keeps the invariant if that transaction keeps its own part of it. */
  lemma SetTxKeepsTrail(legal: bool, s: State, tid: int, t: Tx)
    requires TrailInv(legal, s)
    requires NoRepeats(t.owed)
    requires forall id :: TxTrail(legal, s, t, id)
    ensures TrailInv(legal, SetTx(s, tid, t))
  {
    var s' := SetTx(s, tid, t);
    forall u, i | u in s'.txs ensures TxTrail(legal, s', s'.txs[u], i) {
      if u == tid { assert TxTrail(legal, s, t, i); } else { assert TxTrail(legal, s, s.txs[u], i); }
    }
  }

  lemma WriteKeepsTrail(legal: bool, s: State, tid: int, id: int, b: Booking, next: Phase, onConflict: Phase)
    requires TrailInv(legal, s) && tid in s.txs
    requires id !in s.txs[tid].writes && (id in s.rows || s.txs[tid].req.Book?)
    ensures TrailInv(legal, Write(s, tid, id, b, next, onConflict))
  {
    var t := s.txs[tid];
    if SettledConflict(s, tid, id, b) {
      SetPhaseKeepsTrail(legal, s, tid, onConflict);
    } else if !PendingConflict(s, tid, id, b) {
      var t' := t.(phase := next, writes := t.writes[id := b], owed := t.owed + [id]);
      assert TxTrail(legal, s, t, id);
      forall i ensures TxTrail(legal, s, t', i) {
        assert TxTrail(legal, s, t, i);
        assert i in t'.owed <==> i in t.owed || i == id;
      }
      SetTxKeepsTrail(legal, s, tid, t');
    }
  }

  lemma UpdateKeepsTrail(legal: bool, s: State, tid: int)
    requires TrailInv(legal, s) && tid in s.txs && PhaseOk(s.txs[tid])
    ensures TrailInv(legal, DoUpdate(s, tid))
  {
    var t := s.txs[tid];
    var s' := DoUpdate(s, tid);
    if s' == s {
    } else if !Visible(s.rows, t.tenant, t.req.id) || s.rows[t.req.id].version != t.req.version {
      SetPhaseKeepsTrail(legal, s, tid, Failed);
    } else {
      WriteKeepsTrail(legal, s, tid, t.req.id, Updated(t.req, s.rows[t.req.id]), Applied, Failed);
    }
  }

  lemma SetPhaseKeepsTrail(legal: bool, s: State, tid: int, phase: Phase)
    requires TrailInv(legal, s) && tid in s.txs
    ensures TrailInv(legal, SetTx(s, tid, s.txs[tid].(phase := phase)))
  {
    var t := s.txs[tid];
    forall i ensures TxTrail(legal, s, t.(phase := phase), i) { assert TxTrail(legal, s, t, i); }
    SetTxKeepsTrail(legal, s, tid, t.(phase := phase));
  }

  lemma InsertKeepsTrail(legal: bool, s: State, tid: int, id: int)
    requires TrailInv(legal, s) && tid in s.txs
    ensures TrailInv(legal, DoInsert(s, tid, id))
  {
    var t := s.txs[tid];
    if DoInsert(s, tid, id) != s {
      var next := Inserting(t.phase.next + 1);
      WriteKeepsTrail(legal, s, tid, id, Fresh(t, t.req.slots[t.phase.next]), next, if t.req.skip then next else Failed);
    }
  }

  lemma SweepKeepsTrail(legal: bool, s: State, tid: int, id: int)
    requires TrailInv(legal, s) && tid in s.txs && PhaseOk(s.txs[tid])
    ensures TrailInv(legal, DoSweep(s, tid, id))
  {
    var t := s.txs[tid];
    if DoSweep(s, tid, id) == s {
    } else if id in s.rows && InSeries(s.rows[id], t.tenant, t.req.recurrence, t.req.now) {
      WriteKeepsTrail(legal, s, tid, id, WithStatus(s.rows[id], Cancelled), Sweeping(t.phase.left - {id}), Failed);
    } else {
      SetPhaseKeepsTrail(legal, s, tid, Sweeping(t.phase.left - {id}));
    }
  }

  lemma EmitKeepsTrail(legal: bool, s: State, tid: int)
    requires TrailInv(legal, s) && AllShaped(s) && tid in s.txs
    requires legal ==> WritesOk(s.rows, s.txs[tid])
    ensures TrailInv(legal, DoEmit(s, tid))
  {
    var t := s.txs[tid];
    if DoEmit(s, tid) != s {
      var id := t.owed[0];
      var e := Emitted(id, t.writes[id], KindOf(t.req));
      assert TxTrail(legal, s, t, id) && RowTrail(legal, s.rows, s.events, id);
      EmitCompletesTrail(legal, s, t, e);
      forall i ensures TxTrail(legal, s, AfterEmit(t, e), i) {
        assert TxTrail(legal, s, t, i);
        if i != id { EmitLeavesOthers(legal, s, t, e, i); }
      }
      SetTxKeepsTrail(legal, s, tid, AfterEmit(t, e));
    }
  }

  function AfterEmit(t: Tx, e: Event): Tx
    requires t.owed != []
  {
    t.(events := t.events + [e], owed := t.owed[1..])
  }

  lemma EmitLeavesOthers(legal: bool, s: State, t: Tx, e: Event, i: int)
    requires t.owed != [] && i != t.owed[0] && e.bookingId == t.owed[0]
    requires TxTrail(legal, s, t, i)
    ensures TxTrail(legal, s, AfterEmit(t, e), i)
  {
    HistoryAppend(t.events, e, i);
    assert History(t.events + [e], i) == History(t.events, i);
    assert t.owed == [t.owed[0]] + t.owed[1..];
  }

  lemma OwedOnce(owed: seq<int>)
    requires owed != [] && NoRepeats(owed)
    ensures owed[0] !in owed[1..]
  {
    forall k | 0 <= k < |owed| - 1 ensures owed[1..][k] != owed[0] {
      assert owed[0] != owed[k + 1];
    }
  }

  /** What was written and has no event yet gets its one event. */
  lemma EventCompletesTrail(legal: bool, rows: Rows, trail: seq<Event>, req: Request, id: int, b: Booking)
    requires if id in rows then Faithful(legal, trail, rows[id]) else trail == []
    requires Shaped(rows, req, id, b) && (legal ==> WriteOk(rows, req, id, b))
    ensures Faithful(legal, trail + [Emitted(id, b, KindOf(req))], b)
  {
    if id in rows {
      FaithfulStep(legal, trail, id, rows[id], b, KindOf(req));
    } else {
      assert trail + [Emitted(id, b, KindOf(req))] == [Emitted(id, b, KindOf(req))];
    }
  }

  lemma EmitCompletesTrail(legal: bool, s: State, t: Tx, e: Event)
    requires t.owed != [] && NoRepeats(t.owed) && TxTrail(legal, s, t, t.owed[0]) && RowTrail(legal, s.rows, s.events, t.owed[0])
    requires t.owed[0] in t.writes && Shaped(s.rows, t.req, t.owed[0], t.writes[t.owed[0]])
    requires legal ==> WriteOk(s.rows, t.req, t.owed[0], t.writes[t.owed[0]])
    requires e == Emitted(t.owed[0], t.writes[t.owed[0]], KindOf(t.req))
    ensures t.owed[0] !in t.owed[1..]
    ensures Faithful(legal, History(s.events, t.owed[0]) + History(t.events + [e], t.owed[0]), t.writes[t.owed[0]])
  {
    var id := t.owed[0];
    OwedOnce(t.owed);
    HistoryAppend(t.events, e, id);
    assert [] + [e] == [e];
    assert History(t.events + [e], id) == [e];
    EventCompletesTrail(legal, s.rows, History(s.events, id), t.req, id, t.writes[id]);
  }

  lemma CommitKeepsTrail(legal: bool, s: State, tid: int)
    requires TrailInv(legal, s) && tid in s.txs && LocksExclusive(s)
    ensures TrailInv(legal, DoCommit(s, tid))
  {
    var t := s.txs[tid];
    var s' := DoCommit(s, tid);
    if s' != s {
      forall id ensures RowTrail(legal, s'.rows, s'.events, id) {
        assert RowTrail(legal, s.rows, s.events, id) && TxTrail(legal, s, t, id);
        HistoryConcat(s.events, t.events, id);
        assert History(s.events, id) + [] == History(s.events, id);
      }
      forall u, id | u in s'.txs ensures TxTrail(legal, s', s'.txs[u], id) {
        assert TxTrail(legal, s, s.txs[u], id) && TxTrail(legal, s, t, id);
        HistoryConcat(s.events, t.events, id);
        assert History(s.events, id) + [] == History(s.events, id);
      }
    }
  }

  lemma BeginKeepsTrail(legal: bool, s: State, tid: int, tenant: int, req: Request)
    requires TrailInv(legal, s)
    ensures TrailInv(legal, DoBegin(s, tid, tenant, req))
  {
    var s' := DoBegin(s, tid, tenant, req);
    forall u, id | u in s'.txs ensures TxTrail(legal, s', s'.txs[u], id) {
      if u in s.txs { assert TxTrail(legal, s, s.txs[u], id); }
    }
  }

  lemma StepKeepsTrail(legal: bool, s: State, a: Action)
    requires TrailInv(legal, s) && SlotInv(s) && AllShaped(s)
    requires legal ==> Inv(s)
    ensures TrailInv(legal, Step(s, a))
  {
    match a
    case Begin(tid, tenant, req) => if Presented(s, req) { BeginKeepsTrail(legal, s, tid, tenant, req); }
    case Guess(tid, tenant, req) => BeginKeepsTrail(legal, s, tid, tenant, req);
    case Check(tid) => if tid in s.txs && DoCheck(s, tid) != s {
      SetPhaseKeepsTrail(legal, s, tid, DoCheck(s, tid).txs[tid].phase);
    }
    case SweepStart(tid) => if tid in s.txs && DoSweepStart(s, tid) != s {
      SetPhaseKeepsTrail(legal, s, tid, DoSweepStart(s, tid).txs[tid].phase);
    }
    case Update(tid) => if tid in s.txs { UpdateKeepsTrail(legal, s, tid); }
    case Insert(tid, id) => if tid in s.txs { InsertKeepsTrail(legal, s, tid, id); }
    case Sweep(tid, id) => if tid in s.txs { SweepKeepsTrail(legal, s, tid, id); }
    case Emit(tid) => if tid in s.txs { EmitKeepsTrail(legal, s, tid); }
    case Commit(tid) => if tid in s.txs { CommitKeepsTrail(legal, s, tid); }
    case Show(id) =>
      forall u, i | u in s.txs ensures TxTrail(legal, Step(s, a), s.txs[u], i) { assert TxTrail(legal, s, s.txs[u], i); }
    case Rollback(tid) =>
      forall u, i | u in s.txs && u != tid ensures TxTrail(legal, Step(s, a), s.txs[u], i) {
        assert TxTrail(legal, s, s.txs[u], i);
      }
  }

  // ----- every write has its shape, in every run -----

  lemma WriteKeepsShape(s: State, tid: int, id: int, b: Booking, next: Phase, onConflict: Phase)
    requires AllShaped(s) && tid in s.txs && Shaped(s.rows, s.txs[tid].req, id, b)
    ensures AllShaped(Write(s, tid, id, b, next, onConflict))
  {
  }

  lemma CommitKeepsShape(s: State, tid: int)
    requires AllShaped(s) && LocksExclusive(s) && tid in s.txs
    ensures AllShaped(DoCommit(s, tid))
  {
    var s' := DoCommit(s, tid);
    forall u, id | u in s'.txs && id in s'.txs[u].writes
      ensures Shaped(s'.rows, s'.txs[u].req, id, s'.txs[u].writes[id])
    {
      assert Shaped(s.rows, s.txs[u].req, id, s.txs[u].writes[id]);
      if u != tid { assert id !in s.txs[tid].writes; }
    }
  }

  lemma PhaseKeepsShape(s: State, a: Action)
    requires AllShaped(s)
    requires !a.Update? && !a.Insert? && !a.Sweep? && !a.Commit?
    ensures AllShaped(Step(s, a))
  {
  }

  lemma UpdateKeepsShape(s: State, tid: int)
    requires AllShaped(s) && tid in s.txs
    ensures AllShaped(DoUpdate(s, tid))
  {
    var t := s.txs[tid];
    if t.phase == Checked && (t.req.Change? || t.req.Move?) && Visible(s.rows, t.tenant, t.req.id)
       && s.rows[t.req.id].version == t.req.version && !LockedByOther(s, tid, t.req.id) {
      WriteKeepsShape(s, tid, t.req.id, Updated(t.req, s.rows[t.req.id]), Applied, Failed);
    }
  }

  lemma InsertKeepsShape(s: State, tid: int, id: int)
    requires AllShaped(s) && tid in s.txs
    ensures AllShaped(DoInsert(s, tid, id))
  {
    var t := s.txs[tid];
    if DoInsert(s, tid, id) != s {
      var next := Inserting(t.phase.next + 1);
      WriteKeepsShape(s, tid, id, Fresh(t, t.req.slots[t.phase.next]), next, if t.req.skip then next else Failed);
    }
  }

  lemma SweepKeepsShape(s: State, tid: int, id: int)
    requires AllShaped(s) && tid in s.txs
    ensures AllShaped(DoSweep(s, tid, id))
  {
    var t := s.txs[tid];
    if DoSweep(s, tid, id) != s && id in s.rows && InSeries(s.rows[id], t.tenant, t.req.recurrence, t.req.now) {
      WriteKeepsShape(s, tid, id, WithStatus(s.rows[id], Cancelled), Sweeping(t.phase.left - {id}), Failed);
    }
  }

  lemma StepKeepsShape(s: State, a: Action)
    requires AllShaped(s) && LocksExclusive(s)
    ensures AllShaped(Step(s, a))
  {
    match a
    case Update(tid) => if tid in s.txs { UpdateKeepsShape(s, tid); }
    case Insert(tid, id) => if tid in s.txs { InsertKeepsShape(s, tid, id); }
    case Sweep(tid, id) => if tid in s.txs { SweepKeepsShape(s, tid, id); }
    case Commit(tid) => if tid in s.txs { CommitKeepsShape(s, tid); }
    case _ => PhaseKeepsShape(s, a);
  }

  lemma {:induction false} RunKeepsTrail(legal: bool, actions: seq<Action>)
    requires legal ==> Honest(actions)
    ensures SlotInv(Run(EMPTY, actions)) && AllShaped(Run(EMPTY, actions)) && TrailInv(legal, Run(EMPTY, actions))
  {
    NoDoubleBooking(actions);
    if actions != [] {
      var n := |actions| - 1;
      var s := Run(EMPTY, actions[..n]);
      if legal { RunKeepsInv(actions[..n]); }
      RunKeepsTrail(legal, actions[..n]);
      StepKeepsTrail(legal, s, actions[n]);
      StepKeepsShape(s, actions[n]);
    }
  }

  /** Conservation, whatever versions clients send: each committed booking has exactly `version`
      events, opened and only opened by `booking.created`, all about its staff, service and customer,
      and closed by the status and start that the row has now; and no committed transaction leaves an
      event of a booking that does not exist. */
  lemma EventsMatchBookings(actions: seq<Action>)
    ensures
      var s := Run(EMPTY, actions);
      forall id :: if id in s.rows then Counted(History(s.events, id), s.rows[id]) else History(s.events, id) == []
  {
    RunKeepsTrail(false, actions);
    var s := Run(EMPTY, actions);
    forall id ensures if id in s.rows then Counted(History(s.events, id), s.rows[id]) else History(s.events, id) == [] {
      assert RowTrail(false, s.rows, s.events, id);
    }
  }

  /** If clients are honest, the events of each booking are moreover a path of the lifecycle table. */
  lemma EventsFollowLifecycle(actions: seq<Action>)
    requires Honest(actions)
    ensures forall id :: id in Run(EMPTY, actions).rows ==> Chained(History(Run(EMPTY, actions).events, id))
  {
    RunKeepsTrail(true, actions);
    var s := Run(EMPTY, actions);
    forall id | id in s.rows ensures Chained(History(s.events, id)) {
      assert RowTrail(true, s.rows, s.events, id);
    }
  }
}
