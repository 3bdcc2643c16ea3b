/** Interleaved requests refine atomic ones: although a request reads, checks, writes and emits in
    separate statements between those of others, its commit has exactly the effect of the whole
    operation executed at that moment on the committed tables. */
module BookingAtomicity {
  import opened BookingDomain
  import opened BookingProtocol
  import opened BookingSlots
  import opened BookingLifecycle

  /** A booking request for one slot. */
  predicate Plain(req: Request) {
    req.Book? && |req.slots| == 1 && !req.skip
  }

  /** One row is written; its event is still owed or recorded. */
  predicate WroteOne(t: Tx, id: int, b: Booking) {
    && t.writes == map[id := b]
    && (   (t.owed == [id] && t.events == [])
        || (t.owed == [] && t.events == [Emitted(id, b, KindOf(t.req))]))
  }

  /** The operation finds its row with the presented version; `honest` runs pass the status guard too. */
  predicate WouldPass(honest: bool, rows: Rows, t: Tx)
    requires t.req.Change? || t.req.Move?
  {
    && Visible(rows, t.tenant, t.req.id) && rows[t.req.id].version == t.req.version
    && (honest ==> Guarded(t.req, rows[t.req.id].status))
  }

  predicate AppliedOk(honest: bool, rows: Rows, t: Tx) {
    t.phase == Applied ==>
      && (t.req.Change? || t.req.Move?) && WouldPass(honest, rows, t)
      && WroteOne(t, t.req.id, Updated(t.req, rows[t.req.id]))
  }

  predicate Untouched(t: Tx) {
    t.writes == map[] && t.owed == [] && t.events == []
  }

  predicate InsertedOk(rows: Rows, t: Tx) {
    Plain(t.req) ==>
      && (t.phase == Inserting(0) ==> Untouched(t))
      && (t.phase == Inserting(1) ==> exists id :: id in t.writes && id !in rows && WroteOne(t, id, Fresh(t, t.req.slots[0])))
      && (t.phase.Inserting? ==> t.phase.next <= 1)
      && (t.phase.Inserting? || t.phase.Failed?)
  }

  predicate AtomicInv(honest: bool, s: State) {
    forall t :: t in s.txs ==> AppliedOk(honest, s.rows, s.txs[t]) && InsertedOk(s.rows, s.txs[t])
  }

  lemma SetTxKeepsAtomic(honest: bool, s: State, tid: int, t: Tx)
    requires AtomicInv(honest, s) && AppliedOk(honest, s.rows, t) && InsertedOk(s.rows, t)
    ensures AtomicInv(honest, SetTx(s, tid, t))
  {
  }

  lemma UpdateKeepsAtomic(honest: bool, s: State, tid: int)
    requires AtomicInv(honest, s) && SlotInv(s) && tid in s.txs
    requires honest ==> Inv(s)
    ensures AtomicInv(honest, DoUpdate(s, tid))
  {
    var s', t := DoUpdate(s, tid), s.txs[tid];
    if s' != s {
      assert PhaseOk(t);
      if honest { assert CheckOk(s.rows, t); }
      assert map[][t.req.id := s'.txs[tid].writes] == map[t.req.id := s'.txs[tid].writes];
      SetTxKeepsAtomic(honest, s, tid, s'.txs[tid]);
    }
  }

  lemma InsertKeepsAtomic(honest: bool, s: State, tid: int, id: int)
    requires AtomicInv(honest, s) && tid in s.txs
    ensures AtomicInv(honest, DoInsert(s, tid, id))
  {
    var s', t := DoInsert(s, tid, id), s.txs[tid];
    if s' != s {
      if Plain(t.req) && s'.txs[tid].phase == Inserting(1) {
        assert id in s'.txs[tid].writes && WroteOne(s'.txs[tid], id, Fresh(s'.txs[tid], t.req.slots[0]));
      }
      SetTxKeepsAtomic(honest, s, tid, s'.txs[tid]);
    }
  }

  lemma EmitKeepsAtomic(honest: bool, s: State, tid: int)
    requires AtomicInv(honest, s) && tid in s.txs
    ensures AtomicInv(honest, DoEmit(s, tid))
  {
    var s', t := DoEmit(s, tid), s.txs[tid];
    if s' != s {
      var t' := s'.txs[tid];
      if Plain(t.req) && t.phase == Inserting(1) {
        var id :| id in t.writes && id !in s.rows && WroteOne(t, id, Fresh(t, t.req.slots[0]));
        assert WroteOne(t', id, Fresh(t', t'.req.slots[0]));
      }
      SetTxKeepsAtomic(honest, s, tid, t');
    }
  }

  /** Another transaction's commit touches no row that this one has written. */
  lemma CommitKeepsAtomic(honest: bool, s: State, tid: int)
    requires AtomicInv(honest, s) && LocksExclusive(s) && tid in s.txs
    ensures AtomicInv(honest, DoCommit(s, tid))
  {
    var s' := DoCommit(s, tid);
    if s' != s {
      forall u | u in s'.txs ensures AppliedOk(honest, s'.rows, s'.txs[u]) && InsertedOk(s'.rows, s'.txs[u]) {
        var t := s.txs[u];
        assert AppliedOk(honest, s.rows, t) && InsertedOk(s.rows, t);
        if t.phase == Applied { assert t.req.id in t.writes; }
        if Plain(t.req) && t.phase == Inserting(1) {
          var id :| id in t.writes && id !in s.rows && WroteOne(t, id, Fresh(t, t.req.slots[0]));
          assert id !in s.txs[tid].writes;
        }
      }
    }
  }

  lemma PhaseKeepsAtomic(honest: bool, s: State, a: Action)
    requires AtomicInv(honest, s) && (a.Begin? || a.Guess? || a.Check? || a.SweepStart?)
    ensures AtomicInv(honest, Step(s, a))
  {
    if Step(s, a) != s { SetTxKeepsAtomic(honest, s, a.tid, Step(s, a).txs[a.tid]); }
  }

  lemma SweepKeepsAtomic(honest: bool, s: State, tid: int, id: int)
    requires AtomicInv(honest, s) && tid in s.txs
    ensures AtomicInv(honest, DoSweep(s, tid, id))
  {
    if DoSweep(s, tid, id) != s { SetTxKeepsAtomic(honest, s, tid, DoSweep(s, tid, id).txs[tid]); }
  }

  lemma StepKeepsAtomic(honest: bool, s: State, a: Action)
    requires AtomicInv(honest, s) && SlotInv(s)
    requires honest ==> Inv(s)
    ensures AtomicInv(honest, Step(s, a))
  {
    match a
    case Begin(tid, tenant, req) => PhaseKeepsAtomic(honest, s, a);
    case Guess(tid, tenant, req) => PhaseKeepsAtomic(honest, s, a);
    case Check(tid) => PhaseKeepsAtomic(honest, s, a);
    case SweepStart(tid) => PhaseKeepsAtomic(honest, s, a);
    case Update(tid) => if tid in s.txs { UpdateKeepsAtomic(honest, s, tid); }
    case Insert(tid, id) => if tid in s.txs { InsertKeepsAtomic(honest, s, tid, id); }
    case Sweep(tid, id) => if tid in s.txs { SweepKeepsAtomic(honest, s, tid, id); }
    case Emit(tid) => if tid in s.txs { EmitKeepsAtomic(honest, s, tid); }
    case Commit(tid) => if tid in s.txs { CommitKeepsAtomic(honest, s, tid); }
    case Show(id) =>
    case Rollback(tid) =>
  }

  lemma {:induction false} RunKeepsAtomic(honest: bool, actions: seq<Action>)
    requires honest ==> Honest(actions)
    ensures AtomicInv(honest, Run(EMPTY, actions))
  {
    if actions != [] {
      var n := |actions| - 1;
      NoDoubleBooking(actions[..n]);
      if honest { RunKeepsInv(actions[..n]); }
      RunKeepsAtomic(honest, actions[..n]);
      StepKeepsAtomic(honest, Run(EMPTY, actions[..n]), actions[n]);
    }
  }

  lemma FreeAtCommit(s: State, tid: int, id: int)
    requires SlotInv(s) && tid in s.txs && s.txs[tid].writes.Keys == {id}
    ensures SlotFree(s.rows, id, s.txs[tid].writes[id])
  {
    assert id in s.txs[tid].writes;
  }

  /** A status change or reschedule, when it commits, does what the service does on the committed
      tables of that moment: tenant, version and slot all pass there, that one row changes and that
      one event is recorded. If clients are honest, the status guard passes there as well. */
  lemma ChangesAreAtomic(actions: seq<Action>, tid: int)
    requires tid in Run(EMPTY, actions).txs
    requires Run(EMPTY, actions).txs[tid].phase == Applied && Run(EMPTY, actions).txs[tid].owed == []
    ensures
      var s := Run(EMPTY, actions); var t := s.txs[tid];
      && (t.req.Change? || t.req.Move?) && WouldPass(Honest(actions), s.rows, t)
      && var a := s.rows[t.req.id];
         var b := if t.req.Change?
                  then Booking(a.tenant, a.staff, a.service, a.customer, a.price, a.startsAt, a.endsAt, t.req.to,
                               a.recurrence, t.req.version + 1)
                  else Booking(a.tenant, a.staff, a.service, a.customer, a.price, t.req.slot.startsAt, t.req.slot.endsAt,
                               a.status, a.recurrence, t.req.version + 1);
         var kind := if t.req.Change? then ChangedTo(t.req.to) else Rescheduled;
         && SlotFree(s.rows, t.req.id, b)
         && Step(s, Commit(tid)) == s.(
              rows := s.rows[t.req.id := b], events := s.events + [Emitted(t.req.id, b, kind)], txs := s.txs - {tid})
  {
    NoDoubleBooking(actions);
    RunKeepsAtomic(Honest(actions), actions);
    var s := Run(EMPTY, actions); var t := s.txs[tid];
    assert AppliedOk(Honest(actions), s.rows, t);
    FreeAtCommit(s, tid, t.req.id);
    assert s.rows + t.writes == s.rows[t.req.id := Updated(t.req, s.rows[t.req.id])];
  }

  /** The same for a booking of one slot: at its commit the slot is free beside every committed row,
      so nothing that others did since the insert can have taken it. */
  lemma CreationIsAtomic(actions: seq<Action>, tid: int) returns (id: int)
    requires tid in Run(EMPTY, actions).txs
    requires
      var t := Run(EMPTY, actions).txs[tid];
      Plain(t.req) && t.phase == Inserting(1) && t.owed == []
    ensures
      var s := Run(EMPTY, actions); var t := s.txs[tid];
      var b := Booking(t.tenant, t.req.staff, t.req.service, t.req.customer, t.req.price,
                       t.req.slots[0].startsAt, t.req.slots[0].endsAt, Pending, t.req.series, 1);
      && id !in s.rows && SlotFree(s.rows, id, b)
      && Step(s, Commit(tid)) == s.(
           rows := s.rows[id := b], events := s.events + [Emitted(id, b, Created)], txs := s.txs - {tid})
  {
    NoDoubleBooking(actions);
    RunKeepsAtomic(false, actions);
    var s := Run(EMPTY, actions); var t := s.txs[tid];
    assert InsertedOk(s.rows, t);
    id :| id in t.writes && id !in s.rows && WroteOne(t, id, Fresh(t, t.req.slots[0]));
    FreeAtCommit(s, tid, id);
    assert s.rows + t.writes == s.rows[id := Fresh(t, t.req.slots[0])];
  }
}
