/** Double booking is impossible in every run, whatever versions clients present: the row locks and
    the exclusion check on each write are enough. */
module BookingSlots {
  import opened BookingDomain
  import opened BookingProtocol

  /** No row is written by two live transactions. */
  predicate LocksExclusive(s: State) {
    forall t, u, i :: t in s.txs && u in s.txs && t != u && i in s.txs[t].writes ==> i !in s.txs[u].writes
  }

  /** A pending write fits beside every committed row that its own transaction leaves alone. */
  predicate FitsCommitted(s: State) {
    forall t, i, j :: t in s.txs && i in s.txs[t].writes && j in s.rows && j !in s.txs[t].writes ==>
      !Conflict(s.txs[t].writes[i], s.rows[j])
  }

  /** Pending writes fit beside each other, within one transaction and across two. */
  predicate FitsPending(s: State) {
    forall t, u, i, j :: t in s.txs && u in s.txs && i in s.txs[t].writes && j in s.txs[u].writes && i != j ==>
      !Conflict(s.txs[t].writes[i], s.txs[u].writes[j])
  }

  /** A transaction that has not written yet has no pending row, and a sweep visits no row twice. */
  predicate PhaseOk(t: Tx) {
    && (t.phase.Start? || t.phase.Checked? ==> t.writes == map[] && t.events == [] && t.owed == [])
    && (t.phase.Sweeping? ==> t.phase.left !! t.writes.Keys)
  }

  predicate PhasesOk(s: State) {
    forall t :: t in s.txs ==> PhaseOk(s.txs[t])
  }

  predicate SlotInv(s: State) {
    LocksExclusive(s) && NoOverlap(s.rows) && FitsCommitted(s) && FitsPending(s) && PhasesOk(s)
  }

  /** A write that goes through meets no conflict with a row its transaction leaves alone … */
  lemma WriteFitsCommitted(s: State, tid: int, id: int, b: Booking, j: int)
    requires SlotInv(s) && tid in s.txs
    requires !SettledConflict(s, tid, id, b) && !PendingConflict(s, tid, id, b)
    requires j in s.rows && j !in s.txs[tid].writes && j != id
    ensures !Conflict(b, s.rows[j])
  {
    assert View(s, s.txs[tid])[j] == s.rows[j];
    if LockedByOther(s, tid, j) {
      var u :| u in s.txs && u != tid && j in s.txs[u].writes;
    }
  }

  /** … and none with a pending write, its transaction's own or another's. */
  lemma WriteFitsPending(s: State, tid: int, id: int, b: Booking, u: int, j: int)
    requires SlotInv(s) && tid in s.txs && u in s.txs && j in s.txs[u].writes && j != id
    requires !SettledConflict(s, tid, id, b) && !PendingConflict(s, tid, id, b)
    ensures !Conflict(b, s.txs[u].writes[j])
  {
    if u == tid {
      assert View(s, s.txs[tid])[j] == s.txs[tid].writes[j];
      assert !LockedByOther(s, tid, j);
    }
  }

  function Written(s: State, tid: int, id: int, b: Booking, next: Phase): State
    requires tid in s.txs
  {
    var t := s.txs[tid];
    SetTx(s, tid, t.(phase := next, writes := t.writes[id := b], owed := t.owed + [id]))
  }

  lemma WrittenKeepsLocks(s: State, tid: int, id: int, b: Booking, next: Phase)
    requires LocksExclusive(s) && tid in s.txs && !LockedByOther(s, tid, id)
    ensures LocksExclusive(Written(s, tid, id, b, next))
  {
  }

  lemma WrittenFitsCommitted(s: State, tid: int, id: int, b: Booking, next: Phase)
    requires SlotInv(s) && tid in s.txs && !SettledConflict(s, tid, id, b) && !PendingConflict(s, tid, id, b)
    ensures FitsCommitted(Written(s, tid, id, b, next))
  {
    forall j | j in s.rows && j !in s.txs[tid].writes && j != id ensures !Conflict(b, s.rows[j]) {
      WriteFitsCommitted(s, tid, id, b, j);
    }
  }

  lemma WrittenFitsPending(s: State, tid: int, id: int, b: Booking, next: Phase)
    requires SlotInv(s) && tid in s.txs && !SettledConflict(s, tid, id, b) && !PendingConflict(s, tid, id, b)
    ensures FitsPending(Written(s, tid, id, b, next))
  {
    forall u, j | u in s.txs && j in s.txs[u].writes && j != id ensures !Conflict(b, s.txs[u].writes[j]) {
      WriteFitsPending(s, tid, id, b, u, j);
    }
  }

  lemma WriteKeepsSlots(s: State, tid: int, id: int, b: Booking, next: Phase, onConflict: Phase)
    requires SlotInv(s) && tid in s.txs
    requires !LockedByOther(s, tid, id) && id !in s.txs[tid].writes
    requires !next.Start? && !next.Checked? && !onConflict.Start? && !onConflict.Checked?
    requires next.Sweeping? ==> next.left !! s.txs[tid].writes.Keys + {id}
    requires onConflict.Sweeping? ==> onConflict.left !! s.txs[tid].writes.Keys
    ensures SlotInv(Write(s, tid, id, b, next, onConflict))
  {
    if SettledConflict(s, tid, id, b) {
      SetTxKeepsSlots(s, tid, s.txs[tid].(phase := onConflict));
    } else if !PendingConflict(s, tid, id, b) {
      WrittenKeepsLocks(s, tid, id, b, next);
      WrittenFitsCommitted(s, tid, id, b, next);
      WrittenFitsPending(s, tid, id, b, next);
      assert PhasesOk(Written(s, tid, id, b, next));
    }
  }

  lemma SetTxKeepsSlots(s: State, tid: int, t: Tx)
    requires SlotInv(s) && PhaseOk(t)
    requires t.writes == if tid in s.txs then s.txs[tid].writes else map[]
    ensures SlotInv(SetTx(s, tid, t))
  {
  }

  lemma CommitKeepsSlots(s: State, tid: int)
    requires SlotInv(s) && tid in s.txs
    ensures SlotInv(DoCommit(s, tid))
  {
  }

  lemma UpdateKeepsSlots(s: State, tid: int)
    requires SlotInv(s) && tid in s.txs
    ensures SlotInv(DoUpdate(s, tid))
  {
    var t := s.txs[tid];
    if t.phase == Checked && (t.req.Change? || t.req.Move?) && Visible(s.rows, t.tenant, t.req.id)
       && s.rows[t.req.id].version == t.req.version && !LockedByOther(s, tid, t.req.id) {
      WriteKeepsSlots(s, tid, t.req.id, Updated(t.req, s.rows[t.req.id]), Applied, Failed);
    }
  }

  lemma InsertKeepsSlots(s: State, tid: int, id: int)
    requires SlotInv(s) && tid in s.txs
    ensures SlotInv(DoInsert(s, tid, id))
  {
    var t := s.txs[tid];
    if t.req.Book? && t.phase.Inserting? && t.phase.next < |t.req.slots| && !KnownId(s, id) {
      var next := Inserting(t.phase.next + 1);
      WriteKeepsSlots(s, tid, id, Fresh(t, t.req.slots[t.phase.next]), next, if t.req.skip then next else Failed);
    }
  }

  lemma SweepKeepsSlots(s: State, tid: int, id: int)
    requires SlotInv(s) && tid in s.txs
    ensures SlotInv(DoSweep(s, tid, id))
  {
    var t := s.txs[tid];
    if t.phase.Sweeping? && t.req.CancelSeries? && id in t.phase.left && !LockedByOther(s, tid, id) && id in s.rows {
      WriteKeepsSlots(s, tid, id, WithStatus(s.rows[id], Cancelled), Sweeping(t.phase.left - {id}), Failed);
    }
  }

  lemma StepKeepsSlots(s: State, a: Action)
    requires SlotInv(s)
    ensures SlotInv(Step(s, a))
  {
    match a
    case Begin(tid, tenant, req) => if Step(s, a) != s { SetTxKeepsSlots(s, tid, Step(s, a).txs[tid]); }
    case Guess(tid, tenant, req) => if Step(s, a) != s { SetTxKeepsSlots(s, tid, Step(s, a).txs[tid]); }
    case Check(tid) => if Step(s, a) != s { SetTxKeepsSlots(s, tid, Step(s, a).txs[tid]); }
    case SweepStart(tid) => if Step(s, a) != s { SetTxKeepsSlots(s, tid, Step(s, a).txs[tid]); }
    case Emit(tid) => if Step(s, a) != s { SetTxKeepsSlots(s, tid, Step(s, a).txs[tid]); }
    case Update(tid) => if tid in s.txs { UpdateKeepsSlots(s, tid); }
    case Insert(tid, id) => if tid in s.txs { InsertKeepsSlots(s, tid, id); }
    case Sweep(tid, id) => if tid in s.txs { SweepKeepsSlots(s, tid, id); }
    case Commit(tid) => if tid in s.txs { CommitKeepsSlots(s, tid); }
    case _ =>
  }

  /** The flagship guarantee: at no point of any run do two active committed bookings of one tenant
      and staff overlap. */
  lemma {:induction false} NoDoubleBooking(actions: seq<Action>)
    ensures NoOverlap(Run(EMPTY, actions).rows)
    ensures SlotInv(Run(EMPTY, actions))
  {
    if actions != [] {
      NoDoubleBooking(actions[..|actions| - 1]);
      StepKeepsSlots(Run(EMPTY, actions[..|actions| - 1]), actions[|actions| - 1]);
    }
  }

  /** The same in instants: at no time is a staff member of a tenant occupied by two bookings. */
  lemma NobodyIsOccupiedTwice(actions: seq<Action>, i: int, j: int, t: int)
    requires i in Run(EMPTY, actions).rows && j in Run(EMPTY, actions).rows && i != j
    requires Occupies(Run(EMPTY, actions).rows[i], t) && Occupies(Run(EMPTY, actions).rows[j], t)
    ensures
      var a, b := Run(EMPTY, actions).rows[i], Run(EMPTY, actions).rows[j];
      a.tenant != b.tenant || a.staff != b.staff
  {
    NoDoubleBooking(actions);
    ConflictMeans(Run(EMPTY, actions).rows[i], Run(EMPTY, actions).rows[j]);
  }
}
