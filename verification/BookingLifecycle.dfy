/** Status changes are legal although their guard runs on a read that may be stale, provided each
    client presents a version that it has been shown. */
module BookingLifecycle {
  import opened BookingDomain
  import opened BookingProtocol
  import opened BookingSlots

  /** No client invents a version. */
  predicate Honest(actions: seq<Action>) {
    forall k :: 0 <= k < |actions| ==> !actions[k].Guess?
  }

  /** What the guard of a change or a move has established for the version it was presented with. */
  predicate Guarded(req: Request, status: Status)
    requires req.Change? || req.Move?
  {
    if req.Change? then CanTransition(status, req.to) else Active(status)
  }

  predicate ShownInv(s: State) {
    forall p :: p in s.shown ==> p.0 in s.rows && p.1 <= s.rows[p.0].version
  }

  /** A pending write is a new row or one legal step away from the committed row, the step that the
      request's event announces. */
  predicate WriteOk(rows: Rows, req: Request, id: int, b: Booking) {
    if id in rows then RowStep(rows[id], b) && Announces(KindOf(req), rows[id], b)
    else req.Book? && b.version == 1 && b.status == Pending
  }

  predicate WritesOk(rows: Rows, t: Tx) {
    forall id :: id in t.writes ==> WriteOk(rows, t.req, id, t.writes[id])
  }

  /** How far the version of a request may run ahead of a booking without harm. A request that would
      pass its guard now may not be ahead at all. Completing a pending booking has one version of
      slack, which its confirmation must use up. Any other request will never pass its guard. */
  predicate Tolerates(status: Status, version: nat, req: Request)
    requires req.Change? || req.Move?
  {
    if Guarded(req, status) then req.version <= version
    else if status == Pending && req.Change? && req.to == Completed then req.version <= version + 1
    else true
  }

  /** The same for any id: a booking that is yet to be made starts as pending at version 1, and one
      of another tenant is never found. */
  predicate Tolerable(rows: Rows, tenant: int, req: Request)
    requires req.Change? || req.Move?
  {
    if req.id !in rows then Tolerates(Pending, 1, req)
    else rows[req.id].tenant == tenant ==> Tolerates(rows[req.id].status, rows[req.id].version, req)
  }

  /** Before the check the version is tolerable. After it, it never runs ahead of the row, and as long
      as the row still has that version the result of the stale check still holds of it. */
  predicate CheckOk(rows: Rows, t: Tx) {
    t.req.Change? || t.req.Move? ==>
      && (t.phase.Start? ==> Tolerable(rows, t.tenant, t.req))
      && (t.phase.Checked? ==>
            && Visible(rows, t.tenant, t.req.id) && t.req.version <= rows[t.req.id].version
            && (rows[t.req.id].version == t.req.version ==> Guarded(t.req, rows[t.req.id].status)))
  }

  predicate TxsOk(s: State) {
    forall t :: t in s.txs ==> WritesOk(s.rows, s.txs[t]) && CheckOk(s.rows, s.txs[t])
  }

  predicate Inv(s: State) {
    SlotInv(s) && ShownInv(s) && TxsOk(s)
  }

  /** How one step may change the committed rows: none disappears, each is kept or takes one step. */
  predicate RowsStep(rows: Rows, rows': Rows) {
    forall id :: id in rows ==> id in rows' && (rows'[id] == rows[id] || RowStep(rows[id], rows'[id]))
  }

  lemma SetTxKeepsTxs(s: State, tid: int, t: Tx)
    requires TxsOk(s) && WritesOk(s.rows, t) && CheckOk(s.rows, t)
    ensures TxsOk(SetTx(s, tid, t))
  {
  }

  lemma WriteKeepsTxs(s: State, tid: int, id: int, b: Booking, next: Phase, onConflict: Phase)
    requires TxsOk(s) && tid in s.txs && WriteOk(s.rows, s.txs[tid].req, id, b)
    requires !next.Start? && !next.Checked? && !onConflict.Start? && !onConflict.Checked?
    ensures TxsOk(Write(s, tid, id, b, next, onConflict))
  {
    var s' := Write(s, tid, id, b, next, onConflict);
    if s' != s { SetTxKeepsTxs(s, tid, s'.txs[tid]); }
  }

  lemma UpdateKeepsInv(s: State, tid: int)
    requires Inv(s) && tid in s.txs
    ensures Inv(DoUpdate(s, tid))
  {
    UpdateKeepsSlots(s, tid);
    var t := s.txs[tid];
    if t.phase != Checked || !(t.req.Change? || t.req.Move?) {
    } else if !Visible(s.rows, t.tenant, t.req.id) || s.rows[t.req.id].version != t.req.version {
      SetTxKeepsTxs(s, tid, t.(phase := Failed));
    } else {
      assert RowStep(s.rows[t.req.id], Updated(t.req, s.rows[t.req.id]));
      WriteKeepsTxs(s, tid, t.req.id, Updated(t.req, s.rows[t.req.id]), Applied, Failed);
    }
  }

  lemma CommitKeepsInv(s: State, tid: int)
    requires Inv(s) && tid in s.txs
    ensures Inv(DoCommit(s, tid))
    ensures RowsStep(s.rows, DoCommit(s, tid).rows)
  {
    CommitKeepsSlots(s, tid);
    var t := s.txs[tid];
    var s' := DoCommit(s, tid);
    if s' != s {
      assert forall id :: id in t.writes ==> WriteOk(s.rows, t.req, id, t.writes[id]);
      forall u | u in s'.txs ensures WritesOk(s'.rows, s.txs[u]) && CheckOk(s'.rows, s.txs[u]) {
        assert WritesOk(s.rows, s.txs[u]) && CheckOk(s.rows, s.txs[u]);
        forall id | id in s.txs[u].writes ensures WriteOk(s'.rows, s.txs[u].req, id, s.txs[u].writes[id]) {
          assert id !in t.writes;
        }
      }
    }
  }

  lemma InsertKeepsInv(s: State, tid: int, id: int)
    requires Inv(s) && tid in s.txs
    ensures Inv(DoInsert(s, tid, id))
  {
    InsertKeepsSlots(s, tid, id);
    var t := s.txs[tid];
    if DoInsert(s, tid, id) != s {
      var next := Inserting(t.phase.next + 1);
      WriteKeepsTxs(s, tid, id, Fresh(t, t.req.slots[t.phase.next]), next, if t.req.skip then next else Failed);
    }
  }

  lemma SweepKeepsInv(s: State, tid: int, id: int)
    requires Inv(s) && tid in s.txs
    ensures Inv(DoSweep(s, tid, id))
  {
    SweepKeepsSlots(s, tid, id);
    var t := s.txs[tid];
    if DoSweep(s, tid, id) == s {
    } else if id in s.rows && InSeries(s.rows[id], t.tenant, t.req.recurrence, t.req.now) {
      WriteKeepsTxs(s, tid, id, WithStatus(s.rows[id], Cancelled), Sweeping(t.phase.left - {id}), Failed);
    } else {
      SetTxKeepsTxs(s, tid, t.(phase := Sweeping(t.phase.left - {id})));
    }
  }

  /** Statements that only move a transaction on. */
  lemma PhaseKeepsInv(s: State, a: Action)
    requires Inv(s) && (a.Begin? || a.Check? || a.SweepStart? || a.Emit?)
    ensures Inv(Step(s, a))
  {
    StepKeepsSlots(s, a);
    if Step(s, a) != s { SetTxKeepsTxs(s, a.tid, Step(s, a).txs[a.tid]); }
  }

  lemma StepKeepsInv(s: State, a: Action)
    requires Inv(s) && !a.Guess?
    ensures Inv(Step(s, a))
    ensures RowsStep(s.rows, Step(s, a).rows)
  {
    match a
    case Insert(tid, id) => if tid in s.txs { InsertKeepsInv(s, tid, id); }
    case Sweep(tid, id) => if tid in s.txs { SweepKeepsInv(s, tid, id); }
    case Update(tid) => if tid in s.txs { UpdateKeepsInv(s, tid); }
    case Commit(tid) => if tid in s.txs { CommitKeepsInv(s, tid); }
    case Show(id) => StepKeepsSlots(s, a);
    case Rollback(tid) => StepKeepsSlots(s, a);
    case _ => PhaseKeepsInv(s, a);
  }

  lemma {:induction false} RunKeepsInv(actions: seq<Action>)
    requires Honest(actions)
    ensures Inv(Run(EMPTY, actions))
  {
    if actions != [] {
      RunKeepsInv(actions[..|actions| - 1]);
      StepKeepsInv(Run(EMPTY, actions[..|actions| - 1]), actions[|actions| - 1]);
    }
  }

  /** Every step of every honest run changes committed rows only along the lifecycle table, or moves
      an active booking, one version at a time. */
  lemma EveryChangeIsLegal(actions: seq<Action>, a: Action)
    requires Honest(actions) && !a.Guess?
    ensures RowsStep(Run(EMPTY, actions).rows, Step(Run(EMPTY, actions), a).rows)
  {
    RunKeepsInv(actions);
    StepKeepsInv(Run(EMPTY, actions), a);
  }

  /** Over any continuation a booking stays, its version never decreases, and once its status is
      terminal the whole row is final. */
  lemma {:induction false} BookingsOnlyMoveForward(actions: seq<Action>, more: seq<Action>, id: int)
    requires Honest(actions) && Honest(more) && id in Run(EMPTY, actions).rows
    ensures id in Run(Run(EMPTY, actions), more).rows
    ensures
      var b, b' := Run(EMPTY, actions).rows[id], Run(Run(EMPTY, actions), more).rows[id];
      b.version <= b'.version && (b.version == b'.version || !Active(b.status) ==> b' == b)
  {
    if more != [] {
      var n := |more| - 1;
      BookingsOnlyMoveForward(actions, more[..n], id);
      RunJoin(EMPTY, actions, more[..n]);
      EveryChangeIsLegal(actions + more[..n], more[n]);
    }
  }

  /** A status change never raises the slot conflict and never waits for one: the exclusion check
      matters only on insert and reschedule, so the repository maps no 23P01 there. */
  lemma StatusChangeNeverConflicts(actions: seq<Action>, tid: int)
    requires Honest(actions)
    requires tid in Run(EMPTY, actions).txs
    requires
      var s := Run(EMPTY, actions); var t := s.txs[tid];
      t.phase == Checked && t.req.Change? && t.req.id in s.rows && s.rows[t.req.id].version == t.req.version
      && !LockedByOther(s, tid, t.req.id)
    ensures
      var s := Run(EMPTY, actions); var t := s.txs[tid]; var b := WithStatus(s.rows[t.req.id], t.req.to);
      !SettledConflict(s, tid, t.req.id, b) && !PendingConflict(s, tid, t.req.id, b)
  {
    RunKeepsInv(actions);
    var s := Run(EMPTY, actions); var t := s.txs[tid];
    var id := t.req.id;
    var b := WithStatus(s.rows[id], t.req.to);
    assert CheckOk(s.rows, t) && PhaseOk(t);
    forall j | j in s.rows && j != id ensures !Conflict(b, s.rows[j]) {
      assert !Conflict(s.rows[id], s.rows[j]);
    }
    forall u, j | u in s.txs && u != tid && j in s.txs[u].writes && j != id
      ensures !Conflict(b, s.txs[u].writes[j])
    {
      assert !Conflict(s.txs[u].writes[j], s.rows[id]);
    }
    assert View(s, t) == s.rows;
  }
}
