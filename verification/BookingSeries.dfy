/** Requests of several rows among all others: booking the occurrences of a series, and cancelling its
    future. */
module BookingSeries {
  import opened Wrappers
  import opened Sequences
  import opened BookingDomain
  import opened BookingProtocol
  import opened BookingSlots

  // ----- booking a series, all or nothing -----

  /** The booking of the `k`-th occurrence. */
  function Occurrence(t: Tx, k: nat): Booking
    requires t.req.Book? && k < |t.req.slots|
  {
    Booking(t.tenant, t.req.staff, t.req.service, t.req.customer, t.req.price,
            t.req.slots[k].startsAt, t.req.slots[k].endsAt, Pending, t.req.series, 1)
  }

  predicate EventOf(t: Tx, k: nat)
    requires t.req.Book? && k < |t.req.slots| && k < |t.events|
  {
    var e := t.events[k];
    e.bookingId in t.writes && t.writes[e.bookingId] == Occurrence(t, k)
    && e == Emitted(e.bookingId, Occurrence(t, k), Created)
  }

  /** The ids of the rows inserted so far, in order. */
  function Ids(t: Tx): seq<int> {
    seq(|t.events|, k requires 0 <= k < |t.events| => t.events[k].bookingId) + t.owed
  }

  /** After `n` insertions there is one row and one event for each of the first `n` occurrences, the last
      event possibly still owed, and nothing else. */
  predicate WholeSoFar(t: Tx) {
    t.req.Book? && !t.req.skip && t.phase.Inserting? ==>
      && t.phase.next <= |t.req.slots| && |t.owed| <= 1 && |t.events| + |t.owed| == t.phase.next
      && (forall k :: 0 <= k < |t.events| ==> EventOf(t, k))
      && (t.owed != [] ==> t.owed[0] in t.writes && t.writes[t.owed[0]] == Occurrence(t, t.phase.next - 1))
      && NoRepeats(Ids(t)) && (forall id :: id in t.writes ==> id in Ids(t))
  }

  predicate AllWhole(s: State) {
    forall t :: t in s.txs ==> WholeSoFar(s.txs[t])
  }

  lemma InsertedIsWhole(t: Tx, id: int)
    requires WholeSoFar(t) && t.req.Book? && !t.req.skip && t.phase.Inserting? && t.phase.next < |t.req.slots|
    requires t.owed == [] && id !in t.writes
    ensures
      var next := t.phase.next;
      WholeSoFar(t.(phase := Inserting(next + 1), writes := t.writes[id := Fresh(t, t.req.slots[next])], owed := [id]))
  {
    var next := t.phase.next;
    var t' := t.(phase := Inserting(next + 1), writes := t.writes[id := Fresh(t, t.req.slots[next])], owed := [id]);
    assert Ids(t') == Ids(t) + [id];
    forall k | 0 <= k < |t.events| ensures EventOf(t', k) && Ids(t)[k] != id { assert EventOf(t, k); }
    forall i | i in t'.writes ensures i in Ids(t') {
      if i == id { assert Ids(t')[next] == id; } else { assert i in Ids(t); }
    }
  }

  lemma EmittedIsWhole(t: Tx)
    requires WholeSoFar(t) && t.req.Book? && !t.req.skip && t.phase.Inserting? && Owes(t)
    ensures WholeSoFar(t.(events := t.events + [NextEvent(t)], owed := t.owed[1..]))
  {
    var t' := t.(events := t.events + [NextEvent(t)], owed := t.owed[1..]);
    assert Ids(t') == Ids(t);
    forall k | 0 <= k < |t'.events| ensures EventOf(t', k) {
      if k < |t.events| { assert EventOf(t, k); }
    }
  }

  lemma InsertKeepsWhole(s: State, tid: int, id: int)
    requires AllWhole(s) && tid in s.txs
    ensures AllWhole(DoInsert(s, tid, id))
  {
    var t := s.txs[tid];
    var s' := DoInsert(s, tid, id);
    assert WholeSoFar(t);
    if s' != s && !t.req.skip && s'.txs[tid].phase.Inserting? {
      assert [] + [id] == [id];
      InsertedIsWhole(t, id);
      assert s'.txs[tid] == t.(phase := Inserting(t.phase.next + 1), writes := t.writes[id := Fresh(t, t.req.slots[t.phase.next])], owed := [id]);
    }
    forall u | u in s'.txs ensures WholeSoFar(s'.txs[u]) { if u != tid { assert WholeSoFar(s.txs[u]); } }
  }

  lemma EmitKeepsWhole(s: State, tid: int)
    requires AllWhole(s) && tid in s.txs
    ensures AllWhole(DoEmit(s, tid))
  {
    var t := s.txs[tid];
    var s' := DoEmit(s, tid);
    assert WholeSoFar(t);
    if s' != s && t.req.Book? && !t.req.skip && t.phase.Inserting? { EmittedIsWhole(t); }
    forall u | u in s'.txs ensures WholeSoFar(s'.txs[u]) { if u != tid { assert WholeSoFar(s.txs[u]); } }
  }

  lemma OthersKeepWhole(s: State, a: Action)
    requires AllWhole(s) && !a.Insert? && !a.Emit?
    ensures AllWhole(Step(s, a))
  {
    var s' := Step(s, a);
    forall u | u in s'.txs ensures WholeSoFar(s'.txs[u]) {
      if u in s.txs { assert WholeSoFar(s.txs[u]); }
      if u in s.txs && s'.txs[u] == s.txs[u] {
      } else if s'.txs[u].req.Book? && s'.txs[u].phase.Inserting? {
        assert Ids(s'.txs[u]) == [];
      }
    }
  }

  lemma {:induction false} RunKeepsWhole(actions: seq<Action>)
    ensures AllWhole(Run(EMPTY, actions))
  {
    if actions != [] {
      var n := |actions| - 1;
      RunKeepsWhole(actions[..n]);
      var s := Run(EMPTY, actions[..n]);
      match actions[n]
      case Insert(tid, id) => if tid in s.txs { InsertKeepsWhole(s, tid, id); }
      case Emit(tid) => if tid in s.txs { EmitKeepsWhole(s, tid); }
      case _ => OthersKeepWhole(s, actions[n]);
    }
  }

  /** In every run, a booking request that skips nothing commits all of its occurrences or none: one row
      and one event for each slot, in the order of the slots, every field as requested. */
  lemma SeriesCommitsWhole(actions: seq<Action>, tid: int)
    requires tid in Run(EMPTY, actions).txs
    requires Run(EMPTY, actions).txs[tid].req.Book? && !Run(EMPTY, actions).txs[tid].req.skip
    ensures
      var s := Run(EMPTY, actions); var t := s.txs[tid]; var s' := Step(s, Commit(tid));
      if t.phase == Inserting(|t.req.slots|) && t.owed == [] then
        && |t.events| == |t.req.slots| && NoRepeats(Ids(t))
        && (forall k :: 0 <= k < |t.events| ==> EventOf(t, k))
        && (forall id :: id in t.writes ==> id in Ids(t))
        && s'.rows == s.rows + t.writes && s'.events == s.events + t.events
      else s'.rows == s.rows && s'.events == s.events
  {
    RunKeepsWhole(actions);
    var s := Run(EMPTY, actions);
    assert WholeSoFar(s.txs[tid]);
    OnlyInsertingCommits(actions, tid);
  }

  /** A booking request is inserting or has failed. */
  predicate BookPhase(t: Tx) {
    t.req.Book? ==> t.phase.Inserting? || t.phase.Failed?
  }

  lemma StepKeepsBookPhase(s: State, a: Action)
    requires forall t :: t in s.txs ==> BookPhase(s.txs[t])
    ensures forall t :: t in Step(s, a).txs ==> BookPhase(Step(s, a).txs[t])
  {
  }

  lemma {:induction false} OnlyInsertingCommits(actions: seq<Action>, tid: int)
    ensures forall t :: t in Run(EMPTY, actions).txs ==> BookPhase(Run(EMPTY, actions).txs[t])
  {
    if actions != [] {
      OnlyInsertingCommits(actions[..|actions| - 1], tid);
      StepKeepsBookPhase(Run(EMPTY, actions[..|actions| - 1]), actions[|actions| - 1]);
    }
  }

  // ----- cancelling the future of a series -----

  /** The row is one that the cancellation is for. */
  predicate InReach(t: Tx, b: Booking)
    requires t.req.CancelSeries?
  {
    && b.recurrence == Some(t.req.recurrence) && b.tenant == t.tenant && b.startsAt > t.req.now
    && (b.status == Pending || b.status == Confirmed)
  }

  function CancelledRow(b: Booking): Booking {
    Booking(b.tenant, b.staff, b.service, b.customer, b.price, b.startsAt, b.endsAt, Cancelled, b.recurrence, b.version + 1)
  }

  predicate CancelsOnly(rows: Rows, t: Tx) {
    t.req.CancelSeries? ==> forall id :: id in t.writes ==>
      id in rows && InReach(t, rows[id]) && t.writes[id] == CancelledRow(rows[id])
  }

  predicate AllCancelOnly(s: State) {
    forall t :: t in s.txs ==> CancelsOnly(s.rows, s.txs[t])
  }

  lemma CommitKeepsReach(s: State, tid: int)
    requires AllCancelOnly(s) && LocksExclusive(s) && tid in s.txs
    ensures AllCancelOnly(DoCommit(s, tid))
  {
    var s' := DoCommit(s, tid);
    forall u | u in s'.txs ensures CancelsOnly(s'.rows, s'.txs[u]) {
      assert CancelsOnly(s.rows, s.txs[u]);
      if u != tid { assert forall id :: id in s.txs[u].writes ==> id !in s.txs[tid].writes; }
    }
  }

  lemma StepKeepsReach(s: State, a: Action)
    requires AllCancelOnly(s) && SlotInv(s)
    ensures AllCancelOnly(Step(s, a))
  {
    if a.Commit? {
      if a.tid in s.txs { CommitKeepsReach(s, a.tid); }
    } else {
      forall u | u in Step(s, a).txs ensures CancelsOnly(Step(s, a).rows, Step(s, a).txs[u]) {
        if u in s.txs { assert CancelsOnly(s.rows, s.txs[u]) && PhaseOk(s.txs[u]); }
      }
    }
  }

  /** In every run, what a series cancellation has written at any moment, and so what it commits, are
      future active bookings of that series and tenant, each cancelled and otherwise as committed. */
  lemma {:induction false} CancellationStaysInReach(actions: seq<Action>)
    ensures AllCancelOnly(Run(EMPTY, actions))
  {
    if actions != [] {
      CancellationStaysInReach(actions[..|actions| - 1]);
      NoDoubleBooking(actions[..|actions| - 1]);
      StepKeepsReach(Run(EMPTY, actions[..|actions| - 1]), actions[|actions| - 1]);
    }
  }

  /** Every row in reach is cancelled already or still to be visited, and no other. */
  ghost predicate Covers(s: State, tid: int) {
    tid in s.txs && s.txs[tid].req.CancelSeries? && s.txs[tid].phase.Sweeping? ==>
      forall id ::
        (id in s.rows && InReach(s.txs[tid], s.rows[id]) <==> id in s.txs[tid].phase.left || id in s.txs[tid].writes)
  }

  lemma StepKeepsCover(s: State, a: Action, tid: int)
    requires Covers(s, tid) && tid in s.txs && s.txs[tid].req.CancelSeries? && s.txs[tid].phase.Sweeping?
    requires !a.Commit? && a != Rollback(tid)
    ensures Covers(Step(s, a), tid) && Step(s, a).rows == s.rows
    ensures
      && tid in Step(s, a).txs && Step(s, a).txs[tid].req == s.txs[tid].req && Step(s, a).txs[tid].tenant == s.txs[tid].tenant
      && (Step(s, a).txs[tid].phase.Sweeping? || Step(s, a).txs[tid].phase.Failed?)
  {
  }

  /** Nothing is committed in between, and this transaction is not given up. */
  predicate Undisturbed(more: seq<Action>, tid: int) {
    forall k :: 0 <= k < |more| ==> !more[k].Commit? && more[k] != Rollback(tid)
  }

  ghost predicate CancelsAll(s: State, tid: int, req: Request, tenant: int) {
    tid in s.txs && s.txs[tid].req == req && s.txs[tid].tenant == tenant && req.CancelSeries?
    && (s.txs[tid].phase.Sweeping? || s.txs[tid].phase.Failed?) && Covers(s, tid)
  }

  lemma {:induction false} CoverLasts(s: State, more: seq<Action>, tid: int, req: Request, tenant: int)
    requires CancelsAll(s, tid, req, tenant) && Undisturbed(more, tid)
    ensures CancelsAll(Run(s, more), tid, req, tenant) && Run(s, more).rows == s.rows
  {
    if more != [] {
      var n := |more| - 1;
      CoverLasts(s, more[..n], tid, req, tenant);
      var s' := Run(s, more[..n]);
      if s'.txs[tid].phase.Sweeping? {
        StepKeepsCover(s', more[n], tid);
      } else {
        FailedStaysFailed(s', more[n], tid);
      }
    }
  }

  lemma FailedStaysFailed(s: State, a: Action, tid: int)
    requires tid in s.txs && s.txs[tid].phase.Failed? && s.txs[tid].req.CancelSeries?
    requires !a.Commit? && a != Rollback(tid)
    ensures tid in Step(s, a).txs && Step(s, a).rows == s.rows
    ensures Step(s, a).txs[tid] == s.txs[tid]
  {
  }

  /** A cancellation during which nothing else is committed reaches every future active booking of the
      series: when no row is left to visit, exactly those are written. */
  lemma CancellationIsComplete(s: State, tid: int, more: seq<Action>)
    requires tid in s.txs && s.txs[tid].req.CancelSeries? && s.txs[tid].phase == Start && s.txs[tid].writes == map[]
    requires Undisturbed(more, tid)
    ensures
      var s' := Run(Step(s, SweepStart(tid)), more);
      && tid in s'.txs && s'.rows == s.rows
      && (s'.txs[tid].phase == Sweeping({}) ==>
            forall id :: id in s'.txs[tid].writes <==> id in s.rows && InReach(s.txs[tid], s.rows[id]))
  {
    var s1 := Step(s, SweepStart(tid));
    CoverLasts(s1, more, tid, s.txs[tid].req, s.txs[tid].tenant);
  }

  /** While rows are left to visit no event is recorded; then each row written gets its one. */
  ghost predicate CancelSoFar(t: Tx) {
    t.req.CancelSeries? && t.phase.Sweeping? ==>
      && (t.phase.left != {} ==> t.events == [])
      && (forall k :: 0 <= k < |t.events| ==>
            t.events[k].bookingId in t.writes
            && t.events[k] == Emitted(t.events[k].bookingId, t.writes[t.events[k].bookingId], ChangedTo(Cancelled)))
      && NoRepeats(Ids(t)) && (forall id: int :: id in t.writes <==> id in Ids(t))
  }

  ghost predicate AllCancelSoFar(s: State) {
    forall t :: t in s.txs ==> CancelSoFar(s.txs[t])
  }

  lemma SweepKeepsCancel(s: State, tid: int, id: int)
    requires AllCancelSoFar(s) && PhasesOk(s) && tid in s.txs
    ensures AllCancelSoFar(DoSweep(s, tid, id))
  {
    var t, s' := s.txs[tid], DoSweep(s, tid, id);
    assert CancelSoFar(t) && PhaseOk(t);
    if s' != s && s'.txs[tid].phase.Sweeping? {
      var t' := s'.txs[tid];
      if t'.writes != t.writes {
        assert Ids(t') == Ids(t) + [id];
        assert id !in t.writes;
      } else {
        assert Ids(t') == Ids(t);
      }
    }
    forall u | u in s'.txs ensures CancelSoFar(s'.txs[u]) { if u != tid { assert CancelSoFar(s.txs[u]); } }
  }

  lemma EmitKeepsCancel(s: State, tid: int)
    requires AllCancelSoFar(s) && tid in s.txs
    ensures AllCancelSoFar(DoEmit(s, tid))
  {
    var t, s' := s.txs[tid], DoEmit(s, tid);
    assert CancelSoFar(t);
    if s' != s { assert Ids(s'.txs[tid]) == Ids(t); }
    forall u | u in s'.txs ensures CancelSoFar(s'.txs[u]) { if u != tid { assert CancelSoFar(s.txs[u]); } }
  }

  lemma OthersKeepCancel(s: State, a: Action)
    requires AllCancelSoFar(s) && PhasesOk(s) && !a.Sweep? && !a.Emit?
    ensures AllCancelSoFar(Step(s, a))
  {
    var s' := Step(s, a);
    forall u | u in s'.txs ensures CancelSoFar(s'.txs[u]) {
      if u in s.txs { assert CancelSoFar(s.txs[u]) && PhaseOk(s.txs[u]); }
      if u in s.txs && s'.txs[u] == s.txs[u] {
      } else if s'.txs[u].req.CancelSeries? && s'.txs[u].phase.Sweeping? {
        assert Ids(s'.txs[u]) == [];
      }
    }
  }

  /** In every run, a series cancellation records no event before its bulk update is over and commits
      exactly one for each row that it cancelled. */
  lemma {:induction false} CancellationCommitsWhole(actions: seq<Action>)
    ensures AllCancelSoFar(Run(EMPTY, actions))
    ensures forall tid :: tid in Run(EMPTY, actions).txs && Run(EMPTY, actions).txs[tid].req.CancelSeries? ==>
      CommitsEach(Run(EMPTY, actions), tid)
  {
    if actions != [] {
      var n := |actions| - 1;
      CancellationCommitsWhole(actions[..n]);
      NoDoubleBooking(actions[..n]);
      var s := Run(EMPTY, actions[..n]);
      match actions[n]
      case Sweep(tid, id) => if tid in s.txs { SweepKeepsCancel(s, tid, id); }
      case Emit(tid) => if tid in s.txs { EmitKeepsCancel(s, tid); }
      case _ => OthersKeepCancel(s, actions[n]);
    }
    NeverApplied(actions);
    var s := Run(EMPTY, actions);
    forall tid | tid in s.txs && s.txs[tid].req.CancelSeries? ensures CommitsEach(s, tid) { EachOnce(s, tid); }
  }

  lemma EachOnce(s: State, tid: int)
    requires tid in s.txs && s.txs[tid].req.CancelSeries? && CancelSoFar(s.txs[tid]) && CancelPhase(s.txs[tid])
    ensures CommitsEach(s, tid)
  {
    var t := s.txs[tid];
    if t.owed == [] { assert |Ids(t)| == |t.events| && forall k :: 0 <= k < |t.events| ==> Ids(t)[k] == t.events[k].bookingId; }
  }

  /** A commit, if it goes through, publishes the rows and one event for each of them. */
  ghost predicate CommitsEach(s: State, tid: int)
    requires tid in s.txs
  {
    var t, s' := s.txs[tid], Step(s, Commit(tid));
    if t.phase == Sweeping({}) && t.owed == [] then
      && s'.rows == s.rows + t.writes && s'.events == s.events + t.events
      && NoRepeats(Ids(t)) && (forall id: int :: id in t.writes <==> id in Ids(t)) && |Ids(t)| == |t.events|
      && forall k :: 0 <= k < |t.events| ==>
           Ids(t)[k] in t.writes && t.events[k] == Emitted(Ids(t)[k], t.writes[Ids(t)[k]], ChangedTo(Cancelled))
    else s'.rows == s.rows && s'.events == s.events
  }

  predicate CancelPhase(t: Tx) {
    t.req.CancelSeries? ==> t.phase.Start? || t.phase.Sweeping? || t.phase.Failed?
  }

  lemma StepKeepsCancelPhase(s: State, a: Action)
    requires forall t :: t in s.txs ==> CancelPhase(s.txs[t])
    ensures forall t :: t in Step(s, a).txs ==> CancelPhase(Step(s, a).txs[t])
  {
  }

  lemma {:induction false} NeverApplied(actions: seq<Action>)
    ensures forall t :: t in Run(EMPTY, actions).txs ==> CancelPhase(Run(EMPTY, actions).txs[t])
  {
    if actions != [] {
      NeverApplied(actions[..|actions| - 1]);
      StepKeepsCancelPhase(Run(EMPTY, actions[..|actions| - 1]), actions[|actions| - 1]);
    }
  }
}
