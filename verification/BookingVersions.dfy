/** Progress and its limit: an uncontended request goes through, and the stale check of a request is
    sound exactly when its version is tolerable for the booking. */
module BookingVersions {
  import opened Wrappers
  import opened BookingDomain
  import opened BookingProtocol
  import opened BookingSlots
  import opened BookingLifecycle
  import Finite

  function Keep(b: Booking): Slot {
    Slot(b.startsAt, b.endsAt)
  }

  /** The statements of one change or move, sent by a client that has just read the booking. */
  function Solo(nid: int, tenant: int, req: Request): seq<Action>
    requires req.Change? || req.Move?
  {
    [Show(req.id), Begin(nid, tenant, req), Check(nid), Update(nid), Emit(nid), Commit(nid)]
  }

  /** No other row, committed or pending, conflicts with this one. */
  predicate Clear(s: State, id: int, b: Booking) {
    && (forall j :: j in s.rows && j != id ==> !Conflict(b, s.rows[j]))
    && (forall u, j :: u in s.txs && j in s.txs[u].writes && j != id ==> !Conflict(b, s.txs[u].writes[j]))
  }

  predicate Unlocked(s: State, id: int) {
    forall u :: u in s.txs ==> id !in s.txs[u].writes
  }

  /** An active row owns its slot: whatever it may turn into there is clear. */
  lemma OwnSlotIsClear(s: State, id: int, b: Booking)
    requires SlotInv(s) && id in s.rows && Active(s.rows[id].status) && Unlocked(s, id)
    requires b.tenant == s.rows[id].tenant && b.staff == s.rows[id].staff
    requires b.startsAt == s.rows[id].startsAt && b.endsAt == s.rows[id].endsAt
    ensures Clear(s, id, b)
  {
    forall j | j in s.rows && j != id ensures !Conflict(b, s.rows[j]) {
      assert !Conflict(s.rows[id], s.rows[j]);
    }
    forall u, j | u in s.txs && j in s.txs[u].writes && j != id ensures !Conflict(b, s.txs[u].writes[j]) {
      assert !Conflict(s.txs[u].writes[j], s.rows[id]);
    }
  }

  /** A clear write succeeds. */
  lemma ClearWrite(s: State, tid: int, id: int, b: Booking, next: Phase, onConflict: Phase)
    requires tid in s.txs && s.txs[tid].writes == map[] && s.txs[tid].owed == []
    requires Clear(s, id, b)
    ensures Write(s, tid, id, b, next, onConflict)
         == SetTx(s, tid, s.txs[tid].(phase := next, writes := map[id := b], owed := [id]))
  {
    assert View(s, s.txs[tid]) == s.rows;
    assert !SettledConflict(s, tid, id, b);
    assert !PendingConflict(s, tid, id, b);
    assert [] + [id] == [id];
    assert map[][id := b] == map[id := b];
  }

  lemma SoloReads(s: State, nid: int, req: Request)
    requires req.Change? || req.Move?
    requires nid !in s.txs && req.id in s.rows && req.version == s.rows[req.id].version
    requires Guarded(req, s.rows[req.id].status)
    ensures Step(Step(Step(s, Show(req.id)), Begin(nid, s.rows[req.id].tenant, req)), Check(nid))
      == SetTx(s.(shown := s.shown + {(req.id, req.version)}), nid,
               Tx(s.rows[req.id].tenant, req, Checked, map[], [], []))
  {
    var s1 := Step(s, Show(req.id));
    var t := Tx(s.rows[req.id].tenant, req, Start, map[], [], []);
    assert Step(s1, Begin(nid, t.tenant, req)) == SetTx(s1, nid, t);
    assert s1.txs[nid := t][nid := t.(phase := Checked)] == s1.txs[nid := t.(phase := Checked)];
  }

  lemma SoloWrites(s: State, nid: int, t: Tx)
    requires t.req.Change? || t.req.Move?
    requires t.phase == Checked && t.writes == map[] && t.events == [] && t.owed == [] && nid in s.txs && s.txs[nid] == t
    requires Visible(s.rows, t.tenant, t.req.id) && t.req.version == s.rows[t.req.id].version
    requires Unlocked(s, t.req.id) && Clear(s, t.req.id, Updated(t.req, s.rows[t.req.id]))
    ensures Step(s, Update(nid))
      == SetTx(s, nid, t.(phase := Applied, writes := map[t.req.id := Updated(t.req, s.rows[t.req.id])], owed := [t.req.id]))
  {
    ClearWrite(s, nid, t.req.id, Updated(t.req, s.rows[t.req.id]), Applied, Failed);
  }

  lemma SoloEnds(s: State, nid: int, id: int, b: Booking)
    requires nid in s.txs && s.txs[nid].phase == Applied && s.txs[nid].writes == map[id := b]
    requires s.txs[nid].events == [] && s.txs[nid].owed == [id]
    ensures Step(Step(s, Emit(nid)), Commit(nid))
      == s.(rows := s.rows[id := b], events := s.events + [Emitted(id, b, KindOf(s.txs[nid].req))], txs := s.txs - {nid})
  {
    var t := s.txs[nid];
    var e := Emitted(id, b, KindOf(t.req));
    assert [] + [e] == [e] && [id][1..] == [];
    var s5 := Step(s, Emit(nid));
    assert s5 == SetTx(s, nid, t.(events := [e], owed := []));
    assert s5.txs - {nid} == s.txs - {nid};
    assert s.rows + map[id := b] == s.rows[id := b];
  }

  /** A guarded request at the current version, on a row that nobody has locked and for a slot that is
      clear, commits: exactly that row changes and exactly one event is recorded. */
  lemma UncontendedRequestCommits(s: State, nid: int, req: Request)
    requires req.Change? || req.Move?
    requires nid !in s.txs && req.id in s.rows && req.version == s.rows[req.id].version
    requires Unlocked(s, req.id)
    requires Guarded(req, s.rows[req.id].status) && Clear(s, req.id, Updated(req, s.rows[req.id]))
    ensures
      var b := Updated(req, s.rows[req.id]);
      Run(s, Solo(nid, s.rows[req.id].tenant, req))
        == s.(rows := s.rows[req.id := b], events := s.events + [Emitted(req.id, b, KindOf(req))],
              shown := s.shown + {(req.id, req.version)})
  {
    var id, tenant := req.id, s.rows[req.id].tenant;
    var b := Updated(req, s.rows[id]);
    var t := Tx(tenant, req, Checked, map[], [], []);
    var s3 := SetTx(s.(shown := s.shown + {(id, req.version)}), nid, t);
    SoloReads(s, nid, req);
    assert Clear(s3, id, b);
    SoloWrites(s3, nid, t);
    var t4 := t.(phase := Applied, writes := map[id := b], owed := [id]);
    SoloEnds(SetTx(s3, nid, t4), nid, id, b);
    assert SetTx(s3, nid, t4).txs - {nid} == s.txs;
    RunSolo(s, nid, tenant, req);
  }

  /** What a change or a move is refused for: a row that is not there for this tenant, a status that does
      not allow it, another version. */
  predicate Refusable(s: State, tenant: int, req: Request)
    requires req.Change? || req.Move?
  {
    || req.id !in s.rows || s.rows[req.id].tenant != tenant || s.rows[req.id].version != req.version
    || (req.Change? && !CanTransition(s.rows[req.id].status, req.to))
    || (req.Move? && s.rows[req.id].status != Pending && s.rows[req.id].status != Confirmed)
  }

  /** A failed request can do nothing more; only its rollback is left. */
  lemma FailedIsFinal(s: State, tid: int, id: int)
    requires tid in s.txs && s.txs[tid].phase == Failed
    ensures Step(s, Check(tid)) == Step(s, Update(tid)) == Step(s, Insert(tid, id)) == Step(s, SweepStart(tid))
      == Step(s, Sweep(tid, id)) == Step(s, Emit(tid)) == Step(s, Commit(tid)) == s
  {
  }

  /** Such a request fails, by the end of its update, and its rollback leaves everything as before. */
  lemma RefusedRequestFails(s: State, tid: int, tenant: int, req: Request)
    requires tid !in s.txs && (req.Change? || req.Move?) && Refusable(s, tenant, req)
    ensures
      var s' := Step(Step(Step(s, Guess(tid, tenant, req)), Check(tid)), Update(tid));
      tid in s'.txs && s'.txs[tid].phase == Failed && Step(s', Rollback(tid)) == s
  {
    var s' := Step(Step(Step(s, Guess(tid, tenant, req)), Check(tid)), Update(tid));
    assert s'.txs == s.txs[tid := Tx(tenant, req, Failed, map[], [], [])];
    assert s'.txs - {tid} == s.txs;
  }

  lemma RunSolo(s: State, nid: int, tenant: int, req: Request)
    requires req.Change? || req.Move?
    ensures Run(s, Solo(nid, tenant, req)) ==
      Step(Step(Step(Step(Step(Step(s, Show(req.id)), Begin(nid, tenant, req)), Check(nid)), Update(nid)), Emit(nid)), Commit(nid))
  {
    var x := Solo(nid, tenant, req);
    assert Run(s, []) == s;
    RunAppend(s, [], x[0]); RunAppend(s, [x[0]], x[1]); RunAppend(s, x[..2], x[2]);
    RunAppend(s, x[..3], x[3]); RunAppend(s, x[..4], x[4]); RunAppend(s, x[..5], x[5]);
    assert [] + [x[0]] == [x[0]] && [x[0]] + [x[1]] == x[..2] && x[..2] + [x[2]] == x[..3];
    assert x[..3] + [x[3]] == x[..4] && x[..4] + [x[4]] == x[..5] && x[..5] + [x[5]] == x;
  }

  // ----- a version from the future -----

  lemma {:induction false} RunKeepsSlots(s: State, more: seq<Action>)
    requires SlotInv(s)
    ensures SlotInv(Run(s, more))
  {
    if more != [] {
      RunKeepsSlots(s, more[..|more| - 1]);
      StepKeepsSlots(Run(s, more[..|more| - 1]), more[|more| - 1]);
    }
  }

  /** An active booking that nobody has locked can be moved within its own slot `k` times. */
  lemma {:induction false} Touch(s: State, id: int, k: nat) returns (more: seq<Action>)
    requires SlotInv(s) && id in s.rows && Active(s.rows[id].status) && Unlocked(s, id)
    ensures Honest(more)
    ensures Run(s, more).txs == s.txs
    ensures Run(s, more).rows == s.rows[id := s.rows[id].(version := s.rows[id].version + k)]
  {
    if k == 0 {
      more := [];
      assert s.rows[id := s.rows[id]] == s.rows;
    } else {
      var before := Touch(s, id, k - 1);
      var s' := Run(s, before);
      RunKeepsSlots(s, before);
      var nid := Finite.Beyond(s'.txs.Keys);
      var req := Move(id, s'.rows[id].version, Keep(s'.rows[id]));
      OwnSlotIsClear(s', id, Updated(req, s'.rows[id]));
      UncontendedRequestCommits(s', nid, req);
      var solo := Solo(nid, s'.rows[id].tenant, req);
      RunJoin(s, before, solo);
      more := before + solo;
    }
  }

  /** The transaction that holds the row, if any, gives up. */
  lemma Unlock(s: State, tid: int, id: int) returns (more: seq<Action>)
    requires SlotInv(s) && tid in s.txs && s.txs[tid].writes == map[]
    ensures Honest(more) && SlotInv(Run(s, more))
    ensures Run(s, more).rows == s.rows
    ensures tid in Run(s, more).txs && Run(s, more).txs[tid] == s.txs[tid]
    ensures Unlocked(Run(s, more), id)
  {
    if u :| u in s.txs && id in s.txs[u].writes {
      more := [Rollback(u)];
      assert [Rollback(u)][..0] == [];
      assert Run(s, more) == Step(s, Rollback(u));
      StepKeepsSlots(s, Rollback(u));
    } else {
      more := [];
    }
  }

  /** Another client changes the status of an active booking. */
  lemma ChangeBy(s: State, id: int, to: Status) returns (more: seq<Action>)
    requires SlotInv(s) && id in s.rows && CanTransition(s.rows[id].status, to) && Unlocked(s, id)
    ensures Honest(more) && SlotInv(Run(s, more))
    ensures Run(s, more).rows == s.rows[id := WithStatus(s.rows[id], to)]
    ensures Run(s, more).txs == s.txs
  {
    var req := Change(id, s.rows[id].version, to);
    var nid := Finite.Beyond(s.txs.Keys);
    OwnSlotIsClear(s, id, Updated(req, s.rows[id]));
    UncontendedRequestCommits(s, nid, req);
    more := Solo(nid, s.rows[id].tenant, req);
    RunKeepsSlots(s, more);
  }

  /** Other clients bring the booking to any later version and cancel it on the way. */
  lemma CancelAt(s: State, tid: int, id: int, version: nat) returns (more: seq<Action>)
    requires SlotInv(s) && tid in s.txs && s.txs[tid].writes == map[]
    requires id in s.rows && Active(s.rows[id].status) && s.rows[id].version < version
    ensures Honest(more)
    ensures Run(s, more).rows == s.rows[id := s.rows[id].(status := Cancelled, version := version)]
    ensures tid in Run(s, more).txs && Run(s, more).txs[tid] == s.txs[tid]
    ensures Unlocked(Run(s, more), id)
    ensures forall b: Booking :: SameSlot(b, s.rows[id]) ==> Clear(Run(s, more), id, b)
  {
    var a1 := Unlock(s, tid, id);
    var s1 := Run(s, a1);
    var a2 := Touch(s1, id, version - s.rows[id].version - 1);
    var s2 := Run(s1, a2);
    RunKeepsSlots(s1, a2);
    var a3 := ChangeBy(s2, id, Cancelled);
    RunJoin(s, a1, a2); RunJoin(s, a1 + a2, a3);
    more := a1 + a2 + a3;
    forall b: Booking | SameSlot(b, s.rows[id]) ensures Clear(Run(s, more), id, b) {
      OwnSlotIsClear(s2, id, b);
    }
  }

  predicate SameSlot(a: Booking, b: Booking) {
    a.tenant == b.tenant && a.staff == b.staff && a.startsAt == b.startsAt && a.endsAt == b.endsAt
  }

  /** After these honest steps the commit of this transaction breaks the lifecycle. */
  predicate Breaks(s: State, more: seq<Action>, tid: int) {
    Honest(more) && !RowsStep(Run(s, more).rows, Step(Run(s, more), Commit(tid)).rows)
  }

  lemma BreaksLater(s: State, a: seq<Action>, b: seq<Action>, tid: int)
    requires Honest(a) && Breaks(Run(s, a), b, tid)
    ensures Breaks(s, a + b, tid)
  {
    RunJoin(s, a, b);
  }

  /** A checked request whose row was cancelled at just the presented version goes through. */
  lemma CommitOverCancelled(s: State, tid: int, t: Tx) returns (more: seq<Action>)
    requires t.req.Change? || t.req.Move?
    requires t.phase == Checked && t.writes == map[] && t.events == [] && t.owed == []
    requires tid in s.txs && s.txs[tid] == t && Visible(s.rows, t.tenant, t.req.id)
    requires s.rows[t.req.id].version == t.req.version && s.rows[t.req.id].status == Cancelled
    requires Unlocked(s, t.req.id) && Clear(s, t.req.id, Updated(t.req, s.rows[t.req.id]))
    ensures Breaks(s, more, tid)
  {
    var id := t.req.id;
    more := [Update(tid), Emit(tid)];
    SoloWrites(s, tid, t);
    SoloEnds(Step(s, Update(tid)), tid, id, Updated(t.req, s.rows[id]));
    assert Run(s, []) == s;
    RunAppend(s, [], Update(tid)); RunAppend(s, [Update(tid)], Emit(tid));
    assert [] + [Update(tid)] == [Update(tid)] && [Update(tid)] + [Emit(tid)] == more;
    assert Run(s, more).rows == s.rows;
  }

  /** What can happen between the check and the update of a request with a version from the future. */
  lemma Overtake(s: State, tid: int, t: Tx) returns (more: seq<Action>)
    requires SlotInv(s) && tid in s.txs && s.txs[tid] == t && (t.req.Change? || t.req.Move?)
    requires t.phase == Checked && t.writes == map[] && t.events == [] && t.owed == []
    requires Visible(s.rows, t.tenant, t.req.id) && Active(s.rows[t.req.id].status)
    requires s.rows[t.req.id].version < t.req.version
    ensures Breaks(s, more, tid)
  {
    var id := t.req.id;
    var a := CancelAt(s, tid, id, t.req.version);
    var s' := Run(s, a);
    assert t.req.Change? ==> SameSlot(Updated(t.req, s'.rows[id]), s.rows[id]);
    assert t.req.Move? ==> !Active(Updated(t.req, s'.rows[id]).status);
    assert Clear(s', id, Updated(t.req, s'.rows[id]));
    var b := CommitOverCancelled(s', tid, t);
    BreaksLater(s, a, b, tid);
    more := a + b;
  }

  /** A request that has just begun. */
  predicate Begun(s: State, tid: int, t: Tx) {
    && tid in s.txs && s.txs[tid] == t && (t.req.Change? || t.req.Move?)
    && t == Tx(t.tenant, t.req, Start, map[], [], [])
  }

  lemma GuardedCanBreak(s: State, tid: int, t: Tx) returns (more: seq<Action>)
    requires SlotInv(s) && Begun(s, tid, t) && Visible(s.rows, t.tenant, t.req.id)
    requires Guarded(t.req, s.rows[t.req.id].status) && s.rows[t.req.id].version < t.req.version
    ensures Breaks(s, more, tid)
  {
    var s' := Step(s, Check(tid));
    StepKeepsSlots(s, Check(tid));
    var b := Overtake(s', tid, t.(phase := Checked));
    assert [Check(tid)][..0] == [];
    assert Run(s, [Check(tid)]) == s';
    BreaksLater(s, [Check(tid)], b, tid);
    more := [Check(tid)] + b;
  }

  lemma RowCanBreak(s: State, tid: int, t: Tx) returns (more: seq<Action>)
    requires SlotInv(s) && Begun(s, tid, t) && Visible(s.rows, t.tenant, t.req.id)
    requires !Tolerates(s.rows[t.req.id].status, s.rows[t.req.id].version, t.req)
    ensures Breaks(s, more, tid)
  {
    if Guarded(t.req, s.rows[t.req.id].status) {
      more := GuardedCanBreak(s, tid, t);
    } else {
      var a := Unlock(s, tid, t.req.id);
      var b := ChangeBy(Run(s, a), t.req.id, Confirmed);
      RunJoin(s, a, b);
      var c := GuardedCanBreak(Run(s, a + b), tid, t);
      BreaksLater(s, a + b, c, tid);
      more := a + b + c;
    }
  }

  /** A booking request for one empty slot, which nothing can oppose. */
  function Fill(nid: int, id: int, tenant: int): seq<Action> {
    [Begin(nid, tenant, Blank())] + [Insert(nid, id)] + [Emit(nid)] + [Commit(nid)]
  }

  function Blank(): Request {
    Book(0, 0, 0, 0, [Slot(0, 0)], None, false)
  }

  lemma RunFill(s: State, nid: int, id: int, tenant: int)
    ensures Run(s, Fill(nid, id, tenant))
      == Step(Step(Step(Step(s, Begin(nid, tenant, Blank())), Insert(nid, id)), Emit(nid)), Commit(nid))
  {
    RunAppend(s, [], Begin(nid, tenant, Blank()));
    RunAppend(s, [Begin(nid, tenant, Blank())], Insert(nid, id));
    RunAppend(s, [Begin(nid, tenant, Blank())] + [Insert(nid, id)], Emit(nid));
    RunAppend(s, [Begin(nid, tenant, Blank())] + [Insert(nid, id)] + [Emit(nid)], Commit(nid));
    assert [] + [Begin(nid, tenant, Blank())] == [Begin(nid, tenant, Blank())];
  }

  lemma FillInserts(s: State, nid: int, id: int, tenant: int)
    requires nid !in s.txs && id !in s.rows && Unlocked(s, id)
    ensures
      var t := Tx(tenant, Blank(), Inserting(1), map[id := Fresh(Tx(tenant, Blank(), Start, map[], [], []), Slot(0, 0))], [], [id]);
      Step(Step(s, Begin(nid, tenant, Blank())), Insert(nid, id)) == SetTx(s, nid, t)
  {
    var t := Tx(tenant, Blank(), Inserting(0), map[], [], []);
    var b, s1 := Fresh(t, Slot(0, 0)), SetTx(s, nid, t);
    assert Clear(s1, id, b);
    ClearWrite(s1, nid, id, b, Inserting(1), Failed);
    assert s1 == Step(s, Begin(nid, tenant, Blank()));
    assert !KnownId(s1, id);
  }

  lemma FillCommits(s: State, nid: int, t: Tx, id: int)
    requires nid in s.txs && s.txs[nid] == t && t.req == Blank() && t.phase == Inserting(1)
    requires t.writes.Keys == {id} && t.owed == [id] && t.events == []
    ensures
      var s' := Step(Step(s, Emit(nid)), Commit(nid));
      s'.rows == s.rows + t.writes && s'.txs == s.txs - {nid}
  {
    assert id in t.writes && [id][1..] == [];
    var s1 := Step(s, Emit(nid));
    assert s1.txs[nid].owed == [] && s1.txs - {nid} == s.txs - {nid};
  }

  lemma FillMakesBooking(s: State, nid: int, id: int, tenant: int)
    requires nid !in s.txs && id !in s.rows && Unlocked(s, id)
    ensures
      var s', b := Run(s, Fill(nid, id, tenant)), Booking(tenant, 0, 0, 0, 0, 0, 0, Pending, None, 1);
      s'.rows == s.rows[id := b] && s'.txs == s.txs
  {
    RunFill(s, nid, id, tenant);
    FillInserts(s, nid, id, tenant);
    var s2 := Step(Step(s, Begin(nid, tenant, Blank())), Insert(nid, id));
    FillCommits(s2, nid, s2.txs[nid], id);
    assert s2.txs - {nid} == s.txs;
  }

  lemma IntolerableCanBreak(s: State, tid: int, t: Tx) returns (more: seq<Action>)
    requires SlotInv(s) && Begun(s, tid, t) && !Tolerable(s.rows, t.tenant, t.req)
    ensures Breaks(s, more, tid)
  {
    if t.req.id in s.rows {
      more := RowCanBreak(s, tid, t);
    } else {
      var a := Unlock(s, tid, t.req.id);
      var s1 := Run(s, a);
      var nid := Finite.Beyond(s1.txs.Keys);
      FillMakesBooking(s1, nid, t.req.id, t.tenant);
      var b := Fill(nid, t.req.id, t.tenant);
      RunJoin(s, a, b);
      RunKeepsSlots(s, a + b);
      var c := RowCanBreak(Run(s, a + b), tid, t);
      BreaksLater(s, a + b, c, tid);
      more := a + b + c;
    }
  }

  ghost predicate AlwaysLegal(s: State) {
    forall more: seq<Action>, a: Action :: Honest(more) && !a.Guess? ==> RowsStep(Run(s, more).rows, Step(Run(s, more), a).rows)
  }

  lemma {:induction false} ContinuationsKeepInv(s: State, more: seq<Action>)
    requires Inv(s) && Honest(more)
    ensures Inv(Run(s, more))
  {
    if more != [] {
      ContinuationsKeepInv(s, more[..|more| - 1]);
      StepKeepsInv(Run(s, more[..|more| - 1]), more[|more| - 1]);
    }
  }

  lemma TolerableIsSound(s: State, tid: int, tenant: int, req: Request)
    requires Inv(s) && (req.Change? || req.Move?) && tid !in s.txs && Tolerable(s.rows, tenant, req)
    ensures AlwaysLegal(Step(s, Guess(tid, tenant, req)))
  {
    var a := Guess(tid, tenant, req);
    var s1 := Step(s, a);
    StepKeepsSlots(s, a);
    SetTxKeepsTxs(s, tid, s1.txs[tid]);
    assert Inv(s1);
    forall more: seq<Action>, b: Action | Honest(more) && !b.Guess?
      ensures RowsStep(Run(s1, more).rows, Step(Run(s1, more), b).rows)
    {
      ContinuationsKeepInv(s1, more);
      StepKeepsInv(Run(s1, more), b);
    }
  }

  lemma IntolerableIsUnsound(s: State, tid: int, tenant: int, req: Request)
    requires SlotInv(s) && (req.Change? || req.Move?) && tid !in s.txs && !Tolerable(s.rows, tenant, req)
    ensures !AlwaysLegal(Step(s, Guess(tid, tenant, req)))
  {
    var s1 := Step(s, Guess(tid, tenant, req));
    StepKeepsSlots(s, Guess(tid, tenant, req));
    var more := IntolerableCanBreak(s1, tid, s1.txs[tid]);
    assert Honest(more) && !Commit(tid).Guess?;
  }

  /** The exact limit of the optimistic check, for any status change or reschedule of any booking. A
      client sends some version with it: every continuation of the run stays legal if and only if
      that version is tolerable for the booking as it is now. */
  lemma StaleCheckIsSoundExactly(actions: seq<Action>, tid: int, tenant: int, req: Request)
    requires Honest(actions) && (req.Change? || req.Move?) && tid !in Run(EMPTY, actions).txs
    ensures
      var s := Run(EMPTY, actions);
      AlwaysLegal(Step(s, Guess(tid, tenant, req))) <==> Tolerable(s.rows, tenant, req)
  {
    RunKeepsInv(actions);
    var s := Run(EMPTY, actions);
    if Tolerable(s.rows, tenant, req) {
      TolerableIsSound(s, tid, tenant, req);
    } else {
      IntolerableIsUnsound(s, tid, tenant, req);
    }
  }
}
