/** The two views of one booking request meet: when nobody else is writing, the statements of the
    protocol do what the services say they do. */
module SeriesRefinement {
  import opened Wrappers
  import opened BookingDomain
  import opened BookingProtocol
  import opened Sequences
  import opened BookingSeries
  import R = RecurrenceServiceModule

  /** Nobody but this request has uncommitted rows. */
  predicate Alone(s: State, tid: int) {
    forall u :: u in s.txs && u != tid ==> s.txs[u].writes == map[]
  }

  /** An insert of a row under a new id, and the event that follows it. */
  function Place(s: State, tid: int, id: int): State {
    Step(Step(s, Insert(tid, id)), Emit(tid))
  }

  /** If the slot is free in the request's own view, the row and its event are there; if it is not, the
      occurrence is skipped or the request fails. */
  lemma PlaceAlone(s: State, tid: int, id: int)
    requires tid in s.txs && Alone(s, tid) && !KnownId(s, id)
    requires s.txs[tid].req.Book? && s.txs[tid].phase.Inserting? && s.txs[tid].owed == []
    requires s.txs[tid].phase.next < |s.txs[tid].req.slots|
    ensures
      var t := s.txs[tid]; var slot := t.req.slots[t.phase.next];
      var b := Booking(t.tenant, t.req.staff, t.req.service, t.req.customer, t.req.price,
                       slot.startsAt, slot.endsAt, Pending, t.req.series, 1);
      Place(s, tid, id) == SetTx(s, tid,
        if SlotFree(s.rows + t.writes, id, b) then
          t.(phase := Inserting(t.phase.next + 1), writes := t.writes[id := b], events := t.events + [Emitted(id, b, Created)])
        else
          t.(phase := if t.req.skip then Inserting(t.phase.next + 1) else Failed))
  {
    var t := s.txs[tid];
    var b := Fresh(t, t.req.slots[t.phase.next]);
    assert !PendingConflict(s, tid, id, b);
    assert SettledConflict(s, tid, id, b) <==> !SlotFree(s.rows + t.writes, id, b) by {
      if j :| j in View(s, t) && j != id && Conflict(b, View(s, t)[j]) { assert !LockedByOther(s, tid, j); }
    }
    assert ([] + [id])[1..] == [];
  }

  lemma PlacedCommits(s: State, tid: int, t: Tx)
    requires tid !in s.txs && t.req.Book? && t.owed == []
    ensures t.phase == Inserting(|t.req.slots|) ==>
      Step(SetTx(s, tid, t), Commit(tid)) == s.(rows := s.rows + t.writes, events := s.events + t.events)
    ensures t.phase == Failed ==>
      Step(SetTx(s, tid, t), Commit(tid)) == SetTx(s, tid, t) && Step(SetTx(s, tid, t), Rollback(tid)) == s
  {
    assert SetTx(s, tid, t).txs - {tid} == s.txs;
  }

  /** A booking request that nobody disturbs is made exactly if its slot is free, and otherwise leaves
      everything as it was. */
  lemma QuietBookingCommits(s: State, tid: int, tenant: int, req: Request, id: int)
    requires tid !in s.txs && Alone(s, tid) && id !in s.rows
    requires req.Book? && |req.slots| == 1 && !req.skip
    ensures
      var b := Booking(tenant, req.staff, req.service, req.customer, req.price,
                       req.slots[0].startsAt, req.slots[0].endsAt, Pending, req.series, 1);
      var s' := Place(Step(s, Begin(tid, tenant, req)), tid, id);
      if SlotFree(s.rows, id, b) then
        Step(s', Commit(tid)) == s.(rows := s.rows[id := b], events := s.events + [Emitted(id, b, Created)])
      else
        Step(s', Commit(tid)) == s' && Step(s', Rollback(tid)) == s
  {
    var s1 := Step(s, Begin(tid, tenant, req));
    PlaceAlone(s1, tid, id);
    assert s.rows + map[] == s.rows;
    var s' := Place(s1, tid, id);
    assert s' == SetTx(s, tid, s'.txs[tid]);
    PlacedCommits(s, tid, s'.txs[tid]);
    var b := Fresh(s1.txs[tid], req.slots[0]);
    assert s.rows + map[][id := b] == s.rows[id := b] && [] + [Emitted(id, b, Created)] == [Emitted(id, b, Created)];
  }

  // ----- a whole series -----

  /** The request is for these occurrences of this series. */
  predicate For(req: Request, series: R.Series, starts: seq<int>) {
    && req.Book? && req.staff == series.spec.staff && req.service == series.spec.service
    && req.customer == series.spec.customer && req.price == series.spec.price && req.series == Some(series.recurrence)
    && |starts| <= |req.slots|
    && forall k :: 0 <= k < |starts| ==> req.slots[k] == Slot(starts[k], starts[k] + series.spec.durationMs)
  }

  function Best(s: State, nextId: nat, series: R.Series, starts: seq<int>): R.Outcome {
    R.FirstFit(R.Nothing(s.rows, s.events, nextId), series, starts)
  }

  /** The request places these occurrences in turn, drawing ids upwards. */
  function PlaceAll(s: State, tid: int, nextId: nat, series: R.Series, starts: seq<int>): State {
    if starts == [] then s
    else
      var init := starts[..|starts| - 1];
      Place(PlaceAll(s, tid, nextId, series, init), tid, Best(s, nextId, series, init).nextId)
  }

  /** The request has placed what first fit places. */
  predicate Matches(s: State, s': State, tid: int, r: R.Outcome, n: nat)
    requires tid in s.txs && s.txs[tid].req.Book?
  {
    && tid in s'.txs && s' == SetTx(s, tid, s'.txs[tid])
    && s'.txs[tid].req == s.txs[tid].req && s'.txs[tid].tenant == s.txs[tid].tenant
    && if s.txs[tid].req.skip || r.skipped == [] then
         && s'.txs[tid].phase == Inserting(n) && s'.txs[tid].owed == []
         && s.rows + s'.txs[tid].writes == r.rows && s.events + s'.txs[tid].events == r.events
       else s'.txs[tid].phase == Failed
  }

  lemma PlaceMatches(s: State, s': State, tid: int, series: R.Series, r: R.Outcome, n: nat, startsAt: int)
    requires tid in s.txs && Alone(s, tid) && s.txs[tid].req.Book? && Matches(s, s', tid, r, n)
    requires n < |s.txs[tid].req.slots| && s.txs[tid].tenant == series.tenant
    requires Fresh(s.txs[tid], s.txs[tid].req.slots[n]) == R.Occurrence(series, startsAt)
    requires R.IdsBelow(r.rows, r.nextId) && R.Extends(s.rows, r.rows)
    ensures Matches(s, Place(s', tid, r.nextId), tid, R.Place(r, series, startsAt), n + 1)
  {
    var t, t' := s.txs[tid], s'.txs[tid];
    if t.req.skip || r.skipped == [] {
      assert !KnownId(s', r.nextId) by {
        assert r.nextId !in r.rows;
        assert r.nextId !in s.rows + t'.writes;
      }
      PlaceAlone(s', tid, r.nextId);
      var b := R.Occurrence(series, startsAt);
      assert s.rows + t'.writes[r.nextId := b] == r.rows[r.nextId := b];
      assert s.events + (t'.events + [Emitted(r.nextId, b, Created)]) == r.events + [Emitted(r.nextId, b, Created)];
    }
  }

  lemma {:induction false} PlaceAllMatches(s: State, tid: int, nextId: nat, series: R.Series, starts: seq<int>)
    requires tid in s.txs && Alone(s, tid) && R.IdsBelow(s.rows, nextId)
    requires For(s.txs[tid].req, series, starts) && s.txs[tid] == Tx(series.tenant, s.txs[tid].req, Inserting(0), map[], [], [])
    ensures Matches(s, PlaceAll(s, tid, nextId, series, starts), tid, Best(s, nextId, series, starts), |starts|)
  {
    if starts == [] {
      assert s.rows + map[] == s.rows && s.events + [] == s.events && s.txs[tid := s.txs[tid]] == s.txs;
    } else {
      var n := |starts| - 1;
      PlaceAllMatches(s, tid, nextId, series, starts[..n]);
      R.FirstFitIsSound(s.rows, s.events, nextId, series, starts[..n]);
      PlaceMatches(s, PlaceAll(s, tid, nextId, series, starts[..n]), tid, series, Best(s, nextId, series, starts[..n]), n, starts[n]);
    }
  }

  /** A request that has placed all its occurrences commits them; one that failed is rolled back. */
  lemma EndMatches(s: State, t: Tx, s': State, tid: int, r: R.Outcome)
    requires tid !in s.txs && t.req.Book? && Matches(SetTx(s, tid, t), s', tid, r, |t.req.slots|)
    ensures t.req.skip || r.skipped == [] ==> Step(s', Commit(tid)) == s.(rows := r.rows, events := r.events)
    ensures !t.req.skip && r.skipped != [] ==> Step(s', Commit(tid)) == s' && Step(s', Rollback(tid)) == s
  {
    assert s'.txs - {tid} == s.txs;
  }

  /** The series request of the protocol refines the service's first fit: if nobody else is writing, it
      commits exactly the rows and events of first fit, unless it may not skip and first fit skips
      something; then it can only be rolled back, and nothing has changed. */
  lemma QuietSeriesIsFirstFit(s: State, tid: int, req: Request, nextId: nat, series: R.Series, starts: seq<int>)
    requires tid !in s.txs && Alone(s, tid) && R.IdsBelow(s.rows, nextId)
    requires For(req, series, starts) && |starts| == |req.slots|
    ensures
      var best := Best(s, nextId, series, starts);
      var s' := PlaceAll(Step(s, Begin(tid, series.tenant, req)), tid, nextId, series, starts);
      if req.skip || best.skipped == [] then
        Step(s', Commit(tid)) == s.(rows := best.rows, events := best.events)
      else
        Step(s', Commit(tid)) == s' && Step(s', Rollback(tid)) == s
  {
    var t := Tx(series.tenant, req, Inserting(0), map[], [], []);
    var s1 := Step(s, Begin(tid, series.tenant, req));
    assert s1 == SetTx(s, tid, t);
    PlaceAllMatches(s1, tid, nextId, series, starts);
    EndMatches(s, t, PlaceAll(s1, tid, nextId, series, starts), tid, Best(s, nextId, series, starts));
  }

  // ----- cancelling a series -----

  /** The bulk update visits these rows in turn. */
  function SweepAll(s: State, tid: int, ids: seq<int>): State {
    if ids == [] then Step(s, SweepStart(tid)) else Step(SweepAll(s, tid, ids[..|ids| - 1]), Sweep(tid, ids[|ids| - 1]))
  }

  function EmitAll(s: State, tid: int, n: nat): State {
    if n == 0 then s else Step(EmitAll(s, tid, n - 1), Emit(tid))
  }

  function Elements(ids: seq<int>): set<int> {
    set id | id in ids
  }

  /** The rows of these ids, cancelled. */
  function CancelledRows(rows: Rows, ids: seq<int>): Rows {
    map id | id in rows && id in ids :: CancelledRow(rows[id])
  }

  function CancelledEvents(rows: Rows, ids: seq<int>): seq<Event> {
    if ids == [] then []
    else
      var last := ids[|ids| - 1];
      CancelledEvents(rows, ids[..|ids| - 1]) +
        if last in rows then [Emitted(last, CancelledRow(rows[last]), ChangedTo(Cancelled))] else []
  }

  /** The ids are those of the series' future active rows, each once. */
  ghost predicate Reaches(s: State, t: Tx, ids: seq<int>)
    requires t.req.CancelSeries?
  {
    NoRepeats(ids) && forall id: int :: id in ids <==> id in s.rows && InReach(t, s.rows[id])
  }

  function Swept(t: Tx, rows: Rows, ids: seq<int>, k: nat): Tx
    requires k <= |ids|
  {
    t.(phase := Sweeping(Elements(ids[k..])), writes := CancelledRows(rows, ids[..k]), owed := ids[..k])
  }

  /** Nobody holds the row, and a cancelled row conflicts with none. */
  lemma SweepAlone(s: State, tid: int, id: int)
    requires tid in s.txs && Alone(s, tid) && s.txs[tid].req.CancelSeries? && s.txs[tid].phase.Sweeping?
    requires id in s.txs[tid].phase.left && id in s.rows && InReach(s.txs[tid], s.rows[id])
    ensures
      var t := s.txs[tid];
      Step(s, Sweep(tid, id)) == SetTx(s, tid,
        t.(phase := Sweeping(t.phase.left - {id}), writes := t.writes[id := CancelledRow(s.rows[id])], owed := t.owed + [id]))
  {
    var b := CancelledRow(s.rows[id]);
    assert !SettledConflict(s, tid, id, b) && !PendingConflict(s, tid, id, b);
    assert !LockedByOther(s, tid, id);
  }

  lemma OneMore(rows: Rows, ids: seq<int>, k: nat)
    requires NoRepeats(ids) && k < |ids| && ids[k] in rows
    ensures ids[..k + 1] == ids[..k] + [ids[k]]
    ensures Elements(ids[k..]) - {ids[k]} == Elements(ids[k + 1..]) && ids[k] in Elements(ids[k..])
    ensures CancelledRows(rows, ids[..k])[ids[k] := CancelledRow(rows[ids[k]])] == CancelledRows(rows, ids[..k + 1])
  {
    var id: int :| id == ids[k];
    assert ids[k..][0] == id;
    assert ids[k..] == [id] + ids[k + 1..];
    assert id !in ids[k + 1..];
  }

  lemma SweepOne(s: State, tid: int, t: Tx, ids: seq<int>, k: nat)
    requires tid in s.txs && Alone(s, tid) && t.req.CancelSeries? && Reaches(s, t, ids) && k < |ids|
    ensures Step(SetTx(s, tid, Swept(t, s.rows, ids, k)), Sweep(tid, ids[k])) == SetTx(s, tid, Swept(t, s.rows, ids, k + 1))
  {
    var id: int :| id == ids[k];
    assert id in ids;
    OneMore(s.rows, ids, k);
    SweepAlone(SetTx(s, tid, Swept(t, s.rows, ids, k)), tid, id);
  }

  lemma StartsWith(s: State, tid: int, ids: seq<int>)
    requires tid in s.txs && s.txs[tid].req.CancelSeries? && Reaches(s, s.txs[tid], ids) && s.txs[tid].phase == Start
    ensures Step(s, SweepStart(tid)) == SetTx(s, tid, s.txs[tid].(phase := Sweeping(Elements(ids))))
  {
    var t := s.txs[tid];
    var left := DoSweepStart(s, tid).txs[tid].phase.left;
    forall id: int ensures id in left <==> id in ids {
      assert id in left <==> id in s.rows && InSeries(s.rows[id], t.tenant, t.req.recurrence, t.req.now);
    }
    assert left == Elements(ids);
  }

  lemma {:induction false} SweepAllDoes(s: State, tid: int, ids: seq<int>, k: nat)
    requires tid in s.txs && Alone(s, tid) && s.txs[tid].req.CancelSeries? && Reaches(s, s.txs[tid], ids) && k <= |ids|
    requires s.txs[tid].phase == Start && s.txs[tid].writes == map[] && s.txs[tid].owed == []
    ensures SweepAll(s, tid, ids[..k]) == SetTx(s, tid, Swept(s.txs[tid], s.rows, ids, k))
  {
    if k == 0 {
      assert ids[0..] == ids && ids[..0] == [];
      StartsWith(s, tid, ids);
    } else {
      assert ids[..k][..k - 1] == ids[..k - 1];
      SweepAllDoes(s, tid, ids, k - 1);
      SweepOne(s, tid, s.txs[tid], ids, k - 1);
    }
  }

  lemma EmitNext(s: State, tid: int, rows: Rows, ids: seq<int>, k: nat, events: seq<Event>)
    requires tid in s.txs && s.txs[tid].req.CancelSeries? && s.txs[tid].phase == Sweeping({}) && k < |ids|
    requires s.txs[tid].writes == CancelledRows(rows, ids) && s.txs[tid].owed == ids[k..] && ids[k] in rows
    requires s.txs[tid].events == events + CancelledEvents(rows, ids[..k])
    ensures Step(s, Emit(tid)) ==
      SetTx(s, tid, s.txs[tid].(owed := ids[k + 1..], events := events + CancelledEvents(rows, ids[..k + 1])))
  {
    var id: int :| id == ids[k];
    assert id in ids && ids[k..][0] == id && ids[k..][1..] == ids[k + 1..];
    assert ids[..k + 1][..k] == ids[..k] && ids[..k + 1][k] == id;
    assert events + CancelledEvents(rows, ids[..k + 1])
        == events + CancelledEvents(rows, ids[..k]) + [Emitted(id, CancelledRow(rows[id]), ChangedTo(Cancelled))];
  }

  lemma {:induction false} EmitAllDoes(s: State, tid: int, rows: Rows, ids: seq<int>, k: nat)
    requires tid in s.txs && s.txs[tid].req.CancelSeries? && s.txs[tid].phase == Sweeping({}) && k <= |ids|
    requires s.txs[tid].writes == CancelledRows(rows, ids) && s.txs[tid].owed == ids
    requires forall id :: id in ids ==> id in rows
    ensures EmitAll(s, tid, k) ==
      SetTx(s, tid, s.txs[tid].(owed := ids[k..], events := s.txs[tid].events + CancelledEvents(rows, ids[..k])))
  {
    if k == 0 {
      assert ids[0..] == ids && ids[..0] == [] && s.txs[tid].events + [] == s.txs[tid].events;
    } else {
      EmitAllDoes(s, tid, rows, ids, k - 1);
      var id: int :| id == ids[k - 1];
      assert id in ids;
      EmitNext(EmitAll(s, tid, k - 1), tid, rows, ids, k - 1, s.txs[tid].events);
    }
  }

  lemma SweptCommits(s: State, tid: int, t: Tx)
    requires tid !in s.txs && t.phase == Sweeping({}) && t.owed == []
    ensures Step(SetTx(s, tid, t), Commit(tid)) == s.(rows := s.rows + t.writes, events := s.events + t.events)
  {
    assert SetTx(s, tid, t).txs - {tid} == s.txs;
  }

  /** A cancellation that nobody disturbs cancels every future active booking of the series in that
      tenant, in whatever order they are visited, and records one event for each: no other row changes. */
  lemma QuietCancellationCommits(s: State, tid: int, tenant: int, recurrence: int, now: int, ids: seq<int>)
    requires tid !in s.txs && Alone(s, tid) && NoRepeats(ids)
    requires forall id: int :: id in ids <==>
      && id in s.rows && s.rows[id].recurrence == Some(recurrence) && s.rows[id].tenant == tenant
      && s.rows[id].startsAt > now && (s.rows[id].status == Pending || s.rows[id].status == Confirmed)
    ensures
      var s1 := Step(s, Begin(tid, tenant, CancelSeries(recurrence, now)));
      Step(EmitAll(SweepAll(s1, tid, ids), tid, |ids|), Commit(tid)) ==
        s.(rows := s.rows + CancelledRows(s.rows, ids), events := s.events + CancelledEvents(s.rows, ids))
  {
    var t := Tx(tenant, CancelSeries(recurrence, now), Start, map[], [], []);
    var s1 := Step(s, Begin(tid, tenant, CancelSeries(recurrence, now)));
    assert s1 == SetTx(s, tid, t);
    assert Reaches(s1, t, ids);
    assert ids[..|ids|] == ids && ids[|ids|..] == [];
    SweepAllDoes(s1, tid, ids, |ids|);
    assert Elements(ids[|ids|..]) == {};
    EmitAllDoes(SweepAll(s1, tid, ids), tid, s.rows, ids, |ids|);
    assert [] + CancelledEvents(s.rows, ids) == CancelledEvents(s.rows, ids);
    var t' := t.(phase := Sweeping({}), writes := CancelledRows(s.rows, ids), events := CancelledEvents(s.rows, ids));
    assert EmitAll(SweepAll(s1, tid, ids), tid, |ids|) == SetTx(s, tid, t');
    SweptCommits(s, tid, t');
  }
}
