/** How events are marked: each one that a committed batch handled, according to how its own delivery
    went, and no other. */
module OutboxMarks {
  import opened Sequences
  import opened OutboxDomain
  import opened OutboxProtocol

  predicate MarkedSoFar(s: State, b: Batch) {
    && b.next <= |b.ids| && |b.outcomes| == b.next
    && (forall k :: 0 <= k < b.next ==>
          b.ids[k] in s.events && b.ids[k] in b.marks
          && Handled(s.events[b.ids[k]], b.marks[b.ids[k]], b.outcomes[k].delivered, b.outcomes[k].at))
    && (forall id :: id in b.marks ==> exists k :: 0 <= k < b.next && b.ids[k] == id)
  }

  predicate AllMarked(s: State) {
    forall r :: r in s.batches ==> MarkedSoFar(s, s.batches[r])
  }

  lemma MarkExtends(s: State, r: int)
    requires Inv(s) && Handling(s, r) && MarkedSoFar(s, s.batches[r])
    ensures r in DoMark(s, r).batches && MarkedSoFar(s, DoMark(s, r).batches[r])
  {
    var b, b', e := s.batches[r], DoMark(s, r).batches[r], Current(s, r);
    CurrentOk(s, r);
    MarksHandle(e, s.now);
    if b' != b {
      forall id | id in b'.marks ensures exists k :: 0 <= k < b'.next && b'.ids[k] == id {
        if id in b.marks {
          var k :| 0 <= k < b.next && b.ids[k] == id;
        } else {
          assert b'.ids[b.next] == id;
        }
      }
      forall k | 0 <= k < b.next ensures b.ids[k] != b.ids[b.next] { }
    }
  }

  lemma MarkKeepsMarked(s: State, r: int)
    requires Inv(s) && AllMarked(s)
    ensures AllMarked(Step(s, Mark(r)))
  {
    if Handling(s, r) {
      var s' := DoMark(s, r);
      MarkExtends(s, r);
      forall q | q in s'.batches ensures MarkedSoFar(s', s'.batches[q]) {
        if q != r { assert MarkedSoFar(s, s.batches[q]); }
      }
    }
  }

  lemma OthersIds(s: State, q: int, r: int, k: nat)
    requires Inv(s) && q in s.batches && r in s.batches && q != r && k < |s.batches[q].ids|
    ensures s.batches[q].ids[k] !in s.batches[r].marks
  {
    var id: int :| id == s.batches[q].ids[k];
    assert id in s.batches[q].ids && BatchOk(s, s.batches[r]);
  }

  lemma CommitKeepsMarked(s: State, r: int)
    requires Inv(s) && AllMarked(s)
    ensures AllMarked(Step(s, Commit(r)))
  {
    var s' := Step(s, Commit(r));
    if s' != s {
      assert BatchOk(s, s.batches[r]);
      forall q | q in s'.batches ensures MarkedSoFar(s', s'.batches[q]) {
        var b := s.batches[q];
        assert MarkedSoFar(s, b);
        forall k | 0 <= k < b.next ensures b.ids[k] !in s.batches[r].marks {
          OthersIds(s, q, r, k);
        }
      }
    }
  }

  lemma Carries(s: State, s': State, b: Batch)
    requires MarkedSoFar(s, b) && forall id :: id in s.events ==> id in s'.events && s'.events[id] == s.events[id]
    ensures MarkedSoFar(s', b)
  {
    forall k | 0 <= k < b.next ensures b.ids[k] in s'.events && s'.events[b.ids[k]] == s.events[b.ids[k]] {
      var id: int :| id == b.ids[k];
      assert id in s.events;
    }
  }

  lemma ProgressIsUnmarked(s: State, a: Action, q: int)
    requires !a.Mark? && !a.Commit? && q in Step(s, a).batches
    ensures
      var b := Step(s, a).batches[q];
      if q in s.batches then b == s.batches[q].(stage := b.stage)
      else b.next == 0 && b.outcomes == [] && b.marks == map[]
    ensures forall id :: id in s.events ==> id in Step(s, a).events && Step(s, a).events[id] == s.events[id]
  {
  }

  lemma OthersKeepMarked(s: State, a: Action)
    requires AllMarked(s) && !a.Mark? && !a.Commit?
    ensures AllMarked(Step(s, a))
  {
    var s' := Step(s, a);
    forall q | q in s'.batches ensures MarkedSoFar(s', s'.batches[q]) {
      ProgressIsUnmarked(s, a, q);
      if q in s.batches {
        assert MarkedSoFar(s, s'.batches[q]) by { assert MarkedSoFar(s, s.batches[q]); }
        Carries(s, s', s'.batches[q]);
      }
    }
  }

  lemma {:induction false} RunKeepsMarked(actions: seq<Action>)
    ensures AllMarked(Run(EMPTY, actions))
  {
    if actions != [] {
      var n := |actions| - 1;
      RunKeepsMarked(actions[..n]);
      RelayIsSafe(actions[..n]);
      match actions[n]
      case Mark(r) => MarkKeepsMarked(Run(EMPTY, actions[..n]), r);
      case Commit(r) => CommitKeepsMarked(Run(EMPTY, actions[..n]), r);
      case _ => OthersKeepMarked(Run(EMPTY, actions[..n]), actions[n]);
    }
  }

  /** In every run, the commit of a batch marks each of its own events as its delivery went: dispatched,
      or one attempt further and put off or given up. */
  lemma CommitMarksAsDelivered(actions: seq<Action>, r: int, k: nat)
    requires r in Run(EMPTY, actions).batches && k < |Run(EMPTY, actions).batches[r].ids|
    requires Run(EMPTY, actions).batches[r].next == |Run(EMPTY, actions).batches[r].ids|
    ensures
      var s := Run(EMPTY, actions); var b := s.batches[r]; var s' := Step(s, Commit(r));
      && |b.outcomes| == |b.ids| && b.ids[k] in s.events && b.ids[k] in s'.events
      && Handled(s.events[b.ids[k]], s'.events[b.ids[k]], b.outcomes[k].delivered, b.outcomes[k].at)
  {
    RunKeepsMarked(actions);
    var s := Run(EMPTY, actions);
    assert MarkedSoFar(s, s.batches[r]);
  }

  /** And it marks no other event. */
  lemma CommitMarksNoOther(actions: seq<Action>, r: int, id: int)
    requires r in Run(EMPTY, actions).batches && id in Run(EMPTY, actions).events
    requires id !in Run(EMPTY, actions).batches[r].ids
    ensures
      var s := Run(EMPTY, actions); var s' := Step(s, Commit(r));
      id in s'.events && s'.events[id] == s.events[id]
  {
    RelayIsSafe(actions);
    var s := Run(EMPTY, actions);
    assert BatchOk(s, s.batches[r]);
  }

  // ----- which events are taken -----

  /** The batch holds at most twenty events, each pending and not put off beyond now. */
  predicate TakenInTime(s: State, b: Batch) {
    |b.ids| <= 20 && forall id :: id in b.ids ==>
      id in s.events && s.events[id].status == Pending && s.events[id].availableAt <= s.now
  }

  predicate AllTakenInTime(s: State) {
    forall r :: r in s.batches ==> TakenInTime(s, s.batches[r])
  }

  lemma ClaimTakesInTime(s: State, r: int, ids: seq<int>)
    requires IsClaim(s, ids)
    ensures TakenInTime(s, Batch(ids, 0, Ready, map[], []))
  {
    forall id | id in ids ensures Claimable(s, id) {
      var k :| 0 <= k < |ids| && ids[k] == id;
    }
  }

  lemma StepTakesInTime(s: State, a: Action)
    requires Inv(s) && AllTakenInTime(s)
    ensures AllTakenInTime(Step(s, a))
  {
    var s' := Step(s, a);
    if a.Claim? && s' != s { ClaimTakesInTime(s, a.relay, a.ids); }
    forall q | q in s'.batches ensures TakenInTime(s', s'.batches[q]) {
      if q in s.batches {
        assert TakenInTime(s, s.batches[q]) && s'.batches[q].ids == s.batches[q].ids;
        forall id | id in s.batches[q].ids ensures id in s'.events && s'.events[id] == s.events[id] {
          if a.Commit? && s' != s { assert BatchOk(s, s.batches[a.relay]); }
        }
      }
    }
  }

  /** In every run, no relay ever holds an event before its time, or one that is finished, or more than
      twenty. */
  lemma {:induction false} HeldEventsAreDue(actions: seq<Action>)
    ensures AllTakenInTime(Run(EMPTY, actions))
  {
    if actions != [] {
      var n := |actions| - 1;
      HeldEventsAreDue(actions[..n]);
      RelayIsSafe(actions[..n]);
      StepTakesInTime(Run(EMPTY, actions[..n]), actions[n]);
    }
  }

  // ----- what one batch of one event does -----

  /** Pending, not put off beyond now, and in no relay's hands. */
  predicate Free(s: State, id: int) {
    && id in s.events && s.events[id].status == Pending && s.events[id].availableAt <= s.now
    && forall r :: r in s.batches ==> id !in s.batches[r].ids
  }

  function Claimed(s: State, r: int, id: int): State {
    SetBatch(s, r, Batch([id], 0, Ready, map[], []))
  }

  /** Any twenty such events can be taken together. */
  lemma FreeEventsCanBeTaken(s: State, r: int, ids: seq<int>)
    requires r !in s.batches && |ids| <= 20 && NoRepeats(ids) && forall k :: 0 <= k < |ids| ==> Free(s, ids[k])
    ensures r in Step(s, Claim(r, ids)).batches && Step(s, Claim(r, ids)).batches[r].ids == ids
    ensures Step(s, Claim(r, ids)).events == s.events
  {
    forall k | 0 <= k < |ids| ensures Claimable(s, ids[k]) {
      var id: int :| id == ids[k];
      assert Free(s, id);
    }
  }

  lemma ClaimOne(s: State, r: int, id: int)
    requires r !in s.batches && Free(s, id)
    ensures Step(s, Claim(r, [id])) == Claimed(s, r, id)
  {
  }

  /** The event's mark becomes its row. */
  lemma MarkAndCommit(s: State, s1: State, r: int, e': Row)
    requires r in s1.batches && r !in s.batches && s1.batches - {r} == s.batches && s1.events == s.events
    requires Handling(s1, r) && |s1.batches[r].ids| == 1 && s1.batches[r].next == 0 && s1.batches[r].marks == map[]
    requires DoMark(s1, r) == Marked(s1, r, e')
    ensures
      Step(Step(s1, Mark(r)), Commit(r)) == State(s.events[e'.id := e'], s.batches, s1.jobs, s1.now)
  {
    var s2 := Step(s1, Mark(r));
    assert s2.batches[r].marks == map[e'.id := e'];
    assert s.events + map[e'.id := e'] == s.events[e'.id := e'];
    assert s2.batches - {r} == s.batches;
  }

  /** An event that is claimed alone and delivered ends up dispatched, a booking event with both its jobs
      in the queue, a foreign one with none. */
  lemma DeliveredIsDispatched(s: State, r: int, id: int)
    requires Inv(s) && r !in s.batches && Free(s, id)
    ensures
      var e := s.events[id];
      var s1 := Step(Step(s, Claim(r, [id])), Add(r));
      var s2 := if e.booking then Step(s1, Add(r)) else s1;
      Step(Step(s2, Mark(r)), Commit(r)) ==
        State(s.events[id := e.(status := Dispatched)], s.batches,
              if e.booking then s.jobs + {Email(id)} + {Webhook(id)} else s.jobs, s.now)
  {
    ClaimOne(s, r, id);
    var e := s.events[id];
    assert RowOk(s.jobs, id, e);
    var s1 := Step(Step(s, Claim(r, [id])), Add(r));
    var s2 := if e.booking then Step(s1, Add(r)) else s1;
    assert s2.batches - {r} == s.batches;
    MarkAndCommit(s, s2, r, MarkDispatched(e));
  }

  /** Where a delivery can fail: before either job is added, between them, or although the first or the
      second reached the queue. */
  function FailAt(s: State, r: int, point: nat): State {
    if point == 0 then Step(s, Throw(r))
    else if point == 1 then Step(Step(s, Add(r)), Throw(r))
    else if point == 2 then Step(s, AddThenThrow(r))
    else Step(Step(s, Add(r)), AddThenThrow(r))
  }

  /** Wherever it fails, the event is put off or given up, the jobs added so far stay, and nothing else
      changes. */
  lemma FailedIsPutOff(s: State, r: int, id: int, point: nat)
    requires Inv(s) && r !in s.batches && Free(s, id)
    requires point < 4 && (point > 0 ==> s.events[id].booking)
    ensures
      var s' := Step(Step(FailAt(Step(s, Claim(r, [id])), r, point), Mark(r)), Commit(r));
      && id in s'.events && Handled(s.events[id], s'.events[id], false, s.now)
      && s' == State(s.events[id := s'.events[id]], s.batches,
                     s.jobs + (if point > 0 then {Email(id)} else {}) + (if point == 3 then {Webhook(id)} else {}), s.now)
  {
    ClaimOne(s, r, id);
    var e := s.events[id];
    assert RowOk(s.jobs, id, e);
    MarksHandle(e, s.now);
    var s1 := FailAt(Step(s, Claim(r, [id])), r, point);
    assert s1.batches - {r} == s.batches;
    MarkAndCommit(s, s1, r, MarkFailed(e, s.now));
  }
}
