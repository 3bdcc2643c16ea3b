/** Any number of relays drain the outbox while events are being recorded and relays crash. A batch
    is one transaction; adding a job to the queue is not part of it. */
module OutboxProtocol {
  import opened Sequences
  import opened OutboxDomain

  datatype Stage = Ready | EmailAdded | Delivered | Thrown

  /** `next` is the event being handled, `marks` the uncommitted updates of the ones before it;
      `outcomes` is history: whether each of those was delivered, and when it was marked. */
  datatype Batch = Batch(ids: seq<int>, next: nat, stage: Stage, marks: map<int, Row>, outcomes: seq<Outcome>)

  datatype Outcome = Outcome(delivered: bool, at: int)

  datatype State = State(events: map<int, Row>, batches: map<int, Batch>, jobs: set<Job>, now: int)

  datatype Action =
    | Record(id: int, booking: bool, createdAt: int)   // a request commits an event
    | Claim(relay: int, ids: seq<int>)
    | Add(relay: int)           // the next job of the event reaches the queue
    | AddThenThrow(relay: int)  // the job reaches the queue but the relay sees an error
    | Throw(relay: int)
    | Mark(relay: int)
    | Commit(relay: int)
    | Crash(relay: int)
    | Wait(ms: nat)

  const EMPTY := State(map[], map[], {}, 0)

  predicate Locked(s: State, id: int) {
    exists r :: r in s.batches && id in s.batches[r].ids
  }

  predicate Claimable(s: State, id: int) {
    id in s.events && Due(s.events[id], s.now) && !Locked(s, id)
  }

  /** `FOR UPDATE SKIP LOCKED … LIMIT 20`: due events that nobody holds. Which of them come depends on
      what is locked at the moment the scan passes, so any may be missing. */
  predicate IsClaim(s: State, ids: seq<int>) {
    |ids| <= BATCH_SIZE && NoRepeats(ids) && forall k :: 0 <= k < |ids| ==> Claimable(s, ids[k])
  }

  function SetBatch(s: State, r: int, b: Batch): State {
    s.(batches := s.batches[r := b])
  }

  predicate Handling(s: State, r: int) {
    r in s.batches && s.batches[r].next < |s.batches[r].ids| && s.batches[r].ids[s.batches[r].next] in s.events
  }

  function Current(s: State, r: int): Row
    requires Handling(s, r)
  {
    s.events[s.batches[r].ids[s.batches[r].next]]
  }

  /** `dispatch`: nothing for a foreign event, else the email job and then the webhook job. */
  function DoAdd(s: State, r: int, seen: bool): State
    requires Handling(s, r)
  {
    var b, e := s.batches[r], Current(s, r);
    match b.stage
    case Ready =>
      if !e.booking then SetBatch(s, r, b.(stage := Delivered))
      else SetBatch(s, r, b.(stage := if seen then EmailAdded else Thrown)).(jobs := s.jobs + {Email(e.id)})
    case EmailAdded =>
      SetBatch(s, r, b.(stage := if seen then Delivered else Thrown)).(jobs := s.jobs + {Webhook(e.id)})
    case _ => s
  }

  /** The update of the event at hand, after which the batch turns to its next one. */
  function Marked(s: State, r: int, e: Row): State
    requires Handling(s, r)
  {
    var b := s.batches[r];
    SetBatch(s, r, b.(next := b.next + 1, stage := Ready, marks := b.marks[e.id := e],
                      outcomes := b.outcomes + [Outcome(b.stage == Delivered, s.now)]))
  }

  function DoMark(s: State, r: int): State
    requires Handling(s, r)
  {
    var b, e := s.batches[r], Current(s, r);
    if b.stage == Delivered then Marked(s, r, MarkDispatched(e))
    else if b.stage == Thrown then Marked(s, r, MarkFailed(e, s.now))
    else s
  }

  function Step(s: State, a: Action): State {
    match a
    case Record(id, booking, createdAt) =>
      if id in s.events then s else s.(events := s.events[id := New(id, booking, createdAt)])
    case Claim(r, ids) =>
      if r in s.batches || !IsClaim(s, ids) then s else SetBatch(s, r, Batch(ids, 0, Ready, map[], []))
    case Add(r) => if Handling(s, r) then DoAdd(s, r, true) else s
    case AddThenThrow(r) => if Handling(s, r) then DoAdd(s, r, false) else s
    case Throw(r) =>
      if Handling(s, r) && (s.batches[r].stage == Ready || s.batches[r].stage == EmailAdded)
      then SetBatch(s, r, s.batches[r].(stage := Thrown)) else s
    case Mark(r) => if Handling(s, r) then DoMark(s, r) else s
    case Commit(r) =>
      if r in s.batches && s.batches[r].next == |s.batches[r].ids|
      then s.(events := s.events + s.batches[r].marks, batches := s.batches - {r}) else s
    case Crash(r) => s.(batches := s.batches - {r})
    case Wait(ms) => s.(now := s.now + ms)
  }

  function Run(s: State, actions: seq<Action>): State {
    if actions == [] then s
    else Step(Run(s, actions[..|actions| - 1]), actions[|actions| - 1])
  }

  // ----- what every run keeps -----

  predicate DisjointClaims(s: State) {
    forall q, r, id :: q in s.batches && r in s.batches && q != r && id in s.batches[q].ids ==> id !in s.batches[r].ids
  }

  predicate RowOk(jobs: set<Job>, id: int, e: Row) {
    e.id == id && Policy(e) && Served(jobs, e)
  }

  /** What an update may do to an event: identity stays, and only a pending event changes. */
  predicate Kept(e: Row, e': Row) {
    && e'.id == e.id && e'.booking == e.booking && e'.createdAt == e.createdAt && e.attempts <= e'.attempts
    && (e.status != Pending ==> e' == e)
  }

  predicate BatchOk(s: State, b: Batch) {
    && (forall id :: id in b.ids ==> id in s.events && s.events[id].status == Pending)
    && NoRepeats(b.ids)
    && (forall id :: id in b.marks ==> id in b.ids && RowOk(s.jobs, id, b.marks[id]) && Kept(s.events[id], b.marks[id]))
    && (b.next < |b.ids| && b.stage == EmailAdded ==> Email(b.ids[b.next]) in s.jobs)
    && (b.next < |b.ids| && b.stage == Delivered ==> Enqueued(s.jobs, s.events[b.ids[b.next]]))
  }

  predicate Inv(s: State) {
    && DisjointClaims(s)
    && (forall id :: id in s.events ==> RowOk(s.jobs, id, s.events[id]))
    && (forall r :: r in s.batches ==> BatchOk(s, s.batches[r]))
    && JobsHaveEvents(s)
  }

  predicate JobsHaveEvents(s: State) {
    forall j :: j in s.jobs ==> j.event in s.events && s.events[j.event].booking
  }

  predicate DispatchedAreEnqueued(s: State) {
    forall id :: id in s.events && s.events[id].status == Dispatched && s.events[id].booking ==>
      Email(id) in s.jobs && Webhook(id) in s.jobs
  }

  lemma ClaimKeepsInv(s: State, r: int, ids: seq<int>)
    requires Inv(s)
    ensures Inv(Step(s, Claim(r, ids)))
  {
    var s' := Step(s, Claim(r, ids));
    if s' != s {
      forall q, id | q in s.batches && id in s.batches[q].ids ensures id !in ids {
        assert Locked(s, id);
      }
      forall q | q in s'.batches ensures BatchOk(s', s'.batches[q]) {
        if q != r { assert BatchOk(s, s.batches[q]); }
      }
    }
  }

  /** A change of one batch's progress, possibly with new jobs of its current event. */
  lemma ProgressKeepsInv(s: State, r: int, b: Batch, jobs: set<Job>)
    requires Inv(s) && r in s.batches && b.ids == s.batches[r].ids && s.jobs <= jobs
    requires forall j :: j in jobs && j !in s.jobs ==> j.event in s.events && s.events[j.event].booking
    requires BatchOk(s.(jobs := jobs), b)
    ensures Inv(SetBatch(s, r, b).(jobs := jobs))
  {
    var s' := SetBatch(s, r, b).(jobs := jobs);
    forall q | q in s'.batches ensures BatchOk(s', s'.batches[q]) {
      if q != r { assert BatchOk(s, s.batches[q]); }
    }
    forall id | id in s.events ensures RowOk(jobs, id, s.events[id]) {
      assert RowOk(s.jobs, id, s.events[id]);
    }
  }

  lemma AddKeepsInv(s: State, r: int, seen: bool)
    requires Inv(s) && Handling(s, r)
    ensures Inv(DoAdd(s, r, seen))
  {
    var b, e := s.batches[r], Current(s, r);
    assert BatchOk(s, b) && RowOk(s.jobs, b.ids[b.next], e);
    var s' := DoAdd(s, r, seen);
    ProgressKeepsInv(s, r, s'.batches[r], s'.jobs);
    assert s' == SetBatch(s, r, s'.batches[r]).(jobs := s'.jobs);
  }

  lemma MarkOneKeepsInv(s: State, r: int, e': Row)
    requires Inv(s) && Handling(s, r) && BatchOk(s, s.batches[r])
    requires RowOk(s.jobs, Current(s, r).id, e') && Kept(Current(s, r), e')
    requires Current(s, r).id == s.batches[r].ids[s.batches[r].next]
    ensures Inv(Marked(s, r, e'))
  {
    assert s.(jobs := s.jobs) == s;
    ProgressKeepsInv(s, r, Marked(s, r, e').batches[r], s.jobs);
  }

  lemma CurrentOk(s: State, r: int)
    requires Inv(s) && Handling(s, r)
    ensures BatchOk(s, s.batches[r]) && Current(s, r).status == Pending && Policy(Current(s, r))
    ensures Current(s, r).id == s.batches[r].ids[s.batches[r].next]
    ensures s.batches[r].stage == Delivered ==> Enqueued(s.jobs, Current(s, r))
  {
    var id := s.batches[r].ids[s.batches[r].next];
    assert BatchOk(s, s.batches[r]) && id in s.batches[r].ids && RowOk(s.jobs, id, s.events[id]);
  }

  lemma DeliveredKeepsInv(s: State, r: int)
    requires Inv(s) && Handling(s, r) && s.batches[r].stage == Delivered
    ensures Inv(DoMark(s, r))
  {
    CurrentOk(s, r);
    MarksFollowPolicy(Current(s, r), s.now);
    MarkOneKeepsInv(s, r, MarkDispatched(Current(s, r)));
  }

  lemma ThrownKeepsInv(s: State, r: int)
    requires Inv(s) && Handling(s, r) && s.batches[r].stage == Thrown
    ensures Inv(DoMark(s, r))
  {
    CurrentOk(s, r);
    MarksFollowPolicy(Current(s, r), s.now);
    MarkOneKeepsInv(s, r, MarkFailed(Current(s, r), s.now));
  }

  lemma MarkKeepsInv(s: State, r: int)
    requires Inv(s) && Handling(s, r)
    ensures Inv(DoMark(s, r))
  {
    if s.batches[r].stage == Delivered {
      DeliveredKeepsInv(s, r);
    } else if s.batches[r].stage == Thrown {
      ThrownKeepsInv(s, r);
    }
  }

  lemma CommitKeepsEvents(s: State, r: int)
    requires Inv(s)
    ensures forall id :: id in s.events ==> id in Step(s, Commit(r)).events && Kept(s.events[id], Step(s, Commit(r)).events[id])
  {
    if Step(s, Commit(r)) != s {
      assert BatchOk(s, s.batches[r]);
    }
  }

  lemma CommitKeepsInv(s: State, r: int)
    requires Inv(s)
    ensures Inv(Step(s, Commit(r)))
  {
    var s' := Step(s, Commit(r));
    if s' != s {
      var b := s.batches[r];
      assert BatchOk(s, b);
      forall id | id in s'.events ensures RowOk(s'.jobs, id, s'.events[id]) {
        if id in b.marks { } else { assert RowOk(s.jobs, id, s.events[id]); }
      }
      CommitKeepsEvents(s, r);
      forall q | q in s'.batches ensures BatchOk(s', s'.batches[q]) {
        assert BatchOk(s, s.batches[q]);
        forall id | id in s.batches[q].ids ensures id !in b.marks { }
      }
    }
  }

  lemma RecordKeepsInv(s: State, id: int, booking: bool, createdAt: int)
    requires Inv(s)
    ensures Inv(Step(s, Record(id, booking, createdAt)))
  {
    NewFollowsPolicy(id, booking, createdAt);
    forall r | r in s.batches ensures BatchOk(Step(s, Record(id, booking, createdAt)), s.batches[r]) {
      assert BatchOk(s, s.batches[r]);
    }
  }

  lemma CrashKeepsInv(s: State, r: int)
    requires Inv(s)
    ensures Inv(Step(s, Crash(r)))
  {
    forall q | q in s.batches && q != r ensures BatchOk(Step(s, Crash(r)), s.batches[q]) {
      assert BatchOk(s, s.batches[q]);
    }
  }

  lemma WaitKeepsInv(s: State, ms: nat)
    requires Inv(s)
    ensures Inv(Step(s, Wait(ms)))
  {
    forall q | q in s.batches ensures BatchOk(Step(s, Wait(ms)), s.batches[q]) {
      assert BatchOk(s, s.batches[q]);
    }
  }

  lemma ThrowKeepsInv(s: State, r: int)
    requires Inv(s) && Handling(s, r)
    ensures Inv(Step(s, Throw(r)))
  {
    assert BatchOk(s, s.batches[r]);
    ProgressKeepsInv(s, r, s.batches[r].(stage := Thrown), s.jobs);
  }

  lemma StepKeepsInv(s: State, a: Action)
    requires Inv(s)
    ensures Inv(Step(s, a))
  {
    match a
    case Record(id, booking, createdAt) => RecordKeepsInv(s, id, booking, createdAt);
    case Claim(r, ids) => ClaimKeepsInv(s, r, ids);
    case Add(r) => if Handling(s, r) { AddKeepsInv(s, r, true); }
    case AddThenThrow(r) => if Handling(s, r) { AddKeepsInv(s, r, false); }
    case Throw(r) => if Handling(s, r) { ThrowKeepsInv(s, r); }
    case Mark(r) => if Handling(s, r) { MarkKeepsInv(s, r); }
    case Commit(r) => CommitKeepsInv(s, r);
    case Crash(r) => CrashKeepsInv(s, r);
    case Wait(ms) => WaitKeepsInv(s, ms);
  }

  lemma StepKeepsEvents(s: State, a: Action)
    requires Inv(s)
    ensures s.jobs <= Step(s, a).jobs
    ensures forall id :: id in s.events ==> id in Step(s, a).events && Kept(s.events[id], Step(s, a).events[id])
  {
    if a.Commit? { CommitKeepsEvents(s, a.relay); }
  }

  /** Over every interleaving of recording, relays and crashes: live batches hold disjoint events, a
      committed dispatched booking event has both its jobs in the queue, every job belongs to a
      committed booking event, and attempts and waits follow the retry policy. */
  lemma {:induction false} RelayIsSafe(actions: seq<Action>)
    ensures Inv(Run(EMPTY, actions))
    ensures DisjointClaims(Run(EMPTY, actions)) && DispatchedAreEnqueued(Run(EMPTY, actions)) && JobsHaveEvents(Run(EMPTY, actions))
    ensures forall id :: id in Run(EMPTY, actions).events ==> Policy(Run(EMPTY, actions).events[id])
  {
    if actions != [] {
      RelayIsSafe(actions[..|actions| - 1]);
      StepKeepsInv(Run(EMPTY, actions[..|actions| - 1]), actions[|actions| - 1]);
    }
    var s := Run(EMPTY, actions);
    forall id | id in s.events ensures RowOk(s.jobs, id, s.events[id]) { }
  }

  /** In every run, an event that is given up was tried five times and was made to wait seven and a
      half minutes in all: 30 s, doubled after each failure but the last. */
  lemma DeadEventsWaited(actions: seq<Action>, id: int)
    requires id in Run(EMPTY, actions).events && Run(EMPTY, actions).events[id].status == Dead
    ensures
      var e := Run(EMPTY, actions).events[id];
      && e.attempts == 5 && e.waits == [30_000, 60_000, 120_000, 240_000] && Sum(e.waits) == 450_000
  {
    RelayIsSafe(actions);
    DeadRowWaited(Run(EMPTY, actions).events[id]);
  }

  /** No committed event is ever lost, and a dispatched or dead one is final. */
  lemma {:induction false} EventsAreKept(s: State, more: seq<Action>, id: int)
    requires Inv(s) && id in s.events
    ensures Inv(Run(s, more)) && s.jobs <= Run(s, more).jobs
    ensures id in Run(s, more).events && Kept(s.events[id], Run(s, more).events[id])
  {
    if more != [] {
      EventsAreKept(s, more[..|more| - 1], id);
      StepKeepsEvents(Run(s, more[..|more| - 1]), more[|more| - 1]);
      StepKeepsInv(Run(s, more[..|more| - 1]), more[|more| - 1]);
    }
  }
}
