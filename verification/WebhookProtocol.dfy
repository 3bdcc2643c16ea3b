/** Webhook deliveries interleaved statement by statement, beside new subscriptions and an operator
    who cancels by hand. */
module WebhookProtocol {
  import opened Wrappers
  import opened Sequences
  import opened SubscriptionReference
  import opened SubscriptionDomain

  datatype Phase =
    | Claiming
    | Claimed
    | Seen(id: int)     // the subscription was read and the transition found legal
    | Done

  /** `write` is the uncommitted status update; it locks its row. */
  datatype Tx = Tx(tenant: string, provider: int, event: PaymentEvent, phase: Phase, claimed: bool, write: Option<int>)

  /** `applied` is history: the events whose transactions claimed and committed. */
  datatype State = State(subs: map<int, Subscription>, receipts: set<(int, int)>, applied: seq<(int, int)>, txs: map<int, Tx>)

  datatype Action =
    | Receive(tid: int, provider: int, event: PaymentEvent)
    | Claim(tid: int)
    | Read(tid: int, id: int)
    | ReadNothing(tid: int)
    | Update(tid: int)
    | Commit(tid: int)
    | Rollback(tid: int)
    | Create(id: int, sub: Subscription)
    | Cancel(id: int)

  function SetTx(s: State, tid: int, t: Tx): State {
    s.(txs := s.txs[tid := t])
  }

  function Key(t: Tx): (int, int) {
    (t.provider, t.event.id)
  }

  predicate ClaimedByOther(s: State, tid: int, key: (int, int)) {
    exists u :: u in s.txs && u != tid && s.txs[u].claimed && Key(s.txs[u]) == key
  }

  predicate LockedByOther(s: State, tid: int, id: int) {
    exists u :: u in s.txs && u != tid && s.txs[u].write == Some(id)
  }

  /** The unique index on the reference. */
  predicate ReferenceTaken(subs: map<int, Subscription>, reference: string) {
    exists id :: id in subs && subs[id].reference == reference
  }

  function Step(s: State, a: Action): State {
    match a
    case Receive(tid, provider, event) =>
      var tenant := TenantFromReference(event.reference);
      if tid in s.txs || tenant.None? then s
      else SetTx(s, tid, Tx(tenant.value, provider, event, Claiming, false, None))
    case Claim(tid) =>
      if tid !in s.txs || s.txs[tid].phase != Claiming || ClaimedByOther(s, tid, Key(s.txs[tid])) then s
      else if Key(s.txs[tid]) in s.receipts then SetTx(s, tid, s.txs[tid].(phase := Done))
      else SetTx(s, tid, s.txs[tid].(phase := Claimed, claimed := true))
    case Read(tid, id) =>
      if tid !in s.txs || s.txs[tid].phase != Claimed || !Found(s.subs, s.txs[tid].tenant, s.txs[tid].event.reference, id) then s
      else SetTx(s, tid, s.txs[tid].(phase :=
        if CanTransition(s.subs[id].status, NextStatus(s.txs[tid].event)) then Seen(id) else Done))
    case ReadNothing(tid) =>
      if tid !in s.txs || s.txs[tid].phase != Claimed
         || exists id :: id in s.subs && Found(s.subs, s.txs[tid].tenant, s.txs[tid].event.reference, id) then s
      else SetTx(s, tid, s.txs[tid].(phase := Done))
    case Update(tid) =>
      if tid !in s.txs || !s.txs[tid].phase.Seen? || LockedByOther(s, tid, s.txs[tid].phase.id) then s
      else SetTx(s, tid, s.txs[tid].(phase := Done, write := Some(s.txs[tid].phase.id)))
    case Commit(tid) =>
      if tid !in s.txs || s.txs[tid].phase != Done then s
      else
        var t := s.txs[tid];
        State(if t.write.Some? && t.write.value in s.subs
              then s.subs[t.write.value := s.subs[t.write.value].(status := NextStatus(t.event))] else s.subs,
              if t.claimed then s.receipts + {Key(t)} else s.receipts,
              if t.claimed then s.applied + [Key(t)] else s.applied,
              s.txs - {tid})
    case Rollback(tid) => s.(txs := s.txs - {tid})
    case Create(id, sub) =>
      if id in s.subs || sub.status != Trialing || TenantFromReference(sub.reference) != Some(sub.tenant)
         || ReferenceTaken(s.subs, sub.reference) then s
      else s.(subs := s.subs[id := sub])
    case Cancel(id) =>
      if id !in s.subs || exists u :: u in s.txs && s.txs[u].write == Some(id) then s
      else s.(subs := s.subs[id := s.subs[id].(status := Canceled)])
  }

  const EMPTY := State(map[], {}, [], map[])

  function Run(s: State, actions: seq<Action>): State {
    if actions == [] then s
    else Step(Run(s, actions[..|actions| - 1]), actions[|actions| - 1])
  }

  predicate TxOk(s: State, t: Tx) {
    && TenantFromReference(t.event.reference) == Some(t.tenant)
    && (t.claimed ==> Key(t) !in s.receipts)
    && (t.phase == Claiming ==> !t.claimed)
    && (t.phase == Claimed || t.phase.Seen? ==> t.claimed && t.write.None?)
    && (t.phase == Done && !t.claimed ==> Key(t) in s.receipts)
    && (t.phase.Seen? ==> Found(s.subs, t.tenant, t.event.reference, t.phase.id))
    && (t.write.Some? ==> Found(s.subs, t.tenant, t.event.reference, t.write.value) && t.claimed && t.phase == Done)
  }

  predicate Inv(s: State) {
    && (forall t :: t in s.txs ==> TxOk(s, s.txs[t]))
    && (forall t, u :: t in s.txs && u in s.txs && t != u && s.txs[t].claimed && s.txs[u].claimed ==>
          Key(s.txs[t]) != Key(s.txs[u]))
    && NoRepeats(s.applied)
    && (forall i :: 0 <= i < |s.applied| ==> s.applied[i] in s.receipts)
    && (forall id :: id in s.subs ==> TenantFromReference(s.subs[id].reference) == Some(s.subs[id].tenant))
    && UniqueReferences(s.subs)
  }

  lemma SetTxKeepsInv(s: State, tid: int, t: Tx)
    requires Inv(s) && TxOk(s, t)
    requires t.claimed ==> !ClaimedByOther(s, tid, Key(t))
    ensures Inv(SetTx(s, tid, t))
  {
    var s' := SetTx(s, tid, t);
    forall u | u in s'.txs ensures TxOk(s', s'.txs[u]) {
      if u == tid { assert TxOk(s, t); } else { assert TxOk(s, s.txs[u]); }
    }
    forall u | u in s.txs && u != tid && s.txs[u].claimed && t.claimed ensures Key(s.txs[u]) != Key(t) { }
  }

  lemma SubsChangeKeepsInv(s: State, subs: map<int, Subscription>)
    requires Inv(s)
    requires forall id :: id in s.subs ==> id in subs && subs[id] == s.subs[id].(status := subs[id].status)
    requires forall id :: id in subs && id !in s.subs ==> TenantFromReference(subs[id].reference) == Some(subs[id].tenant)
    requires UniqueReferences(subs)
    ensures Inv(s.(subs := subs))
  {
    forall u | u in s.txs ensures TxOk(s.(subs := subs), s.txs[u]) { assert TxOk(s, s.txs[u]); }
  }

  lemma EndKeepsInv(s: State, tid: int, commit: bool)
    requires Inv(s) && tid in s.txs
    ensures
      var t := s.txs[tid];
      Inv(if commit && t.claimed then State(s.subs, s.receipts + {Key(t)}, s.applied + [Key(t)], s.txs - {tid})
          else s.(txs := s.txs - {tid}))
  {
    var t := s.txs[tid];
    assert TxOk(s, t);
    forall u | u in s.txs && u != tid ensures TxOk(s, s.txs[u]) && (t.claimed && s.txs[u].claimed ==> Key(s.txs[u]) != Key(t)) { }
  }

  lemma StepKeepsInv(s: State, a: Action)
    requires Inv(s)
    ensures Inv(Step(s, a))
  {
    var s' := Step(s, a);
    if s' == s {
    } else if a.Commit? {
      assert TxOk(s, s.txs[a.tid]);
      SubsChangeKeepsInv(s, s'.subs);
      EndKeepsInv(s.(subs := s'.subs), a.tid, true);
    } else if a.Rollback? {
      if a.tid in s.txs { EndKeepsInv(s, a.tid, false); }
    } else if a.Create? || a.Cancel? {
      SubsChangeKeepsInv(s, s'.subs);
    } else {
      if a.tid in s.txs { assert TxOk(s, s.txs[a.tid]); }
      SetTxKeepsInv(s, a.tid, s'.txs[a.tid]);
    }
  }

  /** Every pending write is to the subscription that the delivery's own reference was built for. */
  predicate WritesStayHome(s: State) {
    forall t :: t in s.txs && s.txs[t].write.Some? ==>
      && s.txs[t].write.value in s.subs
      && s.subs[s.txs[t].write.value].reference == s.txs[t].event.reference
      && TenantFromReference(s.txs[t].event.reference) == Some(s.subs[s.txs[t].write.value].tenant)
  }

  predicate OneWriter(s: State) {
    forall t, u :: t in s.txs && u in s.txs && t != u && s.txs[t].write.Some? ==> s.txs[t].write != s.txs[u].write
  }

  lemma StepKeepsOneWriter(s: State, a: Action)
    requires OneWriter(s) && Inv(s)
    ensures OneWriter(Step(s, a))
  {
    if a.Update? && a.tid in s.txs {
      assert TxOk(s, s.txs[a.tid]);
    } else if (a.Claim? || a.Read? || a.ReadNothing?) && a.tid in s.txs {
      assert TxOk(s, s.txs[a.tid]);
    }
  }

  /** In every run, no two deliveries have uncommitted updates of one subscription. */
  lemma {:induction false} UpdatesAreExclusive(actions: seq<Action>)
    ensures OneWriter(Run(EMPTY, actions))
  {
    if actions != [] {
      UpdatesAreExclusive(actions[..|actions| - 1]);
      EventsApplyOnce(actions[..|actions| - 1]);
      StepKeepsOneWriter(Run(EMPTY, actions[..|actions| - 1]), actions[|actions| - 1]);
    }
  }

  /** However deliveries interleave, repeat and fail: no event is applied twice, and a transaction
      writes only the subscription of the tenant that its reference names. */
  lemma {:induction false} EventsApplyOnce(actions: seq<Action>)
    ensures Inv(Run(EMPTY, actions))
    ensures NoRepeats(Run(EMPTY, actions).applied) && WritesStayHome(Run(EMPTY, actions))
  {
    if actions != [] {
      EventsApplyOnce(actions[..|actions| - 1]);
      StepKeepsInv(Run(EMPTY, actions[..|actions| - 1]), actions[|actions| - 1]);
    }
    var s := Run(EMPTY, actions);
    forall t | t in s.txs ensures TxOk(s, s.txs[t]) { }
  }

  /** The transition table can refuse a payment event for one reason only. */
  lemma OnlyCanceledRefuses(from: Status, event: PaymentEvent)
    ensures CanTransition(from, NextStatus(event)) <==> from != Canceled
  {
  }

  /** No operator cancels a subscription that a delivery has read and not yet locked. */
  predicate Calm(s: State, a: Action) {
    a.Cancel? ==> forall u :: u in s.txs ==> s.txs[u].phase != Seen(a.id)
  }

  predicate AllCalm(actions: seq<Action>) {
    forall n :: 0 <= n < |actions| ==> Calm(Run(EMPTY, actions[..n]), actions[n])
  }

  /** What was read and found legal is still so. */
  predicate ReadsHold(s: State) {
    forall t :: t in s.txs ==>
      && (s.txs[t].phase.Seen? ==> s.txs[t].phase.id in s.subs && s.subs[s.txs[t].phase.id].status != Canceled)
      && (s.txs[t].write.Some? ==> s.txs[t].write.value in s.subs && s.subs[s.txs[t].write.value].status != Canceled)
  }

  /** No subscription disappears, each keeps all but its status, and the status moves legally. */
  predicate StepIsLegal(s: State, a: Action) {
    forall id :: id in s.subs ==>
      && id in Step(s, a).subs && Step(s, a).subs[id] == s.subs[id].(status := Step(s, a).subs[id].status)
      && CanTransition(s.subs[id].status, Step(s, a).subs[id].status)
  }

  lemma CalmCommitIsLegal(s: State, tid: int)
    requires Inv(s) && ReadsHold(s) && tid in s.txs
    ensures StepIsLegal(s, Commit(tid))
  {
    var t := s.txs[tid];
    if Step(s, Commit(tid)).subs == s.subs {
      SameSubsIsLegal(s, Commit(tid));
    } else {
      assert s.subs[t.write.value].status != Canceled;
      OnlyCanceledRefuses(s.subs[t.write.value].status, t.event);
    }
  }

  lemma CalmCommit(s: State, tid: int)
    requires Inv(s) && ReadsHold(s) && tid in s.txs
    ensures ReadsHold(Step(s, Commit(tid)))
  {
    var s' := Step(s, Commit(tid));
    forall id | id in s.subs && s.subs[id].status != Canceled ensures id in s'.subs && s'.subs[id].status != Canceled {
      OnlyCanceledRefuses(Canceled, s.txs[tid].event);
    }
  }

  lemma CalmRead(s: State, tid: int, id: int)
    requires ReadsHold(s) && tid in s.txs
    ensures ReadsHold(Step(s, Read(tid, id)))
  {
    OnlyCanceledRefuses(Canceled, s.txs[tid].event);
  }

  lemma CalmUpdate(s: State, tid: int)
    requires ReadsHold(s) && tid in s.txs
    ensures ReadsHold(Step(s, Update(tid)))
  {
  }

  lemma CalmEnd(s: State, tid: int)
    requires ReadsHold(s)
    ensures ReadsHold(Step(s, Rollback(tid)))
  {
  }

  lemma CalmClaim(s: State, tid: int)
    requires ReadsHold(s)
    ensures ReadsHold(Step(s, Claim(tid))) && ReadsHold(Step(s, ReadNothing(tid)))
  {
  }

  lemma CalmCreate(s: State, id: int, sub: Subscription)
    requires ReadsHold(s)
    ensures ReadsHold(Step(s, Create(id, sub))) && StepIsLegal(s, Create(id, sub))
  {
  }

  lemma CalmCancel(s: State, id: int)
    requires ReadsHold(s) && Calm(s, Cancel(id))
    ensures ReadsHold(Step(s, Cancel(id))) && StepIsLegal(s, Cancel(id))
  {
    var s' := Step(s, Cancel(id));
    if s' != s {
      forall u | u in s.txs && s.txs[u].phase.Seen? ensures s.txs[u].phase.id != id {
        assert s.txs[u].phase == Seen(s.txs[u].phase.id);
      }
    }
  }

  lemma SameSubsIsLegal(s: State, a: Action)
    requires Step(s, a).subs == s.subs
    ensures StepIsLegal(s, a)
  {
    forall id | id in s.subs ensures s.subs[id] == s.subs[id].(status := s.subs[id].status) { }
  }

  lemma CalmStep(s: State, a: Action)
    requires Inv(s) && ReadsHold(s) && Calm(s, a)
    ensures ReadsHold(Step(s, a)) && StepIsLegal(s, a)
  {
    if Step(s, a).subs == s.subs { SameSubsIsLegal(s, a); }
    match a
    case Receive(tid, provider, event) =>
    case Claim(tid) => CalmClaim(s, tid);
    case Read(tid, id) => if tid in s.txs { CalmRead(s, tid, id); }
    case ReadNothing(tid) => CalmClaim(s, tid);
    case Update(tid) => if tid in s.txs { CalmUpdate(s, tid); }
    case Commit(tid) => if tid in s.txs { CalmCommit(s, tid); CalmCommitIsLegal(s, tid); }
    case Rollback(tid) => CalmEnd(s, tid);
    case Create(id, sub) => CalmCreate(s, id, sub);
    case Cancel(id) => CalmCancel(s, id);
  }

  lemma {:induction false} CalmRuns(actions: seq<Action>)
    requires AllCalm(actions)
    ensures ReadsHold(Run(EMPTY, actions))
  {
    if actions != [] {
      var n := |actions| - 1;
      forall k | 0 <= k < n ensures Calm(Run(EMPTY, actions[..n][..k]), actions[..n][k]) {
        assert actions[..n][..k] == actions[..k];
      }
      CalmRuns(actions[..n]);
      EventsApplyOnce(actions[..n]);
      CalmStep(Run(EMPTY, actions[..n]), actions[n]);
    }
  }

  /** In a calm run every status change is legal, so a canceled subscription stays canceled. */
  lemma CalmRunsAreLegal(actions: seq<Action>, a: Action)
    requires AllCalm(actions) && Calm(Run(EMPTY, actions), a)
    ensures StepIsLegal(Run(EMPTY, actions), a)
  {
    CalmRuns(actions);
    EventsApplyOnce(actions);
    CalmStep(Run(EMPTY, actions), a);
  }

  /** In any run at all, the commit of a delivery is a legal change exactly if the row it wrote has not
      been canceled since it was read. */
  lemma CommitIsLegalExactly(actions: seq<Action>, tid: int)
    requires tid in Run(EMPTY, actions).txs && Run(EMPTY, actions).txs[tid].write.Some?
    requires Run(EMPTY, actions).txs[tid].phase == Done
    ensures
      var s := Run(EMPTY, actions); var id := s.txs[tid].write.value;
      id in s.subs && (StepIsLegal(s, Commit(tid)) <==> s.subs[id].status != Canceled)
  {
    EventsApplyOnce(actions);
    var s := Run(EMPTY, actions);
    assert TxOk(s, s.txs[tid]);
  }

  /** The update carries no version: a cancellation between the read and the update is undone by it. */
  lemma UncalmCancelIsOverwritten(s: State, tid: int, id: int)
    requires Inv(s) && tid in s.txs && s.txs[tid].phase == Seen(id)
    requires forall u :: u in s.txs ==> s.txs[u].write != Some(id)
    ensures
      var s' := Step(Step(Step(s, Cancel(id)), Update(tid)), Commit(tid));
      id in s'.subs && Step(s, Cancel(id)).subs[id].status == Canceled && s'.subs[id].status != Canceled
  {
    assert TxOk(s, s.txs[tid]);
  }

  // ----- interleaved deliveries refine whole ones -----

  function DbOf(s: State): Db {
    Db(s.subs, s.receipts)
  }

  /** What this delivery decided on its read is what it would decide now. */
  predicate StillDecided(s: State, t: Tx) {
    match t.write
    case Some(id) => id in s.subs && s.subs[id].status != Canceled
    case None =>
      t.claimed ==> forall id :: id in s.subs && Found(s.subs, t.tenant, t.event.reference, id) ==>
        s.subs[id].status == Canceled || s.subs[id].status == NextStatus(t.event)
  }

  lemma NoWriteIsDelivery(subs: map<int, Subscription>, tenant: string, event: PaymentEvent)
    ensures Applied(subs, tenant, event) == subs <==>
      forall id :: id in subs && Found(subs, tenant, event.reference, id) ==>
        subs[id].status == Canceled || subs[id].status == NextStatus(event)
  {
    var subs' := Applied(subs, tenant, event);
    forall id | id in subs ensures subs'[id] == subs[id] <==>
      (Found(subs, tenant, event.reference, id) ==> subs[id].status == Canceled || subs[id].status == NextStatus(event))
    {
      OnlyCanceledRefuses(subs[id].status, event);
      assert subs[id].(status := NextStatus(event)).status == NextStatus(event);
      assert subs[id].(status := subs[id].status) == subs[id];
    }
    if forall id :: id in subs ==> subs'[id] == subs[id] { assert subs' == subs; }
  }

  lemma WriteIsDelivery(subs: map<int, Subscription>, tenant: string, event: PaymentEvent, id: int)
    requires UniqueReferences(subs) && Found(subs, tenant, event.reference, id)
    ensures Applied(subs, tenant, event) == subs[id := subs[id].(status := NextStatus(event))] <==> subs[id].status != Canceled
  {
    OnlyCanceledRefuses(subs[id].status, event);
    var written := subs[id := subs[id].(status := NextStatus(event))];
    if subs[id].status == Canceled {
      assert Applied(subs, tenant, event)[id] == subs[id] && written[id].status == NextStatus(event);
    } else {
      assert Applied(subs, tenant, event) == written;
    }
  }

  /** In any run, a commit has exactly the effect of delivering its event whole at that moment if and
      only if the decision taken on the read still stands. */
  lemma CommitIsDeliveryExactly(actions: seq<Action>, tid: int)
    requires tid in Run(EMPTY, actions).txs && Run(EMPTY, actions).txs[tid].phase == Done
    ensures
      var s := Run(EMPTY, actions); var t := s.txs[tid];
      DbOf(Step(s, Commit(tid))) == Consumed(DbOf(s), t.provider, t.event) <==> StillDecided(s, t)
  {
    EventsApplyOnce(actions);
    var s := Run(EMPTY, actions); var t := s.txs[tid];
    assert TxOk(s, t);
    if t.write.Some? {
      WriteIsDelivery(s.subs, t.tenant, t.event, t.write.value);
    } else if t.claimed {
      NoWriteIsDelivery(s.subs, t.tenant, t.event);
    }
  }

  /** A delivery that claimed its event and found nothing to write. */
  predicate FoundNothingToDo(t: Tx) {
    t.claimed && t.phase == Done && t.write.None?
  }

  /** Calm, and no subscription appears under a reference that a delivery has just looked up in vain. */
  predicate Quiet(s: State, a: Action) {
    && Calm(s, a)
    && (a.Create? ==> forall u :: u in s.txs && FoundNothingToDo(s.txs[u]) ==> s.txs[u].event.reference != a.sub.reference)
  }

  predicate AllQuiet(actions: seq<Action>) {
    forall n :: 0 <= n < |actions| ==> Quiet(Run(EMPTY, actions[..n]), actions[n])
  }

  /** The lookup finds nothing, or nothing but a canceled subscription. */
  predicate InVain(subs: map<int, Subscription>, tenant: string, reference: string) {
    forall id :: id in subs && Found(subs, tenant, reference, id) ==> subs[id].status == Canceled
  }

  predicate NothingCameUp(s: State) {
    forall u :: u in s.txs && FoundNothingToDo(s.txs[u]) ==> InVain(s.subs, s.txs[u].tenant, s.txs[u].event.reference)
  }

  lemma QuietRead(s: State, tid: int, id: int)
    requires Inv(s) && NothingCameUp(s)
    ensures NothingCameUp(Step(s, Read(tid, id)))
  {
    if tid in s.txs && Found(s.subs, s.txs[tid].tenant, s.txs[tid].event.reference, id) {
      OnlyCanceledRefuses(s.subs[id].status, s.txs[tid].event);
    }
  }

  lemma QuietCommit(s: State, tid: int)
    requires Inv(s) && ReadsHold(s) && NothingCameUp(s)
    ensures NothingCameUp(Step(s, Commit(tid)))
  {
    if tid in s.txs { assert TxOk(s, s.txs[tid]); }
  }

  lemma QuietCancel(s: State, id: int)
    requires NothingCameUp(s)
    ensures NothingCameUp(Step(s, Cancel(id)))
  {
  }

  lemma QuietStep(s: State, a: Action)
    requires Inv(s) && ReadsHold(s) && NothingCameUp(s) && Quiet(s, a)
    ensures NothingCameUp(Step(s, a))
  {
    match a
    case Read(tid, id) => QuietRead(s, tid, id);
    case Commit(tid) => QuietCommit(s, tid);
    case Cancel(id) => QuietCancel(s, id);
    case Update(tid) => if tid in s.txs { assert TxOk(s, s.txs[tid]); }
    case _ =>
  }

  lemma {:induction false} QuietRuns(actions: seq<Action>)
    requires AllQuiet(actions)
    ensures Inv(Run(EMPTY, actions)) && ReadsHold(Run(EMPTY, actions)) && NothingCameUp(Run(EMPTY, actions))
  {
    EventsApplyOnce(actions);
    forall k | 0 <= k < |actions| ensures Calm(Run(EMPTY, actions[..k]), actions[k]) {
      assert Quiet(Run(EMPTY, actions[..k]), actions[k]);
    }
    CalmRuns(actions);
    if actions != [] {
      var n := |actions| - 1;
      QuietPrefix(actions, n);
      QuietRuns(actions[..n]);
      QuietStep(Run(EMPTY, actions[..n]), actions[n]);
    }
  }

  lemma QuietPrefix(actions: seq<Action>, n: nat)
    requires AllQuiet(actions) && n <= |actions|
    ensures AllQuiet(actions[..n])
  {
    forall k | 0 <= k < n ensures Quiet(Run(EMPTY, actions[..n][..k]), actions[..n][k]) {
      assert actions[..n][..k] == actions[..k];
    }
  }

  /** One step on whole deliveries: a delivery runs at the moment its transaction commits, and its
      other steps do nothing at all. */
  function SerialStep(s: State, a: Action, db: Db): Db {
    match a
    case Commit(tid) =>
      if tid in s.txs && s.txs[tid].phase == Done then Consumed(db, s.txs[tid].provider, s.txs[tid].event) else db
    case Create(id, sub) => if Step(s, a) == s then db else db.(subs := db.subs[id := sub])
    case Cancel(id) =>
      if Step(s, a) == s || id !in db.subs then db
      else db.(subs := db.subs[id := db.subs[id].(status := Canceled)])
    case _ => db
  }

  function Serial(actions: seq<Action>): Db {
    if actions == [] then Db(map[], {})
    else
      var init := actions[..|actions| - 1];
      SerialStep(Run(EMPTY, init), actions[|actions| - 1], Serial(init))
  }

  lemma OtherStepsAgree(s: State, a: Action)
    requires !a.Commit?
    ensures DbOf(Step(s, a)) == SerialStep(s, a, DbOf(s))
  {
  }

  lemma CommitAgrees(actions: seq<Action>, tid: int)
    requires AllQuiet(actions)
    ensures
      var s := Run(EMPTY, actions);
      DbOf(Step(s, Commit(tid))) == SerialStep(s, Commit(tid), DbOf(s))
  {
    QuietRuns(actions);
    var s := Run(EMPTY, actions);
    if tid in s.txs && s.txs[tid].phase == Done {
      assert StillDecided(s, s.txs[tid]) by {
        if FoundNothingToDo(s.txs[tid]) { assert InVain(s.subs, s.txs[tid].tenant, s.txs[tid].event.reference); }
      }
      CommitIsDeliveryExactly(actions, tid);
    }
  }

  /** Quiet runs are serializable: however the statements interleave, the tables are those of whole
      deliveries in commit order. */
  lemma {:induction false} QuietRunsAreSerial(actions: seq<Action>)
    requires AllQuiet(actions)
    ensures DbOf(Run(EMPTY, actions)) == Serial(actions)
  {
    if actions != [] {
      var n := |actions| - 1;
      QuietPrefix(actions, n);
      QuietRunsAreSerial(actions[..n]);
      if actions[n].Commit? {
        CommitAgrees(actions[..n], actions[n].tid);
      } else {
        OtherStepsAgree(Run(EMPTY, actions[..n]), actions[n]);
      }
    }
  }

  // ----- what one undisturbed delivery does -----

  /** Nobody else has this event or this row. */
  predicate Undisturbed(s: State, tid: int, provider: int, event: PaymentEvent) {
    && tid !in s.txs && TenantFromReference(event.reference).Some?
    && forall u :: u in s.txs ==> !s.txs[u].claimed || Key(s.txs[u]) != (provider, event.id)
  }

  function AfterClaim(s: State, tid: int, provider: int, event: PaymentEvent): State {
    Step(Step(s, Receive(tid, provider, event)), Claim(tid))
  }

  lemma ClaimGoesThrough(s: State, tid: int, provider: int, event: PaymentEvent)
    requires Undisturbed(s, tid, provider, event)
    ensures
      var tenant := TenantFromReference(event.reference).value;
      AfterClaim(s, tid, provider, event) == SetTx(s, tid,
        if (provider, event.id) in s.receipts then Tx(tenant, provider, event, Done, false, None)
        else Tx(tenant, provider, event, Claimed, true, None))
  {
    var tenant := TenantFromReference(event.reference).value;
    var t := Tx(tenant, provider, event, Claiming, false, None);
    var s1 := Step(s, Receive(tid, provider, event));
    assert s1 == SetTx(s, tid, t) && Key(t) == (provider, event.id);
    assert !ClaimedByOther(s1, tid, Key(t));
    assert s.txs[tid := t][tid := t.(phase := Done)] == s.txs[tid := t.(phase := Done)];
    assert s.txs[tid := t][tid := t.(phase := Claimed, claimed := true)]
        == s.txs[tid := t.(phase := Claimed, claimed := true)];
  }

  /** A payment event that nobody has applied yet makes the subscription that its reference names active
      or, if the payment failed, past due; a canceled one stays; only its receipt is added besides. */
  lemma DeliverySettles(s: State, tid: int, provider: int, event: PaymentEvent, id: int)
    requires Undisturbed(s, tid, provider, event) && (provider, event.id) !in s.receipts
    requires UniqueReferences(s.subs) && id in s.subs && s.subs[id].reference == event.reference
    requires TenantFromReference(event.reference) == Some(s.subs[id].tenant)
    requires forall u :: u in s.txs ==> s.txs[u].write != Some(id)
    ensures
      var s' := Step(Step(Step(AfterClaim(s, tid, provider, event), Read(tid, id)), Update(tid)), Commit(tid));
      && Settled(s.subs, s'.subs, s.subs[id].tenant, event)
      && s'.receipts == s.receipts + {(provider, event.id)} && s'.txs == s.txs
  {
    ClaimGoesThrough(s, tid, provider, event);
    OnlyCanceledRefuses(s.subs[id].status, event);
    var s2 := AfterClaim(s, tid, provider, event);
    var s3 := Step(s2, Read(tid, id));
    var s4 := Step(s3, Update(tid));
    if s.subs[id].status != Canceled {
      assert !LockedByOther(s3, tid, id);
      assert s4.txs[tid].write == Some(id) && s4.txs[tid].event == event && s4.subs == s.subs;
    } else {
      assert s4.txs[tid].write == None && s4.subs == s.subs;
    }
    assert s4.txs - {tid} == s.txs;
  }

  /** A repeated event changes nothing. */
  lemma RepeatChangesNothing(s: State, tid: int, provider: int, event: PaymentEvent)
    requires Undisturbed(s, tid, provider, event) && (provider, event.id) in s.receipts
    ensures Step(AfterClaim(s, tid, provider, event), Commit(tid)) == s
  {
    ClaimGoesThrough(s, tid, provider, event);
    assert s.txs[tid := AfterClaim(s, tid, provider, event).txs[tid]] - {tid} == s.txs;
  }

  /** An event that names no subscription is receipted all the same, and changes nothing else. */
  lemma UnknownIsReceipted(s: State, tid: int, provider: int, event: PaymentEvent)
    requires Undisturbed(s, tid, provider, event) && (provider, event.id) !in s.receipts
    requires forall id :: id in s.subs ==> s.subs[id].reference != event.reference
    ensures
      Step(Step(AfterClaim(s, tid, provider, event), ReadNothing(tid)), Commit(tid)) ==
        s.(receipts := s.receipts + {(provider, event.id)}, applied := s.applied + [(provider, event.id)])
  {
    ClaimGoesThrough(s, tid, provider, event);
    assert Step(AfterClaim(s, tid, provider, event), ReadNothing(tid)).txs - {tid} == s.txs;
  }

  /** A subscription begins on trial, under a reference of its own that names its tenant; a free such
      reference is never refused. */
  lemma SubscriptionsBeginOnTrial(s: State, a: Action, id: int, sub: Subscription)
    ensures id in Step(s, a).subs && id !in s.subs ==>
      && Step(s, a).subs[id].status == Trialing
      && TenantFromReference(Step(s, a).subs[id].reference) == Some(Step(s, a).subs[id].tenant)
      && forall other :: other in s.subs ==> s.subs[other].reference != Step(s, a).subs[id].reference
    ensures
      && id !in s.subs && sub.status == Trialing && TenantFromReference(sub.reference) == Some(sub.tenant)
      && (forall other :: other in s.subs ==> s.subs[other].reference != sub.reference) ==>
        Step(s, Create(id, sub)) == s.(subs := s.subs[id := sub])
  {
  }

  /** In any run, the commit of a delivery leaves the row it wrote active or, for a failed payment, past
      due, and every other row as it was. */
  lemma CommitSettles(actions: seq<Action>, tid: int)
    requires tid in Run(EMPTY, actions).txs && Run(EMPTY, actions).txs[tid].phase == Done
    ensures
      var s := Run(EMPTY, actions); var t := s.txs[tid]; var s' := Step(s, Commit(tid));
      && s'.subs.Keys == s.subs.Keys
      && forall id :: id in s.subs ==>
           s'.subs[id] ==
             if t.write == Some(id) then s.subs[id].(status := if t.event.kind == Succeeded then Active else PastDue)
             else s.subs[id]
  {
    EventsApplyOnce(actions);
    var s := Run(EMPTY, actions);
    assert TxOk(s, s.txs[tid]);
  }
}
