/** Concurrent requests that carry an Idempotency-Key. Claim, operation and stored response share one
    transaction; a second insert of an uncommitted key waits for the first transaction to end. */
module IdempotencyProtocol {
  import opened Wrappers

  /** The key's row: hash of the request body and, once the operation is done, its response. */
  datatype KeyRow = KeyRow(hash: int, response: Option<int>)

  datatype Error = KeyReused | InProgress | OperationFailed

  datatype Phase =
    | Claiming
    | Operating
    | Completing(result: int)
    | Replaying
    | Answered(result: int)
    | Failed(error: Error)

  /** `pending` is the transaction's own uncommitted key row, `ran` its uncommitted operation. */
  datatype Tx = Tx(
    tenant: int, key: Option<int>, body: int, phase: Phase, pending: Option<KeyRow>, ran: Option<int>)

  /** A committed operation, and an answer given to a client after commit. */
  datatype Effect = Effect(tenant: int, key: Option<int>, body: int, result: int)

  datatype State = State(
    hash: int -> int, rows: map<(int, int), KeyRow>, effects: seq<Effect>, answers: seq<Effect>, txs: map<int, Tx>)

  datatype Action =
    | Begin(tid: int, tenant: int, key: Option<int>, body: int)
    | Claim(tid: int)
    | Operate(tid: int, result: int)
    | Break(tid: int)       // the operation throws
    | Complete(tid: int)
    | Replay(tid: int)
    | Commit(tid: int)
    | Rollback(tid: int)

  function Empty(hash: int -> int): State {
    State(hash, map[], [], [], map[])
  }

  function SetTx(s: State, tid: int, t: Tx): State {
    s.(txs := s.txs[tid := t])
  }

  /** Another live transaction has inserted this key and not ended yet. */
  predicate ClaimedByOther(s: State, tid: int, tenant: int, key: int) {
    exists u :: u in s.txs && u != tid && Claims(s.txs[u], tenant, key)
  }

  predicate Claims(t: Tx, tenant: int, key: int) {
    t.pending.Some? && t.tenant == tenant && t.key == Some(key)
  }

  /** Insert or ignore on the unique key; without a key the operation just runs. */
  function DoClaim(s: State, tid: int): State
    requires tid in s.txs
  {
    var t := s.txs[tid];
    if t.phase != Claiming then s
    else if t.key.None? then SetTx(s, tid, t.(phase := Operating))
    else if ClaimedByOther(s, tid, t.tenant, t.key.value) then s
    else if (t.tenant, t.key.value) in s.rows then SetTx(s, tid, t.(phase := Replaying))
    else SetTx(s, tid, t.(phase := Operating, pending := Some(KeyRow(s.hash(t.body), None))))
  }

  function DoOperate(s: State, tid: int, result: int): State
    requires tid in s.txs
  {
    var t := s.txs[tid];
    if t.phase != Operating then s
    else SetTx(s, tid, t.(ran := Some(result), phase := if t.pending.Some? then Completing(result) else Answered(result)))
  }

  function DoComplete(s: State, tid: int): State
    requires tid in s.txs
  {
    var t := s.txs[tid];
    if !t.phase.Completing? || t.pending.None? then s
    else SetTx(s, tid, t.(phase := Answered(t.phase.result), pending := Some(t.pending.value.(response := Some(t.phase.result)))))
  }

  function DoReplay(s: State, tid: int): State
    requires tid in s.txs
  {
    var t := s.txs[tid];
    if t.phase != Replaying || t.key.None? then s
    else
      var k := (t.tenant, t.key.value);
      SetTx(s, tid, t.(phase :=
        if k !in s.rows || s.rows[k].hash != s.hash(t.body) then Failed(KeyReused)
        else if s.rows[k].response.None? then Failed(InProgress)
        else Answered(s.rows[k].response.value)))
  }

  function DoCommit(s: State, tid: int): State
    requires tid in s.txs
  {
    var t := s.txs[tid];
    if !t.phase.Answered? then s
    else
      s.(rows := if t.pending.Some? && t.key.Some? then s.rows[(t.tenant, t.key.value) := t.pending.value] else s.rows,
         effects := if t.ran.Some? then s.effects + [Effect(t.tenant, t.key, t.body, t.ran.value)] else s.effects,
         answers := s.answers + [Effect(t.tenant, t.key, t.body, t.phase.result)],
         txs := s.txs - {tid})
  }

  function Step(s: State, a: Action): State {
    match a
    case Begin(tid, tenant, key, body) =>
      if tid in s.txs then s else SetTx(s, tid, Tx(tenant, key, body, Claiming, None, None))
    case Claim(tid) => if tid in s.txs then DoClaim(s, tid) else s
    case Operate(tid, result) => if tid in s.txs then DoOperate(s, tid, result) else s
    case Break(tid) =>
      if tid in s.txs && s.txs[tid].phase == Operating then SetTx(s, tid, s.txs[tid].(phase := Failed(OperationFailed))) else s
    case Complete(tid) => if tid in s.txs then DoComplete(s, tid) else s
    case Replay(tid) => if tid in s.txs then DoReplay(s, tid) else s
    case Commit(tid) => if tid in s.txs then DoCommit(s, tid) else s
    case Rollback(tid) => s.(txs := s.txs - {tid})
  }

  function Run(s: State, actions: seq<Action>): State {
    if actions == [] then s
    else Step(Run(s, actions[..|actions| - 1]), actions[|actions| - 1])
  }

  // ----- what every run keeps -----

  /** The committed operations of one tenant's key. */
  function EffectsOf(effects: seq<Effect>, tenant: int, key: int): seq<Effect> {
    if effects == [] then []
    else
      var last := effects[|effects| - 1];
      EffectsOf(effects[..|effects| - 1], tenant, key)
        + if last.tenant == tenant && last.key == Some(key) then [last] else []
  }

  /** A key that was never committed has no operation; a committed one has exactly one, whose body
      and result are those stored with the key. */
  predicate OncePerKey(s: State, tenant: int, key: int) {
    var done := EffectsOf(s.effects, tenant, key);
    if (tenant, key) !in s.rows then done == []
    else |done| == 1 && s.rows[(tenant, key)] == KeyRow(s.hash(done[0].body), Some(done[0].result))
  }

  predicate TxOk(s: State, t: Tx) {
    && (t.pending.Some? ==> t.key.Some? && (t.tenant, t.key.value) !in s.rows && t.pending.value.hash == s.hash(t.body))
    && (t.key.Some? && t.phase == Operating ==> t.pending.Some?)
    && (t.phase == Replaying ==> t.pending.None? && t.ran.None? && t.key.Some? && (t.tenant, t.key.value) in s.rows)
    && (t.phase == Claiming ==> t.pending.None? && t.ran.None?)
    && (t.phase == Operating ==> t.ran.None?)
    && (t.phase.Completing? ==> t.pending.Some? && t.ran == Some(t.phase.result))
    && (t.phase.Answered? ==> AnswerOk(s, t))
    && t.phase != Failed(InProgress)
  }

  /** An answer is either the result of the transaction's own operation, stored with its key if it
      has one, or the response stored with the key for this very body. */
  predicate AnswerOk(s: State, t: Tx)
    requires t.phase.Answered?
  {
    if t.ran.Some? then
      && t.ran.value == t.phase.result
      && (t.key.Some? ==> t.pending == Some(KeyRow(s.hash(t.body), Some(t.phase.result))))
      && (t.key.None? ==> t.pending.None?)
    else
      && t.pending.None? && t.key.Some? && (t.tenant, t.key.value) in s.rows
      && s.rows[(t.tenant, t.key.value)] == KeyRow(s.hash(t.body), Some(t.phase.result))
  }

  /** Every answer given under a key is the response stored with it, for the same body. */
  predicate AnswersOk(s: State) {
    forall i :: 0 <= i < |s.answers| && s.answers[i].key.Some? ==>
      var a := s.answers[i];
      (a.tenant, a.key.value) in s.rows && s.rows[(a.tenant, a.key.value)] == KeyRow(s.hash(a.body), Some(a.result))
  }

  predicate OneClaimant(s: State) {
    forall t, u :: t in s.txs && u in s.txs && t != u && s.txs[t].pending.Some? && s.txs[u].pending.Some? ==>
      s.txs[t].tenant != s.txs[u].tenant || s.txs[t].key != s.txs[u].key
  }

  ghost predicate Inv(s: State) {
    && (forall tenant, key :: OncePerKey(s, tenant, key))
    && (forall t :: t in s.txs ==> TxOk(s, s.txs[t]))
    && OneClaimant(s) && AnswersOk(s)
  }

  lemma EffectsAppend(effects: seq<Effect>, e: Effect, tenant: int, key: int)
    ensures EffectsOf(effects + [e], tenant, key)
      == EffectsOf(effects, tenant, key) + (if e.tenant == tenant && e.key == Some(key) then [e] else [])
  {
    assert (effects + [e])[..|effects + [e]| - 1] == effects;
  }

  lemma CommitKeepsInv(s: State, tid: int)
    requires Inv(s) && tid in s.txs
    ensures Inv(DoCommit(s, tid))
  {
    var t := s.txs[tid];
    var s' := DoCommit(s, tid);
    if t.phase.Answered? {
      assert TxOk(s, t);
      forall tenant, key ensures OncePerKey(s', tenant, key) {
        assert OncePerKey(s, tenant, key);
        if t.ran.Some? { EffectsAppend(s.effects, Effect(t.tenant, t.key, t.body, t.ran.value), tenant, key); }
      }
      forall u | u in s'.txs ensures TxOk(s', s'.txs[u]) {
        assert TxOk(s, s.txs[u]);
      }
    }
  }

  /** A step inside one transaction that claims nothing new. */
  lemma SetTxKeepsInv(s: State, tid: int, t: Tx)
    requires Inv(s) && TxOk(s, t) && OneClaimant(SetTx(s, tid, t))
    ensures Inv(SetTx(s, tid, t))
  {
    var s' := SetTx(s, tid, t);
    forall tenant, key ensures OncePerKey(s', tenant, key) { assert OncePerKey(s, tenant, key); }
    forall u | u in s'.txs ensures TxOk(s', s'.txs[u]) {
      if u == tid { assert TxOk(s, t); } else { assert TxOk(s, s.txs[u]); }
    }
  }

  lemma ClaimKeepsInv(s: State, tid: int)
    requires Inv(s) && tid in s.txs
    ensures Inv(DoClaim(s, tid))
  {
    var t := s.txs[tid];
    assert TxOk(s, t);
    if DoClaim(s, tid) != s {
      if t.key.Some? {
        assert forall u :: u in s.txs && u != tid ==> !Claims(s.txs[u], t.tenant, t.key.value);
      }
      SetTxKeepsInv(s, tid, DoClaim(s, tid).txs[tid]);
    }
  }

  lemma WorkKeepsInv(s: State, tid: int, result: int)
    requires Inv(s) && tid in s.txs
    ensures Inv(DoOperate(s, tid, result)) && Inv(DoComplete(s, tid))
  {
    assert TxOk(s, s.txs[tid]);
    if DoOperate(s, tid, result) != s { SetTxKeepsInv(s, tid, DoOperate(s, tid, result).txs[tid]); }
    if DoComplete(s, tid) != s { SetTxKeepsInv(s, tid, DoComplete(s, tid).txs[tid]); }
  }

  lemma ReplayKeepsInv(s: State, tid: int)
    requires Inv(s) && tid in s.txs
    ensures Inv(DoReplay(s, tid))
  {
    var t := s.txs[tid];
    assert TxOk(s, t);
    if t.phase == Replaying {
      assert OncePerKey(s, t.tenant, t.key.value);
      SetTxKeepsInv(s, tid, DoReplay(s, tid).txs[tid]);
    }
  }

  lemma StepKeepsInv(s: State, a: Action)
    requires Inv(s)
    ensures Inv(Step(s, a))
  {
    match a
    case Begin(tid, tenant, key, body) =>
      if tid !in s.txs { SetTxKeepsInv(s, tid, Tx(tenant, key, body, Claiming, None, None)); }
    case Claim(tid) => if tid in s.txs { ClaimKeepsInv(s, tid); }
    case Operate(tid, result) => if tid in s.txs { WorkKeepsInv(s, tid, result); }
    case Break(tid) => if Step(s, a) != s {
      assert TxOk(s, s.txs[tid]);
      SetTxKeepsInv(s, tid, s.txs[tid].(phase := Failed(OperationFailed)));
    }
    case Complete(tid) => if tid in s.txs { WorkKeepsInv(s, tid, 0); }
    case Replay(tid) => if tid in s.txs { ReplayKeepsInv(s, tid); }
    case Commit(tid) => if tid in s.txs { CommitKeepsInv(s, tid); }
    case Rollback(tid) =>
      forall tenant, key ensures OncePerKey(Step(s, a), tenant, key) { assert OncePerKey(s, tenant, key); }
      forall u | u in s.txs && u != tid ensures TxOk(Step(s, a), s.txs[u]) { assert TxOk(s, s.txs[u]); }
  }

  /** Whatever the interleaving: for each tenant and key at most one operation ever commits, each
      committed key row has its response, no request is told that another is still in progress, and
      every answer under a key is the stored response to the same body. */
  lemma {:induction false} RunsAreIdempotent(hash: int -> int, actions: seq<Action>)
    ensures Inv(Run(Empty(hash), actions))
    ensures forall tenant, key :: OncePerKey(Run(Empty(hash), actions), tenant, key)
    ensures AnswersOk(Run(Empty(hash), actions))
    ensures forall t :: t in Run(Empty(hash), actions).txs ==> Run(Empty(hash), actions).txs[t].phase != Failed(InProgress)
  {
    if actions != [] {
      RunsAreIdempotent(hash, actions[..|actions| - 1]);
      StepKeepsInv(Run(Empty(hash), actions[..|actions| - 1]), actions[|actions| - 1]);
    }
    var s := Run(Empty(hash), actions);
    forall t | t in s.txs ensures s.txs[t].phase != Failed(InProgress) { assert TxOk(s, s.txs[t]); }
  }

  function Attempt(tid: int, tenant: int, key: int, body: int): seq<Action> {
    [Begin(tid, tenant, Some(key), body), Claim(tid), Replay(tid), Commit(tid)]
  }

  lemma RunAttempt(s: State, tid: int, tenant: int, key: int, body: int)
    ensures Run(s, Attempt(tid, tenant, key, body))
      == Step(Step(Step(Step(s, Begin(tid, tenant, Some(key), body)), Claim(tid)), Replay(tid)), Commit(tid))
  {
    var x := Attempt(tid, tenant, key, body);
    assert x[..4] == x && x[..3][..2] == x[..2] && x[..2][..1] == x[..1] && x[..1][..0] == [];
    assert Run(s, x[..1]) == Step(s, x[0]);
    assert Run(s, x[..2]) == Step(Run(s, x[..1]), x[1]);
    assert Run(s, x[..3]) == Step(Run(s, x[..2]), x[2]);
    assert Run(s, x) == Step(Run(s, x[..3]), x[3]);
  }

  /** A request for a committed key gets as far as the replay. */
  lemma CommittedKeyIsReplayed(s: State, tid: int, tenant: int, key: int, body: int)
    requires Inv(s) && tid !in s.txs && (tenant, key) in s.rows
    ensures Step(Step(s, Begin(tid, tenant, Some(key), body)), Claim(tid))
      == SetTx(s, tid, Tx(tenant, Some(key), body, Replaying, None, None))
  {
    forall u | u in s.txs ensures !Claims(s.txs[u], tenant, key) { assert TxOk(s, s.txs[u]); }
    var t := Tx(tenant, Some(key), body, Claiming, None, None);
    assert !ClaimedByOther(SetTx(s, tid, t), tid, tenant, key);
    assert s.txs[tid := t][tid := t.(phase := Replaying)] == s.txs[tid := t.(phase := Replaying)];
  }

  /** A retry after the winner committed: with the same body it is answered with the winner's own
      result and runs nothing; with any other body it is refused, and nothing changes either. */
  lemma RetryAfterCommit(hash: int -> int, actions: seq<Action>, tid: int, tenant: int, key: int, body: int)
    requires forall a, b :: hash(a) == hash(b) ==> a == b
    requires tid !in Run(Empty(hash), actions).txs && (tenant, key) in Run(Empty(hash), actions).rows
    ensures
      var s := Run(Empty(hash), actions);
      var winner := EffectsOf(s.effects, tenant, key);
      var s' := Run(s, Attempt(tid, tenant, key, body));
      && |winner| == 1 && s'.rows == s.rows && s'.effects == s.effects
      && (body == winner[0].body ==>
            s'.answers == s.answers + [Effect(tenant, Some(key), body, winner[0].result)] && tid !in s'.txs)
      && (body != winner[0].body ==>
            s'.answers == s.answers && tid in s'.txs && s'.txs[tid].phase == Failed(KeyReused))
  {
    RunsAreIdempotent(hash, actions);
    var s := Run(Empty(hash), actions);
    assert OncePerKey(s, tenant, key);
    KeepsHash(hash, actions);
    CommittedKeyIsReplayed(s, tid, tenant, key, body);
    RunAttempt(s, tid, tenant, key, body);
  }

  lemma {:induction false} KeepsHash(hash: int -> int, actions: seq<Action>)
    ensures Run(Empty(hash), actions).hash == hash
  {
    if actions != [] { KeepsHash(hash, actions[..|actions| - 1]); }
  }

  /** A winner that rolls back leaves the key free: the next request claims it and may run. */
  lemma RollbackFreesTheKey(hash: int -> int, actions: seq<Action>, tid: int, next: int)
    requires tid in Run(Empty(hash), actions).txs && next in Run(Empty(hash), actions).txs && next != tid
    requires
      var s := Run(Empty(hash), actions);
      && s.txs[tid].pending.Some? && s.txs[next].phase == Claiming
      && s.txs[next].tenant == s.txs[tid].tenant && s.txs[next].key == s.txs[tid].key
    ensures
      var s := Run(Empty(hash), actions);
      && Step(s, Claim(next)) == s
      && Step(Step(s, Rollback(tid)), Claim(next)).txs[next].phase == Operating
      && Step(Step(s, Rollback(tid)), Claim(next)).effects == s.effects
  {
    RunsAreIdempotent(hash, actions);
    var s := Run(Empty(hash), actions);
    assert TxOk(s, s.txs[tid]);
    var t := s.txs[next];
    assert Claims(s.txs[tid], t.tenant, t.key.value);
    var s1 := Step(s, Rollback(tid));
    forall u | u in s1.txs && u != next ensures !Claims(s1.txs[u], t.tenant, t.key.value) { }
  }

  /** A request whose key nobody holds or has used runs its operation once and stores the result under
      the key; one without a key runs it and stores nothing. Both answer the operation's own result. */
  lemma FirstRequestRuns(s: State, tid: int, tenant: int, key: Option<int>, body: int, result: int)
    requires tid !in s.txs
    requires key.Some? ==> (tenant, key.value) !in s.rows
    requires key.Some? ==> forall u :: u in s.txs && s.txs[u].tenant == tenant && s.txs[u].key == key ==> s.txs[u].pending.None?
    ensures
      var s1 := Step(Step(Step(s, Begin(tid, tenant, key, body)), Claim(tid)), Operate(tid, result));
      var s' := Step(if key.Some? then Step(s1, Complete(tid)) else s1, Commit(tid));
      && s'.effects == s.effects + [Effect(tenant, key, body, result)]
      && s'.answers == s.answers + [Effect(tenant, key, body, result)]
      && s'.rows == (if key.Some? then s.rows[(tenant, key.value) := KeyRow(s.hash(body), Some(result))] else s.rows)
      && s'.txs == s.txs
  {
    var t := Tx(tenant, key, body, Claiming, None, None);
    assert key.Some? ==> !ClaimedByOther(SetTx(s, tid, t), tid, tenant, key.value);
  }

  /** An operation that throws can only be rolled back, and then nothing of the request remains: its
      key is as free as before. */
  lemma FailedOperationLeavesNothing(s: State, tid: int, tenant: int, key: Option<int>, body: int)
    requires tid !in s.txs
    requires key.Some? ==> (tenant, key.value) !in s.rows
    requires key.Some? ==> forall u :: u in s.txs && s.txs[u].tenant == tenant && s.txs[u].key == key ==> s.txs[u].pending.None?
    ensures
      var broken := Step(Step(Step(s, Begin(tid, tenant, key, body)), Claim(tid)), Break(tid));
      && broken.txs[tid].phase == Failed(OperationFailed)
      && (forall a: Action :: a.tid == tid && a != Rollback(tid) ==> Step(broken, a) == broken)
      && Step(broken, Rollback(tid)) == s
  {
    var t := Tx(tenant, key, body, Claiming, None, None);
    assert key.Some? ==> !ClaimedByOther(SetTx(s, tid, t), tid, tenant, key.value);
    var broken := Step(Step(Step(s, Begin(tid, tenant, key, body)), Claim(tid)), Break(tid));
    assert broken.txs - {tid} == s.txs;
  }
}
