/** The transaction of a request, from the middleware that opens it to whoever settles it: the
    interceptor's commit or the rollback of a response event. Every await is a point where any other
    event of any request may come in between. */
module RequestLifecycle {
  import opened Wrappers

  datatype Stage =
    | Connecting | Starting | Checking
    | CatchRollback | CatchRelease      // set-up failed
    | BlockedRollback | BlockedRelease  // the tenant is unknown or suspended
    | Serving                           // the listeners are registered and the handler runs
    | Over

  /** An asynchronous piece of work that is under way: the interceptor's or a listener's. */
  datatype Work = Committing | ReleaseAfterCommit | RollingBack | ReleaseAfterRollback

  /** How the handler has ended, if it has. */
  datatype Handler = Running | Returned | Threw

  /** `responded`: a response event reached the listeners; `deaf`: one came before they were
      registered. */
  datatype Request = Request(
    connection: Option<int>, inTx: bool, stage: Stage, settled: bool, works: seq<Work>, responded: bool, deaf: bool,
    handler: Handler, releases: nat, commits: nat, rollbacks: nat)

  datatype State = State(free: set<int>, requests: map<int, Request>)

  datatype Action =
    | Arrive(rid: int)
    | Connect(rid: int, connection: Option<int>)  // None: no connection could be had
    | StartTransaction(rid: int, ok: bool)
    | CheckTenant(rid: int, ok: bool, blocked: bool)
    | SetupStep(rid: int, ok: bool)               // the next step of a failed or blocked set-up
    | Intercept(rid: int)                         // the handler has returned
    | HandlerEnds(rid: int)                       // the handler has thrown: the interceptor does not run
    | ResponseEvent(rid: int)                     // 'finish' or 'close', any number of times
    | Continue(rid: int, k: nat, ok: bool)        // a work goes on; `ok` is how its database call ended

  const NEW := Request(None, false, Connecting, false, [], false, false, Running, 0, 0, 0)

  function Set(s: State, rid: int, r: Request): State {
    s.(requests := s.requests[rid := r])
  }

  /** Gives the connection back to the pool. */
  function Release(s: State, rid: int, r: Request): State {
    if r.connection.None? then Set(s, rid, r)
    else Set(s, rid, r.(releases := r.releases + 1)).(free := s.free + {r.connection.value})
  }

  function AfterRollback(r: Request, ok: bool): Request {
    if ok then r.(inTx := false, rollbacks := r.rollbacks + 1) else r
  }

  function Setup(s: State, rid: int, a: Action): State
    requires rid in s.requests
  {
    var r := s.requests[rid];
    match a
    case Connect(_, connection) =>
      if r.stage != Connecting then s
      else if connection.None? then Set(s, rid, r.(stage := CatchRelease))
      else if connection.value !in s.free then s
      else Set(s, rid, r.(stage := Starting, connection := connection)).(free := s.free - {connection.value})
    case StartTransaction(_, ok) =>
      if r.stage != Starting then s
      else Set(s, rid, if ok then r.(stage := Checking, inTx := true) else r.(stage := CatchRelease))
    case CheckTenant(_, ok, blocked) =>
      if r.stage != Checking then s
      else Set(s, rid, r.(stage := if !ok then CatchRollback else if blocked then BlockedRollback else Serving))
    case SetupStep(_, ok) =>
      if r.stage == CatchRollback then Set(s, rid, AfterRollback(r, ok).(stage := CatchRelease))
      else if r.stage == BlockedRollback then Set(s, rid, AfterRollback(r, ok).(stage := BlockedRelease))
      else if r.stage == CatchRelease || r.stage == BlockedRelease then Release(s, rid, r.(stage := Over))
      else s
    case _ => s
  }

  function Advance(s: State, rid: int, k: nat, ok: bool): State
    requires rid in s.requests && k < |s.requests[rid].works|
  {
    var r := s.requests[rid];
    match r.works[k]
    case Committing =>
      var r' := r.(works := r.works[k := ReleaseAfterCommit]);
      Set(s, rid, if ok then r'.(inTx := false, commits := r.commits + 1) else r')
    case RollingBack => Set(s, rid, AfterRollback(r.(works := r.works[k := ReleaseAfterRollback]), ok))
    case _ => Release(s, rid, r.(works := r.works[..k] + r.works[k + 1..]))
  }

  function Step(s: State, a: Action): State {
    match a
    case Arrive(rid) => if rid in s.requests then s else Set(s, rid, NEW)
    case Intercept(rid) =>
      if rid !in s.requests || s.requests[rid].stage != Serving || s.requests[rid].handler != Running then s
      else if s.requests[rid].settled then Set(s, rid, s.requests[rid].(handler := Returned))
      else Set(s, rid, s.requests[rid].(handler := Returned, settled := true, works := s.requests[rid].works + [Committing]))
    case HandlerEnds(rid) =>
      if rid !in s.requests || s.requests[rid].stage != Serving || s.requests[rid].handler != Running then s
      else Set(s, rid, s.requests[rid].(handler := Threw))
    case ResponseEvent(rid) =>
      if rid !in s.requests || s.requests[rid].stage == Over then s
      else if s.requests[rid].stage != Serving then Set(s, rid, s.requests[rid].(deaf := true))
      else if s.requests[rid].settled then Set(s, rid, s.requests[rid].(responded := true))
      else Set(s, rid, s.requests[rid].(responded := true, settled := true, works := s.requests[rid].works + [RollingBack]))
    case Continue(rid, k, ok) =>
      if rid in s.requests && k < |s.requests[rid].works| then Advance(s, rid, k, ok) else s
    case Connect(rid, _) => if rid in s.requests then Setup(s, rid, a) else s
    case StartTransaction(rid, _) => if rid in s.requests then Setup(s, rid, a) else s
    case CheckTenant(rid, _, _) => if rid in s.requests then Setup(s, rid, a) else s
    case SetupStep(rid, _) => if rid in s.requests then Setup(s, rid, a) else s
  }

  function Run(s: State, actions: seq<Action>): State {
    if actions == [] then s
    else Step(Run(s, actions[..|actions| - 1]), actions[|actions| - 1])
  }

  /** The request holds a connection now. */
  predicate Holds(r: Request) {
    r.connection.Some? && r.releases == 0
  }

  /** The request has ended: its set-up did, or no work is left and its response has, whether or not
      the listeners were there to hear it. */
  predicate Ended(r: Request) {
    r.stage == Over || (r.works == [] && (r.responded || (r.deaf && r.handler != Running)))
  }

  /** The response closed before the listeners were registered, the handler then threw, and no later
      event of the response has come. */
  predicate Unheard(r: Request) {
    r.stage == Serving && r.deaf && r.handler == Threw && !r.responded
  }

  predicate RequestOk(r: Request) {
    && r.releases <= 1 && r.commits + r.rollbacks <= 1
    && (r.connection.None? ==> r.releases == 0)
    && (r.inTx ==> r.commits + r.rollbacks == 0)
    && (r.stage != Serving ==> !r.settled && !r.responded && r.handler == Running && r.works == [])
    && (r.stage != Serving && r.stage != Over ==> r.releases == 0)
    && (r.stage == Over && r.connection.Some? ==> r.releases == 1)
    && (r.stage.Connecting? ==> r.connection.None?)
    && (r.stage.Starting? || r.stage.Checking? || r.stage.Serving? ==> r.connection.Some?)
    && (r.stage.Connecting? || r.stage.Starting? ==> r.commits + r.rollbacks == 0)
    && (r.stage.Checking? || r.stage.CatchRollback? || r.stage.BlockedRollback? ==> r.commits + r.rollbacks == 0)
    && (r.stage == Serving ==>
          && |r.works| <= 1 && (r.responded || r.handler == Returned <==> r.settled)
          && (!r.settled ==> r.works == [] && r.releases == 0 && r.commits + r.rollbacks == 0)
          && (r.settled ==> r.releases == (if r.works == [] then 1 else 0))
          && (|r.works| == 1 && (r.works[0] == Committing || r.works[0] == RollingBack) ==> r.commits + r.rollbacks == 0))
  }

  /** Every connection of the pool is either free or held by exactly one request. */
  predicate Conserved(s: State, pool: set<int>) {
    && s.free <= pool
    && (forall q :: q in s.requests && Holds(s.requests[q]) ==>
          s.requests[q].connection.value in pool && s.requests[q].connection.value !in s.free)
    && (forall q, r :: q in s.requests && r in s.requests && q != r && Holds(s.requests[q]) && Holds(s.requests[r]) ==>
          s.requests[q].connection != s.requests[r].connection)
    && (forall c :: c in pool && c !in s.free ==> exists q :: q in s.requests && Holds(s.requests[q]) && s.requests[q].connection == Some(c))
  }

  predicate Inv(s: State, pool: set<int>) {
    Conserved(s, pool) && forall q :: q in s.requests ==> RequestOk(s.requests[q])
  }

  /** A step that neither takes nor gives back a connection. */
  lemma QuietStep(s: State, pool: set<int>, rid: int, r: Request)
    requires Inv(s, pool) && RequestOk(r)
    requires if rid in s.requests then r.connection == s.requests[rid].connection && r.releases == s.requests[rid].releases else !Holds(r)
    ensures Inv(Set(s, rid, r), pool)
  {
    var s' := Set(s, rid, r);
    forall c | c in pool && c !in s'.free
      ensures exists q :: q in s'.requests && Holds(s'.requests[q]) && s'.requests[q].connection == Some(c)
    {
      var q :| q in s.requests && Holds(s.requests[q]) && s.requests[q].connection == Some(c);
      assert Holds(s'.requests[q]);
    }
  }

  lemma TakeStep(s: State, pool: set<int>, rid: int, c: int)
    requires Inv(s, pool) && rid in s.requests && s.requests[rid].stage == Connecting && c in s.free
    ensures Inv(Setup(s, rid, Connect(rid, Some(c))), pool)
  {
    var s' := Setup(s, rid, Connect(rid, Some(c)));
    assert Holds(s'.requests[rid]);
    forall d | d in pool && d !in s'.free
      ensures exists q :: q in s'.requests && Holds(s'.requests[q]) && s'.requests[q].connection == Some(d)
    {
      if d != c {
        var q :| q in s.requests && Holds(s.requests[q]) && s.requests[q].connection == Some(d);
        assert q != rid && Holds(s'.requests[q]);
      }
    }
  }

  lemma ReleaseStep(s: State, pool: set<int>, rid: int, r: Request)
    requires Inv(s, pool) && rid in s.requests
    requires r.connection == s.requests[rid].connection && r.releases == s.requests[rid].releases == 0
    requires RequestOk(if r.connection.Some? then r.(releases := 1) else r)
    ensures Inv(Release(s, rid, r), pool)
  {
    var s' := Release(s, rid, r);
    forall c | c in pool && c !in s'.free
      ensures exists q :: q in s'.requests && Holds(s'.requests[q]) && s'.requests[q].connection == Some(c)
    {
      var q :| q in s.requests && Holds(s.requests[q]) && s.requests[q].connection == Some(c);
      assert q != rid && Holds(s'.requests[q]);
    }
  }

  lemma SetupKeepsInv(s: State, pool: set<int>, rid: int, a: Action)
    requires Inv(s, pool) && rid in s.requests
    ensures Inv(Setup(s, rid, a), pool)
  {
    var s', r := Setup(s, rid, a), s.requests[rid];
    assert RequestOk(r);
    if s' == s {
    } else if a.Connect? && a.connection.Some? {
      TakeStep(s, pool, rid, a.connection.value);
    } else if a.SetupStep? && (r.stage == CatchRelease || r.stage == BlockedRelease) {
      ReleaseStep(s, pool, rid, r.(stage := Over));
    } else {
      QuietStep(s, pool, rid, s'.requests[rid]);
    }
  }

  lemma WorkEnds(s: State, pool: set<int>, rid: int)
    requires Inv(s, pool) && rid in s.requests && |s.requests[rid].works| == 1
    requires s.requests[rid].works[0] == ReleaseAfterCommit || s.requests[rid].works[0] == ReleaseAfterRollback
    ensures Inv(Advance(s, rid, 0, true), pool) && Advance(s, rid, 0, false) == Advance(s, rid, 0, true)
  {
    var r := s.requests[rid];
    assert RequestOk(r);
    assert r.works[..0] + r.works[1..] == [];
    ReleaseStep(s, pool, rid, r.(works := []));
  }

  lemma CallReturns(s: State, rid: int, ok: bool)
    requires rid in s.requests && RequestOk(s.requests[rid]) && |s.requests[rid].works| == 1
    requires s.requests[rid].works[0] == Committing || s.requests[rid].works[0] == RollingBack
    ensures rid in Advance(s, rid, 0, ok).requests && RequestOk(Advance(s, rid, 0, ok).requests[rid])
    ensures Advance(s, rid, 0, ok) == Set(s, rid, Advance(s, rid, 0, ok).requests[rid])
    ensures Advance(s, rid, 0, ok).requests[rid].connection == s.requests[rid].connection
    ensures Advance(s, rid, 0, ok).requests[rid].releases == s.requests[rid].releases
  {
  }

  lemma AdvanceKeepsInv(s: State, pool: set<int>, rid: int, k: nat, ok: bool)
    requires Inv(s, pool) && rid in s.requests && k < |s.requests[rid].works|
    ensures Inv(Advance(s, rid, k, ok), pool)
  {
    var r := s.requests[rid];
    assert RequestOk(r) && k == 0;
    if r.works[0] == ReleaseAfterCommit || r.works[0] == ReleaseAfterRollback {
      WorkEnds(s, pool, rid);
    } else {
      CallReturns(s, rid, ok);
      QuietStep(s, pool, rid, Advance(s, rid, 0, ok).requests[rid]);
    }
  }

  lemma StepKeepsInv(s: State, pool: set<int>, a: Action)
    requires Inv(s, pool)
    ensures Inv(Step(s, a), pool)
  {
    var s', rid := Step(s, a), a.rid;
    if rid !in s.requests {
      if a.Arrive? { QuietStep(s, pool, rid, NEW); }
    } else if a.Continue? {
      if a.k < |s.requests[rid].works| { AdvanceKeepsInv(s, pool, rid, a.k, a.ok); }
    } else if a.Intercept? || a.HandlerEnds? || a.ResponseEvent? {
      assert RequestOk(s.requests[rid]);
      if s' != s { QuietStep(s, pool, rid, s'.requests[rid]); }
    } else if !a.Arrive? {
      SetupKeepsInv(s, pool, rid, a);
    }
  }

  /** For any order and repetition of set-up failures, blocks, commits and response events over any
      number of requests: no connection is lost or shared, none is released twice, and a transaction
      ends in at most one of commit and rollback. */
  lemma {:induction false} ConnectionsAreConserved(pool: set<int>, actions: seq<Action>)
    ensures Inv(Run(State(pool, map[]), actions), pool)
  {
    if actions != [] {
      ConnectionsAreConserved(pool, actions[..|actions| - 1]);
      StepKeepsInv(Run(State(pool, map[]), actions[..|actions| - 1]), pool, actions[|actions| - 1]);
    }
  }

  /** The exact condition, in events: an ended request has released the connection it acquired exactly
      once, unless its response closed before the listeners were registered, its handler threw and no
      later response event came; then it has released nothing. */
  lemma EndedRequestsHaveReleasedExactly(pool: set<int>, actions: seq<Action>, rid: int)
    requires rid in Run(State(pool, map[]), actions).requests && Ended(Run(State(pool, map[]), actions).requests[rid])
    ensures
      var r := Run(State(pool, map[]), actions).requests[rid];
      && r.commits + r.rollbacks <= 1
      && r.releases == if r.connection.None? || Unheard(r) then 0 else 1
  {
    ConnectionsAreConserved(pool, actions);
    assert RequestOk(Run(State(pool, map[]), actions).requests[rid]);
  }

  /** So a request whose response was still open when the listeners were registered always releases. */
  lemma HeardRequestsRelease(pool: set<int>, actions: seq<Action>, rid: int)
    requires rid in Run(State(pool, map[]), actions).requests && Ended(Run(State(pool, map[]), actions).requests[rid])
    requires !Run(State(pool, map[]), actions).requests[rid].deaf
    ensures
      var r := Run(State(pool, map[]), actions).requests[rid];
      r.releases == if r.connection.Some? then 1 else 0
  {
    EndedRequestsHaveReleasedExactly(pool, actions, rid);
  }

  /** No listener left to hear anything, and no handler left to commit. */
  predicate Leaked(s: State, rid: int) {
    rid in s.requests && Unheard(s.requests[rid]) && s.requests[rid].works == [] && Holds(s.requests[rid])
  }

  // ----- who commits and who rolls back -----

  predicate CommitUnderWay(r: Request) {
    r.works != [] && (r.works[0] == Committing || r.works[0] == ReleaseAfterCommit)
  }

  predicate RollbackUnderWay(r: Request) {
    r.works != [] && (r.works[0] == RollingBack || r.works[0] == ReleaseAfterRollback)
  }

  /** A commit is the work of a handler that returned; a rollback, once the request is served, that of a
      response event; until either, the request is served in an open transaction. */
  predicate Explained(r: Request) {
    && (r.stage == Checking || (r.stage == Serving && !r.settled) ==> r.inTx)
    && (r.commits > 0 || CommitUnderWay(r) ==> r.handler == Returned)
    && (r.stage == Serving && (r.rollbacks > 0 || RollbackUnderWay(r)) ==> r.responded)
  }

  predicate AllOk(s: State) {
    forall q :: q in s.requests ==> RequestOk(s.requests[q])
  }

  predicate AllExplained(s: State) {
    forall q :: q in s.requests ==> Explained(s.requests[q])
  }

  lemma AdvanceExplains(s: State, rid: int, k: nat, ok: bool)
    requires rid in s.requests && k < |s.requests[rid].works| <= 1 && Explained(s.requests[rid])
    requires RequestOk(s.requests[rid])
    ensures rid in Advance(s, rid, k, ok).requests && Explained(Advance(s, rid, k, ok).requests[rid])
  {
    var r := s.requests[rid];
    assert k == 0 && r.works[..k] + r.works[k + 1..] == [];
  }

  lemma SetupExplains(s: State, rid: int, a: Action)
    requires rid in s.requests && Explained(s.requests[rid]) && RequestOk(s.requests[rid])
    ensures rid in Setup(s, rid, a).requests && Explained(Setup(s, rid, a).requests[rid])
  {
  }

  lemma EventExplains(s: State, a: Action)
    requires a.rid in s.requests && Explained(s.requests[a.rid]) && RequestOk(s.requests[a.rid])
    requires a.Intercept? || a.HandlerEnds? || a.ResponseEvent?
    ensures a.rid in Step(s, a).requests && Explained(Step(s, a).requests[a.rid])
  {
  }

  lemma OthersStay(s: State, a: Action, q: int)
    requires q != a.rid
    ensures q in Step(s, a).requests <==> q in s.requests
    ensures q in s.requests ==> Step(s, a).requests[q] == s.requests[q]
  {
  }

  lemma StepExplains(s: State, a: Action)
    requires AllOk(s) && AllExplained(s)
    ensures AllExplained(Step(s, a))
  {
    var rid := a.rid;
    forall q | q in Step(s, a).requests ensures Explained(Step(s, a).requests[q]) {
      if q != rid {
        OthersStay(s, a, q);
      } else if rid in s.requests {
        match a
        case Arrive(_) =>
        case Intercept(_) => EventExplains(s, a);
        case HandlerEnds(_) => EventExplains(s, a);
        case ResponseEvent(_) => EventExplains(s, a);
        case Continue(_, k, ok) => if k < |s.requests[rid].works| { AdvanceExplains(s, rid, k, ok); }
        case _ => SetupExplains(s, rid, a);
      }
    }
  }

  /** A handler counts as returned, and a response as heard, only after the event of that name. */
  predicate Happened(actions: seq<Action>, s: State) {
    forall q :: q in s.requests ==>
      && (s.requests[q].handler == Returned ==> Intercept(q) in actions)
      && (s.requests[q].handler == Threw ==> HandlerEnds(q) in actions)
      && (s.requests[q].stage == Serving ==> CheckTenant(q, true, false) in actions)
      && (s.requests[q].responded ==> ResponseEvent(q) in actions)
  }

  lemma AdvanceHappensNothing(s: State, rid: int, k: nat, ok: bool)
    requires rid in s.requests && k < |s.requests[rid].works|
    ensures rid in Advance(s, rid, k, ok).requests
    ensures
      var r, r' := s.requests[rid], Advance(s, rid, k, ok).requests[rid];
      r'.handler == r.handler && r'.stage == r.stage && r'.responded == r.responded
  {
  }

  lemma SetupHappened(s: State, a: Action)
    requires a.rid in s.requests
    ensures a.rid in Setup(s, a.rid, a).requests
    ensures
      var r, r' := s.requests[a.rid], Setup(s, a.rid, a).requests[a.rid];
      && r'.handler == r.handler && r'.responded == r.responded
      && (r'.stage == Serving ==> r.stage == Serving || a == CheckTenant(a.rid, true, false))
  {
  }

  lemma StepHappenedTo(s: State, a: Action, before: seq<Action>)
    requires a.rid in Step(s, a).requests && Happened(before, s)
    ensures
      var r := Step(s, a).requests[a.rid];
      && (r.handler == Returned ==> a == Intercept(a.rid) || Intercept(a.rid) in before)
      && (r.handler == Threw ==> a == HandlerEnds(a.rid) || HandlerEnds(a.rid) in before)
      && (r.stage == Serving ==> a == CheckTenant(a.rid, true, false) || CheckTenant(a.rid, true, false) in before)
      && (r.responded ==> a == ResponseEvent(a.rid) || ResponseEvent(a.rid) in before)
  {
    if a.rid in s.requests && a.Continue? {
      if a.k < |s.requests[a.rid].works| { AdvanceHappensNothing(s, a.rid, a.k, a.ok); }
    } else if a.rid in s.requests && (a.Connect? || a.StartTransaction? || a.CheckTenant? || a.SetupStep?) {
      SetupHappened(s, a);
    }
  }

  lemma StepHappened(s: State, a: Action, before: seq<Action>)
    requires Happened(before, s)
    ensures Happened(before + [a], Step(s, a))
  {
    assert a in before + [a] && forall b :: b in before ==> b in before + [a];
    forall q | q in Step(s, a).requests
      ensures (Step(s, a).requests[q].handler == Returned ==> Intercept(q) in before + [a])
      ensures (Step(s, a).requests[q].handler == Threw ==> HandlerEnds(q) in before + [a])
      ensures (Step(s, a).requests[q].stage == Serving ==> CheckTenant(q, true, false) in before + [a])
      ensures (Step(s, a).requests[q].responded ==> ResponseEvent(q) in before + [a])
    {
      if q == a.rid { StepHappenedTo(s, a, before); } else { OthersStay(s, a, q); }
    }
  }

  lemma {:induction false} RunHappened(pool: set<int>, actions: seq<Action>)
    ensures Happened(actions, Run(State(pool, map[]), actions))
  {
    if actions != [] {
      var n := |actions| - 1;
      RunHappened(pool, actions[..n]);
      StepHappened(Run(State(pool, map[]), actions[..n]), actions[n], actions[..n]);
      assert actions == actions[..n] + [actions[n]];
    }
  }

  lemma {:induction false} RunExplains(pool: set<int>, actions: seq<Action>)
    ensures AllExplained(Run(State(pool, map[]), actions))
  {
    if actions != [] {
      var n := |actions| - 1;
      RunExplains(pool, actions[..n]);
      ConnectionsAreConserved(pool, actions[..n]);
      StepExplains(Run(State(pool, map[]), actions[..n]), actions[n]);
    }
  }

  /** In every run: a request is served only after its tenant was found in good standing, in an open
      transaction until that is settled; only a handler that returned has it committed, and only an
      event of the response has it rolled back. */
  lemma CommitsAndRollbacksHaveCauses(pool: set<int>, actions: seq<Action>, rid: int)
    requires rid in Run(State(pool, map[]), actions).requests
    ensures
      var r := Run(State(pool, map[]), actions).requests[rid];
      && (r.commits > 0 ==> Intercept(rid) in actions)
      && (r.handler == Returned ==> Intercept(rid) in actions) && (r.handler == Threw ==> HandlerEnds(rid) in actions)
      && (r.stage == Serving && r.rollbacks > 0 ==> ResponseEvent(rid) in actions)
      && (r.stage == Serving ==> CheckTenant(rid, true, false) in actions && (!r.settled ==> r.inTx))
  {
    RunExplains(pool, actions);
    RunHappened(pool, actions);
    assert Explained(Run(State(pool, map[]), actions).requests[rid]);
  }

  /** Nothing has been settled yet, and the connection is held. */
  predicate Open(r: Request, c: int) {
    && r.stage == Serving && r.handler == Running && !r.settled && r.connection == Some(c)
    && r.works == [] && r.inTx && r.releases == 0 && r.commits == 0 && r.rollbacks == 0
  }

  /** One of the two queued works runs to its end. */
  lemma WorkRuns(s: State, rid: int, c: int, w: Work)
    requires rid in s.requests && s.requests[rid].connection == Some(c) && s.requests[rid].works == [w]
    requires w == Committing || w == RollingBack
    ensures
      var r := s.requests[rid];
      var s' := Step(s, Continue(rid, 0, true));
      var s'' := Step(s', Continue(rid, 0, true));
      && rid in s'.requests && rid in s''.requests && !s'.requests[rid].inTx
      && s'.requests[rid].commits == r.commits + (if w == Committing then 1 else 0)
      && s'.requests[rid].rollbacks == r.rollbacks + (if w == RollingBack then 1 else 0)
      && s''.requests[rid].releases == r.releases + 1 && s''.free == s.free + {c}
  {
    var r' := Step(s, Continue(rid, 0, true)).requests[rid];
    assert |r'.works| == 1 && (r'.works[0] == ReleaseAfterCommit || r'.works[0] == ReleaseAfterRollback);
  }

  /** After this event and one database call, these are the request's commits and rollbacks and its
      transaction is over; one step later its connection is back in the pool. */
  predicate SettledBy(s: State, a: Action, rid: int, c: int, commits: nat, rollbacks: nat) {
    var s' := Step(Step(s, a), Continue(rid, 0, true));
    var s'' := Step(s', Continue(rid, 0, true));
    && rid in s'.requests && rid in s''.requests
    && s'.requests[rid].commits == commits && s'.requests[rid].rollbacks == rollbacks && !s'.requests[rid].inTx
    && s''.requests[rid].releases == 1 && s''.free == s.free + {c}
  }

  lemma ReturnCommits(s: State, rid: int, c: int)
    requires rid in s.requests && Open(s.requests[rid], c)
    ensures SettledBy(s, Intercept(rid), rid, c, 1, 0)
  {
    assert [] + [Committing] == [Committing];
    WorkRuns(Step(s, Intercept(rid)), rid, c, Committing);
  }

  lemma ResponseRollsBack(s: State, rid: int, c: int)
    requires rid in s.requests && Open(s.requests[rid], c)
    ensures SettledBy(s, ResponseEvent(rid), rid, c, 0, 1)
  {
    assert [] + [RollingBack] == [RollingBack];
    WorkRuns(Step(s, ResponseEvent(rid)), rid, c, RollingBack);
  }

  /** A handler that returns before its response ends has its transaction committed, and an ended
      response has one rolled back that nobody has settled; either way the connection comes back next. */
  lemma ServedRequestsAreSettled(pool: set<int>, actions: seq<Action>, rid: int, c: int)
    requires rid in Run(State(pool, map[]), actions).requests
    requires
      var r := Run(State(pool, map[]), actions).requests[rid];
      r.stage == Serving && r.handler == Running && !r.settled && r.connection == Some(c)
    ensures SettledBy(Run(State(pool, map[]), actions), Intercept(rid), rid, c, 1, 0)
    ensures SettledBy(Run(State(pool, map[]), actions), ResponseEvent(rid), rid, c, 0, 1)
  {
    ConnectionsAreConserved(pool, actions);
    RunExplains(pool, actions);
    var s := Run(State(pool, map[]), actions);
    assert RequestOk(s.requests[rid]) && Explained(s.requests[rid]);
    ReturnCommits(s, rid, c);
    ResponseRollsBack(s, rid, c);
  }

  /** Without a transaction, or without a connection, there is nothing to roll back. */
  lemma FailedStartReleases(s: State, rid: int, c: int)
    requires rid !in s.requests && c in s.free
    ensures
      var s1 := Step(Step(Step(s, Arrive(rid)), Connect(rid, Some(c))), StartTransaction(rid, false));
      Step(s1, SetupStep(rid, true)) ==
        State(s.free, s.requests[rid := NEW.(connection := Some(c), stage := Over, releases := 1)])
    ensures
      Step(Step(Step(s, Arrive(rid)), Connect(rid, None)), SetupStep(rid, true)) ==
        s.(requests := s.requests[rid := NEW.(stage := Over)])
  {
    assert s.free - {c} + {c} == s.free;
  }

  /** Set-up: the tenant is served in an open transaction, or, if it is blocked or the check fails, the
      transaction is rolled back and the connection comes back. */
  lemma SetupServesOrReleases(s: State, rid: int, c: int, ok: bool, blocked: bool)
    requires rid !in s.requests && c in s.free
    ensures
      var s1 := Step(Step(Step(s, Arrive(rid)), Connect(rid, Some(c))), StartTransaction(rid, true));
      var s2 := Step(s1, CheckTenant(rid, ok, blocked));
      var s3 := Step(Step(s2, SetupStep(rid, true)), SetupStep(rid, true));
      if ok && !blocked then
        s2 == State(s.free - {c}, s.requests[rid := NEW.(connection := Some(c), stage := Serving, inTx := true)])
      else
        s3 == State(s.free, s.requests[rid := NEW.(connection := Some(c), stage := Over, releases := 1, rollbacks := 1)])
  {
    assert s.free - {c} + {c} == s.free;
  }

  lemma LeakStep(s: State, rid: int, a: Action)
    requires Leaked(s, rid) && a != ResponseEvent(rid)
    ensures rid in Step(s, a).requests && Step(s, a).requests[rid] == s.requests[rid]
  {
  }

  /** A leaked connection never comes back: a response closes once, so nothing more happens to its
      request, and whatever the others do, the connection stays out of the pool. */
  lemma {:induction false} LeakIsForever(pool: set<int>, s: State, rid: int, more: seq<Action>)
    requires Inv(s, pool) && Leaked(s, rid)
    requires ResponseEvent(rid) !in more
    ensures Inv(Run(s, more), pool) && Leaked(Run(s, more), rid)
    ensures Run(s, more).requests[rid] == s.requests[rid]
    ensures s.requests[rid].connection.value !in Run(s, more).free
  {
    if more != [] {
      var n := |more| - 1;
      assert more[n] in more;
      LeakIsForever(pool, s, rid, more[..n]);
      LeakStep(Run(s, more[..n]), rid, more[n]);
      StepKeepsInv(Run(s, more[..n]), pool, more[n]);
    }
  }

  /** The client goes away while the middleware is still setting up, and the handler then throws. */
  function LostClose(rid: int, c: int): seq<Action> {
    LostSetup(rid, c) + [CheckTenant(rid, true, false)] + [HandlerEnds(rid)]
  }

  function LostSetup(rid: int, c: int): seq<Action> {
    [Arrive(rid)] + [Connect(rid, Some(c))] + [StartTransaction(rid, true)] + [ResponseEvent(rid)]
  }

  lemma RunAppend(s: State, xs: seq<Action>, a: Action)
    ensures Run(s, xs + [a]) == Step(Run(s, xs), a)
  {
    assert (xs + [a])[..|xs + [a]| - 1] == xs;
  }

  lemma SetupHearsNothing(pool: set<int>, rid: int, c: int)
    requires c in pool
    ensures Run(State(pool, map[]), LostSetup(rid, c))
      == State(pool - {c}, map[rid := NEW.(connection := Some(c), stage := Checking, inTx := true, deaf := true)])
  {
    var s0 := State(pool, map[]);
    RunAppend(s0, [], Arrive(rid));
    RunAppend(s0, [Arrive(rid)], Connect(rid, Some(c)));
    RunAppend(s0, [Arrive(rid)] + [Connect(rid, Some(c))], StartTransaction(rid, true));
    RunAppend(s0, [Arrive(rid)] + [Connect(rid, Some(c))] + [StartTransaction(rid, true)], ResponseEvent(rid));
    assert [] + [Arrive(rid)] == [Arrive(rid)];
  }

  /** The order of events in which the code loses a connection, with its transaction open. */
  lemma CloseDuringSetupLeaks(pool: set<int>, rid: int, c: int)
    requires c in pool
    ensures
      var s := Run(State(pool, map[]), LostClose(rid, c));
      && Leaked(s, rid) && Ended(s.requests[rid]) && s.requests[rid].inTx
      && s.requests[rid].connection == Some(c) && s.free == pool - {c}
  {
    var s0 := State(pool, map[]);
    SetupHearsNothing(pool, rid, c);
    RunAppend(s0, LostSetup(rid, c), CheckTenant(rid, true, false));
    RunAppend(s0, LostSetup(rid, c) + [CheckTenant(rid, true, false)], HandlerEnds(rid));
  }
}
