/** Rotations, logins and logouts of many clients, one autocommitted statement at a time. */
module RefreshProtocol {
  import opened Wrappers
  import opened RefreshTokens

  const TTL := 2_592_000_000

  datatype Phase =
    | LookedUp   // the token was found usable
    | Reuse      // the conditional update matched no row; the family is to be burnt
    | Consumed
    | Resolved   // the membership is (still) there, or none is needed
    | Gone       // the membership is gone; the family is to be burnt

  /** `scope` is what the successor will carry, once it is resolved. */
  datatype Rotation = Rotation(token: int, phase: Phase, scope: Scope)

  /** `claims` is history: the tokens consumed so far. */
  datatype State = State(tokens: Tokens, rotations: map<int, Rotation>, claims: seq<int>, now: int)

  datatype Action =
    | Login(id: int, family: int, user: int, scope: Scope)
    | Lookup(rid: int, token: int)
    | TryConsume(rid: int)
    | Burn(rid: int)
    | Resolve(rid: int, role: Option<int>)  // the role that the membership gives now, if it is still there
    | IssueNext(rid: int, id: int)
    | Crash(rid: int)
    | Logout(token: int)
    | Wait(ms: nat)

  const EMPTY := State(map[], map[], [], 0)

  predicate FamilyKnown(tokens: Tokens, family: int) {
    exists id :: id in tokens && tokens[id].family == family
  }

  function SetRotation(s: State, rid: int, r: Rotation): State {
    s.(rotations := s.rotations[rid := r])
  }

  function DoConsume(s: State, rid: int): State
    requires rid in s.rotations && s.rotations[rid].token in s.tokens
  {
    var r := s.rotations[rid];
    if s.tokens[r.token].used then SetRotation(s, rid, r.(phase := Reuse))
    else SetRotation(s, rid, r.(phase := Consumed)).(tokens := Consume(s.tokens, r.token), claims := s.claims + [r.token])
  }

  function DoResolve(s: State, rid: int, role: Option<int>): Rotation
    requires rid in s.rotations && s.rotations[rid].token in s.tokens
  {
    var r := s.rotations[rid];
    var tenant := s.tokens[r.token].scope.tenant;
    if tenant.None? then r.(phase := Resolved, scope := NO_SCOPE)
    else if role.None? then r.(phase := Gone)
    else r.(phase := Resolved, scope := Scope(tenant, role))
  }

  function DoIssue(s: State, rid: int, id: int): State
    requires rid in s.rotations && s.rotations[rid].token in s.tokens
  {
    var r := s.rotations[rid];
    var t := s.tokens[r.token];
    s.(tokens := s.tokens[id := Token(t.family, t.user, r.scope, s.now + TTL, false, false, Some(r.token))],
       rotations := s.rotations - {rid})
  }

  predicate In(s: State, rid: int, phase: Phase) {
    rid in s.rotations && s.rotations[rid].phase == phase && s.rotations[rid].token in s.tokens
  }

  function Step(s: State, a: Action): State {
    match a
    case Login(id, family, user, scope) =>
      if id in s.tokens || FamilyKnown(s.tokens, family) then s
      else s.(tokens := s.tokens[id := Token(family, user, scope, s.now + TTL, false, false, None)])
    case Lookup(rid, token) =>
      if rid in s.rotations || !Usable(s.tokens, token, s.now) then s
      else SetRotation(s, rid, Rotation(token, LookedUp, NO_SCOPE))
    case TryConsume(rid) => if In(s, rid, LookedUp) then DoConsume(s, rid) else s
    case Burn(rid) =>
      if In(s, rid, Reuse) || In(s, rid, Gone) then
        s.(tokens := Revoke(s.tokens, s.tokens[s.rotations[rid].token].family), rotations := s.rotations - {rid})
      else s
    case Resolve(rid, role) => if In(s, rid, Consumed) then SetRotation(s, rid, DoResolve(s, rid, role)) else s
    case IssueNext(rid, id) => if In(s, rid, Resolved) && id !in s.tokens then DoIssue(s, rid, id) else s
    case Crash(rid) => s.(rotations := s.rotations - {rid})
    case Logout(token) => if token in s.tokens then s.(tokens := Revoke(s.tokens, s.tokens[token].family)) else s
    case Wait(ms) => s.(now := s.now + ms)
  }

  function Run(s: State, actions: seq<Action>): State {
    if actions == [] then s
    else Step(Run(s, actions[..|actions| - 1]), actions[|actions| - 1])
  }

  // ----- a family is a single chain -----

  /** The rotation has consumed its token and has not issued the successor. */
  predicate Carries(r: Rotation) {
    r.phase == Consumed || r.phase == Resolved || r.phase == Gone
  }

  /** The unused tokens of a family and the rotations that carry it number at most one. */
  predicate OneLiveEnd(s: State) {
    && (forall a, b :: a in s.tokens && b in s.tokens && a != b && !s.tokens[a].used && !s.tokens[b].used ==>
          s.tokens[a].family != s.tokens[b].family)
    && (forall q, r :: q in s.rotations && r in s.rotations && q != r && Carries(s.rotations[q]) && Carries(s.rotations[r]) ==>
          FamilyOf(s, q) != FamilyOf(s, r))
    && (forall a, r :: a in s.tokens && r in s.rotations && !s.tokens[a].used && Carries(s.rotations[r]) ==>
          Some(s.tokens[a].family) != FamilyOf(s, r))
  }

  function FamilyOf(s: State, rid: int): Option<int>
    requires rid in s.rotations
  {
    if s.rotations[rid].token in s.tokens then Some(s.tokens[s.rotations[rid].token].family) else None
  }

  /** Each token has at most one successor, of its own family, user and tenant, and is used by then;
      each family has at most one first token. */
  predicate Chain(tokens: Tokens) {
    && (forall a, b :: a in tokens && b in tokens && a != b && tokens[a].parent.Some? ==>
          tokens[a].parent != tokens[b].parent)
    && (forall a, b :: a in tokens && b in tokens && a != b && tokens[a].parent.None? && tokens[b].parent.None? ==>
          tokens[a].family != tokens[b].family)
    && (forall a :: a in tokens && tokens[a].parent.Some? ==>
          && tokens[a].parent.value in tokens && tokens[tokens[a].parent.value].used
          && SameSession(tokens[tokens[a].parent.value], tokens[a]))
  }

  predicate SameSession(a: Token, b: Token) {
    a.family == b.family && a.user == b.user && a.scope.tenant == b.scope.tenant
  }

  predicate RotationOk(s: State, r: Rotation) {
    && r.token in s.tokens
    && (r.phase != LookedUp ==> s.tokens[r.token].used)
    && (r.phase == Resolved ==> r.scope.tenant == s.tokens[r.token].scope.tenant)
    && (Carries(r) ==> forall a :: a in s.tokens ==> s.tokens[a].parent != Some(r.token))
  }

  /** No token is exchanged twice. */
  predicate ClaimedOnce(s: State) {
    && (forall i, j :: 0 <= i < j < |s.claims| ==> s.claims[i] != s.claims[j])
    && (forall i :: 0 <= i < |s.claims| ==> s.claims[i] in s.tokens && s.tokens[s.claims[i]].used)
  }

  predicate Inv(s: State) {
    OneLiveEnd(s) && Chain(s.tokens) && ClaimedOnce(s) && forall r :: r in s.rotations ==> RotationOk(s, s.rotations[r])
  }

  lemma RevokeKeepsInv(s: State, family: int)
    requires Inv(s)
    ensures Inv(s.(tokens := Revoke(s.tokens, family)))
  {
    var s' := s.(tokens := Revoke(s.tokens, family));
    forall r | r in s.rotations ensures RotationOk(s', s.rotations[r]) && FamilyOf(s', r) == FamilyOf(s, r) {
      assert RotationOk(s, s.rotations[r]);
    }
  }

  lemma DropKeepsInv(s: State, rid: int)
    requires Inv(s)
    ensures Inv(s.(rotations := s.rotations - {rid}))
  {
    var s' := s.(rotations := s.rotations - {rid});
    forall r | r in s'.rotations ensures RotationOk(s', s'.rotations[r]) && FamilyOf(s', r) == FamilyOf(s, r) {
      assert RotationOk(s, s.rotations[r]);
    }
  }

  /** The live end of a family moves from its one unused token into the rotation that took it. */
  lemma ConsumeMovesLiveEnd(s: State, rid: int)
    requires OneLiveEnd(s) && In(s, rid, LookedUp) && !s.tokens[s.rotations[rid].token].used
    ensures OneLiveEnd(DoConsume(s, rid))
  {
    var s' := DoConsume(s, rid);
    forall r | r in s.rotations ensures FamilyOf(s', r) == FamilyOf(s, r) { }
    forall r | r in s.rotations && r != rid && Carries(s.rotations[r]) ensures FamilyOf(s, r) != FamilyOf(s, rid) {
      assert Some(s.tokens[s.rotations[rid].token].family) != FamilyOf(s, r);
    }
  }

  lemma ConsumeKeepsInv(s: State, rid: int)
    requires Inv(s) && In(s, rid, LookedUp)
    ensures Inv(DoConsume(s, rid))
  {
    var s', token := DoConsume(s, rid), s.rotations[rid].token;
    if s.tokens[token].used {
      assert RotationOk(s, s.rotations[rid]);
      RotateKeepsInv(s, rid, s.rotations[rid].(phase := Reuse));
    } else {
      ConsumeMovesLiveEnd(s, rid);
      forall r | r in s'.rotations ensures RotationOk(s', s'.rotations[r]) {
        assert RotationOk(s, s.rotations[r]);
      }
    }
  }

  lemma IssueKeepsInv(s: State, rid: int, id: int)
    requires Inv(s) && In(s, rid, Resolved) && id !in s.tokens
    ensures Inv(DoIssue(s, rid, id))
  {
    var s' := DoIssue(s, rid, id);
    assert RotationOk(s, s.rotations[rid]);
    forall r | r in s'.rotations ensures RotationOk(s', s'.rotations[r]) && FamilyOf(s', r) == FamilyOf(s, r) {
      assert RotationOk(s, s.rotations[r]);
    }
  }

  lemma LoginKeepsInv(s: State, id: int, family: int, user: int, scope: Scope)
    requires Inv(s)
    ensures Inv(Step(s, Login(id, family, user, scope)))
  {
    var s' := Step(s, Login(id, family, user, scope));
    if s' != s {
      forall r | r in s'.rotations ensures RotationOk(s', s'.rotations[r]) && FamilyOf(s', r) == FamilyOf(s, r) {
        assert RotationOk(s, s.rotations[r]);
      }
    }
  }

  lemma RotateKeepsInv(s: State, rid: int, r: Rotation)
    requires Inv(s) && RotationOk(s, r)
    requires rid in s.rotations ==> r.token == s.rotations[rid].token && Carries(r) == Carries(s.rotations[rid])
    requires rid !in s.rotations ==> !Carries(r)
    ensures Inv(SetRotation(s, rid, r))
  {
    var s' := SetRotation(s, rid, r);
    forall q | q in s'.rotations ensures RotationOk(s', s'.rotations[q]) {
      if q == rid { assert RotationOk(s, r); } else { assert RotationOk(s, s.rotations[q]); }
    }
    forall q | q in s.rotations ensures FamilyOf(s', q) == FamilyOf(s, q) && Carries(s'.rotations[q]) == Carries(s.rotations[q]) { }
  }

  lemma BurnKeepsInv(s: State, rid: int)
    requires Inv(s)
    ensures Inv(Step(s, Burn(rid)))
  {
    if In(s, rid, Reuse) || In(s, rid, Gone) {
      DropKeepsInv(s, rid);
      RevokeKeepsInv(s.(rotations := s.rotations - {rid}), s.tokens[s.rotations[rid].token].family);
    }
  }

  lemma ResolveKeepsInv(s: State, rid: int, role: Option<int>)
    requires Inv(s)
    ensures Inv(Step(s, Resolve(rid, role)))
  {
    if In(s, rid, Consumed) {
      assert RotationOk(s, s.rotations[rid]);
      RotateKeepsInv(s, rid, DoResolve(s, rid, role));
    }
  }

  lemma WaitKeepsInv(s: State, ms: nat)
    requires Inv(s)
    ensures Inv(Step(s, Wait(ms)))
  {
    var s' := Step(s, Wait(ms));
    forall r | r in s.rotations ensures RotationOk(s', s.rotations[r]) && FamilyOf(s', r) == FamilyOf(s, r) {
      assert RotationOk(s, s.rotations[r]);
    }
  }

  lemma StepKeepsInv(s: State, a: Action)
    requires Inv(s)
    ensures Inv(Step(s, a))
  {
    match a
    case Login(id, family, user, scope) => LoginKeepsInv(s, id, family, user, scope);
    case Lookup(rid, token) =>
      if rid !in s.rotations && Usable(s.tokens, token, s.now) { RotateKeepsInv(s, rid, Rotation(token, LookedUp, NO_SCOPE)); }
    case TryConsume(rid) => if In(s, rid, LookedUp) { ConsumeKeepsInv(s, rid); }
    case Burn(rid) => BurnKeepsInv(s, rid);
    case Resolve(rid, role) => ResolveKeepsInv(s, rid, role);
    case IssueNext(rid, id) => if In(s, rid, Resolved) && id !in s.tokens { IssueKeepsInv(s, rid, id); }
    case Crash(rid) => DropKeepsInv(s, rid);
    case Logout(token) => if token in s.tokens { RevokeKeepsInv(s, s.tokens[token].family); }
    case Wait(ms) => WaitKeepsInv(s, ms);
  }

  /** Whatever the interleaving: every token is exchanged at most once, and each family is a single
      chain with at most one live end. */
  lemma {:induction false} FamiliesAreChains(actions: seq<Action>)
    ensures OneLiveEnd(Run(EMPTY, actions)) && Chain(Run(EMPTY, actions).tokens) && ClaimedOnce(Run(EMPTY, actions))
    ensures Inv(Run(EMPTY, actions))
  {
    if actions != [] {
      FamiliesAreChains(actions[..|actions| - 1]);
      StepKeepsInv(Run(EMPTY, actions[..|actions| - 1]), actions[|actions| - 1]);
    }
  }

  // ----- what an undisturbed exchange does -----

  /** Every rotation gets from its lookup to the conditional update. */
  function Presented(s: State, rid: int, token: int): State {
    Step(Step(s, Lookup(rid, token)), TryConsume(rid))
  }

  /** A token that is not revoked, not expired and not used is exchanged for one token of its family,
      user and tenant, with the role that the membership gives at that moment, good for thirty days. */
  lemma UnusedTokenIsExchanged(s: State, rid: int, token: int, role: Option<int>, id: int)
    requires rid !in s.rotations && token in s.tokens && id !in s.tokens
    requires !s.tokens[token].revoked && s.tokens[token].expiresAt >= s.now && !s.tokens[token].used
    requires s.tokens[token].scope.tenant.Some? ==> role.Some?
    ensures
      var t, s' := s.tokens[token], Step(Step(Presented(s, rid, token), Resolve(rid, role)), IssueNext(rid, id));
      && s'.tokens.Keys == s.tokens.Keys + {id} && s'.rotations == s.rotations && s'.now == s.now
      && s'.claims == s.claims + [token]
      && TokenUsed(s.tokens, s'.tokens - {id}, token)
      && s'.tokens[id].family == t.family && s'.tokens[id].user == t.user && s'.tokens[id].parent == Some(token)
      && s'.tokens[id].scope.tenant == t.scope.tenant
      && s'.tokens[id].scope.role == (if t.scope.tenant.Some? then role else None)
      && s'.tokens[id].expiresAt == s.now + 30 * 24 * 60 * 60 * 1000
      && !s'.tokens[id].used && !s'.tokens[id].revoked
  {
    var s' := Step(Step(Presented(s, rid, token), Resolve(rid, role)), IssueNext(rid, id));
    assert s'.tokens - {id} == Consume(s.tokens, token);
  }

  /** A used token that is presented again, or one whose membership is gone, takes its whole family with
      it, and no other; nobody gets a token for it. */
  lemma BadTokenBurnsItsFamily(s: State, rid: int, token: int)
    requires rid !in s.rotations && token in s.tokens
    requires !s.tokens[token].revoked && s.tokens[token].expiresAt >= s.now
    ensures s.tokens[token].used ==>
      var s' := Step(Presented(s, rid, token), Burn(rid));
      FamilyRevoked(s.tokens, s'.tokens, s.tokens[token].family) && s'.rotations == s.rotations
    ensures !s.tokens[token].used && s.tokens[token].scope.tenant.Some? ==>
      var s' := Step(Step(Presented(s, rid, token), Resolve(rid, None)), Burn(rid));
      && FamilyRevoked(Presented(s, rid, token).tokens, s'.tokens, s.tokens[token].family)
      && TokenUsed(s.tokens, Presented(s, rid, token).tokens, token) && s'.rotations == s.rotations
  {
  }

  /** A revoked, expired or unknown token gets nobody past the lookup. */
  lemma InvalidTokenIsRefused(s: State, rid: int, token: int)
    requires token !in s.tokens || s.tokens[token].revoked || s.tokens[token].expiresAt < s.now
    ensures Step(s, Lookup(rid, token)) == s
  {
  }

  /** A login starts a family, and a logout ends the token's. */
  lemma LoginAndLogout(s: State, id: int, family: int, user: int, scope: Scope)
    requires id !in s.tokens && forall t :: t in s.tokens ==> s.tokens[t].family != family
    ensures Step(s, Login(id, family, user, scope)) == s.(tokens := s.tokens[id :=
      Token(family, user, scope, s.now + 30 * 24 * 60 * 60 * 1000, false, false, None)])
    ensures forall token :: token in s.tokens ==>
      FamilyRevoked(s.tokens, Step(s, Logout(token)).tokens, s.tokens[token].family)
  {
  }

  // ----- nothing comes back -----

  /** The same token, possibly used or revoked by now. */
  predicate Aged(t: Token, t': Token) {
    && t' == t.(used := t'.used, revoked := t'.revoked)
    && (t.used ==> t'.used) && (t.revoked ==> t'.revoked)
  }

  /** Whatever happens: a token stays, with its session and expiry; a used one stays used, a revoked or
      expired one is never usable again. */
  lemma {:induction false} TokensOnlyAge(s: State, more: seq<Action>, id: int)
    requires id in s.tokens
    ensures id in Run(s, more).tokens && Aged(s.tokens[id], Run(s, more).tokens[id])
    ensures s.now <= Run(s, more).now
    ensures s.tokens[id].revoked || s.tokens[id].expiresAt < s.now ==> !Usable(Run(s, more).tokens, id, Run(s, more).now)
  {
    if more != [] {
      TokensOnlyAge(s, more[..|more| - 1], id);
      StepAges(Run(s, more[..|more| - 1]), more[|more| - 1], id);
    }
  }

  lemma StepAges(s: State, a: Action, id: int)
    requires id in s.tokens
    ensures id in Step(s, a).tokens && Aged(s.tokens[id], Step(s, a).tokens[id]) && s.now <= Step(s, a).now
  {
  }
}
