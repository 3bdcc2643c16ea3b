/** Burning a family after reuse or logout: when it is final, and when a rotation already under way
    outruns it. */
module RefreshBurn {
  import opened Wrappers
  import opened RefreshTokens
  import opened RefreshProtocol
  import Finite

  /** Every token of the family is revoked. */
  predicate Burnt(s: State, family: int) {
    FamilyKnown(s.tokens, family) && forall id :: id in s.tokens && s.tokens[id].family == family ==> s.tokens[id].revoked
  }

  /** A rotation that is past its lookup and can still win: its token is unused, or it holds the
      family's live end and its membership check has not failed. */
  predicate StillRunning(s: State, rid: int, family: int) {
    && rid in s.rotations && s.rotations[rid].token in s.tokens && s.tokens[s.rotations[rid].token].family == family
    && match s.rotations[rid].phase
       case LookedUp => !s.tokens[s.rotations[rid].token].used
       case Consumed => true
       case Resolved => true
       case Reuse => false
       case Gone => false
  }

  predicate Revivable(s: State, family: int) {
    exists rid :: rid in s.rotations && StillRunning(s, rid, family)
  }

  /** This action is a claim in the family that succeeds. */
  predicate ClaimSucceeds(s: State, a: Action, family: int) {
    && a.TryConsume? && In(s, a.rid, LookedUp)
    && !s.tokens[s.rotations[a.rid].token].used && s.tokens[s.rotations[a.rid].token].family == family
  }

  ghost predicate ClaimedLater(s: State, family: int) {
    exists more: seq<Action>, a: Action :: ClaimSucceeds(Run(s, more), a, family)
  }

  lemma BurnRevokesAll(s: State, rid: int)
    requires In(s, rid, Reuse) || In(s, rid, Gone)
    ensures Burnt(Step(s, Burn(rid)), s.tokens[s.rotations[rid].token].family)
  {
    assert Step(s, Burn(rid)).tokens[s.rotations[rid].token].family == s.tokens[s.rotations[rid].token].family;
  }

  lemma LogoutRevokesAll(s: State, token: int)
    requires token in s.tokens
    ensures Burnt(Step(s, Logout(token)), s.tokens[token].family)
  {
    assert Step(s, Logout(token)).tokens[token].family == s.tokens[token].family;
  }

  lemma DeadStaysDead(s: State, a: Action, family: int)
    requires Burnt(s, family) && !Revivable(s, family)
    ensures !ClaimSucceeds(s, a, family)
    ensures Burnt(Step(s, a), family) && !Revivable(Step(s, a), family)
  {
    var s' := Step(s, a);
    var some :| some in s.tokens && s.tokens[some].family == family;
    assert s'.tokens[some].family == family;
    forall rid | rid in s'.rotations ensures !StillRunning(s', rid, family) {
      assert rid in s.rotations ==> !StillRunning(s, rid, family);
    }
    if a.TryConsume? && a.rid in s.rotations { assert !StillRunning(s, a.rid, family); }
    if a.IssueNext? && a.rid in s.rotations { assert !StillRunning(s, a.rid, family); }
  }

  lemma {:induction false} DeadForever(s: State, more: seq<Action>, family: int)
    requires Burnt(s, family) && !Revivable(s, family)
    ensures Burnt(Run(s, more), family) && !Revivable(Run(s, more), family)
  {
    if more != [] {
      DeadForever(s, more[..|more| - 1], family);
      DeadStaysDead(Run(s, more[..|more| - 1]), more[|more| - 1], family);
    }
  }

  lemma RunOne(s: State, more: seq<Action>, a: Action)
    ensures Run(s, more + [a]) == Step(Run(s, more), a)
  {
    assert (more + [a])[..|more + [a]| - 1] == more;
  }

  /** A rotation that holds the live end issues the successor, and the successor can be claimed. */
  lemma SuccessorIsClaimable(s: State, rid: int, family: int)
    requires In(s, rid, Resolved) && s.tokens[s.rotations[rid].token].family == family
    ensures ClaimedLater(s, family)
  {
    var id := Finite.Beyond(s.tokens.Keys);
    var s1 := Step(s, IssueNext(rid, id));
    var s2 := Step(s1, Lookup(rid, id));
    assert s2.rotations[rid] == Rotation(id, LookedUp, NO_SCOPE);
    RunOne(s, [], IssueNext(rid, id));
    RunOne(s, [IssueNext(rid, id)], Lookup(rid, id));
    assert [] + [IssueNext(rid, id)] == [IssueNext(rid, id)];
    assert ClaimSucceeds(Run(s, [IssueNext(rid, id)] + [Lookup(rid, id)]), TryConsume(rid), family);
  }

  lemma RevivableIsClaimed(s: State, rid: int, family: int)
    requires StillRunning(s, rid, family)
    ensures ClaimedLater(s, family)
  {
    match s.rotations[rid].phase
    case LookedUp => assert ClaimSucceeds(Run(s, []), TryConsume(rid), family);
    case Resolved => SuccessorIsClaimable(s, rid, family);
    case Consumed =>
      var s1 := Step(s, Resolve(rid, Some(0)));
      SuccessorIsClaimable(s1, rid, family);
      var more, a :| ClaimSucceeds(Run(s1, more), a, family);
      RunFirst(s, Resolve(rid, Some(0)), more);
      assert ClaimSucceeds(Run(s, [Resolve(rid, Some(0))] + more), a, family);
  }

  lemma {:induction false} RunFirst(s: State, a: Action, more: seq<Action>)
    ensures Run(s, [a] + more) == Run(Step(s, a), more)
  {
    if more == [] {
      assert [a] + more == [a] && [a][..0] == [];
    } else {
      var n := |more| - 1;
      assert ([a] + more)[..|[a] + more| - 1] == [a] + more[..n];
      RunFirst(s, a, more[..n]);
    }
  }

  /** The exact condition: once a family is burnt, some continuation still has a successful claim in
      it if and only if some rotation of the family is past its lookup and can still win. */
  lemma BurnIsFinalExactly(s: State, family: int)
    requires Burnt(s, family)
    ensures ClaimedLater(s, family) <==> Revivable(s, family)
  {
    if Revivable(s, family) {
      var rid :| rid in s.rotations && StillRunning(s, rid, family);
      RevivableIsClaimed(s, rid, family);
    } else if ClaimedLater(s, family) {
      var more, a :| ClaimSucceeds(Run(s, more), a, family);
      DeadForever(s, more, family);
      DeadStaysDead(Run(s, more), a, family);
      assert false;
    }
  }

  /** The race is real: two clients present the same token, the loser burns the family, and the
      winner's successor is a working token of the burnt family all the same. */
  lemma BurnCanBeOutrun()
    ensures
      var race := Step(Step(Step(EMPTY, Login(1, 7, 9, NO_SCOPE)), Lookup(1, 1)), Lookup(2, 1));
      var burnt := Step(Step(Step(race, TryConsume(1)), TryConsume(2)), Burn(2));
      && Burnt(burnt, 7) && Revivable(burnt, 7)
      && Usable(Step(Step(burnt, Resolve(1, None)), IssueNext(1, 2)).tokens, 2, burnt.now)
  {
    var s1 := Step(EMPTY, Login(1, 7, 9, NO_SCOPE));
    var s3 := Step(Step(s1, Lookup(1, 1)), Lookup(2, 1));
    var s5 := Step(Step(s3, TryConsume(1)), TryConsume(2));
    assert In(s5, 2, Reuse);
    BurnRevokesAll(s5, 2);
    var s6 := Step(s5, Burn(2));
    assert StillRunning(s6, 1, 7);
  }
}
