/** Refresh-token families: the rows, their conditional updates, and the service on top of them. */
module RefreshTokens {
  import opened Wrappers

  /** `parent` is history: the token whose rotation issued this one. */
  datatype Token = Token(
    family: int, user: int, scope: Scope, expiresAt: int, used: bool, revoked: bool, parent: Option<int>)

  /** The tenant and role of a session; an identity-only session has neither. */
  datatype Scope = Scope(tenant: Option<int>, role: Option<int>)

  const NO_SCOPE := Scope(None, None)

  type Tokens = map<int, Token>

  function Consume(tokens: Tokens, id: int): Tokens
    requires id in tokens
  {
    tokens[id := tokens[id].(used := true)]
  }

  function Revoke(tokens: Tokens, family: int): Tokens {
    map id | id in tokens :: if tokens[id].family == family then tokens[id].(revoked := true) else tokens[id]
  }

  /** The family's tokens are revoked, and nothing else changes. */
  predicate FamilyRevoked(before: Tokens, after: Tokens, family: int) {
    && after.Keys == before.Keys
    && forall id :: id in before ==> StaysOrRevoked(before[id], after[id], before[id].family == family)
  }

  predicate StaysOrRevoked(t: Token, t': Token, revoked: bool) {
    t' == Token(t.family, t.user, t.scope, t.expiresAt, t.used, t.revoked || revoked, t.parent)
  }

  /** The token is used, and nothing else changes. */
  predicate TokenUsed(before: Tokens, after: Tokens, id: int) {
    && id in before && !before[id].used
    && var t := before[id];
       after == before[id := Token(t.family, t.user, t.scope, t.expiresAt, true, t.revoked, t.parent)]
  }

  predicate Usable(tokens: Tokens, id: int, now: int) {
    id in tokens && !tokens[id].revoked && tokens[id].expiresAt >= now
  }

  datatype Failure = Invalid | Expired | Reused | NotMember

  class RefreshTokenService {
    const ttl: nat
    var tokens: Tokens
    var nextId: nat
    var nextFamily: nat

    predicate Valid()
      reads this
    {
      forall id :: id in tokens ==> 0 <= id < nextId && tokens[id].family < nextFamily
    }

    constructor (ttl: nat)
      ensures Valid() && tokens == map[] && this.ttl == ttl
    {
      this.ttl, tokens, nextId, nextFamily := ttl, map[], 0, 0;
    }

    /** A fresh token; without a family it starts one of its own. */
    method Issue(user: int, scope: Scope, family: Option<int>, parent: Option<int>, now: int) returns (id: int)
      requires Valid() && (family.Some? ==> family.value < nextFamily)
      modifies this
      ensures Valid() && id !in old(tokens) && id in tokens
      ensures tokens == old(tokens)[id := tokens[id]]
      ensures tokens[id] == Token(tokens[id].family, user, scope, now + ttl, false, false, parent)
      ensures family.Some? ==> tokens[id].family == family.value
      ensures family.None? ==> forall t :: t in old(tokens) ==> old(tokens)[t].family != tokens[id].family
    {
      id := nextId;
      var f := if family.Some? then family.value else nextFamily;
      tokens := tokens[id := Token(f, user, scope, now + ttl, false, false, parent)];
      nextId := nextId + 1;
      if family.None? { nextFamily := nextFamily + 1; }
    }

    /** The atomic conditional update: only one caller can win a token. */
    method MarkUsedIfUnused(id: int) returns (won: bool)
      requires Valid() && id in tokens
      modifies this`tokens
      ensures Valid() && won == !old(tokens)[id].used
      ensures tokens == if won then Consume(old(tokens), id) else old(tokens)
      ensures won ==> TokenUsed(old(tokens), tokens, id)
    {
      won := !tokens[id].used;
      if won { tokens := Consume(tokens, id); }
    }

    method RevokeFamily(family: int)
      requires Valid()
      modifies this`tokens
      ensures Valid() && tokens == Revoke(old(tokens), family) && FamilyRevoked(old(tokens), tokens, family)
    {
      tokens := Revoke(tokens, family);
    }

    /** A usable unused token is consumed, a usable used one burns its family, any other changes nothing. */
    method Claim(id: int, now: int) returns (r: Result<Token, Failure>)
      requires Valid()
      modifies this`tokens
      ensures Valid()
      ensures
        if id !in old(tokens) || old(tokens)[id].revoked then r == Err(Invalid) && tokens == old(tokens)
        else if old(tokens)[id].expiresAt < now then r == Err(Expired) && tokens == old(tokens)
        else if old(tokens)[id].used then r == Err(Reused) && tokens == Revoke(old(tokens), old(tokens)[id].family)
        else r == Ok(old(tokens)[id]) && tokens == Consume(old(tokens), id)
    {
      if id !in tokens || tokens[id].revoked { return Err(Invalid); }
      var record := tokens[id];
      if record.expiresAt < now { return Err(Expired); }
      var won := MarkUsedIfUnused(id);
      if !won {
        RevokeFamily(record.family);
        return Err(Reused);
      }
      return Ok(record);
    }

    /** Logout; an unknown token is a no-op. */
    method Logout(id: int)
      requires Valid()
      modifies this`tokens
      ensures Valid()
      ensures tokens == if id in old(tokens) then Revoke(old(tokens), old(tokens)[id].family) else old(tokens)
    {
      if id in tokens { RevokeFamily(tokens[id].family); }
    }

    /** Rotation: consume, look the role up again, issue the successor in the same family with that
        role; a membership that is gone (no role) burns the family. */
    method Refresh(id: int, role: Option<int>, now: int) returns (r: Result<int, Failure>)
      requires Valid()
      modifies this
      ensures Valid()
      ensures !Usable(old(tokens), id, now) ==> r.Err? && tokens == old(tokens)
      ensures Usable(old(tokens), id, now) ==>
        var t := old(tokens)[id];
        if t.used then r == Err(Reused) && tokens == Revoke(old(tokens), t.family)
        else if t.scope.tenant.Some? && role.None? then
          r == Err(NotMember) && tokens == Revoke(Consume(old(tokens), id), t.family)
        else
          && r.Ok? && r.value !in old(tokens)
          && var scope := if t.scope.tenant.Some? then Scope(t.scope.tenant, role) else NO_SCOPE;
             tokens == Consume(old(tokens), id)[r.value := Token(t.family, t.user, scope, now + ttl, false, false, Some(id))]
    {
      var claimed := Claim(id, now);
      if claimed.Err? { return Err(claimed.error); }
      var scope := NO_SCOPE;
      if claimed.value.scope.tenant.Some? {
        if role.None? {
          RevokeFamily(claimed.value.family);
          return Err(NotMember);
        }
        scope := Scope(claimed.value.scope.tenant, role);
      }
      var next := Issue(claimed.value.user, scope, Some(claimed.value.family), Some(id), now);
      return Ok(next);
    }
  }
}
