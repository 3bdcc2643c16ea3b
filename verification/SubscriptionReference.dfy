/** The payment reference `sub_<tenant>_<nonce>`: printed for the provider, parsed back from a webhook. */
module SubscriptionReference {
  import opened Wrappers

  predicate Hex(c: char) {
    '0' <= c <= '9' || 'a' <= c <= 'f' || 'A' <= c <= 'F'
  }

  /** The 8-4-4-4-12 shape of a UUID. */
  predicate IsUuid(s: string) {
    |s| == 36 && forall i :: 0 <= i < 36 ==> if i == 8 || i == 13 || i == 18 || i == 23 then s[i] == '-' else Hex(s[i])
  }

  /** Thirty-six characters: a hyphen at four places and hexadecimal digits elsewhere. */
  lemma UuidIs(s: string)
    ensures IsUuid(s) <==>
      |s| == 36 && forall i :: 0 <= i < 36 ==> s[i] in if i in {8, 13, 18, 23} then "-" else "0123456789abcdefABCDEF"
  {
    if |s| == 36 {
      forall i | 0 <= i < 36 ensures Hex(s[i]) <==> s[i] in "0123456789abcdefABCDEF" { HexIs(s[i]); }
      assert forall c: char :: c in "-" <==> c == '-';
    }
  }

  lemma HexIs(c: char)
    ensures Hex(c) <==> c in "0123456789abcdefABCDEF"
  {
  }

  /** JavaScript's `split('_')`: always at least one segment, possibly empty ones. */
  function Split(s: string): (segments: seq<string>)
    ensures |segments| >= 1
    ensures forall k :: 0 <= k < |segments| ==> '_' !in segments[k]
  {
    var i := FirstUnderscore(s);
    if i == |s| then [s] else [s[..i]] + Split(s[i + 1..])
  }

  function FirstUnderscore(s: string): (i: nat)
    ensures i <= |s| && '_' !in s[..i]
    ensures i < |s| ==> s[i] == '_'
  {
    if s == [] then 0
    else if s[0] == '_' then 0
    else
      var i := 1 + FirstUnderscore(s[1..]);
      assert s[..i] == [s[0]] + s[1..][..i - 1];
      i
  }

  function Join(segments: seq<string>): string
    requires |segments| >= 1
  {
    if |segments| == 1 then segments[0] else segments[0] + "_" + Join(segments[1..])
  }

  function BuildReference(tenant: string, nonce: string): string {
    "sub_" + tenant + "_" + nonce
  }

  /** Only the first three segments are looked at. */
  function TenantFromReference(reference: string): Option<string> {
    var s := Split(reference);
    if |s| < 3 || s[0] != "sub" || s[1] == "" || s[2] == "" || !IsUuid(s[1]) then None else Some(s[1])
  }

  lemma FirstUnderscoreIs(a: string, b: string)
    requires '_' !in a
    ensures FirstUnderscore(a + "_" + b) == |a|
  {
    var s := a + "_" + b;
    var i := FirstUnderscore(s);
    assert s[..|a|] == a && s[|a|] == '_';
    assert forall k :: 0 <= k < i ==> s[..i][k] == s[k] && s[k] != '_';
    assert forall k :: 0 <= k < |a| ==> a[k] == s[k] && s[k] != '_';
  }

  lemma SplitStep(a: string, b: string)
    requires '_' !in a
    ensures Split(a + "_" + b) == [a] + Split(b)
  {
    FirstUnderscoreIs(a, b);
    var s := a + "_" + b;
    assert s[..|a|] == a && s[|a| + 1..] == b;
  }

  lemma SplitWhole(a: string)
    requires '_' !in a
    ensures Split(a) == [a]
  {
    assert forall k :: 0 <= k < |a| ==> a[k] != '_';
  }

  /** Split and join are inverse to each other. */
  lemma {:induction false} SplitJoin(segments: seq<string>)
    requires |segments| >= 1 && forall k :: 0 <= k < |segments| ==> '_' !in segments[k]
    ensures Split(Join(segments)) == segments
  {
    if |segments| == 1 {
      SplitWhole(segments[0]);
    } else {
      SplitJoin(segments[1..]);
      SplitStep(segments[0], Join(segments[1..]));
    }
  }

  lemma JoinStep(a: string, rest: seq<string>)
    requires |rest| >= 1
    ensures Join([a] + rest) == a + "_" + Join(rest)
  {
    assert ([a] + rest)[1..] == rest;
  }

  lemma CutAt(s: string, i: nat)
    requires i < |s| && s[i] == '_'
    ensures s == s[..i] + "_" + s[i + 1..]
  {
  }

  lemma {:induction false} JoinSplit(s: string)
    ensures Join(Split(s)) == s
    decreases |s|
  {
    var i := FirstUnderscore(s);
    if i < |s| {
      CutAt(s, i);
      JoinSplit(s[i + 1..]);
      JoinStep(s[..i], Split(s[i + 1..]));
    } else {
      assert Split(s) == [s];
    }
  }

  lemma UuidHasNoUnderscore(s: string)
    requires IsUuid(s)
    ensures '_' !in s && s != ""
  {
    forall i | 0 <= i < |s| ensures s[i] != '_' {
      assert if i == 8 || i == 13 || i == 18 || i == 23 then s[i] == '-' else Hex(s[i]);
    }
  }

  /** `reference` is a built one, possibly with further segments after the nonce. */
  predicate ExtendsBuilt(reference: string, tenant: string, nonce: string, rest: string) {
    && nonce != "" && '_' !in nonce && (rest == "" || rest[0] == '_')
    && reference == BuildReference(tenant, nonce) + rest
  }

  lemma Regroup(tenant: string, nonce: string, rest: string)
    ensures BuildReference(tenant, nonce) + rest == "sub" + "_" + (tenant + "_" + (nonce + rest))
  {
    assert "sub_" == "sub" + "_";
    assert "sub_" + tenant + "_" + nonce + rest == "sub_" + (tenant + "_" + (nonce + rest));
  }

  lemma NonceIsFirst(nonce: string, rest: string)
    requires '_' !in nonce && (rest == "" || rest[0] == '_')
    ensures Split(nonce + rest)[0] == nonce
  {
    if rest == "" {
      assert nonce + rest == nonce;
      SplitWhole(nonce);
    } else {
      assert nonce + rest == nonce + "_" + rest[1..];
      SplitStep(nonce, rest[1..]);
    }
  }

  lemma SplitOfThree(tenant: string, tail: string)
    requires '_' !in tenant
    ensures Split("sub" + "_" + (tenant + "_" + tail)) == ["sub"] + ([tenant] + Split(tail))
  {
    SplitStep("sub", tenant + "_" + tail);
    SplitStep(tenant, tail);
  }

  lemma ExtendedIsAccepted(reference: string, tenant: string, nonce: string, rest: string)
    requires IsUuid(tenant) && ExtendsBuilt(reference, tenant, nonce, rest)
    ensures TenantFromReference(reference) == Some(tenant)
  {
    UuidHasNoUnderscore(tenant);
    Regroup(tenant, nonce, rest);
    SplitOfThree(tenant, nonce + rest);
    NonceIsFirst(nonce, rest);
  }

  /** A reference says which tenant it was built for, and nothing else about it matters. */
  lemma ReferenceRoundTrip(tenant: string, nonce: string)
    requires IsUuid(tenant) && IsUuid(nonce)
    ensures TenantFromReference(BuildReference(tenant, nonce)) == Some(tenant)
  {
    UuidHasNoUnderscore(nonce);
    assert BuildReference(tenant, nonce) + "" == BuildReference(tenant, nonce);
    ExtendedIsAccepted(BuildReference(tenant, nonce), tenant, nonce, "");
  }

  function After(segments: seq<string>): string {
    if segments == [] then "" else "_" + Join(segments)
  }

  lemma JoinFirst(s: seq<string>)
    requires |s| >= 1
    ensures Join(s) == s[0] + After(s[1..])
  {
    if |s| == 1 { assert s[0] + "" == s[0]; } else { assert s[0] + "_" + Join(s[1..]) == s[0] + ("_" + Join(s[1..])); }
  }

  lemma JoinOfThree(s: seq<string>)
    requires |s| >= 3 && s[0] == "sub"
    ensures Join(s) == BuildReference(s[1], s[2]) + After(s[3..])
  {
    assert s == ["sub"] + ([s[1]] + s[2..]);
    JoinStep("sub", [s[1]] + s[2..]);
    JoinStep(s[1], s[2..]);
    JoinFirst(s[2..]);
    assert s[2..][1..] == s[3..];
    Regroup(s[1], s[2], After(s[3..]));
  }

  lemma AcceptedIsExtended(reference: string, tenant: string) returns (nonce: string, rest: string)
    requires TenantFromReference(reference) == Some(tenant)
    ensures ExtendsBuilt(reference, tenant, nonce, rest)
  {
    var s := Split(reference);
    JoinSplit(reference);
    JoinOfThree(s);
    nonce, rest := s[2], After(s[3..]);
  }

  /** The references that are accepted for a tenant are exactly those that extend a built one: a
      non-empty nonce without underscore, then nothing or further segments. */
  lemma AcceptedReferences(reference: string, tenant: string)
    ensures TenantFromReference(reference) == Some(tenant) <==>
      IsUuid(tenant) && exists nonce, rest :: ExtendsBuilt(reference, tenant, nonce, rest)
  {
    if TenantFromReference(reference) == Some(tenant) {
      var nonce, rest := AcceptedIsExtended(reference, tenant);
    } else if IsUuid(tenant) {
      forall nonce, rest | ExtendsBuilt(reference, tenant, nonce, rest) ensures false {
        ExtendedIsAccepted(reference, tenant, nonce, rest);
      }
    }
  }
}
