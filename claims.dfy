/** Claims and claims identities as the token issuer uses them: a claim is a
    typed name/value pair, an identity is a principal name, an authentication
    type tag and an ordered list of claims, and `FindFirst` is the lookup by
    claim type that the issuer performs on the identity it is given. */
module Claims {
  import opened Wrappers

  /** Value type URI of a claim built from a type and a value alone. */
  const ValueTypeString: string := "http://www.w3.org/2001/XMLSchema#string"
  /** Value type URI of a claim holding a 64-bit integer. */
  const ValueTypeInteger64: string := "http://www.w3.org/2001/XMLSchema#integer64"

  datatype Claim = Claim(claimType: string, value: string, valueType: string)

  /** A claim built with the two-argument constructor: its value type is the
      string type. */
  function StringClaim(claimType: string, value: string): (c: Claim)
    ensures c.claimType == claimType && c.value == value
    ensures c.valueType == ValueTypeString
  {
    Claim(claimType, value, ValueTypeString)
  }

  /** A principal name, the tag naming how it was authenticated, and its
      claims in the order they were added. */
  datatype ClaimsIdentity = ClaimsIdentity(name: string, authenticationType: string, claims: seq<Claim>)

  /** Ordinal case-insensitive comparison folds each character to upper case;
      this model folds the ASCII letters. */
  function FoldChar(c: char): char
  {
    if 'a' <= c <= 'z' then (c as int - 32) as char else c
  }

  function Fold(s: string): (f: string)
    ensures |f| == |s|
    ensures forall i :: 0 <= i < |s| ==> f[i] == FoldChar(s[i])
  {
    seq(|s|, i requires 0 <= i < |s| => FoldChar(s[i]))
  }

  /** Two claim types name the same claim when they agree up to the case of
      their letters. */
  predicate TypeMatches(a: string, b: string): (m: bool)
    ensures m <==> |a| == |b| && forall i :: 0 <= i < |a| ==> FoldChar(a[i]) == FoldChar(b[i])
  {
    Fold(a) == Fold(b)
  }

  /** The earliest claim whose type matches `claimType`, or None when no claim
      does. A miss is an ordinary answer, not an error. */
  function FindFirst(claims: seq<Claim>, claimType: string): (r: Option<Claim>)
    ensures r.None? <==> forall i :: 0 <= i < |claims| ==> !TypeMatches(claims[i].claimType, claimType)
    ensures r.Some? ==> r.value in claims && TypeMatches(r.value.claimType, claimType)
    ensures r.Some? ==>
      exists i :: 0 <= i < |claims| && claims[i] == r.value && TypeMatches(claims[i].claimType, claimType) &&
        forall j :: 0 <= j < i ==> !TypeMatches(claims[j].claimType, claimType)
  {
    if |claims| == 0 then None
    else if TypeMatches(claims[0].claimType, claimType) then Some(claims[0])
    else
      var r := FindFirst(claims[1..], claimType);
      assert forall i :: 1 <= i < |claims| ==> claims[i] == claims[1..][i - 1];
      r
  }

  /** Lookup in a concatenation: the first list answers when it can, and
      only otherwise is the second one searched. */
  lemma {:induction false} FindFirstAppend(a: seq<Claim>, b: seq<Claim>, claimType: string)
    ensures FindFirst(a + b, claimType) ==
      if FindFirst(a, claimType).Some? then FindFirst(a, claimType) else FindFirst(b, claimType)
  {
    if |a| > 0 {
      assert (a + b)[0] == a[0];
      assert (a + b)[1..] == a[1..] + b;
      FindFirstAppend(a[1..], b, claimType);
    } else {
      assert a + b == b;
    }
  }

  /** Lookup in a list that starts with three given claims. */
  lemma FindFirstAfterThree(a: Claim, b: Claim, c: Claim, rest: seq<Claim>, claimType: string)
    ensures FindFirst([a, b, c] + rest, claimType) ==
      if TypeMatches(a.claimType, claimType) then Some(a)
      else if TypeMatches(b.claimType, claimType) then Some(b)
      else if TypeMatches(c.claimType, claimType) then Some(c)
      else FindFirst(rest, claimType)
  {
    FindFirstAppend([a, b, c], rest, claimType);
    var s3, s2, s1 := [c], [b, c], [a, b, c];
    assert s3[1..] == [] && s2[1..] == s3 && s1[1..] == s2;
    assert FindFirst(s3, claimType) == if TypeMatches(c.claimType, claimType) then Some(c) else FindFirst([], claimType);
    assert FindFirst(s2, claimType) == if TypeMatches(b.claimType, claimType) then Some(b) else FindFirst(s3, claimType);
    assert FindFirst(s1, claimType) == if TypeMatches(a.claimType, claimType) then Some(a) else FindFirst(s2, claimType);
  }
}
