/**
  A dedicated recogniser for the one regular expression the validator
  uses, [a-zA-Z]{1,8}(-[a-zA-Z0-9]{1,8})*, matched against the whole
  string as String.matches does.
 */
module LanguageTag {

  /** The pattern text, shared by the language check and its description. */
  const Pattern: string := "[a-zA-Z]{1,8}(-[a-zA-Z0-9]{1,8})*"

  predicate IsAlpha(c: char)
  {
    'a' <= c <= 'z' || 'A' <= c <= 'Z'
  }

  predicate IsAlphaNum(c: char)
  {
    IsAlpha(c) || '0' <= c <= '9'
  }

  ghost predicate AllAlpha(t: string)
  {
    forall i :: 0 <= i < |t| ==> IsAlpha(t[i])
  }

  ghost predicate AllAlphaNum(t: string)
  {
    forall i :: 0 <= i < |t| ==> IsAlphaNum(t[i])
  }

  /** The language of the pattern, following its shape: a first subtag of
      one to eight letters, then the repeated group. */
  ghost predicate MatchesPattern(s: string)
  {
    exists k :: 1 <= k <= 8 && k <= |s| && AllAlpha(s[..k]) && MatchesGroups(s[k..])
  }

  /** The language of (-[a-zA-Z0-9]{1,8})*. */
  ghost predicate MatchesGroups(t: string)
    decreases |t|, 1
  {
    t == [] || exists k :: GroupThenRest(t, k)
  }

  /** t is a hyphen and k alphanumerics, followed by more groups. */
  ghost predicate GroupThenRest(t: string, k: int)
    decreases |t|, 0
  {
    1 <= k <= 8 && k < |t| && t[0] == '-' && AllAlphaNum(t[1..k + 1]) && MatchesGroups(t[k + 1..])
  }

  /** Length of the longest prefix of letters. */
  function AlphaRun(s: string): (n: nat)
    ensures n <= |s|
    ensures forall i :: 0 <= i < n ==> IsAlpha(s[i])
    ensures n < |s| ==> !IsAlpha(s[n])
  {
    if s == [] || !IsAlpha(s[0]) then 0 else 1 + AlphaRun(s[1..])
  }

  /** Length of the longest prefix of letters and digits. */
  function AlphaNumRun(s: string): (n: nat)
    ensures n <= |s|
    ensures forall i :: 0 <= i < n ==> IsAlphaNum(s[i])
    ensures n < |s| ==> !IsAlphaNum(s[n])
  {
    if s == [] || !IsAlphaNum(s[0]) then 0 else 1 + AlphaNumRun(s[1..])
  }

  /** The recogniser: the first subtag is the maximal run of letters, and
      each later subtag is the maximal alphanumeric run after a hyphen. */
  function IsLanguageTag(s: string): bool
  {
    var k := AlphaRun(s);
    1 <= k <= 8 && IsGroups(s[k..])
  }

  function IsGroups(t: string): bool
    decreases |t|
  {
    if t == [] then true
    else if t[0] != '-' then false
    else
      var k := AlphaNumRun(t[1..]);
      1 <= k <= 8 && IsGroups(t[k + 1..])
  }

  /** A non-empty match of the group repetition starts with a hyphen. */
  lemma GroupsStartWithHyphen(t: string)
    requires MatchesGroups(t) && t != []
    ensures t[0] == '-'
  {
  }

  /** A maximal run that ends before a non-accepted character or at the
      end has exactly the length of any all-accepted prefix with that
      property. */
  lemma AlphaNumRunExact(u: string, j: nat)
    requires j <= |u| && AllAlphaNum(u[..j])
    requires j == |u| || !IsAlphaNum(u[j])
    ensures AlphaNumRun(u) == j
  {
    assert forall i :: 0 <= i < j ==> u[..j][i] == u[i];
  }

  lemma AlphaRunExact(u: string, j: nat)
    requires j <= |u| && AllAlpha(u[..j])
    requires j == |u| || !IsAlpha(u[j])
    ensures AlphaRun(u) == j
  {
    assert forall i :: 0 <= i < j ==> u[..j][i] == u[i];
  }

  /** Every string the group recogniser accepts is in the repetition. */
  lemma {:induction false} IsGroupsSound(t: string)
    requires IsGroups(t)
    ensures MatchesGroups(t)
    decreases |t|
  {
    if t != [] {
      var k := AlphaNumRun(t[1..]);
      IsGroupsSound(t[k + 1..]);
      assert t[1..k + 1] == t[1..][..k];
      assert GroupThenRest(t, k);
    }
  }

  /** Every string in the repetition is accepted by the group recogniser. */
  lemma {:induction false} IsGroupsComplete(t: string)
    requires MatchesGroups(t)
    ensures IsGroups(t)
    decreases |t|
  {
    if t != [] {
      var j :| GroupThenRest(t, j);
      var rest := t[j + 1..];
      assert t[1..][..j] == t[1..j + 1];
      if rest != [] {
        GroupsStartWithHyphen(rest);
        assert t[1..][j] == rest[0];
      }
      AlphaNumRunExact(t[1..], j);
      IsGroupsComplete(rest);
    }
  }

  /** The recogniser accepts exactly the strings the pattern matches. */
  lemma IsLanguageTagIffMatches(s: string)
    ensures IsLanguageTag(s) <==> MatchesPattern(s)
  {
    var k := AlphaRun(s);
    if IsLanguageTag(s) {
      IsGroupsSound(s[k..]);
      assert AllAlpha(s[..k]);
    }
    if MatchesPattern(s) {
      var j :| 1 <= j <= 8 && j <= |s| && AllAlpha(s[..j]) && MatchesGroups(s[j..]);
      if j < |s| {
        GroupsStartWithHyphen(s[j..]);
        assert s[j..][0] == s[j];
      }
      AlphaRunExact(s, j);
      IsGroupsComplete(s[j..]);
    }
  }

  /** A first subtag of more than eight letters is never accepted. */
  lemma RejectsLongFirstSubtag(s: string)
    requires |s| > 8 && forall i :: 0 <= i < 9 ==> IsAlpha(s[i])
    ensures !IsLanguageTag(s)
  {
  }
}
