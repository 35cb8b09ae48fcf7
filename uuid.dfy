/** The identifier check of the client: `isValidUUID` tests its argument
    against the regular expression of five hexadecimal groups of 8, 4, 4, 4
    and 12 digits joined by hyphens, anchored at both ends and matched with
    the case-insensitive flag. */
module Uuid {

  /** One character of the class [0-9A-F] under the case-insensitive flag. */
  predicate IsHexDigit(c: char) {
    ('0' <= c <= '9') || ('a' <= c <= 'f') || ('A' <= c <= 'F')
  }

  /** Every character of `s[a..b]` is a hexadecimal digit. */
  predicate IsHexBetween(s: string, a: nat, b: nat)
    requires a <= b <= |s|
  {
    forall i :: a <= i < b ==> IsHexDigit(s[i])
  }

  /** The repetition counts of the five groups of the expression. */
  const GroupLengths: seq<nat> := [8, 4, 4, 4, 12]

  /** The length of a match of groups of these lengths joined by hyphens. */
  function Span(lens: seq<nat>): nat
    requires |lens| > 0
    decreases |lens|
  {
    if |lens| == 1 then lens[0] else lens[0] + 1 + Span(lens[1..])
  }

  /** From offset `k`, the rest of `s` matches H{lens[0]} ('-' H{lens[j]})*
      for the remaining counts and then ends: the anchored regular
      expression read group by group. */
  function MatchFrom(s: string, k: nat, lens: seq<nat>): (r: bool)
    requires |lens| > 0 && k <= |s|
    ensures r ==> k + Span(lens) == |s|
    ensures r ==> forall i :: k <= i < |s| ==> s[i] == '-' || IsHexDigit(s[i])
    decreases |lens|
  {
    var n := lens[0];
    k + n <= |s| && IsHexBetween(s, k, k + n) &&
    if |lens| == 1 then k + n == |s|
    else k + n < |s| && s[k + n] == '-' && MatchFrom(s, k + n + 1, lens[1..])
  }

  /** The model of `isValidUUID`. */
  function IsValidUuid(s: string): (r: bool)
    ensures r ==> |s| == 36
    ensures r ==> forall i :: 0 <= i < |s| ==> s[i] == '-' || IsHexDigit(s[i])
  {
    assert GroupLengths[1..][1..][1..][1..] == [12];
    MatchFrom(s, 0, GroupLengths)
  }

  /** Positions of the four hyphens in a 36-character identifier. */
  predicate IsHyphenPosition(i: int) {
    i == 8 || i == 13 || i == 18 || i == 23
  }

  /** Reference definition, position by position: 36 characters, hyphens at
      8, 13, 18 and 23 and a hexadecimal digit of either case everywhere else. */
  ghost predicate UuidShape(s: string) {
    |s| == 36 &&
    forall i :: 0 <= i < 36 ==> if IsHyphenPosition(i) then s[i] == '-' else IsHexDigit(s[i])
  }

  /** The matcher accepts exactly the strings of the reference shape. */
  lemma {:induction false} ValidIffShape(s: string)
    ensures IsValidUuid(s) <==> UuidShape(s)
  {
    assert GroupLengths[1..] == [4, 4, 4, 12];
    assert [4, 4, 4, 12][1..] == [4, 4, 12];
    assert [4, 4, 12][1..] == [4, 12];
    assert [4, 12][1..] == [12];
    if IsValidUuid(s) {
      assert |s| == 36;
      forall i | 0 <= i < 36
        ensures if IsHyphenPosition(i) then s[i] == '-' else IsHexDigit(s[i])
      {
        if i < 8 { assert IsHexBetween(s, 0, 8); }
        else if 8 < i < 13 { assert IsHexBetween(s, 9, 13); }
        else if 13 < i < 18 { assert IsHexBetween(s, 14, 18); }
        else if 18 < i < 23 { assert IsHexBetween(s, 19, 23); }
        else if 23 < i { assert IsHexBetween(s, 24, 36); }
      }
    }
    if UuidShape(s) {
      assert MatchFrom(s, 24, [12]);
      assert MatchFrom(s, 19, [4, 12]);
      assert MatchFrom(s, 14, [4, 4, 12]);
      assert MatchFrom(s, 9, [4, 4, 4, 12]);
    }
  }

  /** A valid identifier is exactly five hexadecimal runs of the expected
      lengths joined by single hyphens. */
  lemma JoinedGroupsAreValid(a: string, b: string, c: string, d: string, e: string)
    requires |a| == 8 && |b| == 4 && |c| == 4 && |d| == 4 && |e| == 12
    ensures IsValidUuid(a + "-" + b + "-" + c + "-" + d + "-" + e) <==>
      (IsHexBetween(a, 0, 8) && IsHexBetween(b, 0, 4) && IsHexBetween(c, 0, 4) &&
       IsHexBetween(d, 0, 4) && IsHexBetween(e, 0, 12))
  {
    var s := a + "-" + b + "-" + c + "-" + d + "-" + e;
    assert forall i :: 0 <= i < 8 ==> s[i] == a[i];
    assert forall i :: 0 <= i < 4 ==> s[9 + i] == b[i] && s[14 + i] == c[i] && s[19 + i] == d[i];
    assert forall i :: 0 <= i < 12 ==> s[24 + i] == e[i];
    ValidIffShape(s);
  }

  /** ASCII upper-casing of one character. */
  function UpperChar(c: char): (u: char)
    ensures 'a' <= c <= 'z' ==> u as int == c as int - 32
    ensures !('a' <= c <= 'z') ==> u == c
  {
    if 'a' <= c <= 'z' then (c as int - 32) as char else c
  }

  function Upper(s: string): (u: string)
    ensures |u| == |s|
    ensures forall i :: 0 <= i < |s| ==> u[i] == UpperChar(s[i])
  {
    seq(|s|, i requires 0 <= i < |s| => UpperChar(s[i]))
  }

  /** The check is case-insensitive: upper-casing never changes its verdict. */
  lemma UpperKeepsValidity(s: string)
    ensures IsValidUuid(Upper(s)) <==> IsValidUuid(s)
  {
    ValidIffShape(s);
    ValidIffShape(Upper(s));
    var u := Upper(s);
    if |s| == 36 {
      forall i | 0 <= i < 36
        ensures IsHexDigit(u[i]) <==> IsHexDigit(s[i])
        ensures u[i] == '-' <==> s[i] == '-'
      {
      }
    }
  }
}
