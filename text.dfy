/**
 * The string operations the page's handlers rely on, as JavaScript defines them:
 * `String.prototype.trim`, `toLowerCase`/`toUpperCase` (restricted to ASCII letters)
 * and `includes`.
 */
module Text {

  /** The characters `trim` removes: WhiteSpace and LineTerminator of ECMA-262. */
  predicate IsSpace(c: char) {
    || c == '\t' || c == '\n' || c == '\U{000B}' || c == '\U{000C}' || c == '\r' || c == ' '
    || c == '\U{00A0}' || c == '\U{1680}' || ('\U{2000}' <= c <= '\U{200A}')
    || c == '\U{2028}' || c == '\U{2029}' || c == '\U{202F}' || c == '\U{205F}'
    || c == '\U{3000}' || c == '\U{FEFF}'
  }

  predicate AllSpace(s: string) {
    forall i :: 0 <= i < |s| ==> IsSpace(s[i])
  }

  /** Number of white-space characters at the front of `s`. */
  function LeadingSpaces(s: string): (k: nat)
    ensures k <= |s|
    ensures forall i :: 0 <= i < k ==> IsSpace(s[i])
    ensures k < |s| ==> !IsSpace(s[k])
  {
    if |s| > 0 && IsSpace(s[0]) then 1 + LeadingSpaces(s[1..]) else 0
  }

  /** Number of white-space characters at the end of `s`. */
  function TrailingSpaces(s: string): (k: nat)
    ensures k <= |s|
    ensures forall i :: |s| - k <= i < |s| ==> IsSpace(s[i])
    ensures k < |s| ==> !IsSpace(s[|s| - 1 - k])
  {
    if |s| > 0 && IsSpace(s[|s| - 1]) then 1 + TrailingSpaces(s[..|s| - 1]) else 0
  }

  /** `r` is the slice of `s` starting at `lo`, and everything around it is white space. */
  predicate StripsSpacesAt(s: string, r: string, lo: int) {
    && 0 <= lo && lo + |r| <= |s|
    && s[lo..lo + |r|] == r
    && (forall i :: 0 <= i < lo ==> IsSpace(s[i]))
    && (forall i :: lo + |r| <= i < |s| ==> IsSpace(s[i]))
  }

  /** `String.prototype.trim`. */
  function Trim(s: string): (r: string)
    ensures exists lo :: StripsSpacesAt(s, r, lo)
    ensures r != [] ==> !IsSpace(r[0]) && !IsSpace(r[|r| - 1])
    ensures r == [] <==> AllSpace(s)
  {
    var lo := LeadingSpaces(s);
    var t := s[lo..];
    var r := t[..|t| - TrailingSpaces(t)];
    assert StripsSpacesAt(s, r, lo) by {
      assert s[lo..lo + |r|] == r;
      forall i | lo + |r| <= i < |s| ensures IsSpace(s[i]) {
        assert s[i] == t[i - lo];
      }
    }
    assert r != [] ==> !IsSpace(r[|r| - 1]) by {
      if r != [] { assert r[|r| - 1] == t[|t| - 1 - TrailingSpaces(t)]; }
    }
    r
  }

  /** A string that neither starts nor ends with white space is its own trim. */
  lemma TrimmedIsFixed(s: string)
    requires s != [] ==> !IsSpace(s[0]) && !IsSpace(s[|s| - 1])
    ensures Trim(s) == s
  {
    assert LeadingSpaces(s) == 0;
    assert TrailingSpaces(s) == 0;
  }

  /** Trim drops a single white-space character after an already trimmed, non-empty string. */
  lemma TrimDropsTrailingSpace(s: string, c: char)
    requires s != [] && !IsSpace(s[0]) && !IsSpace(s[|s| - 1])
    requires IsSpace(c)
    ensures Trim(s + [c]) == s
  {
    var t := s + [c];
    assert LeadingSpaces(t) == 0 by {
      assert t[0] == s[0];
    }
    assert t[..|t| - 1] == s;
    assert TrailingSpaces(s) == 0;
    assert TrailingSpaces(t) == 1;
    assert t[0..] == t;
  }

  predicate IsUpperLetter(c: char) {
    'A' <= c <= 'Z'
  }

  predicate IsLowerLetter(c: char) {
    'a' <= c <= 'z'
  }

  /** ASCII upper-case letters map to lower case; every other character is kept. */
  function LowerChar(c: char): (r: char)
    ensures !IsUpperLetter(r)
  {
    if IsUpperLetter(c) then (c as int + 32) as char else c
  }

  /** ASCII lower-case letters map to upper case; every other character is kept. */
  function UpperChar(c: char): (r: char)
    ensures !IsLowerLetter(r)
  {
    if IsLowerLetter(c) then (c as int - 32) as char else c
  }

  /** `toLowerCase`, character by character: no ASCII capital remains. */
  function ToLower(s: string): (r: string)
    ensures |r| == |s|
    ensures forall i :: 0 <= i < |s| ==> r[i] == LowerChar(s[i])
    ensures forall i :: 0 <= i < |r| ==> !IsUpperLetter(r[i])
  {
    seq(|s|, i requires 0 <= i < |s| => LowerChar(s[i]))
  }

  /** Lower-casing changes nothing in a string without ASCII capitals. */
  lemma ToLowerFixed(s: string)
    requires forall i :: 0 <= i < |s| ==> !IsUpperLetter(s[i])
    ensures ToLower(s) == s
  {
    assert forall i :: 0 <= i < |s| ==> ToLower(s)[i] == s[i];
  }

  /** `toUpperCase`, character by character: no ASCII lower-case letter remains. */
  function ToUpper(s: string): (r: string)
    ensures |r| == |s|
    ensures forall i :: 0 <= i < |s| ==> r[i] == UpperChar(s[i])
    ensures forall i :: 0 <= i < |r| ==> !IsLowerLetter(r[i])
  {
    seq(|s|, i requires 0 <= i < |s| => UpperChar(s[i]))
  }


  /** Lower-casing keeps white space and creates none, so it preserves `AllSpace`. */
  lemma ToLowerKeepsSpaces(s: string)
    ensures forall i :: 0 <= i < |s| ==> (IsSpace(ToLower(s)[i]) <==> IsSpace(s[i]))
    ensures AllSpace(ToLower(s)) <==> AllSpace(s)
  {
    forall i | 0 <= i < |s| ensures IsSpace(ToLower(s)[i]) <==> IsSpace(s[i]) {
      if IsUpperLetter(s[i]) {
        assert LowerChar(s[i]) as int == s[i] as int + 32;
      }
    }
  }

  /** A character upper-cases to the capital `u` exactly when it is `u` or its lower-case form. */
  lemma UpperCharIff(c: char, u: char)
    requires IsUpperLetter(u)
    ensures UpperChar(c) == u <==> c == u || c == LowerChar(u)
  {
    if IsLowerLetter(c) {
      assert UpperChar(c) as int == c as int - 32;
    }
  }

  /**
   * Upper-casing `w` yields the all-capitals word `t` exactly when `w` spells `t`
   * with each letter in either case.
   */
  lemma UpperMatchIff(w: string, t: string)
    requires forall i :: 0 <= i < |t| ==> IsUpperLetter(t[i])
    ensures ToUpper(w) == t <==>
      |w| == |t| && forall i :: 0 <= i < |t| ==> w[i] == t[i] || w[i] == LowerChar(t[i])
  {
    var u := ToUpper(w);
    if |w| == |t| {
      forall i | 0 <= i < |t| ensures u[i] == t[i] <==> w[i] == t[i] || w[i] == LowerChar(t[i]) {
        UpperCharIff(w[i], t[i]);
      }
      assert u == t <==> forall i :: 0 <= i < |t| ==> u[i] == t[i];
    }
  }

  /** `sub` occurs in `s` at position `i`. */
  predicate OccursAt(s: string, sub: string, i: int) {
    0 <= i && i + |sub| <= |s| && s[i..i + |sub|] == sub
  }

  /** `String.prototype.includes`: scan for `sub` from the front of `s`. */
  predicate Contains(s: string, sub: string): (r: bool)
    ensures r ==> |sub| <= |s|
    decreases |s|
  {
    if |sub| > |s| then false
    else if s[..|sub|] == sub then true
    else Contains(s[1..], sub)
  }

  /** The scan finds `sub` exactly when it occurs somewhere in `s`. */
  lemma {:induction false} ContainsIff(s: string, sub: string)
    ensures Contains(s, sub) <==> exists i :: OccursAt(s, sub, i)
    decreases |s|
  {
    if |sub| > |s| {
      assert forall i :: !OccursAt(s, sub, i);
    } else if s[..|sub|] == sub {
      assert OccursAt(s, sub, 0);
    } else {
      ContainsIff(s[1..], sub);
      if i :| OccursAt(s[1..], sub, i) {
        assert s[i + 1..i + 1 + |sub|] == s[1..][i..i + |sub|];
        assert OccursAt(s, sub, i + 1);
      }
      if i :| OccursAt(s, sub, i) {
        assert i != 0;
        assert s[1..][i - 1..i - 1 + |sub|] == s[i..i + |sub|];
        assert OccursAt(s[1..], sub, i - 1);
      }
    }
  }
}
