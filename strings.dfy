/**
 * The few Python `str` operations the sensor code relies on, over `seq<char>`:
 * `s.lower()`, `sub in s`, `s.endswith(suf)` and `s.replace(pat, "")`.
 */
module Strings {

  /** True for the ASCII capitals 'A'..'Z', the only characters `Lower` changes. */
  predicate IsUpper(c: char)
  {
    'A' <= c <= 'Z'
  }

  function LowerChar(c: char): (d: char)
    ensures !IsUpper(d)
    ensures !IsUpper(c) ==> d == c
  {
    if IsUpper(c) then (c as int + 32) as char else c
  }

  /** `s.lower()`, restricted to ASCII letters. */
  function Lower(s: string): (r: string)
    ensures |r| == |s|
    ensures forall i :: 0 <= i < |s| ==> r[i] == LowerChar(s[i])
  {
    seq(|s|, i requires 0 <= i < |s| => LowerChar(s[i]))
  }

  /** `sub in s`: `sub` occurs in `s` at some position (the empty string occurs everywhere). */
  function Contains(s: string, sub: string): (r: bool)
    ensures r ==> |sub| <= |s|
    decreases |s|
  {
    sub <= s || (s != [] && Contains(s[1..], sub))
  }

  /** `sub` occurs in `s` starting at index `i`. */
  predicate OccursAt(s: string, sub: string, i: int)
  {
    0 <= i <= |s| - |sub| && s[i..i + |sub|] == sub
  }

  /** `Contains` holds exactly when `sub` occurs at some index of `s`. */
  lemma {:induction false} ContainsIffOccurs(s: string, sub: string)
    ensures Contains(s, sub) <==> exists i :: OccursAt(s, sub, i)
    decreases |s|
  {
    if sub <= s {
      assert OccursAt(s, sub, 0);
    } else if s == [] {
    } else {
      ContainsIffOccurs(s[1..], sub);
      if Contains(s[1..], sub) {
        var i :| OccursAt(s[1..], sub, i);
        assert s[i + 1..i + 1 + |sub|] == s[1..][i..i + |sub|];
        assert OccursAt(s, sub, i + 1);
      }
      if exists i :: OccursAt(s, sub, i) {
        var i :| OccursAt(s, sub, i);
        assert i != 0;
        assert s[1..][i - 1..i - 1 + |sub|] == s[i..i + |sub|];
        assert OccursAt(s[1..], sub, i - 1);
      }
    }
  }

  /** `s.endswith(suf)`: `s` is some prefix followed by `suf`. */
  predicate EndsWith(s: string, suf: string)
    ensures EndsWith(s, suf) <==> |suf| <= |s| && s == s[..|s| - |suf|] + suf
  {
    |suf| <= |s| && s[|s| - |suf|..] == suf
  }

  /**
   * `s.replace(pat, "")`: scans left to right and drops every non-overlapping
   * occurrence of `pat`, not only a leading one.
   */
  function RemoveAll(s: string, pat: string): (r: string)
    requires pat != []
    ensures |r| <= |s|
    ensures r == s <==> !Contains(s, pat)
    decreases |s|
  {
    if pat <= s then RemoveAll(s[|pat|..], pat)
    else if s == [] then []
    else [s[0]] + RemoveAll(s[1..], pat)
  }

  /** A string without capitals is its own lower-case form. */
  lemma LowerOfLower(s: string)
    requires forall i :: 0 <= i < |s| ==> !IsUpper(s[i])
    ensures Lower(s) == s
  {
  }

  /** An occurrence of `sub` in `s` puts every character of `sub` in `s`. */
  lemma {:induction false} ContainsChar(s: string, sub: string, j: nat)
    requires j < |sub| && Contains(s, sub)
    ensures sub[j] in s
  {
    if sub <= s {
      assert s[j] == sub[j];
    } else {
      ContainsChar(s[1..], sub, j);
      assert sub[j] in s[1..];
    }
  }
}
