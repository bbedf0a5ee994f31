/**
  String helpers the admin tables rely on: ASCII case mapping, the substring
  test behind `String.prototype.includes`, and the badge label that
  upper-cases the first character (`s.charAt(0).toUpperCase() + s.slice(1)`).
  Case mapping is restricted to ASCII; every other character maps to itself.
*/
module Text {

  /** ASCII lower-casing of one character. */
  function LowerChar(c: char): char {
    if 'A' <= c <= 'Z' then (c as int + 32) as char else c
  }

  /** ASCII upper-casing of one character. */
  function UpperChar(c: char): char {
    if 'a' <= c <= 'z' then (c as int - 32) as char else c
  }

  predicate IsUpperLetter(c: char) {
    'A' <= c <= 'Z'
  }

  predicate IsLowerLetter(c: char) {
    'a' <= c <= 'z'
  }

  /** `s.toLowerCase()`, restricted to ASCII: every upper-case letter becomes
      its lower-case partner, every other character is kept, so the result
      holds no upper-case letter. */
  function Lower(s: string): (r: string)
    ensures |r| == |s|
    ensures forall i :: 0 <= i < |s| && IsUpperLetter(s[i]) ==> IsLowerLetter(r[i]) && UpperChar(r[i]) == s[i]
    ensures forall i :: 0 <= i < |s| && !IsUpperLetter(s[i]) ==> r[i] == s[i]
    ensures forall i :: 0 <= i < |r| ==> !IsUpperLetter(r[i])
  {
    seq(|s|, i requires 0 <= i < |s| => LowerChar(s[i]))
  }

  /** Lower-casing is idempotent, so lower-casing a query that is already
      lower case changes nothing. */
  lemma LowerIdempotent(s: string)
    ensures Lower(Lower(s)) == Lower(s)
  {
    var l := Lower(s);
    assert forall i :: 0 <= i < |s| ==> LowerChar(l[i]) == l[i];
  }

  /** `p` is a prefix of `s`. */
  predicate IsPrefix(p: string, s: string) {
    |p| <= |s| && s[..|p|] == p
  }

  /** `s.includes(sub)`: `sub` occurs somewhere inside `s`. */
  predicate Contains(s: string, sub: string)
    decreases |s|
  {
    IsPrefix(sub, s) || (|s| > 0 && Contains(s[1..], sub))
  }

  /** `sub` occurs in `s` starting at index `i`. */
  ghost predicate OccursAt(s: string, sub: string, i: int) {
    0 <= i && i + |sub| <= |s| && s[i..i + |sub|] == sub
  }

  /** The recursive substring test agrees with the index definition: `s`
      contains `sub` exactly when `sub` occurs at some index of `s`. */
  lemma {:induction false} ContainsIffOccurs(s: string, sub: string)
    ensures Contains(s, sub) <==> exists i :: OccursAt(s, sub, i)
    decreases |s|
  {
    if IsPrefix(sub, s) {
      assert OccursAt(s, sub, 0);
    } else if |s| == 0 {
      assert forall i :: OccursAt(s, sub, i) ==> IsPrefix(sub, s);
    } else {
      ContainsIffOccurs(s[1..], sub);
      if Contains(s[1..], sub) {
        var j :| OccursAt(s[1..], sub, j);
        assert s[1..][j..j + |sub|] == s[j + 1..j + 1 + |sub|];
        assert OccursAt(s, sub, j + 1);
      }
      if exists i :: OccursAt(s, sub, i) {
        var i :| OccursAt(s, sub, i);
        assert i != 0;
        assert s[1..][i - 1..i - 1 + |sub|] == s[i..i + |sub|];
        assert OccursAt(s[1..], sub, i - 1);
      }
    }
  }

  /** The badge label: the first character upper-cased, the rest kept. The
      empty string stays empty, as `"".charAt(0)` is `""`. */
  function Capitalize(s: string): (r: string)
    ensures |r| == |s|
    ensures |s| > 0 ==> r[1..] == s[1..]
    ensures |s| > 0 && IsLowerLetter(s[0]) ==> IsUpperLetter(r[0])
    ensures |s| > 0 && !IsLowerLetter(s[0]) ==> r == s
    ensures Lower(r) == Lower(s)
  {
    if |s| == 0 then "" else
      var r := [UpperChar(s[0])] + s[1..];
      assert Lower(r)[0] == LowerChar(UpperChar(s[0]));
      assert forall i :: 0 <= i < |s| ==> Lower(r)[i] == Lower(s)[i];
      r
  }

  /** A character outside the Basic Multilingual Plane, which UTF-16 encodes
      as a surrogate pair. */
  predicate IsAstral(c: char) {
    c as int > 0xFFFF
  }

  /** JavaScript's `s.length`: the number of UTF-16 code units, which counts
      an astral character twice. Every string length bound in the form
      schemas reads this measure. */
  function Utf16Length(s: string): (n: nat)
    ensures |s| <= n <= 2 * |s|
    ensures n == 0 <==> |s| == 0
    decreases |s|
  {
    if |s| == 0 then 0 else (if IsAstral(s[0]) then 2 else 1) + Utf16Length(s[1..])
  }

  /** Without astral characters the code-unit length is the character count. */
  lemma {:induction false} Utf16LengthOfBmp(s: string)
    requires forall i :: 0 <= i < |s| ==> !IsAstral(s[i])
    ensures Utf16Length(s) == |s|
    decreases |s|
  {
    if |s| > 0 {
      assert forall i :: 1 <= i < |s| ==> s[i] == s[1..][i - 1];
      Utf16LengthOfBmp(s[1..]);
    }
  }

  /** The code-unit length adds up over concatenation. */
  lemma {:induction false} Utf16LengthConcat(a: string, b: string)
    ensures Utf16Length(a + b) == Utf16Length(a) + Utf16Length(b)
    decreases |a|
  {
    if |a| > 0 {
      assert (a + b)[1..] == a[1..] + b;
      Utf16LengthConcat(a[1..], b);
    } else {
      assert a + b == b;
    }
  }

  /** One astral character is two code units long. */
  lemma AstralCountsTwice(c: char)
    requires IsAstral(c)
    ensures |[c]| == 1 && Utf16Length([c]) == 2
  {
  }
}
