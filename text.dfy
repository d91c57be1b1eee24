/**
 * The string operations of the pages: `toLowerCase` and `includes` for the
 * catalog search, and `length` for the form schemas. Case mapping covers
 * the ASCII letters only.
 */
module Text {

  /** An upper-case ASCII letter mapped to lower case; every other character unchanged. */
  function LowerChar(c: char): char {
    if 'A' <= c <= 'Z' then (c as int + 32) as char else c
  }

  /** `s.toLowerCase()` on the ASCII letters of `s`. */
  function ToLower(s: string): (r: string)
    ensures |r| == |s|
    ensures forall i :: 0 <= i < |s| ==> r[i] == LowerChar(s[i])
    ensures forall i :: 0 <= i < |r| ==> !('A' <= r[i] <= 'Z')
    decreases |s|
  {
    if s == [] then [] else [LowerChar(s[0])] + ToLower(s[1..])
  }

  /** Lower-casing twice is lower-casing once. */
  lemma ToLowerIdempotent(s: string)
    ensures ToLower(ToLower(s)) == ToLower(s)
  {
    var once := ToLower(s);
    var twice := ToLower(once);
    assert forall i :: 0 <= i < |s| ==> twice[i] == once[i];
  }

  /** `needle` occurs in `s` starting at position `i`. */
  predicate OccursAt(s: string, needle: string, i: int) {
    0 <= i && i + |needle| <= |s| && s[i..i + |needle|] == needle
  }

  /** `needle` occurs somewhere in `s`. */
  ghost predicate Occurs(s: string, needle: string) {
    exists i :: OccursAt(s, needle, i)
  }

  /** `s` begins with `prefix`. */
  predicate StartsWith(s: string, prefix: string) {
    |prefix| <= |s| && s[..|prefix|] == prefix
  }

  /** `s.includes(needle)`, scanning from the left. */
  predicate Includes(s: string, needle: string)
    decreases |s|
  {
    StartsWith(s, needle) || (|s| > 0 && Includes(s[1..], needle))
  }

  /** An occurrence at position `i` is found by the scan. */
  lemma {:induction false} OccursIncluded(s: string, needle: string, i: int)
    requires OccursAt(s, needle, i)
    ensures Includes(s, needle)
    decreases i
  {
    if i == 0 {
      assert StartsWith(s, needle);
    } else {
      assert s[1..][i - 1..i - 1 + |needle|] == s[i..i + |needle|];
      OccursIncluded(s[1..], needle, i - 1);
    }
  }

  /** What the scan finds is an occurrence at some position. */
  lemma {:induction false} IncludedOccurs(s: string, needle: string) returns (i: int)
    requires Includes(s, needle)
    ensures OccursAt(s, needle, i)
    decreases |s|
  {
    if StartsWith(s, needle) {
      i := 0;
    } else {
      var j := IncludedOccurs(s[1..], needle);
      assert s[1..][j..j + |needle|] == s[j + 1..j + 1 + |needle|];
      i := j + 1;
    }
  }

  /** The scan finds `needle` exactly when it occurs at some position of `s`. */
  lemma IncludesIffOccurs(s: string, needle: string)
    ensures Includes(s, needle) <==> Occurs(s, needle)
  {
    if Includes(s, needle) {
      var i := IncludedOccurs(s, needle);
    }
    forall i | OccursAt(s, needle, i) ensures Includes(s, needle) {
      OccursIncluded(s, needle, i);
    }
  }

  /**
   * `s.length`: JavaScript counts UTF-16 code units, so a character outside
   * the Basic Multilingual Plane (from U+10000 on) counts two.
   */
  function Utf16Length(s: string): (n: nat)
    ensures |s| <= n <= 2 * |s|
    ensures n == 0 <==> s == []
    decreases |s|
  {
    if s == [] then 0
    else (if s[0] as int >= 0x10000 then 2 else 1) + Utf16Length(s[1..])
  }

  /** The length in code units equals the length in characters exactly when no character lies outside the BMP. */
  lemma {:induction false} Utf16LengthOfBmp(s: string)
    ensures Utf16Length(s) == |s| <==> forall i :: 0 <= i < |s| ==> s[i] as int < 0x10000
    decreases |s|
  {
    if s != [] {
      Utf16LengthOfBmp(s[1..]);
      assert forall i :: 1 <= i < |s| ==> s[1..][i - 1] == s[i];
    }
  }

  /** Two pill emoji are two characters but four UTF-16 code units. */
  lemma TwoPillsAreFourUnits()
    ensures |"\U{1F48A}\U{1F48A}"| == 2
    ensures Utf16Length("\U{1F48A}\U{1F48A}") == 4
  {
    var s := "\U{1F48A}\U{1F48A}";
    assert s[1..] == "\U{1F48A}";
    assert s[1..][1..] == "";
  }
}
