/** The two pieces of string handling the booking core relies on:
    `java.lang.String.trim()` and the JPQL `upper()` function. */
module JavaText {

  /** `String.trim()` removes every character whose code is at most U+0020. */
  predicate IsTrimmed(c: char) {
    c <= ' '
  }

  /** The position of the first character `trim()` keeps: every character
      before it is trimmable, the one at it (if any) is not. */
  function KeptStart(s: string): (lo: nat)
    ensures lo <= |s|
    ensures forall j :: 0 <= j < lo ==> IsTrimmed(s[j])
    ensures lo < |s| ==> !IsTrimmed(s[lo])
  {
    if s == [] || !IsTrimmed(s[0]) then 0 else 1 + KeptStart(s[1..])
  }

  /** Moving `hi` down past trimmable characters, never below `lo`: the end of
      the part `trim()` keeps. */
  function KeptEnd(s: string, lo: nat, hi: nat): (end: nat)
    requires lo <= hi <= |s|
    ensures lo <= end <= hi
    ensures forall j :: end <= j < hi ==> IsTrimmed(s[j])
    ensures end > lo ==> !IsTrimmed(s[end - 1])
    decreases hi
  {
    if hi > lo && IsTrimmed(s[hi - 1]) then KeptEnd(s, lo, hi - 1) else hi
  }

  /** `String.trim()`: the characters between the first and the last one that
      is not trimmable. */
  function Trim(s: string): (r: string)
    ensures |r| <= |s|
    ensures r == [] || (!IsTrimmed(r[0]) && !IsTrimmed(r[|r| - 1]))
  {
    var lo := KeptStart(s);
    s[lo..KeptEnd(s, lo, |s|)]
  }

  /** What `trim()` keeps is an infix of the string, and everything it cuts off
      on either side is trimmable. */
  lemma TrimKeepsInfix(s: string)
    ensures var lo := KeptStart(s); var r := Trim(s);
      && lo + |r| <= |s|
      && r == s[lo..lo + |r|]
      && (forall j :: 0 <= j < lo ==> IsTrimmed(s[j]))
      && (forall j :: lo + |r| <= j < |s| ==> IsTrimmed(s[j]))
  {
  }

  /** A string is left alone by `trim()` exactly when its ends are not trimmable. */
  lemma TrimFixedPoint(s: string)
    ensures Trim(s) == s <==> (s == [] || (!IsTrimmed(s[0]) && !IsTrimmed(s[|s| - 1])))
  {
    if s != [] && !IsTrimmed(s[0]) && !IsTrimmed(s[|s| - 1]) {
      assert KeptStart(s) == 0;
      assert KeptEnd(s, 0, |s|) == |s|;
    }
  }

  /** Trimming twice is trimming once. */
  lemma TrimIdempotent(s: string)
    ensures Trim(Trim(s)) == Trim(s)
  {
    TrimFixedPoint(Trim(s));
  }

  /** ASCII upper-casing of one character (the JPQL `upper()` restricted to ASCII). */
  function UpperChar(c: char): char {
    if 'a' <= c <= 'z' then (c as int - 32) as char else c
  }

  /** JPQL `upper()`: every lower-case ASCII letter replaced by its capital,
      every other character kept. */
  function Upper(s: string): (r: string)
    ensures |r| == |s|
    ensures forall i :: 0 <= i < |r| ==> !('a' <= r[i] <= 'z')
    ensures forall i :: 0 <= i < |r| && 'a' <= s[i] <= 'z' ==> r[i] as int == s[i] as int - 32
    ensures forall i :: 0 <= i < |r| && !('a' <= s[i] <= 'z') ==> r[i] == s[i]
  {
    seq(|s|, i requires 0 <= i < |s| => UpperChar(s[i]))
  }

  lemma UpperIdempotent(s: string)
    ensures Upper(Upper(s)) == Upper(s)
  {
  }

  /** The two characters are equal, or one is a lower-case ASCII letter and the
      other its capital. */
  predicate AsciiCaseVariant(a: char, b: char) {
    || a == b
    || ('a' <= a <= 'z' && b as int == a as int - 32)
    || ('a' <= b <= 'z' && a as int == b as int - 32)
  }

  /** The strings have the same length and agree position by position up to
      ASCII case. */
  predicate SameIgnoringAsciiCase(x: string, y: string) {
    |x| == |y| && forall i :: 0 <= i < |x| ==> AsciiCaseVariant(x[i], y[i])
  }

  lemma UpperCharEqual(a: char, b: char)
    ensures UpperChar(a) == UpperChar(b) <==> AsciiCaseVariant(a, b)
  {
  }

  /** Comparing through `upper()` identifies exactly the strings that differ
      only in the case of ASCII letters: "Bauer" matches "BAUER" and "bauer",
      and no other string of letters such as "Palmer". */
  lemma {:induction false} UpperEqualIff(x: string, y: string)
    ensures Upper(x) == Upper(y) <==> SameIgnoringAsciiCase(x, y)
  {
    if Upper(x) == Upper(y) {
      forall i | 0 <= i < |x|
        ensures AsciiCaseVariant(x[i], y[i])
      {
        assert Upper(x)[i] == Upper(y)[i];
        UpperCharEqual(x[i], y[i]);
      }
    }
    if SameIgnoringAsciiCase(x, y) {
      forall i | 0 <= i < |x|
        ensures Upper(x)[i] == Upper(y)[i]
      {
        UpperCharEqual(x[i], y[i]);
      }
    }
  }
}
