/**
 * String comparison under .NET's StringComparison.OrdinalIgnoreCase:
 * two strings are equal when they have the same length and their
 * characters agree after upper-casing each one, code unit by code unit.
 */
module OrdinalIgnoreCase {

  /** Upper-case mapping of one character (ASCII letters; other characters map to themselves). */
  function Upper(c: char): char
  {
    if 'a' <= c <= 'z' then (c as int - 32) as char else c
  }

  predicate EqualsIgnoreCase(a: string, b: string)
  {
    |a| == |b| && forall i :: 0 <= i < |a| ==> Upper(a[i]) == Upper(b[i])
  }

  predicate IsLowerAscii(t: string)
  {
    forall i :: 0 <= i < |t| ==> 'a' <= t[i] <= 'z'
  }

  /**
   * A string equals a lower-case ASCII word ignoring case exactly when it
   * has the word's length and each character is the word's letter in
   * lower or upper case.
   */
  lemma EqualsLowerWord(s: string, t: string)
    requires IsLowerAscii(t)
    ensures EqualsIgnoreCase(s, t) <==>
              |s| == |t| && forall i :: 0 <= i < |s| ==> s[i] == t[i] || s[i] == Upper(t[i])
  {
  }
}
