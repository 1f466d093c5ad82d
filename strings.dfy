/**
 * The string helpers of the class processor (classprocessor/util/Strings.java):
 * `capitalize` and `uncapitalize`, which change the case of the first character
 * only. Character case is modelled on the ASCII letters.
 */
module Strings {
  import opened Wrappers

  predicate IsUpperAscii(c: char) { 'A' <= c <= 'Z' }
  predicate IsLowerAscii(c: char) { 'a' <= c <= 'z' }

  /** Character.toUpperCase, restricted to the ASCII letters. */
  function ToUpper(c: char): (u: char)
    ensures !IsLowerAscii(u)
    ensures IsLowerAscii(c) <==> IsUpperAscii(u) && u != c
    ensures !IsLowerAscii(c) ==> u == c
  {
    if IsLowerAscii(c) then (c as int - 32) as char else c
  }

  /** Character.toLowerCase, restricted to the ASCII letters. */
  function ToLower(c: char): (l: char)
    ensures !IsUpperAscii(l)
    ensures IsUpperAscii(c) <==> IsLowerAscii(l) && l != c
    ensures !IsUpperAscii(c) ==> l == c
  {
    if IsUpperAscii(c) then (c as int + 32) as char else c
  }

  /** An empty string stays empty; otherwise only the first character is upper-cased. */
  function Capitalize(s: string): (r: string)
    ensures |r| == |s|
    ensures |s| > 0 ==> r[0] == ToUpper(s[0]) && r[1..] == s[1..]
  {
    if |s| == 0 then ""
    else if |s| == 1 then [ToUpper(s[0])]
    else [ToUpper(s[0])] + s[1..]
  }

  /** An empty string stays empty; otherwise only the first character is lower-cased. */
  function Uncapitalize(s: string): (r: string)
    ensures |r| == |s|
    ensures |s| > 0 ==> r[0] == ToLower(s[0]) && r[1..] == s[1..]
  {
    if |s| == 0 then ""
    else if |s| == 1 then [ToLower(s[0])]
    else [ToLower(s[0])] + s[1..]
  }

  /** Both helpers accept null and return null for it. */
  function CapitalizeOrNull(s: Option<string>): (r: Option<string>)
    ensures r.None? <==> s.None?
    ensures s.Some? ==> r.value == Capitalize(s.value)
  {
    match s
    case None => None
    case Some(v) => Some(Capitalize(v))
  }

  function UncapitalizeOrNull(s: Option<string>): (r: Option<string>)
    ensures r.None? <==> s.None?
    ensures s.Some? ==> r.value == Uncapitalize(s.value)
  {
    match s
    case None => None
    case Some(v) => Some(Uncapitalize(v))
  }

  /** Java's string conversion in `+`: a null reference is rendered as "null". */
  function StringOf(s: Option<string>): (r: string)
    ensures s.None? ==> r == "null"
    ensures s.Some? ==> r == s.value
  {
    match s
    case None => "null"
    case Some(v) => v
  }

  predicate StartsWith(s: string, prefix: string)
  {
    |prefix| <= |s| && s[..|prefix|] == prefix
  }

  /** A string starts with whatever it was built from. */
  lemma PrefixOfConcat(a: string, b: string)
    ensures StartsWith(a + b, a)
  {
    assert (a + b)[..|a|] == a;
  }

  /** One differing character rules a prefix out. */
  lemma NotPrefixAt(s: string, prefix: string, i: int)
    requires 0 <= i < |prefix| && i < |s| && s[i] != prefix[i]
    ensures !StartsWith(s, prefix)
  {
    if |prefix| <= |s| {
      assert s[..|prefix|][i] == s[i];
    }
  }

  lemma CapitalizeIdempotent(s: string)
    ensures Capitalize(Capitalize(s)) == Capitalize(s)
  {
  }

  lemma UncapitalizeIdempotent(s: string)
    ensures Uncapitalize(Uncapitalize(s)) == Uncapitalize(s)
  {
  }

  /** Upper-casing the first character loses nothing exactly when it was not already an upper-case letter. */
  lemma UncapitalizeCapitalize(s: string)
    ensures Uncapitalize(Capitalize(s)) == s <==> |s| == 0 || !IsUpperAscii(s[0])
  {
    if |s| > 0 {
      var r := Uncapitalize(Capitalize(s));
      assert r[0] == ToLower(ToUpper(s[0]));
      assert r[1..] == s[1..];
      if !IsUpperAscii(s[0]) {
        assert r == [r[0]] + r[1..];
        assert s == [s[0]] + s[1..];
      } else {
        assert r[0] != s[0];
      }
    }
  }

  /** The case just stated, for a name that starts with a lower-case letter. */
  lemma UncapitalizeCapitalizeLower(s: string)
    requires |s| > 0 && IsLowerAscii(s[0])
    ensures Uncapitalize(Capitalize(s)) == s
  {
    UncapitalizeCapitalize(s);
  }
}
