/** Strings as the UI code compares them: ordinal equality, invariant lower-casing
    and ordinal case-insensitive substring search. Case folding covers ASCII letters
    only. */
module Text {

  /** `char.ToLowerInvariant` restricted to ASCII letters. */
  function LowerChar(c: char): (r: char)
    ensures 'A' <= c <= 'Z' ==> r as int == c as int + 32
    ensures !('A' <= c <= 'Z') ==> r == c
  {
    if 'A' <= c <= 'Z' then (c as int + 32) as char else c
  }

  /** `char.ToUpperInvariant` restricted to ASCII letters. */
  function UpperChar(c: char): (r: char)
    ensures 'a' <= c <= 'z' ==> r as int == c as int - 32
    ensures !('a' <= c <= 'z') ==> r == c
  {
    if 'a' <= c <= 'z' then (c as int - 32) as char else c
  }

  /** `string.ToLowerInvariant`. */
  function ToLower(s: string): (r: string)
    ensures |r| == |s|
    ensures forall i :: 0 <= i < |s| ==> r[i] == LowerChar(s[i])
  {
    seq(|s|, i requires 0 <= i < |s| => LowerChar(s[i]))
  }

  /** `string.ToUpperInvariant`, used for ordinal case-insensitive ordering. */
  function ToUpper(s: string): (r: string)
    ensures |r| == |s|
    ensures forall i :: 0 <= i < |s| ==> r[i] == UpperChar(s[i])
  {
    seq(|s|, i requires 0 <= i < |s| => UpperChar(s[i]))
  }

  /** Ordinal `string.Contains`: `sub` occurs at some offset of `s`. */
  predicate Contains(s: string, sub: string)
  {
    exists k: nat :: k <= |s| && OccursAt(s, sub, k)
  }

  /** `sub` occurs in `s` starting at offset `k`. */
  predicate OccursAt(s: string, sub: string, k: nat)
  {
    k + |sub| <= |s| && s[k..k + |sub|] == sub
  }

  /** `s.Contains(sub, StringComparison.OrdinalIgnoreCase)`. */
  function ContainsIgnoreCase(s: string, sub: string): bool
  {
    Contains(ToLower(s), ToLower(sub))
  }

  /** `string.Equals(a, b, StringComparison.OrdinalIgnoreCase)`. */
  predicate EqualsIgnoreCase(a: string, b: string)
  {
    ToLower(a) == ToLower(b)
  }

  /** `char.IsWhiteSpace`: the Unicode space separators, line and paragraph
      separators, and the control characters U+0009-U+000D and U+0085. */
  predicate IsWhiteSpace(c: char)
  {
    c == ' ' || ('\t' <= c <= '\r') || c == '\U{0085}' || c == '\U{00A0}' || c == '\U{1680}'
    || ('\U{2000}' <= c <= '\U{200A}') || c == '\U{2028}' || c == '\U{2029}' || c == '\U{202F}'
    || c == '\U{205F}' || c == '\U{3000}'
  }

  /** `string.IsNullOrWhiteSpace` for a non-null string. */
  predicate IsBlank(s: string)
  {
    forall i :: 0 <= i < |s| ==> IsWhiteSpace(s[i])
  }

  /** The empty string occurs in every string. */
  lemma {:induction false} ContainsEmpty(s: string)
    ensures Contains(s, "")
  {
    assert OccursAt(s, "", 0);
  }

  /** An occurrence at offset `k` makes `Contains` true. */
  lemma {:induction false} ContainsAt(s: string, sub: string, k: nat)
    requires k + |sub| <= |s| && s[k..k + |sub|] == sub
    ensures Contains(s, sub)
  {
    assert OccursAt(s, sub, k);
  }

  /** If `s` contains `sub`, every character of `sub` occurs in `s`. */
  lemma {:induction false} ContainsChars(s: string, sub: string)
    requires Contains(s, sub)
    ensures forall c :: c in sub ==> c in s
  {
    var k: nat :| k <= |s| && OccursAt(s, sub, k);
    assert k + |sub| <= |s| && s[k..k + |sub|] == sub;
    forall c | c in sub ensures c in s {
      var j :| 0 <= j < |sub| && sub[j] == c;
      assert s[k + j] == s[k..k + |sub|][j];
    }
  }

  /** A character missing from `s` rules out every substring that uses it. */
  lemma {:induction false} MissingChar(s: string, sub: string, c: char)
    requires c in sub && c !in s
    ensures !Contains(s, sub)
  {
    if Contains(s, sub) {
      ContainsChars(s, sub);
    }
  }

  /** Lower-casing is idempotent. */
  lemma {:induction false} ToLowerIdempotent(s: string)
    ensures ToLower(ToLower(s)) == ToLower(s)
  {
    var l := ToLower(s);
    assert forall i :: 0 <= i < |s| ==> ToLower(l)[i] == l[i];
  }

  /** Lower-casing forgets an earlier upper-casing. */
  lemma {:induction false} LowerOfUpper(s: string)
    ensures ToLower(ToUpper(s)) == ToLower(s)
  {
    var u := ToUpper(s);
    assert forall i :: 0 <= i < |s| ==> ToLower(u)[i] == LowerChar(UpperChar(s[i]));
  }

  /** Case-insensitive search does not depend on the case of either argument. */
  lemma {:induction false} ContainsIgnoreCaseFolds(s: string, sub: string)
    ensures ContainsIgnoreCase(ToLower(s), sub) == ContainsIgnoreCase(s, sub)
    ensures ContainsIgnoreCase(s, ToLower(sub)) == ContainsIgnoreCase(s, sub)
  {
    ToLowerIdempotent(s);
    ToLowerIdempotent(sub);
  }
}
