/** Small shared vocabulary: an optional value, and the few string operations the
    configuration manager uses (ASCII lower-casing, prefix and suffix tests, the
    first index of a character, and the lexicographic order behind Swift's `<` on
    strings). */
module Common {

  /** Swift's `T?`. The members make it usable with `:-`. */
  datatype Option<+T> = None | Some(value: T) {
    predicate IsFailure() { None? }

    function PropagateFailure<U>(): Option<U>
      requires None?
    {
      None
    }

    function Extract(): T
      requires Some?
    {
      value
    }
  }

  /** The range of Swift's 64-bit `Int`. */
  const IntMin: int := -0x8000_0000_0000_0000
  const IntMax: int := 0x7FFF_FFFF_FFFF_FFFF

  /** `table[key] ?? fallback` for a Swift dictionary of strings. */
  function LookupOr(table: map<string, string>, key: string, fallback: string): (r: string)
    ensures key in table ==> r == table[key]
    ensures key !in table ==> r == fallback
  {
    if key in table then table[key] else fallback
  }

  // ---------------------------------------------------------------------------
  // Lower-casing (ASCII approximation of Swift's `lowercased()`)

  function LowerChar(c: char): char {
    if 'A' <= c <= 'Z' then (c as int + 32) as char else c
  }

  function ToLower(s: string): (r: string) {
    seq(|s|, i requires 0 <= i < |s| => LowerChar(s[i]))
  }

  /** Two strings that differ only in the case of their letters. */
  predicate EqualIgnoringCase(a: string, b: string) {
    |a| == |b| && forall i :: 0 <= i < |a| ==> LowerChar(a[i]) == LowerChar(b[i])
  }

  lemma EqualIgnoringCaseLowers(a: string, b: string)
    requires EqualIgnoringCase(a, b)
    ensures ToLower(a) == ToLower(b)
  {
    assert forall i :: 0 <= i < |a| ==> ToLower(a)[i] == ToLower(b)[i];
  }

  predicate NoUpperCase(s: string) {
    forall i :: 0 <= i < |s| ==> !('A' <= s[i] <= 'Z')
  }

  /** Lower-casing leaves a string without capitals unchanged. */
  lemma LowerCaseFixed(s: string)
    requires NoUpperCase(s)
    ensures ToLower(s) == s
  {
  }

  // ---------------------------------------------------------------------------
  // Prefixes, suffixes and the first occurrence of a character

  predicate HasPrefix(s: string, p: string) {
    |p| <= |s| && s[..|p|] == p
  }

  predicate HasSuffix(s: string, p: string) {
    |p| <= |s| && s[|s| - |p|..] == p
  }

  /** `s.firstIndex(of: c)`. */
  function FirstIndexOf(s: string, c: char): (r: Option<nat>)
    ensures r.None? <==> c !in s
    ensures r.Some? ==> r.value < |s| && s[r.value] == c && c !in s[..r.value]
  {
    if |s| == 0 then None
    else if s[0] == c then Some(0)
    else
      match FirstIndexOf(s[1..], c)
      case None => None
      case Some(i) =>
        assert s[1..][..i] == s[1..i + 1];
        Some(i + 1)
  }

  /** A key split at a `/` preceded by no other `/` splits at its first `/`. */
  lemma SplitAtFirstSlash(p: string, m: string)
    requires '/' !in p
    ensures FirstIndexOf(p + "/" + m, '/') == Some(|p|)
    ensures (p + "/" + m)[..|p|] == p && (p + "/" + m)[|p| + 1..] == m
  {
    var key := p + "/" + m;
    assert key[..|p|] == p;
    assert key[|p|] == '/';
    assert key[|p| + 1..] == m;
  }

  /** Such a split is unique. */
  lemma SplitIsUnique(p1: string, m1: string, p2: string, m2: string)
    requires '/' !in p1 && '/' !in p2 && p1 + "/" + m1 == p2 + "/" + m2
    ensures p1 == p2 && m1 == m2
  {
    SplitAtFirstSlash(p1, m1);
    SplitAtFirstSlash(p2, m2);
  }

  // ---------------------------------------------------------------------------
  // Lexicographic order on strings (Swift's `<`, approximated on characters)

  predicate Less(a: string, b: string) {
    if |a| == 0 then |b| > 0
    else if |b| == 0 then false
    else if a[0] != b[0] then a[0] < b[0]
    else Less(a[1..], b[1..])
  }

  /** `!(b < a)`: `a` may stand before `b` in a non-decreasing sequence. */
  predicate NotAfter(a: string, b: string) {
    !Less(b, a)
  }

  lemma {:induction false} LessIrreflexive(a: string)
    ensures !Less(a, a)
  {
    if |a| > 0 {
      LessIrreflexive(a[1..]);
    }
  }

  lemma {:induction false} LessTransitive(a: string, b: string, c: string)
    requires Less(a, b) && Less(b, c)
    ensures Less(a, c)
  {
    if |a| > 0 && |b| > 0 && |c| > 0 && a[0] == b[0] && b[0] == c[0] {
      LessTransitive(a[1..], b[1..], c[1..]);
    }
  }

  lemma {:induction false} LessTotal(a: string, b: string)
    requires a != b
    ensures Less(a, b) || Less(b, a)
  {
    if |a| > 0 && |b| > 0 && a[0] == b[0] {
      assert a == [a[0]] + a[1..] && b == [b[0]] + b[1..];
      LessTotal(a[1..], b[1..]);
    }
  }

  lemma NotAfterTransitive(a: string, b: string, c: string)
    requires NotAfter(a, b) && NotAfter(b, c)
    ensures NotAfter(a, c)
  {
    if Less(c, a) && a != b {
      LessTotal(a, b);
      if Less(a, b) {
        LessTransitive(c, a, b);
      }
    }
  }

  lemma NotAfterWhenLess(a: string, b: string)
    requires Less(a, b)
    ensures NotAfter(a, b)
  {
    if Less(b, a) {
      LessTransitive(a, b, a);
      LessIrreflexive(a);
    }
  }

  lemma NotAfterAntisymmetric(a: string, b: string)
    requires NotAfter(a, b) && NotAfter(b, a)
    ensures a == b
  {
    if a != b {
      LessTotal(a, b);
    }
  }

  lemma NotAfterTotal(a: string, b: string)
    ensures NotAfter(a, b) || NotAfter(b, a)
  {
    if a == b {
      LessIrreflexive(a);
    } else {
      LessTotal(a, b);
      if Less(a, b) { NotAfterWhenLess(a, b); } else { NotAfterWhenLess(b, a); }
    }
  }
}
