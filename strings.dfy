/**
 * The pieces of Go's `strings` and `strconv` packages that the gateway uses,
 * on strings as sequences of Unicode scalar values. Comparing scalar values
 * in order is the same as comparing their UTF-8 encodings byte by byte, so
 * `Less` below is Go's `<` on strings.
 */
module Strings {
  import opened Wrappers

  predicate HasPrefix(s: string, p: string) {
    |p| <= |s| && s[..|p|] == p
  }

  /** strings.HasSuffix */
  predicate HasSuffix(s: string, p: string) {
    |p| <= |s| && s[|s| - |p|..] == p
  }

  /** A path names a directory exactly when its last character is "/". */
  lemma SlashSuffix(s: string)
    ensures HasSuffix(s, "/") <==> |s| > 0 && s[|s| - 1] == '/'
  {
    if |s| > 0 && s[|s| - 1] == '/' {
      assert s[|s| - 1..] == "/";
    }
  }

  /** strings.TrimPrefix: drops `p` once from the front of `s`, if it is there. */
  function TrimPrefix(s: string, p: string): (r: string)
    ensures HasPrefix(s, p) ==> p + r == s
    ensures !HasPrefix(s, p) ==> r == s
  {
    if HasPrefix(s, p) then s[|p|..] else s
  }

  /** strings.LastIndex with a one-character separator: -1 when `c` does not occur. */
  function LastIndex(s: string, c: char): (r: int)
    ensures -1 <= r < |s|
    ensures r >= 0 ==> s[r] == c
    ensures forall k :: r < k < |s| ==> s[k] != c
  {
    if |s| == 0 then -1
    else if s[|s| - 1] == c then |s| - 1
    else LastIndex(s[..|s| - 1], c)
  }

  /** `sub` occurs in `s` starting at position `j`. */
  predicate OccursAt(s: string, sub: string, j: nat) {
    j + |sub| <= |s| && s[j..j + |sub|] == sub
  }

  /** The leftmost occurrence of `sub` in `s` at or after `i`. */
  function IndexFrom(s: string, sub: string, i: nat): (r: Option<nat>)
    ensures r.Some? ==> i <= r.value && OccursAt(s, sub, r.value)
    ensures r.Some? ==> forall j :: i <= j < r.value ==> !OccursAt(s, sub, j)
    ensures r.None? ==> forall j :: i <= j ==> !OccursAt(s, sub, j)
    decreases |s| - i
  {
    if |s| < i + |sub| then None
    else if OccursAt(s, sub, i) then Some(i)
    else IndexFrom(s, sub, i + 1)
  }

  /** strings.Index: the leftmost occurrence; the empty string occurs at 0. */
  function IndexOf(s: string, sub: string): (r: Option<nat>)
    ensures r.Some? ==> OccursAt(s, sub, r.value)
    ensures r.Some? ==> forall j :: 0 <= j < r.value ==> !OccursAt(s, sub, j)
    ensures r.None? <==> forall j :: !OccursAt(s, sub, j)
  {
    IndexFrom(s, sub, 0)
  }

  /**
   * strings.Replace(s, target, replacement, 1). With no occurrence the text is
   * unchanged; otherwise exactly the first occurrence is replaced and the
   * text before and after it is kept. An empty target occurs at 0, so Go then
   * puts the replacement in front of `s`.
   */
  function ReplaceFirst(s: string, target: string, replacement: string): (r: string)
    ensures (forall j: nat :: !OccursAt(s, target, j)) ==> r == s
    ensures forall j: nat :: OccursAt(s, target, j) && (forall k: nat :: 0 <= k < j ==> !OccursAt(s, target, k)) ==>
      r == s[..j] + replacement + s[j + |target|..]
  {
    match IndexOf(s, target)
    case None => s
    case Some(j) => s[..j] + replacement + s[j + |target|..]
  }

  /** Go's shortcut for `target == replacement` returns `s`; the general case agrees. */
  lemma ReplaceFirstSelf(s: string, target: string)
    ensures ReplaceFirst(s, target, target) == s
  {
    match IndexOf(s, target)
    case None =>
    case Some(j) =>
      assert s[j..j + |target|] == target;
      assert s[..j] + s[j..j + |target|] + s[j + |target|..] == s;
  }

  /** The leftmost occurrence at `i` is the one replaced. */
  lemma ReplaceFirstAt(s: string, target: string, replacement: string, i: nat)
    requires OccursAt(s, target, i)
    requires forall k: nat :: k < i ==> !OccursAt(s, target, k)
    ensures ReplaceFirst(s, target, replacement) == s[..i] + replacement + s[i + |target|..]
  {
  }

  /** An occurrence inside `s` means a replacement in `s + tail` leaves `tail` untouched. */
  lemma ReplaceFirstKeepsTail(s: string, tail: string, target: string, replacement: string, p: nat)
    requires OccursAt(s + tail, target, p) && p + |target| <= |s|
    ensures HasSuffix(ReplaceFirst(s + tail, target, replacement), tail)
  {
    var t := s + tail;
    var j := IndexOf(t, target).value;
    assert j <= p;
    var r := ReplaceFirst(t, target, replacement);
    assert r == t[..j] + replacement + t[j + |target|..];
    assert t[j + |target|..] == t[j + |target|..|s|] + tail;
    assert r == (t[..j] + replacement + t[j + |target|..|s|]) + tail;
  }

  /** Go's `a < b` on strings: byte-lexicographic order. */
  predicate Less(a: string, b: string)
    decreases |a|
  {
    if |a| == 0 then |b| > 0
    else if |b| == 0 then false
    else if a[0] != b[0] then a[0] < b[0]
    else Less(a[1..], b[1..])
  }

  /** `a` does not sort after `b`. */
  predicate NotAfter(a: string, b: string) {
    !Less(b, a)
  }

  lemma {:induction false} LessIrreflexive(a: string)
    ensures !Less(a, a)
    decreases |a|
  {
    if |a| > 0 {
      LessIrreflexive(a[1..]);
    }
  }

  lemma {:induction false} LessTransitive(a: string, b: string, c: string)
    requires Less(a, b) && Less(b, c)
    ensures Less(a, c)
    decreases |a|
  {
    if |a| > 0 && a[0] == b[0] && b[0] == c[0] {
      LessTransitive(a[1..], b[1..], c[1..]);
    }
  }

  lemma {:induction false} LessTotal(a: string, b: string)
    ensures a == b || Less(a, b) || Less(b, a)
    decreases |a|
  {
    if |a| > 0 && |b| > 0 && a[0] == b[0] {
      LessTotal(a[1..], b[1..]);
      if a[1..] == b[1..] {
        assert a == [a[0]] + a[1..] && b == [b[0]] + b[1..];
      }
    }
  }

  lemma LessAsymmetric(a: string, b: string)
    requires Less(a, b)
    ensures !Less(b, a)
  {
    if Less(b, a) {
      LessTransitive(a, b, a);
      LessIrreflexive(a);
    }
  }

  lemma NotAfterTransitive(a: string, b: string, c: string)
    requires NotAfter(a, b) && NotAfter(b, c)
    ensures NotAfter(a, c)
  {
    if Less(c, a) {
      LessTotal(a, b);
      LessTotal(b, c);
      if a == b {
        LessIrreflexive(c);
        if b != c { LessTransitive(b, c, b); LessIrreflexive(b); }
      } else if b == c {
        LessTransitive(a, b, a);
        LessIrreflexive(a);
      } else {
        LessTransitive(a, b, c);
        LessTransitive(c, a, c);
        LessIrreflexive(c);
      }
    }
  }

  lemma NotAfterTotal(a: string, b: string)
    ensures NotAfter(a, b) || NotAfter(b, a)
  {
    LessTotal(a, b);
    if a == b { LessIrreflexive(a); }
    else if Less(a, b) { if Less(b, a) { LessTransitive(a, b, a); LessIrreflexive(a); } }
  }

  /** The decimal digits of `n`, most significant first, without leading zeros. */
  predicate AllDigits(s: string) {
    forall k :: 0 <= k < |s| ==> '0' <= s[k] <= '9'
  }

  function Digits(n: nat): (r: string)
    ensures |r| > 0 && AllDigits(r)
  {
    if n < 10 then [(n + 48) as char] else Digits(n / 10) + [(n % 10 + 48) as char]
  }

  /** fmt's `%d` (strconv.FormatInt base 10). */
  function DecimalString(n: int): (r: string)
    ensures |r| > 0 && (r[0] == '-' <==> n < 0)
  {
    if n < 0 then "-" + Digits(-n) else Digits(n)
  }

  /** The value of a string of decimal digits. */
  function DigitsValue(s: string): int
    requires AllDigits(s)
  {
    if |s| == 0 then 0 else 10 * DigitsValue(s[..|s| - 1]) + (s[|s| - 1] as int - 48)
  }

  /** strconv.ParseInt base 10 on what DecimalString produces. */
  function ParseDecimal(s: string): Option<int> {
    if |s| > 1 && s[0] == '-' && AllDigits(s[1..]) then
      Some(-DigitsValue(s[1..]))
    else if |s| > 0 && AllDigits(s) then
      Some(DigitsValue(s))
    else
      None
  }

  lemma {:induction false} DigitsRoundTrip(n: nat)
    ensures DigitsValue(Digits(n)) == n
  {
    if n >= 10 {
      DigitsRoundTrip(n / 10);
      var d := Digits(n / 10) + [(n % 10 + 48) as char];
      assert d[..|d| - 1] == Digits(n / 10);
    }
  }

  /** `%d` loses nothing: the text parses back to the number. */
  lemma DecimalRoundTrip(n: int)
    ensures ParseDecimal(DecimalString(n)) == Some(n)
  {
    var s := DecimalString(n);
    if n < 0 {
      DigitsRoundTrip(-n);
      assert s[0] == '-' && s[1..] == Digits(-n);
      assert ParseDecimal(s) == Some(-DigitsValue(Digits(-n)));
    } else {
      DigitsRoundTrip(n);
      assert s[0] != '-';
      assert ParseDecimal(s) == Some(DigitsValue(s));
    }
  }
}
