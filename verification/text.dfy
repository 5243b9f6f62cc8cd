/** The handful of JavaScript string primitives the route relies on: the whitespace class
    shared by the regular-expression escape `\s` and `String.prototype.trim`, `trim`
    itself, `indexOf`/`lastIndexOf`, `startsWith`, the second field of `split(',')`,
    and the decimal rendering of an integer. */
module Text {
  import opened Wrappers

  /** ECMAScript WhiteSpace and LineTerminator code points. `\s` matches exactly these
      and `trim()` removes exactly these. */
  predicate IsWs(c: char) {
    || c == ' ' || c == '\t' || c == '\n' || c == '\r' || c == '\U{000B}' || c == '\U{000C}'
    || c == '\U{00A0}' || c == '\U{1680}' || ('\U{2000}' <= c <= '\U{200A}')
    || c == '\U{2028}' || c == '\U{2029}' || c == '\U{202F}' || c == '\U{205F}'
    || c == '\U{3000}' || c == '\U{FEFF}'
  }

  /** Every character of `s[lo..hi]` is whitespace. */
  predicate WsBetween(s: string, lo: int, hi: int) {
    forall i :: lo <= i < hi && 0 <= i < |s| ==> IsWs(s[i])
  }

  /** Neither end of `s` is whitespace. */
  predicate IsTrimmed(s: string) {
    |s| == 0 || (!IsWs(s[0]) && !IsWs(s[|s| - 1]))
  }

  predicate StartsWith(s: string, prefix: string) {
    |prefix| <= |s| && s[..|prefix|] == prefix
  }

  /** Length of the longest all-whitespace prefix. */
  function LeadingWs(s: string): (n: nat)
    ensures n <= |s|
    ensures WsBetween(s, 0, n)
    ensures n < |s| ==> !IsWs(s[n])
  {
    if |s| > 0 && IsWs(s[0]) then 1 + LeadingWs(s[1..]) else 0
  }

  /** Length of the longest all-whitespace suffix. */
  function TrailingWs(s: string): (n: nat)
    ensures n <= |s|
    ensures WsBetween(s, |s| - n, |s|)
    ensures n < |s| ==> !IsWs(s[|s| - n - 1])
  {
    if |s| > 0 && IsWs(s[|s| - 1]) then 1 + TrailingWs(s[..|s| - 1]) else 0
  }

  /** `String.prototype.trim`: `s` without its leading and trailing whitespace. */
  function Trim(s: string): (r: string)
    ensures IsTrimmed(r)
    ensures |r| <= |s|
  {
    var a := LeadingWs(s);
    if a == |s| then ""
    else
      var b := TrailingWs(s[a..]);
      s[a..|s| - b]
  }

  /** Trim is the unique way of splitting `s` into whitespace, a trimmed core and
      whitespace: whatever such split is given, Trim returns its core. */
  lemma TrimUnique(s: string, a: nat, b: nat)
    requires a <= b <= |s|
    requires WsBetween(s, 0, a) && WsBetween(s, b, |s|)
    requires IsTrimmed(s[a..b])
    ensures Trim(s) == s[a..b]
  {
    var la := LeadingWs(s);
    if a < b {
      assert s[a..b][0] == s[a] && s[a..b][b - a - 1] == s[b - 1];
      assert la == a;
      var t := s[a..];
      var lb := TrailingWs(t);
      assert WsBetween(s, |s| - lb, |s|) by {
        forall i | |s| - lb <= i < |s| ensures IsWs(s[i]) { assert t[i - a] == s[i]; }
      }
      assert |s| - lb < |s| ==> !IsWs(s[|s| - lb - 1]) by {
        if |s| - lb - 1 >= a { assert t[|t| - lb - 1] == s[|s| - lb - 1]; }
      }
      assert |s| - lb == b;
    }
  }

  /** Trimming twice changes nothing: the route's final `trim()` of an already trimmed
      capture is the identity. */
  lemma TrimIdempotent(s: string)
    ensures Trim(Trim(s)) == Trim(s)
  {
    var t := Trim(s);
    assert t[0..|t|] == t;
    TrimUnique(t, 0, |t|);
  }

  /** `pat` occurs in `s` starting at index `k`. */
  predicate OccursAt(s: string, pat: string, k: int) {
    0 <= k && k + |pat| <= |s| && s[k..k + |pat|] == pat
  }

  /** An occurrence begins with the pattern's first character. */
  lemma OccursAtHead(s: string, pat: string, k: int)
    requires |pat| > 0
    ensures OccursAt(s, pat, k) ==> s[k] == pat[0]
  {
    if OccursAt(s, pat, k) { assert s[k..k + |pat|][0] == s[k]; }
  }

  /** `k` is the first occurrence of `pat` in `s` at or after `from`. */
  predicate IsFirstOccurrence(s: string, pat: string, from: nat, k: nat) {
    from <= k && OccursAt(s, pat, k) && forall j :: from <= j < k ==> !OccursAt(s, pat, j)
  }

  /** `s.indexOf(pat, from)`, with `None` for -1. */
  function FindFrom(s: string, pat: string, from: nat): (r: Option<nat>)
    decreases |s| - from
    ensures r.Some? ==> IsFirstOccurrence(s, pat, from, r.value)
    ensures r.None? ==> forall k :: from <= k ==> !OccursAt(s, pat, k)
  {
    if from + |pat| > |s| then None
    else if s[from..from + |pat|] == pat then Some(from)
    else FindFrom(s, pat, from + 1)
  }

  /** `s.indexOf(c)`, with `None` for -1. */
  function IndexOf(s: string, c: char): (r: Option<nat>)
    ensures r.None? <==> c !in s
    ensures r.Some? ==> r.value < |s| && s[r.value] == c
    ensures r.Some? ==> forall k :: 0 <= k < r.value ==> s[k] != c
  {
    if |s| == 0 then None
    else if s[0] == c then Some(0)
    else match IndexOf(s[1..], c)
      case None => None
      case Some(i) => Some(i + 1)
  }

  /** `s.lastIndexOf(c)`, with `None` for -1. */
  function LastIndexOf(s: string, c: char): (r: Option<nat>)
    ensures r.None? <==> c !in s
    ensures r.Some? ==> r.value < |s| && s[r.value] == c
    ensures r.Some? ==> forall k :: r.value < k < |s| ==> s[k] != c
  {
    if |s| == 0 then None
    else if s[|s| - 1] == c then Some(|s| - 1)
    else
      var init := s[..|s| - 1];
      assert s == init + [s[|s| - 1]];
      LastIndexOf(init, c)
  }

  /** `seg` is the piece of `s` that follows the first comma, at `i`, up to the next
      comma or the end. */
  predicate SegmentAt(s: string, i: int, seg: string) {
    && 0 <= i < |s| && s[i] == ',' && (forall k :: 0 <= k < i ==> s[k] != ',')
    && i + 1 + |seg| <= |s| && s[i + 1..i + 1 + |seg|] == seg
    && (i + 1 + |seg| == |s| || s[i + 1 + |seg|] == ',')
  }

  /** `s.split(',')[1]`: the text between the first and the second comma (or the end
      of `s`), `None` when `s` has no comma. */
  function SecondSegment(s: string): (r: Option<string>)
    ensures r.None? <==> ',' !in s
    ensures r.Some? ==> ',' !in r.value
    ensures r.Some? ==> exists i :: SegmentAt(s, i, r.value)
  {
    match IndexOf(s, ',')
    case None => None
    case Some(i) =>
      var rest := s[i + 1..];
      match IndexOf(rest, ',')
      case None =>
        assert s[i + 1..i + 1 + |rest|] == rest;
        assert SegmentAt(s, i, rest);
        Some(rest)
      case Some(j) =>
        assert s[i + 1..i + 1 + j] == rest[..j];
        assert s[i + 1 + j] == rest[j];
        assert SegmentAt(s, i, rest[..j]);
        Some(rest[..j])
  }

  function DigitChar(d: nat): char
    requires d < 10
  {
    "0123456789"[d]
  }

  /** Decimal digits of `n`, as `String(n)` prints a non-negative integer. */
  function NatText(n: nat): (r: string)
    ensures |r| > 0
    ensures forall i :: 0 <= i < |r| ==> '0' <= r[i] <= '9'
  {
    if n < 10 then [DigitChar(n)] else NatText(n / 10) + [DigitChar(n % 10)]
  }

  /** `String(n)` for an integer-valued number below 10^21 in magnitude. */
  function IntText(n: int): (r: string)
    ensures |r| > 0
    ensures r[0] == '-' <==> n < 0
  {
    if n < 0 then "-" + NatText(-n) else NatText(n)
  }
}
