/** The pieces of Go's `strings`, `fmt` ("%d") and `unicode.IsSpace` that the
    gateway relies on, over Dafny strings (sequences of Unicode scalar values). */
module Strings {
  import opened Wrappers

  /** strings.HasPrefix(s, prefix) */
  predicate HasPrefix(s: string, prefix: string) {
    |prefix| <= |s| && s[..|prefix|] == prefix
  }

  /** strings.HasSuffix(s, suffix) */
  predicate HasSuffix(s: string, suffix: string) {
    |suffix| <= |s| && s[|s| - |suffix|..] == suffix
  }

  /** strings.TrimPrefix: removes one leading `prefix` if present. */
  function TrimPrefix(s: string, prefix: string): (r: string)
    ensures HasPrefix(s, prefix) ==> prefix + r == s
    ensures !HasPrefix(s, prefix) ==> r == s
  {
    if HasPrefix(s, prefix) then s[|prefix|..] else s
  }

  /** strings.TrimSuffix: removes one trailing `suffix` if present. */
  function TrimSuffix(s: string, suffix: string): (r: string)
    ensures HasSuffix(s, suffix) ==> r + suffix == s
    ensures !HasSuffix(s, suffix) ==> r == s
  {
    if HasSuffix(s, suffix) then s[..|s| - |suffix|] else s
  }

  /** strings.Contains: `sub` occurs somewhere in `s` (the empty string occurs everywhere). */
  predicate Contains(s: string, sub: string)
    decreases |s|
  {
    HasPrefix(s, sub) || (|s| > 0 && Contains(s[1..], sub))
  }

  /** The first index of `c` in `s`, as strings.IndexByte / IndexRune. */
  function IndexOf(s: string, c: char): (r: Option<nat>)
    ensures r.None? ==> c !in s
    ensures r.Some? ==> r.value < |s| && s[r.value] == c && c !in s[..r.value]
  {
    if |s| == 0 then None
    else if s[0] == c then Some(0)
    else match IndexOf(s[1..], c)
      case None => None
      case Some(i) =>
        assert s[..i + 1] == [s[0]] + s[1..][..i];
        Some(i + 1)
  }

  /** strings.Join(parts, sep) */
  function Join(parts: seq<string>, sep: string): string
  {
    if |parts| == 0 then ""
    else if |parts| == 1 then parts[0]
    else parts[0] + sep + Join(parts[1..], sep)
  }

  /** strings.Split(s, sep) for a one-character separator. Joining the
      pieces back with the separator gives `s` again, and no piece holds it. */
  function Split(s: string, sep: char): (parts: seq<string>)
    ensures |parts| >= 1
    ensures Join(parts, [sep]) == s
    ensures forall i :: 0 <= i < |parts| ==> sep !in parts[i]
    decreases |s|
  {
    match IndexOf(s, sep)
    case None => [s]
    case Some(i) =>
      var rest := Split(s[i + 1..], sep);
      assert s == s[..i] + [sep] + s[i + 1..];
      [s[..i]] + rest
  }

  /** strings.SplitN(s, sep, 2): at most two pieces, cut at the first `sep`. */
  function SplitN2(s: string, sep: char): (parts: seq<string>)
    ensures 1 <= |parts| <= 2
    ensures |parts| == 1 <==> sep !in s
    ensures |parts| == 1 ==> parts[0] == s
    ensures |parts| == 2 ==> s == parts[0] + [sep] + parts[1] && sep !in parts[0]
  {
    match IndexOf(s, sep)
    case None => [s]
    case Some(i) =>
      assert s == s[..i] + [sep] + s[i + 1..];
      [s[..i], s[i + 1..]]
  }

  /** SplitN2 cuts at the first separator, so a separator-free head comes back
      whole. */
  lemma SplitN2At(a: string, sep: char, b: string)
    requires sep !in a
    ensures SplitN2(a + [sep] + b, sep) == [a, b]
  {
    var s := a + [sep] + b;
    assert s[|a|] == sep;
    var i := IndexOf(s, sep).value;
    assert forall j :: 0 <= j < |a| ==> s[j] == a[j];
    assert i <= |a| by {
      assert s[..i] == s[..i];
      assert forall j :: 0 <= j < i ==> s[..i][j] == s[j];
    }
    assert s[..|a|] == a;
  }

  /** unicode.IsSpace: the Unicode White_Space characters Go treats as space. */
  predicate IsSpace(c: char) {
    c == ' ' || c == '\t' || c == '\n' || c == '\U{000B}' || c == '\U{000C}' || c == '\r'
    || c == '\U{0085}' || c == '\U{00A0}' || c == '\U{1680}'
    || ('\U{2000}' <= c <= '\U{200A}')
    || c == '\U{2028}' || c == '\U{2029}' || c == '\U{202F}' || c == '\U{205F}' || c == '\U{3000}'
  }

  /** The number of spaces at the start of `s`. */
  function LeadingSpaces(s: string): (n: nat)
    ensures n <= |s|
    ensures forall k :: 0 <= k < n ==> IsSpace(s[k])
    ensures n == |s| || !IsSpace(s[n])
    decreases |s|
  {
    if |s| > 0 && IsSpace(s[0]) then 1 + LeadingSpaces(s[1..]) else 0
  }

  /** The number of spaces at the end of `s`. */
  function TrailingSpaces(s: string): (n: nat)
    ensures n <= |s|
    ensures forall k :: |s| - n <= k < |s| ==> IsSpace(s[k])
    ensures n == |s| || !IsSpace(s[|s| - n - 1])
    decreases |s|
  {
    if |s| > 0 && IsSpace(s[|s| - 1]) then 1 + TrailingSpaces(s[..|s| - 1]) else 0
  }

  /** strings.TrimSpace: `s` with every leading and trailing space removed.
      What remains is the piece of `s` starting at the first non-space, which
      neither starts nor ends with a space; everything cut off is space. */
  function TrimSpace(s: string): (r: string)
    ensures var i := LeadingSpaces(s);
      && i + |r| <= |s| && r == s[i..i + |r|]
      && (forall k :: 0 <= k < i ==> IsSpace(s[k]))
      && (forall k :: i + |r| <= k < |s| ==> IsSpace(s[k]))
    ensures r == [] || (!IsSpace(r[0]) && !IsSpace(r[|r| - 1]))
  {
    var i := LeadingSpaces(s);
    var j := TrailingSpaces(s[i..]);
    assert forall k :: i + (|s| - i - j) <= k < |s| ==> s[k] == s[i..][k - i];
    s[i..|s| - j]
  }

  // ---- Decimal formatting, as fmt's "%d" ----

  predicate IsDigit(c: char) { '0' <= c <= '9' }

  function DigitChar(d: nat): (c: char)
    requires d < 10
    ensures IsDigit(c)
  {
    ((d + '0' as int) as char)
  }

  function DigitValue(c: char): nat
    requires IsDigit(c)
  {
    (c as int) - ('0' as int)
  }

  /** The decimal digits of `n`, most significant first, no leading zeros. */
  function NatToString(n: nat): (s: string)
    ensures 1 <= |s|
    ensures forall i :: 0 <= i < |s| ==> IsDigit(s[i])
    ensures |s| > 1 ==> s[0] != '0'
  {
    if n < 10 then [DigitChar(n)] else NatToString(n / 10) + [DigitChar(n % 10)]
  }

  /** "%d" of a Go int: a minus sign before the digits of a negative value. */
  function IntToString(i: int): string
  {
    if i < 0 then "-" + NatToString(-i) else NatToString(i)
  }

  /** The value of a string of decimal digits; the inverse of NatToString. */
  function ParseDecimal(s: string): nat
    requires forall i :: 0 <= i < |s| ==> IsDigit(s[i])
  {
    if s == [] then 0 else ParseDecimal(s[..|s| - 1]) * 10 + DigitValue(s[|s| - 1])
  }

  lemma {:induction false} ParseNatToString(n: nat)
    ensures ParseDecimal(NatToString(n)) == n
  {
    if n >= 10 {
      var s := NatToString(n);
      assert s[..|s| - 1] == NatToString(n / 10);
      ParseNatToString(n / 10);
    }
  }

  /** Distinct numbers print differently. */
  lemma NatToStringInjective(a: nat, b: nat)
    requires NatToString(a) == NatToString(b)
    ensures a == b
  {
    ParseNatToString(a);
    ParseNatToString(b);
  }

  lemma IntToStringInjective(a: int, b: int)
    requires IntToString(a) == IntToString(b)
    ensures a == b
  {
    var sa, sb := IntToString(a), IntToString(b);
    if a < 0 && b < 0 {
      assert sa[1..] == NatToString(-a) && sb[1..] == NatToString(-b);
      NatToStringInjective(-a, -b);
    } else if a >= 0 && b >= 0 {
      NatToStringInjective(a, b);
    }
  }
}
