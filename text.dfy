/**
 * The Python `str` operations the core relies on: whitespace stripping, `lower`,
 * `startswith`, `split(None, n)`, `rsplit(':', 1)`, and `str(int)` / `int(str)`.
 * Strings are sequences of code points.
 */
module Text {
  import opened Wrappers

  /** Python's `str.isspace` for a single code point (the characters `str.split()` and `str.strip()` remove). */
  predicate IsSpace(c: char) {
    var n := c as int;
    || 9 <= n <= 13 || 28 <= n <= 32 || n == 0x85 || n == 0xA0 || n == 0x1680
    || 0x2000 <= n <= 0x200A || n == 0x2028 || n == 0x2029 || n == 0x202F
    || n == 0x205F || n == 0x3000
  }

  predicate NoSpace(s: string) {
    forall k :: 0 <= k < |s| ==> !IsSpace(s[k])
  }

  /** The number of leading whitespace characters. */
  function LeadingSpace(s: string): (n: nat)
    ensures n <= |s| && (n == |s| || !IsSpace(s[n]))
    ensures forall k :: 0 <= k < n ==> IsSpace(s[k])
  {
    if |s| > 0 && IsSpace(s[0]) then 1 + LeadingSpace(s[1..]) else 0
  }

  /** `s.lstrip()`: drop leading whitespace. */
  function LStrip(s: string): (r: string)
    ensures |r| <= |s| && r == s[|s| - |r|..]
    ensures |r| == 0 || !IsSpace(r[0])
    ensures forall k :: 0 <= k < |s| - |r| ==> IsSpace(s[k])
  {
    s[LeadingSpace(s)..]
  }

  /** `lstrip` leaves a string alone that does not start with whitespace. */
  lemma LStripNoLeadingSpace(s: string)
    requires |s| == 0 || !IsSpace(s[0])
    ensures LStrip(s) == s
  {
    assert LeadingSpace(s) == 0;
  }

  /** `s.rstrip()`: drop trailing whitespace. */
  function RStrip(s: string): (r: string)
    ensures |r| <= |s| && r == s[..|r|]
    ensures |r| == 0 || !IsSpace(r[|r| - 1])
    ensures forall k :: |r| <= k < |s| ==> IsSpace(s[k])
  {
    if |s| > 0 && IsSpace(s[|s| - 1]) then RStrip(s[..|s| - 1]) else s
  }

  /** Where the text kept by `s.strip()` begins. */
  function StripStart(s: string): (i: nat)
    ensures i <= |s|
  {
    |s| - |LStrip(s)|
  }

  /**
   * `s.strip()`: the slice of `s` that starts at `StripStart(s)`, neither starts
   * nor ends with whitespace, and has only whitespace around it.
   */
  function Strip(s: string): (r: string)
    ensures StripStart(s) + |r| <= |s| && r == s[StripStart(s)..StripStart(s) + |r|]
    ensures |r| == 0 || (!IsSpace(r[0]) && !IsSpace(r[|r| - 1]))
    ensures forall k :: 0 <= k < StripStart(s) ==> IsSpace(s[k])
    ensures forall k :: StripStart(s) + |r| <= k < |s| ==> IsSpace(s[k])
    ensures NoSpace(s) ==> r == s
  {
    var t := LStrip(s);
    var r := RStrip(t);
    assert r == s[|s| - |t|..|s| - |t| + |r|];
    assert forall k :: |s| - |t| + |r| <= k < |s| ==> s[k] == t[k - (|s| - |t|)];
    r
  }

  /** `strip` leaves a string alone that neither starts nor ends with whitespace. */
  lemma StripKeepsTrimmed(s: string)
    requires |s| > 0 && !IsSpace(s[0]) && !IsSpace(s[|s| - 1])
    ensures Strip(s) == s
  {
    LStripNoLeadingSpace(s);
  }

  /** Python's `lower` restricted to ASCII letters. */
  function LowerChar(c: char): (d: char)
    ensures 'A' <= c <= 'Z' ==> d as int == c as int + 32
    ensures !('A' <= c <= 'Z') ==> d == c
  {
    if 'A' <= c <= 'Z' then (c as int + 32) as char else c
  }

  function Lower(s: string): (r: string)
    ensures |r| == |s|
    ensures forall k :: 0 <= k < |s| ==> r[k] == LowerChar(s[k])
  {
    seq(|s|, k requires 0 <= k < |s| => LowerChar(s[k]))
  }

  predicate StartsWith(s: string, prefix: string) {
    |prefix| <= |s| && s[..|prefix|] == prefix
  }

  predicate EndsWith(s: string, suffix: string) {
    |suffix| <= |s| && s[|s| - |suffix|..] == suffix
  }

  /** Length of the leading run of non-whitespace characters. */
  function TokenLength(s: string): (n: nat)
    ensures n <= |s|
    ensures NoSpace(s[..n])
    ensures n < |s| ==> IsSpace(s[n])
  {
    if |s| == 0 || IsSpace(s[0]) then 0 else 1 + TokenLength(s[1..])
  }

  /**
   * `s.split(None, maxsplit)`: runs of whitespace separate the parts, at most
   * `maxsplit` splits are made, and the last part keeps its trailing whitespace.
   */
  function SplitWhitespace(s: string, maxsplit: nat): (parts: seq<string>)
    ensures |parts| <= maxsplit + 1
    decreases |s|
  {
    var t := LStrip(s);
    if |t| == 0 then []
    else if maxsplit == 0 then [t]
    else
      var w := TokenLength(t);
      [t[..w]] + SplitWhitespace(t[w..], maxsplit - 1)
  }

  /** A part of `split()` output: non-empty, and not starting with whitespace. */
  predicate IsField(p: string) {
    |p| > 0 && !IsSpace(p[0])
  }

  /**
   * Every part is a field, and every part is free of whitespace except the
   * last, when `maxsplit` splits were used up before it.
   */
  predicate WellSplit(parts: seq<string>, maxsplit: nat) {
    && (forall k :: 0 <= k < |parts| ==> IsField(parts[k]))
    && (forall k :: 0 <= k < |parts| ==> (k < |parts| - 1 || |parts| <= maxsplit) ==> NoSpace(parts[k]))
  }

  /**
   * Every part of `s.split(None, maxsplit)` is a field; every part but the
   * last is a whole word, and so is the last when fewer than `maxsplit + 1`
   * parts came out.
   */
  lemma {:induction false} SplitWhitespaceParts(s: string, maxsplit: nat)
    ensures WellSplit(SplitWhitespace(s, maxsplit), maxsplit)
    decreases |s|, 1
  {
    if |LStrip(s)| > 0 && maxsplit > 0 {
      SplitWhitespaceStep(s, maxsplit);
    }
  }

  /** The step of `SplitWhitespaceParts`: the first word goes in front of the split of the rest. */
  lemma {:induction false} SplitWhitespaceStep(s: string, maxsplit: nat)
    requires |LStrip(s)| > 0 && maxsplit > 0
    ensures WellSplit(SplitWhitespace(s, maxsplit), maxsplit)
    decreases |s|, 0
  {
    var t := LStrip(s);
    var w := TokenLength(t);
    assert w > 0;
    SplitWhitespaceParts(t[w..], maxsplit - 1);
    WellSplitCons(t[..w], SplitWhitespace(t[w..], maxsplit - 1), maxsplit);
  }

  lemma WellSplitCons(head: string, rest: seq<string>, maxsplit: nat)
    requires maxsplit > 0 && IsField(head) && NoSpace(head) && WellSplit(rest, maxsplit - 1)
    ensures WellSplit([head] + rest, maxsplit)
  {
    var parts := [head] + rest;
    forall k | 1 <= k < |parts|
      ensures IsField(parts[k])
      ensures (k < |parts| - 1 || |parts| <= maxsplit) ==> NoSpace(parts[k])
    {
      assert parts[k] == rest[k - 1];
    }
  }

  /** `s.split()[0]`; Python raises `IndexError` when `s` is all whitespace. */
  function FirstToken(s: string): (r: string)
    requires |LStrip(s)| > 0
    ensures |r| > 0 && NoSpace(r)
    ensures StripStart(s) + |r| <= |s| && r == s[StripStart(s)..StripStart(s) + |r|]
    ensures StripStart(s) + |r| < |s| ==> IsSpace(s[StripStart(s) + |r|])
  {
    var t := LStrip(s);
    t[..TokenLength(t)]
  }

  /** `s.split(sep)`: the pieces between occurrences of `sep`; never empty. */
  function SplitOn(s: string, sep: char): (parts: seq<string>)
    ensures |parts| >= 1
    ensures forall k :: 0 <= k < |parts| ==> sep !in parts[k]
    ensures sep !in s ==> parts == [s]
  {
    if sep !in s then [s]
    else
      var i := IndexOf(s, sep);
      [s[..i]] + SplitOn(s[i + 1..], sep)
  }

  /** Index of the first occurrence of `c`. */
  function IndexOf(s: string, c: char): (i: nat)
    requires c in s
    ensures i < |s| && s[i] == c && c !in s[..i]
  {
    if s[0] == c then 0 else 1 + IndexOf(s[1..], c)
  }

  /** Index of the last occurrence of `c`. */
  function LastIndexOf(s: string, c: char): (i: nat)
    requires c in s
    ensures i < |s| && s[i] == c && c !in s[i + 1..]
  {
    if s[|s| - 1] == c then |s| - 1
    else
      assert c in s[..|s| - 1] by {
        var j :| 0 <= j < |s| && s[j] == c;
        assert s[..|s| - 1][j] == c;
      }
      LastIndexOf(s[..|s| - 1], c)
  }

  /** `s.rsplit(c, 1)` when `c` occurs: the text before and after the last `c`. */
  function RSplitOnce(s: string, c: char): (r: (string, string))
    requires c in s
    ensures s == r.0 + [c] + r.1
    ensures c !in r.1
  {
    var i := LastIndexOf(s, c);
    (s[..i], s[i + 1..])
  }

  // ---- decimal integers: Python's str(int) and int(str) ----

  predicate IsDigit(c: char) {
    '0' <= c <= '9'
  }

  function DigitChar(d: nat): (c: char)
    requires d < 10
    ensures IsDigit(c) && c as int - '0' as int == d
  {
    ('0' as int + d) as char
  }

  /** `str(n)` for a natural number: decimal digits, no leading zero. */
  function NatToString(n: nat): (s: string)
    ensures |s| > 0 && forall k :: 0 <= k < |s| ==> IsDigit(s[k])
    ensures |s| > 1 ==> s[0] != '0'
  {
    if n < 10 then [DigitChar(n)] else NatToString(n / 10) + [DigitChar(n % 10)]
  }

  /** `str(n)` for any integer. */
  function IntToString(n: int): (s: string)
    ensures |s| > 0
    ensures n >= 0 <==> IsDigit(s[0])
  {
    if n >= 0 then NatToString(n) else "-" + NatToString(-n)
  }

  function DigitValue(c: char): (d: nat)
    requires IsDigit(c)
    ensures d < 10 && DigitChar(d) == c
  {
    c as int - '0' as int
  }

  /** The value of a string of decimal digits. */
  function DigitsValue(s: string): nat
    requires forall k :: 0 <= k < |s| ==> IsDigit(s[k])
  {
    if |s| == 0 then 0 else 10 * DigitsValue(s[..|s| - 1]) + DigitValue(s[|s| - 1])
  }

  lemma {:induction false} DigitsValueOfNatToString(n: nat)
    ensures DigitsValue(NatToString(n)) == n
  {
    if n >= 10 {
      var s := NatToString(n);
      assert s[..|s| - 1] == NatToString(n / 10);
      DigitsValueOfNatToString(n / 10);
    }
  }

  /** Digits, with single underscores allowed between two digits (Python's literal grammar). */
  predicate IsDigitGroups(s: string) {
    && |s| > 0 && IsDigit(s[0]) && IsDigit(s[|s| - 1])
    && DigitsOrUnderscores(s)
    && (forall i, j :: 0 <= i < |s| && 0 <= j < |s| && j == i + 1 ==> !(s[i] == '_' && s[j] == '_'))
  }

  /** Digits and underscores only. */
  predicate DigitsOrUnderscores(s: string) {
    forall k :: 0 <= k < |s| ==> IsDigit(s[k]) || s[k] == '_'
  }

  function RemoveUnderscores(s: string): (r: string)
    ensures DigitsOrUnderscores(s) ==> forall k :: 0 <= k < |r| ==> IsDigit(r[k])
    ensures '_' !in s ==> r == s
  {
    if |s| == 0 then []
    else
      var rest := RemoveUnderscores(s[1..]);
      assert DigitsOrUnderscores(s) ==> DigitsOrUnderscores(s[1..]);
      if s[0] == '_' then rest
      else
        assert forall k :: 1 <= k < |rest| + 1 ==> ([s[0]] + rest)[k] == rest[k - 1];
        [s[0]] + rest
  }

  /** Python's `int(s)` on an already stripped string: optional sign, then digit groups; otherwise `ValueError` (None). */
  function ParseInt(s: string): (r: Option<int>)
    ensures r.Some? ==> |s| > 0
    ensures |s| > 0 && (forall k :: 0 <= k < |s| ==> IsDigit(s[k])) ==> r == Some(DigitsValue(s))
  {
    var signed := |s| > 0 && (s[0] == '+' || s[0] == '-');
    var body := if signed then s[1..] else s;
    if !IsDigitGroups(body) then None
    else
      var digits := RemoveUnderscores(body);
      var v: int := DigitsValue(digits);
      Some(if signed && s[0] == '-' then -v else v)
  }

  /** A string of decimal digits is a digit group with no underscore to remove. */
  lemma DigitsAreGroups(d: string)
    requires |d| > 0 && forall k :: 0 <= k < |d| ==> IsDigit(d[k])
    ensures IsDigitGroups(d) && RemoveUnderscores(d) == d
  {
    assert '_' !in d;
  }

  /** `int(s)` for `s` a minus sign followed by decimal digits. */
  lemma ParseMinusDigits(s: string, d: string)
    requires |d| > 0 && forall k :: 0 <= k < |d| ==> IsDigit(d[k])
    requires |s| > 0 && s[0] == '-' && s[1..] == d
    ensures ParseInt(s) == Some(-(DigitsValue(d) as int))
  {
    DigitsAreGroups(d);
  }

  lemma ParseNonNegative(n: int)
    requires n >= 0
    ensures ParseInt(IntToString(n)) == Some(n)
  {
    DigitsValueOfNatToString(n);
  }

  lemma ParseNegative(n: int)
    requires n < 0
    ensures ParseInt(IntToString(n)) == Some(n)
  {
    var d := NatToString(-n);
    var s := IntToString(n);
    assert s == "-" + d;
    assert s[0] == '-' && s[1..] == d;
    DigitsValueOfNatToString(-n);
    ParseMinusDigits(s, d);
  }

  /** `int(str(n)) == n`. */
  lemma ParseIntOfIntToString(n: int)
    ensures ParseInt(IntToString(n)) == Some(n)
  {
    if n >= 0 {
      ParseNonNegative(n);
    } else {
      ParseNegative(n);
    }
  }
}
