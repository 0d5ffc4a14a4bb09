/**
 * The handful of Python string operations the core relies on:
 * `str.strip`, ASCII `str.lower`, `sep.join`, `str.split(c)`, `str.split(c, 1)`,
 * `str(int)` and `int(str)`.
 */
module PyText {
  import opened Wrappers

  /** `c.isspace()` in Python: the code points Python treats as whitespace. */
  predicate IsSpace(c: char) {
    || c == ' '
    || ('\t' <= c <= '\r')
    || ('\U{1c}' <= c <= '\U{1f}')
    || c == '\U{85}' || c == '\U{a0}' || c == '\U{1680}'
    || ('\U{2000}' <= c <= '\U{200a}')
    || c == '\U{2028}' || c == '\U{2029}' || c == '\U{202f}' || c == '\U{205f}' || c == '\U{3000}'
  }

  /** `s.lstrip()` */
  function TrimLeft(s: string): (r: string)
    ensures |r| <= |s| && r == s[|s| - |r|..]
    ensures forall k :: 0 <= k < |s| - |r| ==> IsSpace(s[k])
    ensures r == [] || !IsSpace(r[0])
    decreases |s|
  {
    if |s| > 0 && IsSpace(s[0]) then TrimLeft(s[1..]) else s
  }

  /** `s.rstrip()` */
  function TrimRight(s: string): (r: string)
    ensures |r| <= |s| && r == s[..|r|]
    ensures forall k :: |r| <= k < |s| ==> IsSpace(s[k])
    ensures r == [] || !IsSpace(r[|r| - 1])
    decreases |s|
  {
    if |s| > 0 && IsSpace(s[|s| - 1]) then TrimRight(s[..|s| - 1]) else s
  }

  /** `s.strip()`: the result has no whitespace at either end. */
  function Strip(s: string): (r: string)
    ensures |r| <= |s|
    ensures r == [] || (!IsSpace(r[0]) && !IsSpace(r[|r| - 1]))
  {
    TrimRight(TrimLeft(s))
  }

  /** `strip()` keeps a slice of `s`: the one starting where the leading whitespace ends. */
  lemma StripIsSlice(s: string)
    ensures |Strip(s)| <= |TrimLeft(s)|
    ensures Strip(s) == s[|s| - |TrimLeft(s)|..|s| - |TrimLeft(s)| + |Strip(s)|]
  {
    var i := |s| - |TrimLeft(s)|;
    PrefixOfSuffix(s, i, |Strip(s)|);
    calc {
      Strip(s);
      TrimRight(TrimLeft(s));
      TrimLeft(s)[..|Strip(s)|];
      s[i..][..|Strip(s)|];
    }
  }

  /** What `strip()` cuts before and after that slice is all whitespace. */
  lemma StripCutsSpace(s: string)
    ensures |Strip(s)| <= |TrimLeft(s)|
    ensures forall k :: 0 <= k < |s| - |TrimLeft(s)| ==> IsSpace(s[k])
    ensures forall k :: |s| - |TrimLeft(s)| + |Strip(s)| <= k < |s| ==> IsSpace(s[k])
  {
    assert Strip(s) == TrimRight(TrimLeft(s));
    StripCutsTail(s, TrimLeft(s), TrimRight(TrimLeft(s)));
  }

  /** The first `n` elements of `s[i..]` are `s[i..i + n]`. */
  lemma PrefixOfSuffix(s: string, i: nat, n: nat)
    requires i + n <= |s|
    ensures s[i..][..n] == s[i..i + n]
  {
  }

  /** Whitespace cut from the end of a suffix `t` of `s` is whitespace of `s`. */
  lemma StripCutsTail(s: string, t: string, r: string)
    requires |r| <= |t| <= |s| && t == s[|s| - |t|..]
    requires forall k :: |r| <= k < |t| ==> IsSpace(t[k])
    ensures forall k :: |s| - |t| + |r| <= k < |s| ==> IsSpace(s[k])
  {
    forall k | |s| - |t| + |r| <= k < |s|
      ensures IsSpace(s[k])
    {
      assert s[k] == t[k - (|s| - |t|)];
    }
  }

  lemma StripUnchanged(s: string)
    requires s == [] || (!IsSpace(s[0]) && !IsSpace(s[|s| - 1]))
    ensures Strip(s) == s
  {
  }

  /** ASCII `c.lower()`. */
  function LowerChar(c: char): char {
    if 'A' <= c <= 'Z' then (c as int + 32) as char else c
  }

  function Lower(s: string): (r: string)
    ensures |r| == |s|
  {
    seq(|s|, i requires 0 <= i < |s| => LowerChar(s[i]))
  }

  /** `sep.join(parts)` */
  function Join(sep: string, parts: seq<string>): string
    decreases |parts|
  {
    if |parts| == 0 then ""
    else if |parts| == 1 then parts[0]
    else parts[0] + sep + Join(sep, parts[1..])
  }

  /** Index of the first `c` in `s`, or `|s|` when there is none. */
  function IndexOf(s: string, c: char): (i: nat)
    ensures i <= |s|
    ensures i < |s| ==> s[i] == c
    ensures forall k :: 0 <= k < i ==> s[k] != c
    decreases |s|
  {
    if |s| == 0 then 0
    else if s[0] == c then 0
    else 1 + IndexOf(s[1..], c)
  }

  /** `s.split(sep)` for a one-character separator: it never returns an empty list. */
  function Split(s: string, sep: char): (r: seq<string>)
    ensures |r| >= 1
    ensures forall k :: 0 <= k < |r| ==> sep !in r[k]
    decreases |s|
  {
    var i := IndexOf(s, sep);
    if i == |s| then [s] else [s[..i]] + Split(s[i + 1..], sep)
  }

  /** Splitting on a separator and joining with it again gives back the text. */
  lemma {:induction false} SplitJoin(s: string, sep: char)
    ensures Join([sep], Split(s, sep)) == s
    decreases |s|
  {
    var i := IndexOf(s, sep);
    if i < |s| {
      var rest := Split(s[i + 1..], sep);
      SplitJoin(s[i + 1..], sep);
      assert Split(s, sep) == [s[..i]] + rest;
      assert ([s[..i]] + rest)[1..] == rest;
      assert s == s[..i] + [sep] + s[i + 1..];
    }
  }

  /** `s.split(c, 1)` when `c in s`: the text before and after the first `c`. */
  function SplitOnce(s: string, c: char): (r: (string, string))
    requires c in s
    ensures c !in r.0 && s == r.0 + [c] + r.1
  {
    var i := IndexOf(s, c);
    assert s == s[..i] + [c] + s[i + 1..];
    (s[..i], s[i + 1..])
  }

  predicate IsDigit(c: char) {
    '0' <= c <= '9'
  }

  predicate AllDigits(s: string) {
    forall k :: 0 <= k < |s| ==> IsDigit(s[k])
  }

  function DigitChar(d: nat): (c: char)
    requires d < 10
    ensures IsDigit(c)
  {
    ('0' as int + d) as char
  }

  function DigitValue(c: char): (d: nat)
    requires IsDigit(c)
    ensures d < 10 && DigitChar(d) == c
  {
    c as int - '0' as int
  }

  /** `str(n)` for a natural number. */
  function NatToString(n: nat): (r: string)
    ensures |r| > 0 && AllDigits(r)
    decreases n
  {
    if n < 10 then [DigitChar(n)] else NatToString(n / 10) + [DigitChar(n % 10)]
  }

  /** `str(i)`: decimal, with a leading `-` for negative numbers. */
  function IntToString(i: int): (r: string)
    ensures |r| > 0
  {
    if i < 0 then "-" + NatToString(-i) else NatToString(i)
  }

  /** The value of a string of decimal digits. */
  function DigitsValue(s: string): nat
    requires AllDigits(s)
    decreases |s|
  {
    if |s| == 0 then 0 else DigitsValue(s[..|s| - 1]) * 10 + DigitValue(s[|s| - 1])
  }

  /** Digits with single underscores between them, as Python's `int()` accepts. */
  predicate IsDigitGroups(s: string) {
    && |s| > 0 && IsDigit(s[0]) && IsDigit(s[|s| - 1])
    && (forall k :: 0 <= k < |s| ==> IsDigit(s[k]) || s[k] == '_')
    && (forall k :: 0 <= k < |s| - 1 ==> !(s[k] == '_' && s[k + 1] == '_'))
  }

  function RemoveUnderscores(s: string): (r: string)
    requires forall k :: 0 <= k < |s| ==> IsDigit(s[k]) || s[k] == '_'
    ensures AllDigits(r)
    ensures AllDigits(s) ==> r == s
    decreases |s|
  {
    if |s| == 0 then ""
    else if s[0] == '_' then RemoveUnderscores(s[1..])
    else [s[0]] + RemoveUnderscores(s[1..])
  }

  function UnsignedValue(s: string): nat
    requires IsDigitGroups(s)
  {
    DigitsValue(RemoveUnderscores(s))
  }

  /**
   * `int(s)` on a string: surrounding whitespace, an optional sign, then digits
   * optionally grouped by single underscores. `None` stands for the ValueError.
   */
  function ParseInt(s: string): (r: Option<int>)
    ensures Strip(s) == [] ==> r.None?
  {
    var t := Strip(s);
    if |t| > 0 && (t[0] == '-' || t[0] == '+') then
      if IsDigitGroups(t[1..]) then
        var v: int := UnsignedValue(t[1..]);
        Some(if t[0] == '-' then -v else v)
      else None
    else if IsDigitGroups(t) then Some(UnsignedValue(t))
    else None
  }

  lemma {:induction false} DigitsValueOfNat(n: nat)
    ensures DigitsValue(NatToString(n)) == n
    decreases n
  {
    if n >= 10 {
      var prefix := NatToString(n / 10);
      var s := prefix + [DigitChar(n % 10)];
      assert s[..|s| - 1] == prefix;
      DigitsValueOfNat(n / 10);
    }
  }

  /** The text of `str(n)` is accepted by `int()` and carries the value `n`. */
  lemma NatStringParses(n: nat)
    ensures IsDigitGroups(NatToString(n)) && UnsignedValue(NatToString(n)) == n
  {
    var d := NatToString(n);
    DigitsValueOfNat(n);
    assert RemoveUnderscores(d) == d;
  }

  lemma ParseUnsigned(t: string)
    requires Strip(t) == t && IsDigitGroups(t)
    ensures ParseInt(t) == Some(UnsignedValue(t))
  {
  }

  lemma ParseNegative(t: string)
    requires Strip(t) == t && |t| > 0 && t[0] == '-' && IsDigitGroups(t[1..])
    ensures ParseInt(t) == Some(-(UnsignedValue(t[1..]) as int))
  {
  }

  lemma NatRoundTrip(n: nat)
    ensures ParseInt(NatToString(n)) == Some(n)
  {
    var d := NatToString(n);
    NatStringParses(n);
    assert IsDigit(d[0]) && IsDigit(d[|d| - 1]);
    StripUnchanged(d);
    ParseUnsigned(d);
  }

  lemma NegRoundTrip(n: nat)
    requires n > 0
    ensures ParseInt("-" + NatToString(n)) == Some(-(n as int))
  {
    var d := NatToString(n);
    var s := "-" + d;
    assert IsDigitGroups(s[1..]) && UnsignedValue(s[1..]) == n by {
      NatStringParses(n);
      assert s[1..] == d;
    }
    assert Strip(s) == s by {
      assert s[0] == '-' && s[|s| - 1] == d[|d| - 1];
      assert !IsSpace(s[0]) && !IsSpace(s[|s| - 1]);
      StripUnchanged(s);
    }
    ParseNegative(s);
  }

  /** `int(str(i)) == i` */
  lemma IntStringRoundTrip(i: int)
    ensures ParseInt(IntToString(i)) == Some(i)
  {
    if i < 0 {
      NegRoundTrip(-i);
    } else {
      NatRoundTrip(i);
    }
  }
}
