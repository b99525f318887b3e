/**
 * The handful of Python `str` operations the core relies on, written out:
 * `strip`, `startswith`/`endswith`, `in` (substring), `lower`/`upper`,
 * `split`, `join`, `int(...)` and `str(int)`, and fixed-point formatting.
 */
module Text {
  import opened Wrappers

  /** The characters for which Python's `str.isspace()` holds. */
  predicate IsSpace(c: char) {
    || ('\t' <= c <= '\r')
    || ('\U{1C}' <= c <= '\U{1F}')
    || c == ' ' || c == '\U{85}' || c == '\U{A0}' || c == '\U{1680}'
    || ('\U{2000}' <= c <= '\U{200A}')
    || c == '\U{2028}' || c == '\U{2029}' || c == '\U{202F}' || c == '\U{205F}' || c == '\U{3000}'
  }

  /** No whitespace at either end. */
  predicate IsTrimmed(s: string) {
    s == [] || (!IsSpace(s[0]) && !IsSpace(s[|s| - 1]))
  }

  predicate AllSpace(s: string) {
    forall i :: 0 <= i < |s| ==> IsSpace(s[i])
  }

  /** `s.lstrip()` */
  function TrimStart(s: string): (r: string)
    ensures |r| <= |s|
    ensures r == [] || !IsSpace(r[0])
    ensures AllSpace(s[..|s| - |r|])
  {
    if s != [] && IsSpace(s[0]) then
      var r := TrimStart(s[1..]);
      assert s[..|s| - |r|] == [s[0]] + s[1..][..|s| - 1 - |r|];
      r
    else s
  }

  /** `s.rstrip()` */
  function TrimEnd(s: string): (r: string)
    ensures |r| <= |s|
    ensures r == [] || !IsSpace(r[|r| - 1])
    ensures AllSpace(s[|r|..])
  {
    if s != [] && IsSpace(s[|s| - 1]) then
      var r := TrimEnd(s[..|s| - 1]);
      assert s[|r|..] == s[..|s| - 1][|r|..] + [s[|s| - 1]];
      r
    else s
  }

  /** What `lstrip` keeps is a suffix of the text. */
  lemma {:induction false} TrimStartIsSuffix(s: string)
    ensures TrimStart(s) == s[|s| - |TrimStart(s)|..]
  {
    if s != [] && IsSpace(s[0]) {
      TrimStartIsSuffix(s[1..]);
    }
  }

  /** What `rstrip` keeps is a prefix of the text. */
  lemma {:induction false} TrimEndIsPrefix(s: string)
    ensures TrimEnd(s) == s[..|TrimEnd(s)|]
  {
    if s != [] && IsSpace(s[|s| - 1]) {
      TrimEndIsPrefix(s[..|s| - 1]);
    }
  }

  /** `s.strip()` */
  function Trim(s: string): (r: string)
    ensures IsTrimmed(r)
  {
    var t := TrimStart(s);
    var r := TrimEnd(t);
    TrimEndIsPrefix(t);
    assert r == [] || r[0] == t[0];
    r
  }

  lemma {:induction false} TrimStartSpacesThenText(ws: string, body: string)
    requires AllSpace(ws)
    requires body == [] || !IsSpace(body[0])
    ensures TrimStart(ws + body) == body
  {
    if ws != [] {
      assert (ws + body)[1..] == ws[1..] + body;
      TrimStartSpacesThenText(ws[1..], body);
    } else {
      assert ws + body == body;
    }
  }

  lemma {:induction false} TrimEndTextThenSpaces(body: string, ws: string)
    requires AllSpace(ws)
    requires body == [] || !IsSpace(body[|body| - 1])
    ensures TrimEnd(body + ws) == body
  {
    if ws != [] {
      assert (body + ws)[..|body + ws| - 1] == body + ws[..|ws| - 1];
      TrimEndTextThenSpaces(body, ws[..|ws| - 1]);
    } else {
      assert body + ws == body;
    }
  }

  /** Stripping removes exactly the surrounding whitespace of a trimmed text. */
  lemma TrimSurrounded(ws1: string, body: string, ws2: string)
    requires AllSpace(ws1) && AllSpace(ws2) && IsTrimmed(body)
    ensures Trim(ws1 + body + ws2) == body
  {
    if body == [] {
      assert ws1 + body + ws2 == ws1 + ws2;
      assert AllSpace(ws1 + ws2);
      AllSpaceTrimsToEmpty(ws1 + ws2);
    } else {
      assert ws1 + body + ws2 == ws1 + (body + ws2);
      assert (body + ws2)[0] == body[0];
      TrimStartSpacesThenText(ws1, body + ws2);
      TrimEndTextThenSpaces(body, ws2);
    }
  }

  lemma {:induction false} AllSpaceTrimsToEmpty(s: string)
    requires AllSpace(s)
    ensures TrimStart(s) == [] && Trim(s) == []
  {
    if s != [] {
      AllSpaceTrimsToEmpty(s[1..]);
    }
  }

  /** Stripping an already trimmed text changes nothing. */
  lemma TrimOfTrimmed(s: string)
    requires IsTrimmed(s)
    ensures Trim(s) == s
  {
    TrimSurrounded([], s, []);
    assert [] + s + [] == s;
  }

  /** `s.startswith(p)` */
  predicate StartsWith(s: string, p: string) {
    |p| <= |s| && s[..|p|] == p
  }

  /** `s.endswith(p)` */
  predicate EndsWith(s: string, p: string) {
    |p| <= |s| && s[|s| - |p|..] == p
  }

  /** `sub` occurs in `s` starting at index i. */
  predicate OccursAt(s: string, sub: string, i: nat) {
    i + |sub| <= |s| && s[i..i + |sub|] == sub
  }

  /** `sub in s` for strings: the first index at or after `from` at which `sub` occurs, if any. */
  function FindFrom(s: string, sub: string, from: nat): (r: Option<nat>)
    requires from <= |s|
    decreases |s| - from
    ensures r.Some? ==> from <= r.value && OccursAt(s, sub, r.value)
    ensures r.Some? ==> forall i: nat :: from <= i < r.value ==> !OccursAt(s, sub, i)
    ensures r.None? ==> forall i: nat :: from <= i ==> !OccursAt(s, sub, i)
  {
    if from + |sub| > |s| then None
    else if s[from..from + |sub|] == sub then Some(from)
    else FindFrom(s, sub, from + 1)
  }

  predicate Contains(s: string, sub: string) {
    FindFrom(s, sub, 0).Some?
  }

  lemma ContainsIff(s: string, sub: string)
    ensures Contains(s, sub) <==> exists i: nat :: OccursAt(s, sub, i)
  {
    var r := FindFrom(s, sub, 0);
    if r.Some? {
      assert OccursAt(s, sub, r.value);
    }
  }

  /** A text contains itself, and a text contains each of its infixes. */
  lemma ContainsInfix(a: string, sub: string, b: string)
    ensures Contains(a + sub + b, sub)
  {
    var s := a + sub + b;
    assert s[|a|..|a| + |sub|] == sub;
    assert OccursAt(s, sub, |a|);
    ContainsIff(s, sub);
  }

  function LowerChar(c: char): char {
    if 'A' <= c <= 'Z' then (c as int + 32) as char else c
  }

  function UpperChar(c: char): char {
    if 'a' <= c <= 'z' then (c as int - 32) as char else c
  }

  /** `s.lower()` on the ASCII letters. */
  function Lower(s: string): (r: string)
    ensures |r| == |s| && forall i :: 0 <= i < |s| ==> r[i] == LowerChar(s[i])
  {
    seq(|s|, i requires 0 <= i < |s| => LowerChar(s[i]))
  }

  /** `s.upper()` on the ASCII letters. */
  function Upper(s: string): (r: string)
    ensures |r| == |s| && forall i :: 0 <= i < |s| ==> r[i] == UpperChar(s[i])
  {
    seq(|s|, i requires 0 <= i < |s| => UpperChar(s[i]))
  }

  /** The index of the first `sep` in `s`, if any. */
  function IndexOf(s: string, sep: char): (r: Option<nat>)
    ensures r.Some? ==> r.value < |s| && s[r.value] == sep && sep !in s[..r.value]
    ensures r.None? ==> sep !in s
  {
    if s == [] then None
    else if s[0] == sep then Some(0)
    else
      var t := IndexOf(s[1..], sep);
      if t.None? then None
      else
        assert s[..t.value + 1] == [s[0]] + s[1..][..t.value];
        Some(t.value + 1)
  }

  /** `s.split(sep)` for a one-character separator. */
  function Split(s: string, sep: char): (parts: seq<string>)
    ensures |parts| >= 1
    ensures forall i :: 0 <= i < |parts| ==> sep !in parts[i]
    ensures IndexOf(s, sep).None? ==> parts == [s]
    ensures IndexOf(s, sep).Some? ==> parts[0] == s[..IndexOf(s, sep).value] && |parts| >= 2
    decreases |s|
  {
    match IndexOf(s, sep)
    case None => [s]
    case Some(k) => [s[..k]] + Split(s[k + 1..], sep)
  }

  /** `sep.join(parts)` */
  function Join(parts: seq<string>, sep: string): string {
    if parts == [] then []
    else if |parts| == 1 then parts[0]
    else parts[0] + sep + Join(parts[1..], sep)
  }

  /** Splitting and joining again gives back the text. */
  lemma {:induction false} JoinSplit(s: string, sep: char)
    ensures Join(Split(s, sep), [sep]) == s
    decreases |s|
  {
    match IndexOf(s, sep)
    case None =>
    case Some(k) =>
      var rest := s[k + 1..];
      JoinSplit(rest, sep);
      assert Split(s, sep)[1..] == Split(rest, sep);
      assert s == s[..k] + [sep] + rest;
  }

  function DigitChar(d: nat): char
    requires d < 10
  {
    ('0' as int + d) as char
  }

  predicate IsDigit(c: char) {
    '0' <= c <= '9'
  }

  /** `str(n)` for a natural number. */
  function NatToString(n: nat): (r: string)
    ensures |r| >= 1 && forall i :: 0 <= i < |r| ==> IsDigit(r[i])
  {
    if n < 10 then [DigitChar(n)] else NatToString(n / 10) + [DigitChar(n % 10)]
  }

  /** `str(i)` for any integer. */
  function IntToString(i: int): string {
    if i < 0 then "-" + NatToString(-i) else NatToString(i)
  }

  function DigitValue(c: char): nat
    requires IsDigit(c)
  {
    c as int - '0' as int
  }

  /** The value of a string of decimal digits. */
  function DigitsValue(ds: string): nat
    requires forall i :: 0 <= i < |ds| ==> IsDigit(ds[i])
  {
    if ds == [] then 0
    else DigitsValue(ds[..|ds| - 1]) * 10 + DigitValue(ds[|ds| - 1])
  }

  predicate AllDigits(ds: string) {
    ds != [] && forall i :: 0 <= i < |ds| ==> IsDigit(ds[i])
  }

  /**
   * Python's `int(s)` on a string: surrounding whitespace, an optional sign
   * and at least one decimal digit.  `None` is the `ValueError` case.
   */
  function ParseInt(s: string): (r: Option<int>)
    ensures r.Some? ==> Trim(s) != []
  {
    ParseTrimmed(Trim(s))
  }

  /** `int(...)` once the surrounding whitespace is gone. */
  function ParseTrimmed(t: string): (r: Option<int>)
    ensures r.Some? ==> t != []
  {
    if t == [] then None
    else
      var neg := t[0] == '-';
      var body := if t[0] == '-' || t[0] == '+' then t[1..] else t;
      if AllDigits(body) then
        var v: int := DigitsValue(body);
        Some(if neg then -v else v)
      else None
  }

  lemma {:induction false} DigitsValueOfNatToString(n: nat)
    ensures DigitsValue(NatToString(n)) == n
  {
    var r := NatToString(n);
    if n >= 10 {
      DigitsValueOfNatToString(n / 10);
      assert r[..|r| - 1] == NatToString(n / 10);
    }
  }

  lemma DigitsAreTrimmed(ds: string)
    requires AllDigits(ds)
    ensures IsTrimmed(ds) && Trim(ds) == ds
  {
    assert IsDigit(ds[0]) && IsDigit(ds[|ds| - 1]);
    TrimOfTrimmed(ds);
  }

  lemma ParseIntOfDigits(ds: string)
    requires AllDigits(ds)
    ensures ParseInt(ds) == Some(DigitsValue(ds) as int)
  {
    DigitsAreTrimmed(ds);
    assert IsDigit(ds[0]);
  }

  lemma ParseIntOfNegatedDigits(ds: string)
    requires AllDigits(ds)
    ensures ParseInt("-" + ds) == Some(-(DigitsValue(ds) as int))
  {
    NegatedDigitsAreTrimmed(ds);
    ParseNegatedDigits(ds);
  }

  lemma ParseNegatedDigits(ds: string)
    requires AllDigits(ds)
    ensures ParseTrimmed("-" + ds) == Some(-(DigitsValue(ds) as int))
  {
    var s := "-" + ds;
    assert s[0] == '-' && s[1..] == ds;
  }

  lemma NegatedDigitsAreTrimmed(ds: string)
    requires AllDigits(ds)
    ensures Trim("-" + ds) == "-" + ds
  {
    var s := "-" + ds;
    assert s[|s| - 1] == ds[|ds| - 1];
    assert IsDigit(ds[|ds| - 1]);
    TrimOfTrimmed(s);
  }

  /** `int(str(i)) == i`. */
  lemma ParseIntToString(i: int)
    ensures ParseInt(IntToString(i)) == Some(i)
  {
    var n: nat := if i < 0 then -i else i;
    var ds := NatToString(n);
    DigitsValueOfNatToString(n);
    if i < 0 {
      assert IntToString(i) == "-" + ds;
      ParseIntOfNegatedDigits(ds);
    } else {
      assert IntToString(i) == ds;
      ParseIntOfDigits(ds);
    }
  }

  /** The integer nearest to x; ties go to the even neighbour (Python's rounding). */
  function RoundHalfEven(x: real): (n: int)
    ensures x - 1.0 / 2.0 <= n as real <= x + 1.0 / 2.0
  {
    var f := x.Floor;
    var frac := x - f as real;
    if frac > 1.0 / 2.0 || (frac == 1.0 / 2.0 && f % 2 == 1) then f + 1 else f
  }

  function Pow10(d: nat): (p: nat)
    ensures p >= 1
  {
    if d == 0 then 1 else 10 * Pow10(d - 1)
  }

  function Zeros(k: nat): (z: string)
    ensures |z| == k
  {
    if k == 0 then [] else "0" + Zeros(k - 1)
  }

  /** Renders n / 10^d with exactly d decimals. */
  function FixedDigits(n: nat, d: nat): string {
    var ds := NatToString(n);
    var padded := if |ds| <= d then Zeros(d + 1 - |ds|) + ds else ds;
    if d == 0 then padded else padded[..|padded| - d] + "." + padded[|padded| - d..]
  }

  /** Python's `format(x, ".<d>f")` applied to the exact value x. */
  function FormatFixed(x: real, d: nat): string {
    if x < 0.0 then "-" + FixedDigits(RoundHalfEven(-x * Pow10(d) as real) as nat, d)
    else FixedDigits(RoundHalfEven(x * Pow10(d) as real) as nat, d)
  }

  /** Python's `format(x, ".1%")` applied to the exact value x. */
  function FormatPercent1(x: real): string {
    FormatFixed(x * 100.0, 1) + "%"
  }
}
