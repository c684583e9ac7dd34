/**
 * The string operations the screens rely on: `trim`, `toLowerCase`, `includes`,
 * the digit filter of a numeric input, decimal rendering with `String(n)` and
 * `padStart(2, "0")`, and the two JavaScript number parsers (`parseInt`/`parseFloat`
 * and `Number`/unary `+`), both restricted to integer notation.
 */
module Text {
  import opened Options

  /**
   * The white space that `trim` and the number parsers skip: the ECMAScript white space
   * characters (tab, vertical tab, form feed, the space separators, the byte order mark)
   * and line terminators (LF, CR, the line and paragraph separators).
   */
  predicate IsSpace(c: char) {
    c == '\t' || c == '\n' || c == '\U{000B}' || c == '\U{000C}' || c == '\r' || c == ' ' ||
    c == '\U{00A0}' || c == '\U{1680}' || ('\U{2000}' <= c <= '\U{200A}') ||
    c == '\U{2028}' || c == '\U{2029}' || c == '\U{202F}' || c == '\U{205F}' ||
    c == '\U{3000}' || c == '\U{FEFF}'
  }

  predicate IsDigit(c: char) {
    '0' <= c <= '9'
  }

  predicate AllDigits(s: string) {
    forall i :: 0 <= i < |s| ==> IsDigit(s[i])
  }

  predicate AllSpace(s: string) {
    forall i :: 0 <= i < |s| ==> IsSpace(s[i])
  }

  /** Drops the leading white space; `TrimStartSplit` says what is dropped. */
  function TrimStart(s: string): (r: string)
    ensures |r| <= |s|
    ensures r == [] || !IsSpace(r[0])
  {
    if s != [] && IsSpace(s[0]) then TrimStart(s[1..]) else s
  }

  /** What `TrimStart` drops is all white space, and what it keeps is the rest of the string. */
  lemma {:induction false} TrimStartSplit(s: string)
    ensures var r := TrimStart(s); r == s[|s| - |r|..] && AllSpace(s[..|s| - |r|])
  {
    if s != [] && IsSpace(s[0]) {
      TrimStartSplit(s[1..]);
      var r := TrimStart(s);
      var k := |s| - |r|;
      assert s[1..][|s| - 1 - |r|..] == s[k..];
      assert forall i :: 0 <= i < k ==> s[i] == if i == 0 then s[0] else s[1..][i - 1];
    }
  }

  /** Drops the trailing white space; `TrimEndSplit` says what is dropped. */
  function TrimEnd(s: string): (r: string)
    ensures |r| <= |s|
    ensures r == [] || !IsSpace(r[|r| - 1])
  {
    if s != [] && IsSpace(s[|s| - 1]) then TrimEnd(s[..|s| - 1]) else s
  }

  /** What `TrimEnd` drops is all white space, and what it keeps is the start of the string. */
  lemma {:induction false} TrimEndSplit(s: string)
    ensures var r := TrimEnd(s); r == s[..|r|] && AllSpace(s[|r|..])
  {
    if s != [] && IsSpace(s[|s| - 1]) {
      var init := s[..|s| - 1];
      TrimEndSplit(init);
      var r := TrimEnd(s);
      assert init[..|r|] == s[..|r|];
      assert forall i :: |r| <= i < |s| ==> s[i] == if i == |s| - 1 then s[|s| - 1] else init[|r|..][i - |r|];
    }
  }

  /** `s.trim()`. */
  function Trim(s: string): (r: string)
    ensures r == [] || (!IsSpace(r[0]) && !IsSpace(r[|r| - 1]))
  {
    TrimEndSplit(TrimStart(s));
    TrimEnd(TrimStart(s))
  }

  /** `!s.trim()`: nothing but white space. */
  predicate IsBlank(s: string) {
    Trim(s) == []
  }

  lemma TrimStartKeeps(s: string)
    requires s == [] || !IsSpace(s[0])
    ensures TrimStart(s) == s
  {
  }

  lemma TrimEndKeeps(s: string)
    requires s == [] || !IsSpace(s[|s| - 1])
    ensures TrimEnd(s) == s
  {
  }

  /** Trimming twice is trimming once. */
  lemma TrimIdempotent(s: string)
    ensures Trim(Trim(s)) == Trim(s)
  {
    var r := Trim(s);
    TrimStartKeeps(r);
    TrimEndKeeps(r);
  }

  /** A string is blank exactly when every character is white space. */
  lemma BlankIffAllSpace(s: string)
    ensures IsBlank(s) <==> AllSpace(s)
  {
    var t := TrimStart(s);
    TrimStartSplit(s);
    TrimEndSplit(t);
    assert s == s[..|s| - |t|] + t;
  }

  /** ASCII `toLowerCase` of one character. */
  function LowerChar(c: char): char {
    if 'A' <= c <= 'Z' then (c as int + 32) as char else c
  }

  /** `s.toLowerCase()`: same length, each character lower-cased, no upper-case letter left. */
  function Lower(s: string): (r: string)
    ensures |r| == |s|
    ensures forall i :: 0 <= i < |s| ==> r[i] == LowerChar(s[i])
    ensures forall i :: 0 <= i < |r| ==> !('A' <= r[i] <= 'Z')
  {
    seq(|s|, i requires 0 <= i < |s| => LowerChar(s[i]))
  }

  lemma LowerIdempotent(s: string)
    ensures Lower(Lower(s)) == Lower(s)
  {
  }

  /** `s.includes(q)`: `q` occurs in `s` at some position. */
  predicate Contains(s: string, q: string) {
    q <= s || (s != [] && Contains(s[1..], q))
  }

  /** `v.replace(/[^0-9]/g, "")`: keeps exactly the digits, in order. */
  function DigitsOnly(s: string): (r: string)
    ensures AllDigits(r)
    ensures |r| <= |s|
    ensures AllDigits(s) ==> r == s
  {
    if s == [] then []
    else (if IsDigit(s[0]) then [s[0]] else []) + DigitsOnly(s[1..])
  }

  lemma DigitsOnlyIdempotent(s: string)
    ensures DigitsOnly(DigitsOnly(s)) == DigitsOnly(s)
  {
  }

  function DigitValue(c: char): int
    requires IsDigit(c)
  {
    c as int - '0' as int
  }

  /** The value of a string of decimal digits, most significant first. */
  function DigitsValue(s: string): (v: nat)
    requires AllDigits(s)
  {
    if s == [] then 0 else DigitsValue(s[..|s| - 1]) * 10 + DigitValue(s[|s| - 1])
  }

  function DigitChar(d: nat): (c: char)
    requires d < 10
    ensures IsDigit(c) && DigitValue(c) == d
  {
    ('0' as int + d) as char
  }

  /** `String(n)` for a non-negative integer: digits, no leading zero, reading back as `n`. */
  function NatToString(n: nat): (r: string)
    ensures |r| >= 1 && AllDigits(r)
    ensures r[0] != '0' || n == 0
    ensures DigitsValue(r) == n
  {
    if n < 10 then [DigitChar(n)]
    else
      var r := NatToString(n / 10) + [DigitChar(n % 10)];
      assert r[..|r| - 1] == NatToString(n / 10);
      r
  }

  /** `String(n)` for any integer. */
  function IntToString(n: int): (r: string)
    ensures |r| >= 1 && !IsSpace(r[0]) && !IsSpace(r[|r| - 1])
  {
    if n < 0 then "-" + NatToString(-n) else NatToString(n)
  }

  /** `n.toString().padStart(2, "0")`: two digits for every value below 100, reading back as `n`. */
  function PadTwo(n: nat): (r: string)
    ensures AllDigits(r) && DigitsValue(r) == n
    ensures n < 100 ==> |r| == 2
  {
    if n < 10 then
      var r := ['0', DigitChar(n)];
      assert r[..1] == ['0'] && DigitsValue(['0']) == 0;
      r
    else
      assert NatToString(n) == NatToString(n / 10) + [DigitChar(n % 10)];
      NatToString(n)
  }

  /** The longest run of digits at the start of `s`. */
  function DigitRun(s: string): (r: string)
    ensures |r| <= |s| && r == s[..|r|] && AllDigits(r)
    ensures |r| == |s| || !IsDigit(s[|r|])
  {
    if s != [] && IsDigit(s[0]) then [s[0]] + DigitRun(s[1..]) else []
  }

  lemma {:induction false} DigitRunOfDigits(a: string, b: string)
    requires AllDigits(a)
    requires b == [] || !IsDigit(b[0])
    ensures DigitRun(a + b) == a
  {
    if a != [] {
      assert (a + b)[1..] == a[1..] + b;
      DigitRunOfDigits(a[1..], b);
    } else {
      assert a + b == b;
    }
  }

  /** Splits an optional leading sign from `t`. */
  function SplitSign(t: string): (bool, string) {
    if t != [] && (t[0] == '-' || t[0] == '+') then (t[0] == '-', t[1..]) else (false, t)
  }

  function Signed(negative: bool, v: nat): int {
    if negative then -(v as int) else v
  }

  /**
   * `parseInt(s, 10)` (and `parseFloat(s)` on integer notation): skip leading white
   * space, read an optional sign and then as many digits as follow; no digit at all is NaN.
   */
  function ParseIntPrefix(s: string): (r: Option<int>)
    ensures r.None? <==> DigitRun(SplitSign(TrimStart(s)).1) == []
  {
    var (neg, body) := SplitSign(TrimStart(s));
    var run := DigitRun(body);
    if run == [] then None else Some(Signed(neg, DigitsValue(run)))
  }

  /**
   * `Number(s)` / `+s` on integer notation: the trimmed string is empty (giving 0) or an
   * optional sign followed by digits only; anything else is NaN.
   */
  function ToNumber(s: string): (r: Option<int>)
    ensures IsBlank(s) ==> r == Some(0)
  {
    var t := Trim(s);
    if t == [] then Some(0)
    else
      var (neg, body) := SplitSign(t);
      if body != [] && AllDigits(body) then Some(Signed(neg, DigitsValue(body))) else None
  }

  /** On a non-blank input the two parsers agree whenever `Number` accepts it. */
  lemma ToNumberThenParseInt(s: string, n: int)
    requires !IsBlank(s) && ToNumber(s) == Some(n)
    ensures ParseIntPrefix(s) == Some(n)
  {
    var t0 := TrimStart(s);
    var t := TrimEnd(t0);
    TrimEndSplit(t0);
    assert t == Trim(s);
    var rest := t0[|t|..];
    assert t0 == t + rest;
    var (neg, body) := SplitSign(t);
    assert rest == [] || !IsDigit(rest[0]);
    if t[0] == '-' || t[0] == '+' {
      assert SplitSign(t0) == (neg, body + rest) by {
        assert t0[1..] == t[1..] + rest;
      }
    } else {
      assert SplitSign(t0) == (neg, body + rest);
    }
    DigitRunOfDigits(body, rest);
  }

  /** `parseInt(String(n))` gives `n` back. */
  lemma ParseIntOfIntToString(n: int)
    ensures ParseIntPrefix(IntToString(n)) == Some(n)
  {
    var r := IntToString(n);
    TrimStartKeeps(r);
    if n < 0 {
      var digits := NatToString(-n);
      assert SplitSign(r) == (true, digits) by { assert r[1..] == digits; }
      DigitRunOfDigits(digits, []);
      assert digits + [] == digits;
    } else {
      DigitRunOfDigits(r, []);
      assert r + [] == r;
    }
  }

  /** `Number(String(n))` gives `n` back. */
  lemma ToNumberOfIntToString(n: int)
    ensures ToNumber(IntToString(n)) == Some(n)
  {
    var r := IntToString(n);
    TrimStartKeeps(r);
    TrimEndKeeps(r);
    if n < 0 {
      assert SplitSign(r) == (true, NatToString(-n)) by { assert r[1..] == NatToString(-n); }
    }
  }
}
