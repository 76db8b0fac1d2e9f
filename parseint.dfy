/**
 * `parseInt(s) || 0` with no radix, as the analytics view applies it to an
 * exercise's free-text duration: leading white space is skipped, one sign
 * is read, then the longest run of decimal digits. No digits gives NaN,
 * which `|| 0` turns into 0.
 */
module ParseInt {

  predicate IsDigit(c: char) {
    '0' <= c <= '9'
  }

  predicate IsSpace(c: char) {
    c == ' ' || c == '\t' || c == '\n' || c == '\r' || c == '\U{B}' || c == '\U{C}'
    || c == '\U{A0}' || c == '\U{FEFF}'
  }

  function TrimStart(s: string): (r: string)
    ensures r == [] || !IsSpace(r[0])
  {
    if s != [] && IsSpace(s[0]) then TrimStart(s[1..]) else s
  }

  /** The longest prefix of decimal digits. */
  function LeadingDigits(s: string): (r: string)
    ensures |r| <= |s| && r == s[..|r|]
    ensures forall i :: 0 <= i < |r| ==> IsDigit(r[i])
    ensures |r| < |s| ==> !IsDigit(s[|r|])
  {
    if s != [] && IsDigit(s[0]) then [s[0]] + LeadingDigits(s[1..]) else []
  }

  function DigitValue(c: char): nat
    requires IsDigit(c)
  {
    c as int - '0' as int
  }

  function DigitsValue(ds: string): nat
    requires forall i :: 0 <= i < |ds| ==> IsDigit(ds[i])
  {
    if ds == [] then 0 else DigitsValue(ds[..|ds| - 1]) * 10 + DigitValue(ds[|ds| - 1])
  }

  function ParseIntOrZero(s: string): int {
    var t := TrimStart(s);
    var negative := |t| > 0 && t[0] == '-';
    var body := if |t| > 0 && (t[0] == '-' || t[0] == '+') then t[1..] else t;
    var ds := LeadingDigits(body);
    if ds == [] then 0 else if negative then -(DigitsValue(ds) as int) else DigitsValue(ds)
  }

  /** The decimal form of a natural number, as `toString` writes it. */
  function Decimal(n: nat): (r: string)
    ensures |r| > 0 && forall i :: 0 <= i < |r| ==> IsDigit(r[i])
  {
    if n < 10 then [('0' as int + n) as char]
    else Decimal(n / 10) + [('0' as int + n % 10) as char]
  }

  lemma {:induction false} DecimalValue(n: nat)
    ensures DigitsValue(Decimal(n)) == n
  {
    if n >= 10 {
      var r := Decimal(n);
      assert r[..|r| - 1] == Decimal(n / 10);
      DecimalValue(n / 10);
    }
  }

  lemma {:induction false} LeadingDigitsOfDecimal(ds: string, rest: string)
    requires forall i :: 0 <= i < |ds| ==> IsDigit(ds[i])
    requires rest == [] || !IsDigit(rest[0])
    ensures LeadingDigits(ds + rest) == ds
  {
    if ds != [] {
      assert (ds + rest)[1..] == ds[1..] + rest;
      LeadingDigitsOfDecimal(ds[1..], rest);
    }
  }

  /** A duration that starts with a number written in decimal ("30 min") counts as that many minutes. */
  lemma ParseDecimal(n: nat, rest: string)
    requires rest == [] || !IsDigit(rest[0])
    ensures ParseIntOrZero(Decimal(n) + rest) == n
  {
    var d := Decimal(n);
    DecimalValue(n);
    LeadingDigitsOfDecimal(d, rest);
    assert (d + rest)[0] == d[0];
    assert TrimStart(d + rest) == d + rest;
  }

  /** ... and a leading minus sign makes it negative. */
  lemma ParseNegativeDecimal(n: nat, rest: string)
    requires rest == [] || !IsDigit(rest[0])
    ensures ParseIntOrZero("-" + Decimal(n) + rest) == -(n as int)
  {
    var d := Decimal(n);
    DecimalValue(n);
    LeadingDigitsOfDecimal(d, rest);
    var t := "-" + d + rest;
    assert TrimStart(t) == t;
    assert t[1..] == d + rest;
  }

  /** Text with no decimal digit in it counts as 0. */
  lemma ParseNoNumber(s: string)
    requires forall i :: 0 <= i < |s| ==> !IsDigit(s[i])
    ensures ParseIntOrZero(s) == 0
  {
    TrimStartSuffix(s);
    var t := TrimStart(s);
    var k :| 0 <= k <= |s| && t == s[k..];
    assert forall i :: 0 <= i < |t| ==> !IsDigit(t[i]);
    var body := if |t| > 0 && (t[0] == '-' || t[0] == '+') then t[1..] else t;
    assert forall i :: 0 <= i < |body| ==> !IsDigit(body[i]);
    assert LeadingDigits(body) == [];
  }

  /** Trimming drops a prefix made only of whitespace. */
  lemma {:induction false} TrimStartSuffix(s: string)
    ensures exists k :: 0 <= k <= |s| && TrimStart(s) == s[k..] && forall i :: 0 <= i < k ==> IsSpace(s[i])
  {
    if s != [] && IsSpace(s[0]) {
      TrimStartSuffix(s[1..]);
      var k :| 0 <= k <= |s[1..]| && TrimStart(s[1..]) == s[1..][k..] && forall i :: 0 <= i < k ==> IsSpace(s[1..][i]);
      assert s[1..][k..] == s[k + 1..];
      assert forall i :: 0 <= i < k + 1 ==> IsSpace(s[i]) by {
        forall i | 0 <= i < k + 1
          ensures IsSpace(s[i])
        {
          if i > 0 { assert s[i] == s[1..][i - 1]; }
        }
      }
    } else {
      assert s == s[0..];
    }
  }

  /** Leading whitespace is skipped entirely. */
  lemma {:induction false} TrimStartSpaces(sp: string, s: string)
    requires forall i :: 0 <= i < |sp| ==> IsSpace(sp[i])
    ensures TrimStart(sp + s) == TrimStart(s)
  {
    if sp == [] {
      assert sp + s == s;
    } else {
      assert (sp + s)[0] == sp[0];
      assert (sp + s)[1..] == sp[1..] + s;
      TrimStartSpaces(sp[1..], s);
    }
  }

  /** `parseInt` ignores leading whitespace: `parseInt("  12")` is `parseInt("12")`. */
  lemma ParseSkipsLeadingSpace(sp: string, s: string)
    requires forall i :: 0 <= i < |sp| ==> IsSpace(sp[i])
    ensures ParseIntOrZero(sp + s) == ParseIntOrZero(s)
  {
    TrimStartSpaces(sp, s);
  }
}
