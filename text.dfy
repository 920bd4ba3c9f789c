/** String helpers the core relies on: decimal rendering of integers
    (template literals such as `THREAT-${id}`), `String.prototype.includes`,
    `replace(/[$,]/g, '')`, and the number prefix that `parseFloat` and
    `parseInt` read. */
module Text {
  import opened Tables

  predicate IsDigit(c: char) {
    '0' <= c <= '9'
  }

  predicate AllDigits(s: string) {
    forall i :: 0 <= i < |s| ==> IsDigit(s[i])
  }

  function DigitChar(d: nat): (c: char)
    requires d < 10
    ensures IsDigit(c) && DigitValue(c) == d
  {
    "0123456789"[d]
  }

  function DigitValue(c: char): nat
    requires IsDigit(c)
  {
    (c as int - '0' as int) as nat
  }

  /** The value of a string of decimal digits, most significant first. */
  function DigitsToNat(s: string): nat
    requires AllDigits(s)
  {
    if s == [] then 0 else DigitsToNat(s[..|s| - 1]) * 10 + DigitValue(s[|s| - 1])
  }

  /** `String(n)` for a non-negative integer. */
  function NatToString(n: nat): (s: string)
    ensures |s| > 0 && AllDigits(s)
    ensures |s| > 1 ==> s[0] != '0'
  {
    if n < 10 then [DigitChar(n)] else NatToString(n / 10) + [DigitChar(n % 10)]
  }

  /** `String(n)` for any integer. */
  function IntToString(n: int): (s: string)
    ensures |s| > 0
  {
    if n < 0 then "-" + NatToString(-n) else NatToString(n)
  }

  /** Reading back the decimal rendering of `n` gives `n`. */
  lemma {:induction false} NatToStringRoundTrip(n: nat)
    ensures DigitsToNat(NatToString(n)) == n
  {
    if n >= 10 {
      NatToStringRoundTrip(n / 10);
      var s := NatToString(n);
      assert s[..|s| - 1] == NatToString(n / 10);
    }
  }

  /** Distinct numbers render as distinct strings. */
  lemma NatToStringInjective(m: nat, n: nat)
    requires NatToString(m) == NatToString(n)
    ensures m == n
  {
    NatToStringRoundTrip(m);
    NatToStringRoundTrip(n);
  }

  /** `s.includes(sub)`. */
  predicate Contains(s: string, sub: string) {
    exists i :: 0 <= i <= |s| - |sub| && OccursAt(s, sub, i)
  }

  predicate OccursAt(s: string, sub: string, i: int) {
    0 <= i && i + |sub| <= |s| && s[i..i + |sub|] == sub
  }

  /** `s.replace(/[$,]/g, '')`: every dollar sign and comma removed. */
  function StripCurrency(s: string): (r: string)
    ensures |r| <= |s|
  {
    if s == [] then []
    else (if IsCurrencyMark(s[0]) then [] else [s[0]]) + StripCurrency(s[1..])
  }

  predicate IsCurrencyMark(c: char) {
    c == '$' || c == ','
  }

  /** No dollar sign or comma is left. */
  lemma {:induction false} StripCurrencyRemovesMarks(s: string)
    ensures forall i :: 0 <= i < |StripCurrency(s)| ==> !IsCurrencyMark(StripCurrency(s)[i])
  {
    if s != [] {
      StripCurrencyRemovesMarks(s[1..]);
    }
  }

  /** Removing the characters again changes nothing; a string without them
      is left as it is. */
  lemma {:induction false} StripCurrencyIdentity(s: string)
    requires forall i :: 0 <= i < |s| ==> !IsCurrencyMark(s[i])
    ensures StripCurrency(s) == s
  {
    if s != [] {
      StripCurrencyIdentity(s[1..]);
    }
  }

  lemma {:induction false} StripCurrencyAppend(a: string, b: string)
    ensures StripCurrency(a + b) == StripCurrency(a) + StripCurrency(b)
  {
    if a == [] {
      assert a + b == b;
    } else {
      var h := if IsCurrencyMark(a[0]) then [] else [a[0]];
      assert (a + b)[0] == a[0];
      assert (a + b)[1..] == a[1..] + b;
      StripCurrencyAppend(a[1..], b);
      calc {
        StripCurrency(a + b);
        h + StripCurrency(a[1..] + b);
        h + (StripCurrency(a[1..]) + StripCurrency(b));
        (h + StripCurrency(a[1..])) + StripCurrency(b);
      }
    }
  }

  /** The longest prefix of `s` made of decimal digits. */
  function LeadingDigits(s: string): (d: string)
    ensures |d| <= |s| && d == s[..|d|] && AllDigits(d)
    ensures |d| < |s| ==> !IsDigit(s[|d|])
  {
    if s == [] || !IsDigit(s[0]) then [] else [s[0]] + LeadingDigits(s[1..])
  }

  lemma {:induction false} LeadingDigitsOfDigits(d: string, rest: string)
    requires AllDigits(d)
    requires rest == [] || !IsDigit(rest[0])
    ensures LeadingDigits(d + rest) == d
  {
    if d != [] {
      assert (d + rest)[1..] == d[1..] + rest;
      LeadingDigitsOfDigits(d[1..], rest);
    }
  }

  /** The number `parseFloat` reads from the start of a string, kept exact:
      a sign, the whole part and the digits after the point. */
  datatype Decimal = Decimal(negative: bool, whole: nat, fraction: string)

  /** The number prefix of `s` as `parseFloat` reads it: an optional sign,
      digits, an optional point followed by digits; `None` is NaN (no digit
      at all). */
  function ParseDecimal(s: string): (r: Option<Decimal>)
    ensures r.Some? ==> AllDigits(r.value.fraction)
  {
    var negative := |s| > 0 && s[0] == '-';
    var body := if |s| > 0 && (s[0] == '-' || s[0] == '+') then s[1..] else s;
    var whole := LeadingDigits(body);
    var rest := body[|whole|..];
    var fraction := if |rest| > 0 && rest[0] == '.' then LeadingDigits(rest[1..]) else [];
    if whole == [] && fraction == [] then None
    else Some(Decimal(negative, DigitsToNat(whole), fraction))
  }

  /** The value of the digits after the point: 0.d1 d2 d3 ... */
  ghost function FractionValue(ds: string): real
    requires AllDigits(ds)
  {
    if ds == [] then 0.0 else (DigitValue(ds[0]) as real + FractionValue(ds[1..])) / 10.0
  }

  ghost function DecimalValue(d: Decimal): real
    requires AllDigits(d.fraction)
  {
    var magnitude := d.whole as real + FractionValue(d.fraction);
    if d.negative then -magnitude else magnitude
  }

  predicate HasNonZeroDigit(ds: string) {
    exists i :: 0 <= i < |ds| && ds[i] != '0'
  }

  /** Whether the number exceeds the whole number `limit`, decided on the
      digits alone. */
  predicate Exceeds(d: Decimal, limit: nat) {
    !d.negative && (d.whole > limit || (d.whole == limit && HasNonZeroDigit(d.fraction)))
  }

  lemma {:induction false} FractionValueRange(ds: string)
    requires AllDigits(ds)
    ensures 0.0 <= FractionValue(ds) < 1.0
    ensures FractionValue(ds) > 0.0 <==> HasNonZeroDigit(ds)
  {
    if ds != [] {
      FractionValueRange(ds[1..]);
      if HasNonZeroDigit(ds[1..]) {
        var i :| 0 <= i < |ds[1..]| && ds[1..][i] != '0';
        assert ds[i + 1] != '0';
      }
      if HasNonZeroDigit(ds) && ds[0] == '0' {
        var i :| 0 <= i < |ds| && ds[i] != '0';
        assert ds[1..][i - 1] != '0';
      }
    }
  }

  /** `Exceeds` is the numeric comparison `value > limit`. */
  lemma ExceedsIsGreater(d: Decimal, limit: nat)
    requires AllDigits(d.fraction)
    ensures Exceeds(d, limit) <==> DecimalValue(d) > limit as real
  {
    FractionValueRange(d.fraction);
  }

  /** A character `parseInt` skips before the number: the white space and
      line terminators of section 7.2 and 7.3 of ECMA-262. */
  predicate IsJsSpace(c: char) {
    || c == ' ' || c == '\t' || c == '\n' || c == '\r' || c == '\U{000B}' || c == '\U{000C}'
    || c == '\U{00A0}' || c == '\U{1680}' || '\U{2000}' <= c <= '\U{200A}' || c == '\U{2028}'
    || c == '\U{2029}' || c == '\U{202F}' || c == '\U{205F}' || c == '\U{3000}' || c == '\U{FEFF}'
  }

  /** `s` with its leading white space removed. */
  function TrimStart(s: string): (r: string)
    ensures |r| <= |s|
    ensures r == [] || !IsJsSpace(r[0])
  {
    if s != [] && IsJsSpace(s[0]) then TrimStart(s[1..]) else s
  }

  predicate IsHexDigit(c: char) {
    IsDigit(c) || 'a' <= c <= 'f' || 'A' <= c <= 'F'
  }

  function HexDigitValue(c: char): (v: nat)
    requires IsHexDigit(c)
    ensures v < 16
  {
    if IsDigit(c) then DigitValue(c)
    else if 'a' <= c <= 'f' then (c as int - 'a' as int + 10) as nat
    else (c as int - 'A' as int + 10) as nat
  }

  predicate AllHexDigits(s: string) {
    forall i :: 0 <= i < |s| ==> IsHexDigit(s[i])
  }

  /** The value of a string of hexadecimal digits, most significant first. */
  function HexDigitsToNat(s: string): nat
    requires AllHexDigits(s)
  {
    if s == [] then 0 else HexDigitsToNat(s[..|s| - 1]) * 16 + HexDigitValue(s[|s| - 1])
  }

  /** The longest prefix of `s` made of hexadecimal digits. */
  function LeadingHexDigits(s: string): (d: string)
    ensures |d| <= |s| && d == s[..|d|] && AllHexDigits(d)
    ensures |d| < |s| ==> !IsHexDigit(s[|d|])
  {
    if s == [] || !IsHexDigit(s[0]) then [] else [s[0]] + LeadingHexDigits(s[1..])
  }

  lemma {:induction false} LeadingHexDigitsOfHexDigits(d: string, rest: string)
    requires AllHexDigits(d)
    requires rest == [] || !IsHexDigit(rest[0])
    ensures LeadingHexDigits(d + rest) == d
  {
    if d != [] {
      assert (d + rest)[1..] == d[1..] + rest;
      LeadingHexDigitsOfHexDigits(d[1..], rest);
    }
  }

  /** Whether an unsigned number body starts with the `0x` or `0X` prefix. */
  predicate HasHexPrefix(body: string) {
    |body| >= 2 && body[0] == '0' && (body[1] == 'x' || body[1] == 'X')
  }

  /** The magnitude `parseInt` reads after the sign: hexadecimal digits after
      a `0x`/`0X` prefix, decimal digits otherwise; `None` when there is no
      digit. */
  function ParseMagnitude(body: string): (r: Option<nat>)
    ensures r.None? <==>
      if HasHexPrefix(body) then LeadingHexDigits(body[2..]) == [] else LeadingDigits(body) == []
  {
    if HasHexPrefix(body) then
      var digits := LeadingHexDigits(body[2..]);
      if digits == [] then None else Some(HexDigitsToNat(digits))
    else
      var digits := LeadingDigits(body);
      if digits == [] then None else Some(DigitsToNat(digits))
  }

  /** `parseInt(s)` with no radix: leading white space skipped, an optional
      sign, then the magnitude; `None` is NaN. */
  function ParseIntPrefix(s: string): (r: Option<int>)
    ensures r.Some? && |s| > 0 && IsDigit(s[0]) ==> r.value >= 0
  {
    var t := TrimStart(s);
    var magnitude := ParseMagnitude(UnsignedBody(t));
    if magnitude.None? then None
    else if |t| > 0 && t[0] == '-' then Some(-(magnitude.value as int))
    else Some(magnitude.value as int)
  }

  /** What follows an optional leading sign. */
  function UnsignedBody(t: string): (b: string)
    ensures |t| > 0 && (t[0] == '-' || t[0] == '+') ==> b == t[1..]
    ensures |t| == 0 || (t[0] != '-' && t[0] != '+') ==> b == t
  {
    if |t| > 0 && (t[0] == '-' || t[0] == '+') then t[1..] else t
  }

  /** A rendered number is read back by `parseInt`. */
  lemma ParseIntOfNatToString(n: nat)
    ensures ParseIntPrefix(NatToString(n)) == Some(n)
  {
    ParseIntReadsDecimalPrefix(n, []);
    assert NatToString(n) + [] == NatToString(n);
  }

  /** `parseInt` reads a rendered number followed by anything that is not a
      digit as that number; after a lone `0` an `x` or `X` would start a
      hexadecimal number instead. */
  lemma ParseIntReadsDecimalPrefix(n: nat, rest: string)
    requires rest == [] || !IsDigit(rest[0])
    requires n == 0 ==> rest == [] || (rest[0] != 'x' && rest[0] != 'X')
    ensures ParseIntPrefix(NatToString(n) + rest) == Some(n)
  {
    var s := NatToString(n);
    assert (s + rest)[0] == s[0];
    assert TrimStart(s + rest) == s + rest;
    LeadingDigitsOfDigits(s, rest);
    NatToStringRoundTrip(n);
    if |s| == 1 && rest != [] {
      assert (s + rest)[1] == rest[0];
    }
  }

  /** White space before the number changes nothing. */
  lemma {:induction false} ParseIntSkipsSpace(ws: string, s: string)
    requires forall i :: 0 <= i < |ws| ==> IsJsSpace(ws[i])
    ensures ParseIntPrefix(ws + s) == ParseIntPrefix(s)
  {
    TrimStartSpace(ws, s);
  }

  lemma {:induction false} TrimStartSpace(ws: string, s: string)
    requires forall i :: 0 <= i < |ws| ==> IsJsSpace(ws[i])
    ensures TrimStart(ws + s) == TrimStart(s)
  {
    if ws == [] {
      assert ws + s == s;
    } else {
      assert (ws + s)[0] == ws[0];
      assert (ws + s)[1..] == ws[1..] + s;
      TrimStartSpace(ws[1..], s);
    }
  }

  /** After `0x` or `0X`, the digits are read in base 16, up to the first
      character that is not a hexadecimal digit. */
  lemma ParseIntReadsHex(x: char, d: string, rest: string)
    requires x == 'x' || x == 'X'
    requires d != [] && AllHexDigits(d)
    requires rest == [] || !IsHexDigit(rest[0])
    ensures ParseIntPrefix(['0', x] + d + rest) == Some(HexDigitsToNat(d))
  {
    var s := ['0', x] + d + rest;
    assert TrimStart(s) == s;
    assert UnsignedBody(s) == s;
    assert s[2..] == d + rest;
    LeadingHexDigitsOfHexDigits(d, rest);
  }

  /** A hexadecimal prefix with no digit after it is NaN. */
  lemma ParseIntEmptyHex(x: char, rest: string)
    requires x == 'x' || x == 'X'
    requires rest == [] || !IsHexDigit(rest[0])
    ensures ParseIntPrefix(['0', x] + rest).None?
  {
    var s := ['0', x] + rest;
    assert TrimStart(s) == s;
    assert UnsignedBody(s) == s;
    assert s[2..] == rest;
  }

  /** A leading minus negates the number that follows it. */
  lemma ParseIntNegates(s: string)
    requires s == [] || (!IsJsSpace(s[0]) && s[0] != '-' && s[0] != '+')
    ensures ParseIntPrefix("-" + s) == if ParseIntPrefix(s).Some? then Some(-ParseIntPrefix(s).value) else None
  {
    var t := "-" + s;
    assert TrimStart(t) == t;
    assert t[1..] == s;
    assert TrimStart(s) == s;
  }
}
