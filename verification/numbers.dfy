/** Number <-> string conversions the core relies on: `parseInt`,
    `parseFloat`, and the decimal text of an integer (`String(n)`, template
    literals, `'...' + n`). */
module Numbers {
  import opened Js
  import Text

  predicate IsDigit(c: char) {
    '0' <= c <= '9'
  }

  predicate AllDigits(s: string) {
    forall i :: 0 <= i < |s| ==> IsDigit(s[i])
  }

  function DigitChar(d: nat): (c: char)
    requires d < 10
    ensures IsDigit(c) && c as int - '0' as int == d
  {
    ('0' as int + d) as char
  }

  /** The decimal text of a natural number, without leading zeros. */
  function NatToString(n: nat): (r: string)
    ensures |r| >= 1 && AllDigits(r)
    ensures |r| > 1 ==> r[0] != '0'
  {
    if n < 10 then [DigitChar(n)] else NatToString(n / 10) + [DigitChar(n % 10)]
  }

  /** `String(n)` for an integer. */
  function IntToString(n: int): string {
    if n < 0 then "-" + NatToString(-n) else NatToString(n)
  }

  /** The value of a string of decimal digits. */
  function DigitsValue(s: string): nat
    requires AllDigits(s)
  {
    if s == [] then 0
    else DigitsValue(s[..|s| - 1]) * 10 + (s[|s| - 1] as int - '0' as int)
  }

  /** The longest prefix of `s` made of decimal digits. */
  function LeadingDigits(s: string): (r: string)
    ensures r <= s && AllDigits(r)
    ensures |r| == |s| || !IsDigit(s[|r|])
  {
    if s != [] && IsDigit(s[0]) then [s[0]] + LeadingDigits(s[1..]) else []
  }

  /** Drops one leading '+' or '-' and reports whether it was '-'. */
  function Sign(s: string): (bool, string) {
    if s != [] && (s[0] == '-' || s[0] == '+') then (s[0] == '-', s[1..]) else (false, s)
  }

  function Negate(neg: bool, x: real): real {
    if neg then -x else x
  }

  /** `parseInt(s)` with no radix: leading white space, an optional sign,
      then the longest run of decimal digits; NaN when there is none. */
  function ParseInt(s: string): JsNumber {
    var (neg, u) := Sign(Text.TrimStart(s));
    var ds := LeadingDigits(u);
    if ds == [] then NaN else Num(Negate(neg, DigitsValue(ds) as real))
  }

  function Pow10(k: nat): (r: nat)
    ensures r >= 1
  {
    if k == 0 then 1 else 10 * Pow10(k - 1)
  }

  /** The unsigned decimal at the start of `u`, digits [ '.' digits ]
      with at least one digit, if there is one. */
  function DecimalPrefix(u: string): Option<real> {
    var ip := LeadingDigits(u);
    var rest := u[|ip|..];
    var fp := if rest != [] && rest[0] == '.' then LeadingDigits(rest[1..]) else [];
    if ip == [] && fp == [] then None
    else Some(DigitsValue(ip) as real + DigitsValue(fp) as real / Pow10(|fp|) as real)
  }

  /** `parseFloat(s)`: leading white space, an optional sign, then the
      longest decimal prefix; NaN when there is none. */
  function ParseFloat(s: string): JsNumber {
    var (neg, u) := Sign(Text.TrimStart(s));
    match DecimalPrefix(u)
    case None => NaN
    case Some(x) => Num(Negate(neg, x))
  }

  /** `parseFloat(v)` for any value: the value is first turned into a
      string, so a number comes back unchanged and every value whose text
      does not start with a digit (booleans, null, dates, objects) gives NaN. */
  function ParseFloatValue(v: JsValue): (r: JsNumber)
    ensures v.Num? ==> r == v
    ensures v.Str? ==> r == ParseFloat(v.s)
  {
    match v
    case Str(s) => ParseFloat(s)
    case Num(_) => v
    case _ => NaN
  }

  lemma {:induction false} DigitsValueAppend(s: string, c: char)
    requires AllDigits(s) && IsDigit(c)
    ensures AllDigits(s + [c])
    ensures DigitsValue(s + [c]) == DigitsValue(s) * 10 + (c as int - '0' as int)
  {
    assert (s + [c])[..|s|] == s;
  }

  /** Reading back the decimal text of `n` gives `n`. */
  lemma {:induction false} DigitsValueNatToString(n: nat)
    ensures DigitsValue(NatToString(n)) == n
  {
    if n >= 10 {
      DigitsValueNatToString(n / 10);
      DigitsValueAppend(NatToString(n / 10), DigitChar(n % 10));
    }
  }

  lemma {:induction false} LeadingDigitsOfDigits(s: string)
    requires AllDigits(s)
    ensures LeadingDigits(s) == s
  {
    if s != [] {
      LeadingDigitsOfDigits(s[1..]);
    }
  }

  /** Text that starts with a digit or a sign has no leading white space
      to skip, and its sign is read off as written. */
  lemma {:induction false} SignOfIntText(n: int)
    ensures var (neg, u) := Sign(Text.TrimStart(IntToString(n)));
      neg == (n < 0) && u == NatToString(if n < 0 then -n else n)
  {
    var digits := NatToString(if n < 0 then -n else n);
    var text := IntToString(n);
    assert !Text.IsSpace(text[0]);
    assert Text.TrimStart(text) == text;
    if n < 0 {
      assert text[1..] == digits;
    } else {
      assert IsDigit(text[0]);
    }
  }

  /** `parseInt(String(n)) === n` for every integer `n`: the cache
      timestamp written with `toString` reads back as the same number. */
  lemma ParseIntIntToString(n: int)
    ensures ParseInt(IntToString(n)) == Num(n as real)
  {
    var m: nat := if n < 0 then -n else n;
    SignOfIntText(n);
    DigitsValueNatToString(m);
    LeadingDigitsOfDigits(NatToString(m));
  }

  /** `parseFloat(String(n)) === n` for every integer `n`. */
  lemma ParseFloatIntToString(n: int)
    ensures ParseFloat(IntToString(n)) == Num(n as real)
  {
    var m: nat := if n < 0 then -n else n;
    SignOfIntText(n);
    DecimalPrefixOfDigits(NatToString(m));
    DigitsValueNatToString(m);
  }

  lemma DecimalPrefixOfDigits(digits: string)
    requires digits != [] && AllDigits(digits)
    ensures DecimalPrefix(digits) == Some(DigitsValue(digits) as real)
  {
    LeadingDigitsOfDigits(digits);
    var ip := LeadingDigits(digits);
    assert ip == digits;
    var rest := digits[|ip|..];
    assert rest == [];
    var zero := DigitsValue([]);
    assert zero == 0;
    assert Pow10(0) == 1;
  }
}
