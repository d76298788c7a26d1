/** The popup-delay attribute: `parseInt(val, 10)`, and the fallback to the
    configured delay when the result is `NaN`. A parse result is `Some(n)` for a
    number and `None` for `NaN`. */
module DelayParsing {
  import opened Wrappers

  predicate IsDigit(c: char)
  {
    '0' <= c <= '9'
  }

  /** The white-space and line-terminator characters `parseInt` skips before
      the number. */
  predicate IsSpace(c: char)
    ensures IsSpace(c) ==> !IsDigit(c) && c != '-' && c != '+'
  {
    || c == ' ' || c == '\t' || c == '\n' || c == '\r'
    || c == '\U{000B}' || c == '\U{000C}' || c == '\U{00A0}' || c == '\U{1680}'
    || ('\U{2000}' <= c <= '\U{200A}')
    || c == '\U{2028}' || c == '\U{2029}' || c == '\U{202F}' || c == '\U{205F}'
    || c == '\U{3000}' || c == '\U{FEFF}'
  }

  function DigitValue(c: char): (d: nat)
    requires IsDigit(c)
    ensures d < 10
  {
    c as int - '0' as int
  }

  function DigitChar(d: nat): (c: char)
    requires d < 10
    ensures IsDigit(c) && DigitValue(c) == d
  {
    ('0' as int + d) as char
  }

  predicate AllDigits(s: string)
  {
    forall i :: 0 <= i < |s| ==> IsDigit(s[i])
  }

  /** The input with its leading white space removed. */
  function TrimStart(s: string): (r: string)
    ensures |r| <= |s| && r == s[|s| - |r|..]
    ensures r == [] || !IsSpace(r[0])
  {
    if s != [] && IsSpace(s[0]) then TrimStart(s[1..]) else s
  }

  /** The longest prefix of decimal digits. */
  function LeadingDigits(s: string): (r: string)
    ensures |r| <= |s| && r == s[..|r|] && AllDigits(r)
    ensures |r| < |s| ==> !IsDigit(s[|r|])
  {
    if s != [] && IsDigit(s[0]) then [s[0]] + LeadingDigits(s[1..]) else []
  }

  /** Every digit is `0`. */
  predicate AllZero(ds: string)
  {
    forall i :: 0 <= i < |ds| ==> ds[i] == '0'
  }

  /** The number a string of decimal digits denotes; it is zero exactly
      when every digit is `0`. */
  function DigitsValue(ds: string): (n: nat)
    requires AllDigits(ds)
    ensures |ds| == 1 ==> n == DigitValue(ds[0])
    ensures AllZero(ds) <==> n == 0
  {
    if ds == [] then 0 else DigitsValue(ds[..|ds| - 1]) * 10 + DigitValue(ds[|ds| - 1])
  }

  /** `parseInt(s, 10)`: skip white space, then read the rest with
      `ParseTrimmed`. */
  function ParseInt(s: string): (r: Option<int>)
    ensures var t := TrimStart(s);
            var signed := t != [] && (t[0] == '-' || t[0] == '+');
            r.Some? <==> LeadingDigits(if signed then t[1..] else t) != []
  {
    ParseTrimmed(TrimStart(s))
  }

  /** An optional sign, then the longest run of digits; `NaN` when that run
      is empty. Whatever follows the digits is ignored. */
  function ParseTrimmed(t: string): (r: Option<int>)
    ensures t != [] && IsDigit(t[0]) ==> r.Some? && r.value >= 0
    ensures t != [] && t[0] == '-' && r.Some? ==> r.value <= 0
    ensures t == [] || (!IsDigit(t[0]) && t[0] != '-' && t[0] != '+') ==> r.None?
  {
    if t != [] && (t[0] == '-' || t[0] == '+') then
      var ds := LeadingDigits(t[1..]);
      if ds == [] then None
      else if t[0] == '-' then Some(-(DigitsValue(ds) as int))
      else Some(DigitsValue(ds))
    else
      var ds := LeadingDigits(t);
      if ds == [] then None else Some(DigitsValue(ds))
  }

  /** The popup-delay observer: the parsed attribute, or `fallback` (the
      configured `popupDelay`) when the attribute is absent or not a number.
      An absent attribute parses as the text `undefined`, which is `NaN`. */
  function PopupDelay(val: Option<string>, fallback: int): (delay: int)
    ensures val.None? ==> delay == fallback
    ensures val.Some? && ParseInt(val.value).None? ==> delay == fallback
    ensures val.Some? && ParseInt(val.value).Some? ==> delay == ParseInt(val.value).value
  {
    match val
    case None => fallback
    case Some(s) => ParseInt(s).GetOr(fallback)
  }

  /** The decimal text of a natural number, as a reference for the parser. */
  function Decimal(n: nat): (s: string)
    ensures s != [] && AllDigits(s)
  {
    if n < 10 then [DigitChar(n)] else Decimal(n / 10) + [DigitChar(n % 10)]
  }

  /** The decimal text of an integer, with `-` for a negative one. */
  function Signed(n: int): string
  {
    if n < 0 then "-" + Decimal(-n) else Decimal(n)
  }

  lemma {:induction false} DigitsValueOfDecimal(n: nat)
    ensures DigitsValue(Decimal(n)) == n
  {
    if n >= 10 {
      var s := Decimal(n);
      assert s[..|s| - 1] == Decimal(n / 10);
      DigitsValueOfDecimal(n / 10);
    }
  }

  lemma {:induction false} LeadingDigitsOfDigits(ds: string, rest: string)
    requires AllDigits(ds)
    requires rest == [] || !IsDigit(rest[0])
    ensures LeadingDigits(ds + rest) == ds
  {
    if ds != [] {
      assert (ds + rest)[1..] == ds[1..] + rest;
      LeadingDigitsOfDigits(ds[1..], rest);
    } else {
      assert ds + rest == rest;
    }
  }

  /** Parsing the decimal text of any integer gives the integer back, and
      anything after the number that does not start with a digit is ignored
      (`parseInt("300ms", 10)` is 300). */
  lemma ParseIntRoundTrip(n: int, rest: string)
    requires rest == [] || !IsDigit(rest[0])
    ensures ParseInt(Signed(n) + rest) == Some(n)
  {
    var m: nat := if n < 0 then -n else n;
    var d := Decimal(m);
    DigitsValueOfDecimal(m);
    if n < 0 {
      assert Signed(n) + rest == "-" + (d + rest);
      ParseNegative(d, rest);
    } else {
      assert Signed(n) + rest == d + rest;
      ParseDigits(d, rest);
    }
  }

  lemma ParseDigits(d: string, rest: string)
    requires d != [] && AllDigits(d)
    requires rest == [] || !IsDigit(rest[0])
    ensures ParseInt(d + rest) == Some(DigitsValue(d))
  {
    var s := d + rest;
    assert s[0] == d[0];
    TrimStartKeeps(s);
    LeadingDigitsOfDigits(d, rest);
    assert !(s[0] == '-' || s[0] == '+');
    assert ParseTrimmed(s) == Some(DigitsValue(d));
  }

  lemma ParseNegative(d: string, rest: string)
    requires d != [] && AllDigits(d)
    requires rest == [] || !IsDigit(rest[0])
    ensures ParseInt("-" + (d + rest)) == Some(-(DigitsValue(d) as int))
  {
    var s := "-" + (d + rest);
    assert s[0] == '-' && s[1..] == d + rest;
    TrimStartKeeps(s);
    LeadingDigitsOfDigits(d, rest);
    ParseSigned(s, d);
  }

  lemma ParseSigned(t: string, d: string)
    requires t != [] && t[0] == '-' && d != [] && AllDigits(d) && LeadingDigits(t[1..]) == d
    ensures ParseTrimmed(t) == Some(-(DigitsValue(d) as int))
  {
  }

  /** A text that does not start with white space is already trimmed. */
  lemma TrimStartKeeps(s: string)
    requires s != [] && !IsSpace(s[0])
    ensures TrimStart(s) == s
  {
  }

  /** Leading white space does not change the result. */
  lemma {:induction false} ParseIntSkipsSpace(ws: string, s: string)
    requires forall i :: 0 <= i < |ws| ==> IsSpace(ws[i])
    ensures ParseInt(ws + s) == ParseInt(s)
  {
    TrimStartSkipsSpace(ws, s);
  }

  lemma {:induction false} TrimStartSkipsSpace(ws: string, s: string)
    requires forall i :: 0 <= i < |ws| ==> IsSpace(ws[i])
    ensures TrimStart(ws + s) == TrimStart(s)
  {
    if ws == [] {
      assert ws + s == s;
    } else {
      assert (ws + s)[1..] == ws[1..] + s;
      TrimStartSkipsSpace(ws[1..], s);
    }
  }

  /** A text whose first non-blank character is neither a digit nor a sign
      is `NaN` and leaves the configured delay in force. */
  lemma NotANumberFallsBack(ws: string, s: string, fallback: int)
    requires forall i :: 0 <= i < |ws| ==> IsSpace(ws[i])
    requires s != [] && !IsSpace(s[0]) && !IsDigit(s[0]) && s[0] != '-' && s[0] != '+'
    ensures ParseInt(ws + s).None?
    ensures PopupDelay(Some(ws + s), fallback) == fallback
  {
    TrimStartSkipsSpace(ws, s);
    TrimStartKeeps(s);
  }
}
