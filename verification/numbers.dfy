/** Integer coercion as the generator performs it: JavaScript's `parseInt`
    on a form value (a decimal prefix, or NaN), template-literal printing of
    the parsed number, and the `parseInt(port) || 80` fallback. */
module Numbers {
  import opened Text

  datatype Option<T> = None | Some(value: T)

  predicate IsDigit(c: char) {
    '0' <= c <= '9'
  }

  predicate AllDigits(s: string) {
    forall i :: 0 <= i < |s| ==> IsDigit(s[i])
  }

  function DigitValue(c: char): (d: nat)
    requires IsDigit(c)
    ensures d < 10
  {
    (c as int) - ('0' as int)
  }

  function DigitChar(d: nat): (c: char)
    requires d < 10
    ensures IsDigit(c) && DigitValue(c) == d
  {
    (('0' as int) + d) as char
  }

  /** The value of a string of decimal digits, read left to right. */
  function DigitsValue(ds: string): nat
    requires AllDigits(ds)
  {
    if |ds| == 0 then 0 else DigitsValue(ds[..|ds| - 1]) * 10 + DigitValue(ds[|ds| - 1])
  }

  /** Decimal text of a natural number, without leading zeros. */
  function NatToString(n: nat): (r: string)
    ensures |r| > 0 && AllDigits(r)
    ensures |r| > 1 ==> r[0] != '0'
  {
    if n < 10 then [DigitChar(n)] else NatToString(n / 10) + [DigitChar(n % 10)]
  }

  /** `${n}` for an integer value. */
  function IntToString(n: int): (r: string)
    ensures |r| > 0 && r[0] != ' '
  {
    if n < 0 then "-" + NatToString(-n) else NatToString(n)
  }

  /** The longest run of decimal digits at the start of `s`. */
  function LeadingDigits(s: string): (r: string)
    ensures |r| <= |s| && r == s[..|r|] && AllDigits(r)
    ensures |r| < |s| ==> !IsDigit(s[|r|])
  {
    if |s| > 0 && IsDigit(s[0]) then [s[0]] + LeadingDigits(s[1..]) else ""
  }

  /** The value of the decimal digits at the start of `u`, if any. */
  function ParseDecimal(u: string): (r: Option<nat>)
    ensures r.None? <==> |u| == 0 || !IsDigit(u[0])
  {
    var ds := LeadingDigits(u);
    if |ds| == 0 then None else Some(DigitsValue(ds))
  }

  /** `parseInt(s)` with the default radix on decimal input: skip leading
      white space, accept one sign, read the decimal digits that follow and
      ignore the rest; no digits at all is `NaN`, here `None`. */
  function ParseInt(s: string): (r: Option<int>)
    ensures (forall i :: 0 <= i < |s| ==> !IsDigit(s[i])) ==> r.None?
  {
    var t := TrimStart(s);
    assert forall i :: 0 <= i < |t| ==> t[i] == s[|s| - |t| + i];
    ParseSigned(t)
  }

  /** `parseInt` once the leading white space is gone. */
  function ParseSigned(t: string): (r: Option<int>)
    ensures (forall i :: 0 <= i < |t| ==> !IsDigit(t[i])) ==> r.None?
  {
    if |t| > 0 && t[0] == '-' then
      match ParseDecimal(t[1..])
      case None => None
      case Some(v) => Some(-(v as int))
    else
      var unsigned := if |t| > 0 && t[0] == '+' then t[1..] else t;
      match ParseDecimal(unsigned)
      case None => None
      case Some(v) => Some(v)
  }

  /** Where `parseInt` finds a number: at position `i`, after nothing but
      white space, there is a digit, or a sign followed by a digit. */
  predicate NumberAt(s: string, i: nat) {
    && i < |s|
    && (forall k :: 0 <= k < i ==> IsJsSpace(s[k]))
    && (IsDigit(s[i]) || ((s[i] == '+' || s[i] == '-') && i + 1 < |s| && IsDigit(s[i + 1])))
  }

  /** A digit, or a sign followed by a digit, at the start of `t`. */
  predicate NumberStart(t: string) {
    |t| > 0 && (IsDigit(t[0]) || ((t[0] == '+' || t[0] == '-') && |t| > 1 && IsDigit(t[1])))
  }

  lemma SignedDefined(t: string)
    ensures ParseSigned(t).Some? <==> NumberStart(t)
  {
  }

  /** A number can only start right after the leading white space. */
  lemma NumberAtTrim(s: string, i: nat)
    requires NumberAt(s, i)
    ensures i == |s| - |TrimStart(s)|
  {
  }

  /** `parseInt` yields a number exactly when, past the leading white space
      and at most one sign, a digit follows. */
  lemma ParseIntDefined(s: string)
    ensures ParseInt(s).Some? <==> exists i :: NumberAt(s, i)
  {
    var t := TrimStart(s);
    var i0 := |s| - |t|;
    SignedDefined(t);
    assert NumberStart(t) <==> NumberAt(s, i0) by {
      if |t| > 0 {
        assert t[0] == s[i0];
      }
      if |t| > 1 {
        assert t[1] == s[i0 + 1];
      }
    }
    forall i | NumberAt(s, i)
      ensures i == i0
    {
      NumberAtTrim(s, i);
    }
  }

  /** Leading white space does not change what `parseInt` reads. */
  lemma SpaceSkipped(c: char, s: string)
    requires IsJsSpace(c)
    ensures ParseInt([c] + s) == ParseInt(s)
  {
    assert TrimStart([c] + s) == TrimStart(s) by {
      assert ([c] + s)[1..] == s;
    }
  }

  /** A plus sign before text whose decimal prefix reads as `v` gives `v`. */
  lemma PlusPrefix(x: string, v: nat)
    requires ParseDecimal(x) == Some(v)
    ensures ParseInt("+" + x) == Option<int>.Some(v as int)
  {
    var s := "+" + x;
    assert s[0] == '+' && s[1..] == x;
    NoLeadingSpace(s);
  }

  /** Text that starts with anything other than white space, a sign or a
      digit is `NaN`, whatever follows. */
  lemma NoNumberStart(c: char, s: string)
    requires !IsJsSpace(c) && !IsDigit(c) && c != '+' && c != '-'
    ensures ParseInt([c] + s).None?
  {
    NoLeadingSpace([c] + s);
  }

  /** `${parseInt(s)}`: the decimal text of the parsed value, or `NaN`. */
  function IntText(s: string): string {
    match ParseInt(s)
    case None => "NaN"
    case Some(n) => IntToString(n)
  }

  /** The printed number is `NaN` exactly when nothing parses, and otherwise
      parses back to the same value. */
  lemma {:induction false} IntTextReparses(s: string)
    ensures IntText(s) == "NaN" <==> ParseInt(s).None?
    ensures ParseInt(s).Some? ==> ParseInt(IntText(s)) == ParseInt(s)
  {
    match ParseInt(s)
    case None =>
    case Some(n) =>
      ParseIntRoundTrip(n, "");
      assert IntToString(n) + "" == IntToString(n);
      assert IntToString(n)[0] != 'N';
  }

  /** `parseInt(s) || 80`: NaN and zero are falsy, so both fall back to 80;
      any other parsed value, negative ones included, is kept. */
  function PortOr80(s: string): (port: int)
    ensures port != 0
    ensures ParseInt(s).Some? && ParseInt(s).value != 0 ==> port == ParseInt(s).value
    ensures ParseInt(s).None? || ParseInt(s) == Some(0) ==> port == 80
  {
    match ParseInt(s)
    case Some(n) => if n != 0 then n else 80
    case None => 80
  }

  lemma {:induction false} DigitsValueOfNat(n: nat)
    ensures DigitsValue(NatToString(n)) == n
  {
    if n >= 10 {
      var r := NatToString(n);
      assert r[..|r| - 1] == NatToString(n / 10);
      DigitsValueOfNat(n / 10);
    }
  }

  lemma {:induction false} LeadingDigitsOf(ds: string, rest: string)
    requires AllDigits(ds)
    requires |rest| == 0 || !IsDigit(rest[0])
    ensures LeadingDigits(ds + rest) == ds
  {
    if |ds| > 0 {
      assert (ds + rest)[1..] == ds[1..] + rest;
      LeadingDigitsOf(ds[1..], rest);
    } else {
      assert ds + rest == rest;
    }
  }

  lemma {:induction false} NoLeadingSpace(s: string)
    requires |s| > 0 && !IsJsSpace(s[0])
    ensures TrimStart(s) == s
  {
  }

  /** A run of digits followed by text that does not continue it parses to
      the run's value. */
  lemma {:induction false} ParseDigits(ds: string, rest: string)
    requires |ds| > 0 && AllDigits(ds)
    requires |rest| == 0 || !IsDigit(rest[0])
    ensures ParseDecimal(ds + rest) == Some(DigitsValue(ds))
  {
    LeadingDigitsOf(ds, rest);
  }

  lemma {:induction false} ParsePositiveText(ds: string, rest: string)
    requires |ds| > 0 && AllDigits(ds)
    requires |rest| == 0 || !IsDigit(rest[0])
    ensures ParseInt(ds + rest) == Some(DigitsValue(ds))
  {
    var s := ds + rest;
    assert s[0] == ds[0];
    NoLeadingSpace(s);
    ParseDigits(ds, rest);
  }

  lemma {:induction false} MinusSign(s: string, v: nat)
    requires |s| > 0 && s[0] == '-'
    requires ParseDecimal(s[1..]) == Some(v)
    ensures ParseInt(s) == Option<int>.Some(-(v as int))
  {
    NoLeadingSpace(s);
  }

  /** A minus sign before text whose decimal prefix reads as `v` gives
      `-v`. */
  lemma MinusPrefix(x: string, v: nat)
    requires ParseDecimal(x) == Some(v)
    ensures ParseInt("-" + x) == Option<int>.Some(-(v as int))
  {
    var s := "-" + x;
    assert s[0] == '-' && s[1..] == x;
    MinusSign(s, v);
  }

  /** Parsing the printed form of any integer, followed by text that does not
      continue the number, yields that integer. */
  lemma {:induction false} ParseIntRoundTrip(n: int, rest: string)
    requires |rest| == 0 || !IsDigit(rest[0])
    ensures ParseInt(IntToString(n) + rest) == Some(n)
  {
    var m: nat := if n < 0 then -n else n;
    var ds := NatToString(m);
    assert DigitsValue(ds) == m by {
      DigitsValueOfNat(m);
    }
    if n < 0 {
      assert IntToString(n) + rest == "-" + (ds + rest);
      assert ParseDecimal(ds + rest) == Some(m) by {
        ParseDigits(ds, rest);
      }
      MinusPrefix(ds + rest, m);
    } else {
      assert IntToString(n) + rest == ds + rest;
      ParsePositiveText(ds, rest);
    }
  }
}
