/// `parseInt` without a radix argument, as the import applies it to a
/// recipe's declared yield, and its agreement with `String(n)`.
module JsNumbers {
  import opened JsValues
  import opened JsText

  /** The value of `c` as a digit in base `radix` (10 or 16), or `radix` when it is none. */
  function DigitValue(c: char, radix: nat): (d: nat)
    requires radix == 10 || radix == 16
    ensures d <= radix
  {
    if '0' <= c <= '9' then c as nat - 48
    else if radix == 16 && 'a' <= c <= 'f' then c as nat - 87
    else if radix == 16 && 'A' <= c <= 'F' then c as nat - 55
    else radix
  }

  /** How many leading characters of `s` are digits in base `radix`. */
  function DigitRun(s: string, radix: nat): (n: nat)
    requires radix == 10 || radix == 16
    ensures n <= |s|
    ensures forall i :: 0 <= i < n ==> DigitValue(s[i], radix) < radix
    ensures n < |s| ==> DigitValue(s[n], radix) == radix
  {
    if s == [] || DigitValue(s[0], radix) == radix then 0 else 1 + DigitRun(s[1..], radix)
  }

  /** The number a string of base-`radix` digits denotes. */
  function DigitsValue(ds: string, radix: nat): nat
    requires radix == 10 || radix == 16
  {
    if ds == [] then 0
    else
      var high := DigitsValue(ds[..|ds| - 1], radix);
      (if radix == 16 then high * 16 else high * 10) + DigitValue(ds[|ds| - 1], radix)
  }

  /** `parseInt(s)` with no radix argument; None is NaN. Leading white space
      and one sign are skipped, a "0x"/"0X" prefix selects base 16, and the
      longest run of digits that follows is read; no digits gives NaN. */
  function ParseInt(s: string): Option<int> {
    ParseSigned(TrimStart(s))
  }

  /** `parseInt` after the leading white space. */
  function ParseSigned(t: string): Option<int> {
    if t != [] && (t[0] == '-' || t[0] == '+') then
      match ParseUnsigned(t[1..])
      case None => None
      case Some(v) => Some(if t[0] == '-' then -(v as int) else v)
    else
      match ParseUnsigned(t)
      case None => None
      case Some(v) => Some(v)
  }

  /** `parseInt` after the sign: an optional "0x"/"0X" prefix, then digits. */
  function ParseUnsigned(u: string): Option<int> {
    var hex := |u| >= 2 && u[0] == '0' && (u[1] == 'x' || u[1] == 'X');
    var body := if hex then u[2..] else u;
    var radix := if hex then 16 else 10;
    var n := DigitRun(body, radix);
    if n == 0 then None else Some(DigitsValue(body[..n], radix))
  }

  lemma {:induction false} DecimalDigitsValue(n: nat)
    ensures DigitRun(NatToDecimal(n), 10) == |NatToDecimal(n)|
    ensures DigitsValue(NatToDecimal(n), 10) == n
  {
    var ds := NatToDecimal(n);
    if n >= 10 {
      DecimalDigitsValue(n / 10);
      assert ds[..|ds| - 1] == NatToDecimal(n / 10);
    }
  }

  /** The digits of `n` followed by anything that does not continue the
      number read back as `n`: `parseInt("4 servings") == 4`. */
  lemma {:induction false} ParseIntOfDecimal(n: nat, rest: string)
    requires rest == [] || (!IsDigit(rest[0]) && !IsJsSpace(rest[0]))
    requires n == 0 && rest != [] ==> rest[0] != 'x' && rest[0] != 'X'
    ensures ParseInt(NatToDecimal(n) + rest) == Some(n)
  {
    var ds := NatToDecimal(n);
    assert IsDigit(ds[0]);
    ParseUnsignedOfDecimal(n, rest);
    ParseIntOfUnsigned(ds + rest, n);
  }

  /** A string that starts with a digit reads as its unsigned reading. */
  lemma {:induction false} ParseIntOfUnsigned(s: string, n: nat)
    requires s != [] && IsDigit(s[0])
    requires ParseUnsigned(s) == Some(n)
    ensures ParseInt(s) == Some(n)
  {
    assert !IsJsSpace(s[0]);
    NoLeadingSpace(s);
    UnsignedStart(s);
    calc {
      ParseInt(s);
      ParseSigned(s);
      ParseUnsigned(s);
    }
  }

  lemma {:induction false} NoLeadingSpace(s: string)
    requires s == [] || !IsJsSpace(s[0])
    ensures ParseInt(s) == ParseSigned(s)
  {
    assert TrimStart(s) == s;
  }

  lemma {:induction false} UnsignedStart(s: string)
    requires s != [] && IsDigit(s[0])
    ensures ParseSigned(s) == ParseUnsigned(s)
  {
  }

  lemma {:induction false} ParseUnsignedOfDecimal(n: nat, rest: string)
    requires rest == [] || !IsDigit(rest[0])
    requires n == 0 && rest != [] ==> rest[0] != 'x' && rest[0] != 'X'
    ensures ParseUnsigned(NatToDecimal(n) + rest) == Some(n)
  {
    var ds := NatToDecimal(n);
    var s := ds + rest;
    DecimalDigitsValue(n);
    assert !(|s| >= 2 && s[0] == '0' && (s[1] == 'x' || s[1] == 'X')) by {
      if n != 0 {
        LeadingDigitNonZero(n);
        assert s[0] == ds[0];
      } else {
        assert ds == "0";
      }
    }
    DigitRunPrefix(ds, rest);
    assert s[..|ds|] == ds;
  }

  lemma {:induction false} LeadingDigitNonZero(n: nat)
    requires n != 0
    ensures NatToDecimal(n)[0] != '0'
  {
    if n >= 10 { LeadingDigitNonZero(n / 10); }
  }

  lemma {:induction false} DigitRunPrefix(ds: string, rest: string)
    requires DigitRun(ds, 10) == |ds|
    requires rest == [] || !IsDigit(rest[0])
    ensures DigitRun(ds + rest, 10) == |ds|
  {
    if ds != [] {
      assert (ds + rest)[1..] == ds[1..] + rest;
      DigitRunPrefix(ds[1..], rest);
    } else {
      assert ds + rest == rest;
    }
  }

  /** `parseInt(String(n)) == n` for every integer. */
  lemma {:induction false} ParseIntOfIntToString(n: int)
    ensures ParseInt(IntToString(n)) == Some(n)
  {
    if n >= 0 {
      NonNegativeIntToString(n);
    } else {
      NegativeIntToString(n);
    }
  }

  lemma NonNegativeIntToString(n: nat)
    ensures ParseInt(IntToString(n)) == Some(n)
  {
    assert IntToString(n) == NatToDecimal(n) + [];
    ParseIntOfDecimal(n, []);
  }

  lemma {:induction false} NegativeIntToString(n: int)
    requires n < 0
    ensures ParseInt(IntToString(n)) == Some(n)
  {
    var m: nat := -n;
    var ds := NatToDecimal(m);
    assert IntToString(n) == "-" + ds;
    ParseUnsignedOfDecimal(m, []);
    assert ds + [] == ds;
    ParseIntOfNegative(ds, m);
  }

  /** A minus sign followed by an unsigned reading negates it. */
  lemma {:induction false} ParseIntOfNegative(ds: string, n: nat)
    requires ParseUnsigned(ds) == Some(n)
    ensures ParseInt("-" + ds) == Some(-(n as int))
  {
    var s := "-" + ds;
    NoLeadingSpace(s);
    assert s[1..] == ds;
  }
}
