/** JavaScript's `parseInt(string)` with no radix argument (section 19.2.5 of ECMA-262):
    leading white space is skipped, one sign is read, a `0x`/`0X` prefix selects base 16, and the
    longest run of digits of the base that follows is the value; no digit at all gives NaN. */
module JsParseInt {
  import opened Outcomes

  /** A JavaScript number as `parseInt` can produce it: NaN or an integer. Minus zero is `Int(0)`,
      which is as falsy as plus zero. */
  datatype Number = NaN | Int(value: int)

  /** JavaScript truthiness of a number: NaN and zero are falsy. */
  predicate Falsy(n: Number)
  {
    n.NaN? || n.value == 0
  }

  /** ECMAScript StrWhiteSpaceChar: the WhiteSpace and LineTerminator code points. */
  predicate IsWhiteSpace(c: char)
  {
    c == '\t' || c == '\n' || c == '\U{000B}' || c == '\U{000C}' || c == '\r' || c == ' '
    || c == '\U{00A0}' || c == '\U{1680}' || ('\U{2000}' <= c <= '\U{200A}')
    || c == '\U{2028}' || c == '\U{2029}' || c == '\U{202F}' || c == '\U{205F}'
    || c == '\U{3000}' || c == '\U{FEFF}'
  }

  predicate IsDecimalDigit(c: char)
  {
    '0' <= c <= '9'
  }

  /** The string with its leading white space removed. */
  function TrimStart(s: string): (r: string)
    ensures |r| <= |s| && r == s[|s| - |r|..]
    ensures r == [] || !IsWhiteSpace(r[0])
  {
    if s != [] && IsWhiteSpace(s[0]) then TrimStart(s[1..]) else s
  }

  /** The value of a character as a digit in bases up to 36; 36 for a character that is no digit. */
  function DigitValue(c: char): (d: nat)
    ensures d <= 36
    ensures d < 10 <==> IsDecimalDigit(c)
    ensures IsDecimalDigit(c) ==> d == c as int - '0' as int
  {
    if '0' <= c <= '9' then c as int - '0' as int
    else if 'a' <= c <= 'z' then c as int - 'a' as int + 10
    else if 'A' <= c <= 'Z' then c as int - 'A' as int + 10
    else 36
  }

  /** The longest prefix of `s` made of digits of the given base. */
  function DigitPrefix(s: string, radix: nat): (z: string)
    ensures |z| <= |s| && z == s[..|z|]
    ensures forall i :: 0 <= i < |z| ==> DigitValue(z[i]) < radix
    ensures |z| < |s| ==> DigitValue(s[|z|]) >= radix
  {
    if s != [] && DigitValue(s[0]) < radix then [s[0]] + DigitPrefix(s[1..], radix) else []
  }

  /** The number a digit string denotes in the given base, most significant digit first. */
  function DigitsValue(z: string, radix: nat): (r: nat)
  {
    if z == [] then 0 else DigitsValue(z[..|z| - 1], radix) * radix + DigitValue(z[|z| - 1])
  }

  /** The digits after the sign: a `0x`/`0X` prefix selects base 16, and the value is that of the
      longest run of digits of the base; `None` when that run is empty. */
  function ParseMagnitude(u: string): (r: Option<nat>)
  {
    var hex := |u| >= 2 && u[0] == '0' && (u[1] == 'x' || u[1] == 'X');
    var radix := if hex then 16 else 10;
    var z := DigitPrefix(if hex then u[2..] else u, radix);
    if z == [] then None else Some(DigitsValue(z, radix))
  }

  /** The text after the leading white space: one sign, then the magnitude. */
  function ParseSigned(t: string): (r: Number)
  {
    var negative := t != [] && t[0] == '-';
    var u := if t != [] && (t[0] == '-' || t[0] == '+') then t[1..] else t;
    match ParseMagnitude(u)
    case None => NaN
    case Some(m) => Int(if negative then -(m as int) else m)
  }

  function ParseInt(s: string): (r: Number)
  {
    ParseSigned(TrimStart(s))
  }

  /** Everything `TrimStart` removes is white space. */
  lemma {:induction false} TrimStartRemovesWhiteSpace(s: string)
    ensures forall i :: 0 <= i < |s| - |TrimStart(s)| ==> IsWhiteSpace(s[i])
  {
    if s != [] && IsWhiteSpace(s[0]) {
      TrimStartRemovesWhiteSpace(s[1..]);
      assert forall i :: 1 <= i < |s| - |TrimStart(s)| ==> s[i] == s[1..][i - 1];
    }
  }

  lemma {:induction false} TrimStartAppend(w: string, s: string)
    requires forall i :: 0 <= i < |w| ==> IsWhiteSpace(w[i])
    ensures TrimStart(w + s) == TrimStart(s)
  {
    if w == [] {
      assert w + s == s;
    } else {
      assert (w + s)[0] == w[0];
      assert (w + s)[1..] == w[1..] + s;
      TrimStartAppend(w[1..], s);
    }
  }

  lemma TrimStartKeeps(s: string)
    requires s != [] && (IsDecimalDigit(s[0]) || s[0] == '-' || s[0] == '+')
    ensures TrimStart(s) == s
  {
    assert !IsWhiteSpace(s[0]);
  }

  // ---- Decimal notation, the inverse that parseInt is proved against ----

  function Digit(d: nat): (c: char)
    requires d < 10
    ensures IsDecimalDigit(c) && DigitValue(c) == d
  {
    ('0' as int + d) as char
  }

  /** The decimal notation of a natural number, without leading zeros. */
  function ShowNat(n: nat): (r: string)
  {
    if n < 10 then [Digit(n)] else ShowNat(n / 10) + [Digit(n % 10)]
  }

  /** The plain decimal notation of an integer: a minus sign for negatives, no exponent. */
  function ShowInt(n: int): (r: string)
  {
    if n < 0 then "-" + ShowNat(-n) else ShowNat(n)
  }

  /** A numeral is a non-empty run of decimal digits; it has two digits or more from 10 on, and
      only the numeral of zero starts with `0`. */
  lemma {:induction false} ShowNatDigits(n: nat)
    ensures ShowNat(n) != []
    ensures forall i :: 0 <= i < |ShowNat(n)| ==> IsDecimalDigit(ShowNat(n)[i])
    ensures n >= 10 ==> |ShowNat(n)| >= 2
    ensures ShowNat(n)[0] == '0' ==> n == 0
  {
    if n >= 10 {
      ShowNatDigits(n / 10);
      var r := ShowNat(n);
      assert r == ShowNat(n / 10) + [Digit(n % 10)];
      assert forall i :: 0 <= i < |r| - 1 ==> r[i] == ShowNat(n / 10)[i];
    }
  }

  lemma {:induction false} ValueOfShowNat(n: nat)
    ensures DigitsValue(ShowNat(n), 10) == n
  {
    var r := ShowNat(n);
    if n < 10 {
      assert r[..0] == [];
    } else {
      ValueOfShowNat(n / 10);
      assert r[..|r| - 1] == ShowNat(n / 10);
    }
  }

  lemma {:induction false} DigitPrefixAppend(ds: string, rest: string, radix: nat)
    requires forall i :: 0 <= i < |ds| ==> DigitValue(ds[i]) < radix
    ensures DigitPrefix(ds + rest, radix) == ds + DigitPrefix(rest, radix)
  {
    if ds != [] {
      var s := ds + rest;
      assert s[0] == ds[0] && DigitValue(s[0]) < radix;
      assert s[1..] == ds[1..] + rest;
      assert DigitPrefix(s, radix) == [ds[0]] + DigitPrefix(ds[1..] + rest, radix);
      DigitPrefixAppend(ds[1..], rest, radix);
      assert [ds[0]] + (ds[1..] + DigitPrefix(rest, radix)) == ds + DigitPrefix(rest, radix);
    } else {
      assert ds + rest == rest;
      assert ds + DigitPrefix(rest, radix) == DigitPrefix(rest, radix);
    }
  }

  lemma MagnitudeOfShowNat(m: nat, rest: string)
    requires rest == [] || !IsDecimalDigit(rest[0])
    requires m == 0 ==> rest == [] || (rest[0] != 'x' && rest[0] != 'X')
    ensures ParseMagnitude(ShowNat(m) + rest) == Some(m)
  {
    var digits := ShowNat(m);
    var u := digits + rest;
    ShowNatDigits(m);
    assert !(|u| >= 2 && u[0] == '0' && (u[1] == 'x' || u[1] == 'X')) by {
      if |u| >= 2 && u[0] == '0' {
        assert digits == [Digit(0)] && u[1] == rest[0];
      }
    }
    DigitPrefixAppend(digits, rest, 10);
    assert DigitPrefix(rest, 10) == [];
    assert DigitPrefix(u, 10) == digits;
    ValueOfShowNat(m);
  }

  lemma ParseTrimmed(s: string)
    requires TrimStart(s) == s
    ensures ParseInt(s) == ParseSigned(s)
  {
  }

  lemma ParseSignedPlain(u: string, m: nat)
    requires u != [] && IsDecimalDigit(u[0]) && ParseMagnitude(u) == Some(m)
    ensures ParseSigned(u) == Int(m)
  {
  }

  lemma ParseSignedMinus(u: string, m: nat)
    requires ParseMagnitude(u) == Some(m)
    ensures ParseSigned(['-'] + u) == Int(-(m as int))
  {
    assert (['-'] + u)[1..] == u;
  }

  lemma ShowNatStartsWithDigit(m: nat, rest: string)
    ensures ShowNat(m) + rest != [] && IsDecimalDigit((ShowNat(m) + rest)[0])
  {
    ShowNatDigits(m);
  }

  /** A decimal numeral parses back to its number: the text after the numeral is ignored,
      provided it does not continue the numeral. */
  lemma ParseShowInt(n: int, rest: string)
    requires rest == [] || !IsDecimalDigit(rest[0])
    requires n == 0 ==> rest == [] || (rest[0] != 'x' && rest[0] != 'X')
    ensures ParseInt(ShowInt(n) + rest) == Int(n)
  {
    var m: nat := if n < 0 then -n else n;
    var u := ShowNat(m) + rest;
    MagnitudeOfShowNat(m, rest);
    ShowNatStartsWithDigit(m, rest);
    if n < 0 {
      assert ShowInt(n) + rest == ['-'] + u;
      TrimStartKeeps(['-'] + u);
      ParseTrimmed(['-'] + u);
      ParseSignedMinus(u, m);
    } else {
      assert ShowInt(n) + rest == u;
      TrimStartKeeps(u);
      ParseTrimmed(u);
      ParseSignedPlain(u, m);
    }
  }

  lemma MagnitudeWithoutDigit(u: string)
    requires u == [] || !IsDecimalDigit(u[0])
    ensures ParseMagnitude(u) == None
  {
    if u != [] {
      assert u[0] != '0' && DigitValue(u[0]) >= 10;
    }
    assert DigitPrefix(u, 10) == [];
  }

  /** A string with no decimal digit in it parses to NaN. */
  lemma NoDecimalDigitIsNaN(s: string)
    requires forall i :: 0 <= i < |s| ==> !IsDecimalDigit(s[i])
    ensures ParseInt(s) == NaN
  {
    var t := TrimStart(s);
    var u := if t != [] && (t[0] == '-' || t[0] == '+') then t[1..] else t;
    if u != [] {
      assert u[0] == s[|s| - |u|];
    }
    MagnitudeWithoutDigit(u);
  }

  /** Leading white space, of any of the kinds JavaScript knows, does not change the result. */
  lemma ParseIntSkipsWhiteSpace(w: string, s: string)
    requires forall i :: 0 <= i < |w| ==> IsWhiteSpace(w[i])
    ensures ParseInt(w + s) == ParseInt(s)
  {
    TrimStartAppend(w, s);
  }

  /** "5abc" is read as 5: parsing stops at the first character that is not a digit. */
  lemma ParseIntStopsAtNonDigit()
    ensures ParseInt("5abc") == Int(5)
  {
    assert ShowInt(5) + "abc" == "5abc";
    ParseShowInt(5, "abc");
  }

  /** "abc" is NaN: there is no digit to read. */
  lemma ParseIntWithoutDigits()
    ensures ParseInt("abc") == NaN
  {
    NoDecimalDigitIsNaN("abc");
  }

  /** Only one sign is read: "+-3" is NaN. */
  lemma ParseIntOneSign()
    ensures ParseInt("+-3") == NaN
  {
    TrimStartKeeps("+-3");
    assert "+-3"[1..] == "-3";
    MagnitudeWithoutDigit("-3");
  }

  /** "-0" is minus zero, which is falsy like zero. */
  lemma ParseIntMinusZero()
    ensures ParseInt("-0") == Int(0)
    ensures Falsy(ParseInt("-0"))
  {
    TrimStartKeeps("-0");
    assert "-0"[1..] == "0";
    assert DigitPrefix("0", 10) == "0";
    assert DigitsValue("0", 10) == 0;
  }

  /** A `0x` prefix reads the rest in base 16. */
  lemma ParseIntHexPrefix()
    ensures ParseInt("0x1F") == Int(31)
  {
    assert DigitsValue("1F", 16) == 31 by {
      assert "1F"[..1] == "1";
      assert "1"[..0] == "";
    }
    assert ParseMagnitude("0x1F") == Some(31) by {
      assert "0x1F"[2..] == "1F";
      assert DigitPrefix("1F", 16) == "1F";
    }
    TrimStartKeeps("0x1F");
    ParseTrimmed("0x1F");
    ParseSignedPlain("0x1F", 31);
  }

  /** With no hexadecimal digit after the `0x` prefix the result is NaN. */
  lemma ParseIntEmptyHex()
    ensures ParseInt("0x") == NaN
  {
    TrimStartKeeps("0x");
    assert DigitPrefix("0x"[2..], 16) == [];
  }
}
