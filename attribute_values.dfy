// Reading attribute values the way both ShpToOpenDriveConverter classes do
// (src/main.py and SoftwareCopyright/shp2opendrive/shp2xodr.py): Python's
// float() and int() on a shapefile cell, and _map_attributes, which starts
// from the configured defaults and writes each mapped column over them.

module AttributeValues {
  import opened Common
  import opened Dicts

  // ---------------------------------------------------------- float / int

  /**
   * The characters str.strip(), int() and float() treat as whitespace:
   * ASCII tab to carriage return, the four separators 0x1C-0x1F, space,
   * NEL, no-break space and the Unicode space separators.
   */
  predicate IsSpace(c: char)
  {
    c == ' ' || '\t' <= c <= '\r' || '\U{1C}' <= c <= '\U{1F}' || c == '\U{85}' || c == '\U{A0}'
    || c == '\U{1680}' || '\U{2000}' <= c <= '\U{200A}' || c == '\U{2028}' || c == '\U{2029}'
    || c == '\U{202F}' || c == '\U{205F}' || c == '\U{3000}'
  }

  predicate IsDigit(c: char)
  {
    '0' <= c <= '9'
  }

  predicate AllDigits(s: string)
  {
    forall i :: 0 <= i < |s| ==> IsDigit(s[i])
  }

  /** The text float() and int() look at: leading and trailing whitespace removed. */
  function Strip(s: string): (r: string)
    ensures |r| <= |s|
  {
    if s != [] && IsSpace(s[0]) then Strip(s[1..])
    else if s != [] && IsSpace(s[|s| - 1]) then Strip(s[..|s| - 1])
    else s
  }

  /** Strip's result neither starts nor ends with whitespace. */
  lemma {:induction false} StripEnds(s: string)
    ensures Strip(s) == [] || (!IsSpace(Strip(s)[0]) && !IsSpace(Strip(s)[|Strip(s)| - 1]))
    decreases |s|
  {
    if s != [] && IsSpace(s[0]) {
      StripEnds(s[1..]);
    } else if s != [] && IsSpace(s[|s| - 1]) {
      StripEnds(s[..|s| - 1]);
    }
  }

  /** Every character is whitespace. */
  predicate AllSpace(t: string)
  {
    forall k :: 0 <= k < |t| ==> IsSpace(t[k])
  }

  /**
   * Strip is str.strip(): the text between a whitespace prefix and a
   * whitespace suffix of s, neither starting nor ending with whitespace.
   */
  lemma {:induction false} StripSpec(s: string)
    ensures exists i, j :: 0 <= i <= j <= |s| && Strip(s) == s[i..j] && AllSpace(s[..i]) && AllSpace(s[j..])
    ensures Strip(s) == [] || (!IsSpace(Strip(s)[0]) && !IsSpace(Strip(s)[|Strip(s)| - 1]))
    decreases |s|
  {
    StripEnds(s);
    if s != [] && IsSpace(s[0]) {
      var t := s[1..];
      StripSpec(t);
      var i, j :| 0 <= i <= j <= |t| && Strip(t) == t[i..j] && AllSpace(t[..i]) && AllSpace(t[j..]);
      assert Strip(s) == Strip(t);
      SpaceFront(s, i, j);
    } else if s != [] && IsSpace(s[|s| - 1]) {
      var t := s[..|s| - 1];
      StripSpec(t);
      var i, j :| 0 <= i <= j <= |t| && Strip(t) == t[i..j] && AllSpace(t[..i]) && AllSpace(t[j..]);
      assert Strip(s) == Strip(t);
      SpaceBack(s, i, j);
    } else {
      assert Strip(s) == s[0..|s|] && s[..0] == [] && s[|s|..] == [];
    }
  }

  /** A leading space lengthens the whitespace prefix and moves the slice between one position on. */
  lemma SpaceFront(s: string, i: nat, j: nat)
    requires s != [] && IsSpace(s[0]) && i <= j <= |s| - 1
    requires AllSpace(s[1..][..i]) && AllSpace(s[1..][j..])
    ensures s[1..][i..j] == s[i + 1..j + 1] && AllSpace(s[..i + 1]) && AllSpace(s[j + 1..])
  {
    assert s[..i + 1] == [s[0]] + s[1..][..i];
    assert s[j + 1..] == s[1..][j..];
  }

  /** A trailing space lengthens the whitespace suffix. */
  lemma SpaceBack(s: string, i: nat, j: nat)
    requires s != [] && IsSpace(s[|s| - 1]) && i <= j <= |s| - 1
    requires AllSpace(s[..|s| - 1][..i]) && AllSpace(s[..|s| - 1][j..])
    ensures s[..|s| - 1][i..j] == s[i..j] && AllSpace(s[..i]) && AllSpace(s[j..])
  {
    assert s[..|s| - 1][..i] == s[..i];
    assert s[j..] == s[..|s| - 1][j..] + [s[|s| - 1]];
  }

  /**
   * A run of decimal digits in which single underscores may separate two
   * digits, as Python's numeric literals and int() and float() allow.
   */
  predicate DigitPart(s: string)
  {
    s != [] && IsDigit(s[0]) && IsDigit(s[|s| - 1]) && DigitsOrUnderscores(s) && NoDoubleUnderscore(s)
  }

  predicate DigitsOrUnderscores(s: string)
  {
    forall i :: 0 <= i < |s| ==> IsDigit(s[i]) || s[i] == '_'
  }

  /** No two underscores in a row. */
  predicate NoDoubleUnderscore(s: string)
  {
    |s| < 2 || (!(s[0] == '_' && s[1] == '_') && NoDoubleUnderscore(s[1..]))
  }

  /** The value of a digit part: its digits read in order, underscores skipped. */
  function DigitPartValue(s: string): nat
  {
    if s == [] then 0
    else if IsDigit(s[|s| - 1]) then DigitPartValue(s[..|s| - 1]) * 10 + (s[|s| - 1] as int - '0' as int)
    else DigitPartValue(s[..|s| - 1])
  }

  /** How many digits a digit part has. */
  function DigitCount(s: string): nat
  {
    if s == [] then 0
    else (if IsDigit(s[|s| - 1]) then 1 else 0) + DigitCount(s[..|s| - 1])
  }

  /** An optional sign: its factor and the text after it. */
  function SplitSign(s: string): (int, string)
  {
    if s != [] && s[0] == '-' then (-1, s[1..])
    else if s != [] && s[0] == '+' then (1, s[1..])
    else (1, s)
  }

  /** int() of a string: an optionally signed digit part, possibly padded with whitespace. */
  function ParseIntString(s: string): Option<int>
  {
    var signed := SplitSign(Strip(s));
    if DigitPart(signed.1) then Some(signed.0 * DigitPartValue(signed.1)) else None
  }

  /** 10^n as a real. */
  function Pow10(n: nat): (r: real)
    ensures r >= 1.0
  {
    if n == 0 then 1.0 else 10.0 * Pow10(n - 1)
  }

  /** The position of the first '.', or |s| when there is none. */
  function DotAt(s: string): (k: nat)
    ensures k <= |s|
    ensures forall i :: 0 <= i < k ==> s[i] != '.'
    ensures k < |s| ==> s[k] == '.'
  {
    if s == [] then 0
    else if s[0] == '.' then 0
    else 1 + DotAt(s[1..])
  }

  /** The position of the first 'e' or 'E', or |s| when there is none. */
  function ExponentAt(s: string): (k: nat)
    ensures k <= |s|
    ensures forall i :: 0 <= i < k ==> s[i] != 'e' && s[i] != 'E'
    ensures k < |s| ==> s[k] == 'e' || s[k] == 'E'
  {
    if s == [] then 0
    else if s[0] == 'e' || s[0] == 'E' then 0
    else 1 + ExponentAt(s[1..])
  }

  /** The value of the digits after a decimal point: 0.d1d2... */
  function FractionValue(frac: string): real
  {
    DigitPartValue(frac) as real / Pow10(DigitCount(frac))
  }

  /** The mantissa: digits, digits.digits, digits. or .digits, with at least one digit. */
  function ParseMantissa(m: string): Option<real>
  {
    var k := DotAt(m);
    if k < |m| then ParseParts(m[..k], m[k + 1..]) else ParseParts(m, [])
  }

  /** The digits before and after the point; either may be empty, not both. */
  function ParseParts(whole: string, frac: string): Option<real>
  {
    if (whole == [] || DigitPart(whole)) && (frac == [] || DigitPart(frac)) && |whole| + |frac| > 0
    then Some(DigitPartValue(whole) as real + FractionValue(frac))
    else None
  }

  /** The exponent after 'e' or 'E': an optionally signed digit part. */
  function ParseExponent(e: string): Option<int>
  {
    var signed := SplitSign(e);
    if DigitPart(signed.1) then Some(signed.0 * DigitPartValue(signed.1)) else None
  }

  /** m * 10^e. */
  function Scale(m: real, e: int): real
  {
    if e >= 0 then m * Pow10(e) else m / Pow10(-e)
  }

  /** A decimal mantissa with an optional exponent part, as float() reads it. */
  function ParseUnsignedReal(body: string): Option<real>
  {
    var x := ExponentAt(body);
    if x == |body| then ParseMantissa(body)
    else ParseScaled(body[..x], body[x + 1..])
  }

  /** A mantissa and the exponent that follows its 'e' or 'E'. */
  function ParseScaled(mantissa: string, exponent: string): Option<real>
  {
    match ParseMantissa(mantissa)
    case None => None
    case Some(m) =>
      match ParseExponent(exponent)
      case None => None
      case Some(e) => Some(Scale(m, e))
  }

  /** float() of a string: an optionally signed decimal, possibly padded with whitespace. */
  function ParseFloatString(s: string): Option<real>
  {
    SignedReal(SplitSign(Strip(s)))
  }

  /** The value of the unsigned text after the sign, negated when the sign is '-'. */
  function SignedReal(signed: (int, string)): Option<real>
  {
    var r := ParseUnsignedReal(signed.1);
    if r.None? then None else if signed.0 < 0 then Some(-r.value) else Some(r.value)
  }

  /** float(value); None where Python raises ValueError or TypeError. */
  function ToFloat(v: Value): Option<real>
  {
    match v
    case Real(r) => Some(r)
    case Int(i) => Some(i as real)
    case Bool(b) => Some(if b then 1.0 else 0.0)
    case Str(s) => ParseFloatString(s)
    case Null => None
    case Nested(_) => None
  }

  /** int(value); a real is truncated toward zero. None where Python raises. */
  function ToInt(v: Value): Option<int>
  {
    match v
    case Int(i) => Some(i)
    case Real(r) => Some(Trunc(r))
    case Bool(b) => Some(if b then 1 else 0)
    case Str(s) => ParseIntString(s)
    case Null => None
    case Nested(_) => None
  }

  // The decimal rendering of a number, as str() writes it.

  function DigitChar(d: nat): char
    requires d < 10
  {
    ('0' as int + d) as char
  }

  function ShowNat(n: nat): (r: string)
    ensures r != [] && AllDigits(r)
  {
    if n < 10 then [DigitChar(n)] else ShowNat(n / 10) + [DigitChar(n % 10)]
  }

  function ShowInt(i: int): string
  {
    if i < 0 then "-" + ShowNat(-i) else ShowNat(i)
  }

  lemma {:induction false} ShowNatValue(n: nat)
    ensures DigitPartValue(ShowNat(n)) == n
  {
    if n >= 10 {
      ShowNatValue(n / 10);
      var r := ShowNat(n);
      assert r[..|r| - 1] == ShowNat(n / 10);
    }
  }

  lemma StripDigits(s: string)
    requires s != [] && !IsSpace(s[0]) && !IsSpace(s[|s| - 1])
    ensures Strip(s) == s
  {
  }

  /** A plain run of digits is a digit part, and every character counts as a digit. */
  lemma {:induction false} PlainDigits(s: string)
    requires AllDigits(s)
    ensures DigitCount(s) == |s|
    ensures s != [] ==> DigitPart(s)
  {
    if s != [] {
      PlainDigits(s[..|s| - 1]);
      PlainNoDouble(s);
    }
  }

  lemma {:induction false} PlainNoDouble(s: string)
    requires AllDigits(s)
    ensures NoDoubleUnderscore(s)
  {
    if |s| >= 2 {
      PlainNoDouble(s[1..]);
    }
  }

  /** A plain run of digits has neither a '.' nor an exponent marker. */
  lemma {:induction false} NoMarkers(s: string)
    requires AllDigits(s)
    ensures DotAt(s) == |s| && ExponentAt(s) == |s|
  {
    if s != [] {
      NoMarkers(s[1..]);
    }
  }

  /** DotAt stops at the first '.'. */
  lemma {:induction false} DotAtPrefix(s: string, k: nat)
    requires k < |s| && s[k] == '.'
    requires forall i :: 0 <= i < k ==> s[i] != '.'
    ensures DotAt(s) == k
  {
    if k > 0 {
      DotAtPrefix(s[1..], k - 1);
    }
  }

  /** ExponentAt stops at the first 'e' or 'E'. */
  lemma {:induction false} ExponentAtPrefix(s: string, k: nat)
    requires k < |s| && (s[k] == 'e' || s[k] == 'E')
    requires forall i :: 0 <= i < k ==> s[i] != 'e' && s[i] != 'E'
    ensures ExponentAt(s) == k
  {
    if k > 0 {
      ExponentAtPrefix(s[1..], k - 1);
    }
  }

  /** ExponentAt over a string with no 'e' or 'E'. */
  lemma {:induction false} ExponentAtNone(s: string)
    requires forall i :: 0 <= i < |s| ==> s[i] != 'e' && s[i] != 'E'
    ensures ExponentAt(s) == |s|
  {
    if s != [] {
      ExponentAtNone(s[1..]);
    }
  }

  /** A string without an exponent marker reads as its mantissa. */
  lemma WithoutExponent(body: string)
    requires forall i :: 0 <= i < |body| ==> body[i] != 'e' && body[i] != 'E'
    ensures ParseUnsignedReal(body) == ParseMantissa(body)
  {
    ExponentAtNone(body);
  }

  /** digits w, a '.', and digits f: the whole part w and the fraction 0.f. */
  lemma DecimalMantissa(w: string, f: string)
    requires AllDigits(w) && AllDigits(f) && w != [] && f != []
    ensures ParseMantissa(w + "." + f) == Some(DigitPartValue(w) as real + FractionValue(f))
  {
    var m := w + "." + f;
    DotSplit(w, f);
    MantissaAtDot(m, |w|);
    PlainDigits(w);
    PlainDigits(f);
  }

  /** In digits w, a '.', and f, the first '.' is the one after w. */
  lemma DotSplit(w: string, f: string)
    requires AllDigits(w)
    ensures var m := w + "." + f; DotAt(m) == |w| && m[..|w|] == w && m[|w| + 1..] == f
  {
    var m := w + "." + f;
    assert forall i :: 0 <= i < |w| ==> m[i] == w[i];
    assert m[|w|] == '.';
    DotAtPrefix(m, |w|);
    assert m[..|w|] == w;
    assert m[|w| + 1..] == f;
  }

  /** A mantissa whose first '.' is at k reads as the parts on either side of it. */
  lemma MantissaAtDot(m: string, k: nat)
    requires DotAt(m) == k < |m|
    ensures ParseMantissa(m) == ParseParts(m[..k], m[k + 1..])
  {
  }

  /** A mantissa of plain digits reads as their value. */
  lemma DigitsMantissa(w: string)
    requires AllDigits(w) && w != []
    ensures ParseMantissa(w) == Some(DigitPartValue(w) as real)
  {
    NoMarkers(w);
    PlainDigits(w);
    assert ParseMantissa(w) == ParseParts(w, []);
    assert FractionValue([]) == 0.0;
  }

  /** The exponent after the marker: an optional '-' and digits. */
  lemma SignedExponent(negative: bool, d: string)
    requires AllDigits(d) && d != []
    ensures ParseExponent((if negative then "-" else "") + d) == Some((if negative then -1 else 1) * DigitPartValue(d))
  {
    var e := (if negative then "-" else "") + d;
    PlainDigits(d);
    if negative {
      assert e[1..] == d;
      assert SplitSign(e) == (-1, d);
    } else {
      assert e == d;
      assert SplitSign(e) == (1, d);
    }
  }

  /** digits w, 'e', an optional '-', digits d: w * 10^(+-d), the form str() writes small and large floats in. */
  lemma Scientific(w: string, negative: bool, d: string)
    requires AllDigits(w) && AllDigits(d) && w != [] && d != []
    ensures var body := w + "e" + (if negative then "-" else "") + d;
            ParseUnsignedReal(body) == Some(Scale(DigitPartValue(w) as real, (if negative then -1 else 1) * DigitPartValue(d)))
  {
    var sign := if negative then "-" else "";
    var body := w + "e" + sign + d;
    NoMarkers(w);
    assert forall i :: 0 <= i < |w| ==> body[i] == w[i];
    ExponentAtPrefix(body, |w|);
    assert body[..|w|] == w;
    assert body[|w| + 1..] == sign + d;
    assert ParseUnsignedReal(body) == ParseScaled(w, sign + d);
    DigitsMantissa(w);
    SignedExponent(negative, d);
  }

  /** Text without surrounding whitespace or a sign reads as its unsigned value. */
  lemma UnsignedText(body: string)
    requires body != [] && !IsSpace(body[0]) && !IsSpace(body[|body| - 1])
    requires body[0] != '-' && body[0] != '+'
    ensures ParseFloatString(body) == ParseUnsignedReal(body)
  {
    StripDigits(body);
    assert SplitSign(body) == (1, body);
  }

  /** '1e2' is the mantissa 1 scaled by 10^2. */
  lemma ExponentExampleBody()
    ensures ParseUnsignedReal("1e2") == Some(100.0)
  {
    Scientific("1", false, "2");
    assert "1" + "e" + "" + "2" == "1e2";
    assert DigitPartValue("1") == 1 by { assert "1"[..0] == ""; }
    assert DigitPartValue("2") == 2 by { assert "2"[..0] == ""; }
    assert Scale(1.0, 2) == 100.0;
  }

  /** float() reads '1e2' as 100. */
  lemma ExponentExample()
    ensures ParseFloatString("1e2") == Some(100.0)
  {
    ExponentExampleBody();
    UnsignedText("1e2");
  }

  /**
   * '1e-05', the way str() writes 0.00001, is the mantissa 1 scaled by
   * 10^-5; by UnsignedText float() reads it so.
   */
  lemma NegativeExponentExample()
    ensures ParseUnsignedReal("1e-05") == Some(0.00001)
  {
    Scientific("1", true, "05");
    assert "1" + "e" + "-" + "05" == "1e-05";
    assert DigitPartValue("1") == 1 by { assert "1"[..0] == ""; }
    assert DigitPartValue("05") == 5 by { assert "05"[..1] == "0"; assert "0"[..0] == ""; }
    assert Scale(1.0, -5) == 0.00001;
  }

  /** An optional '-' before a run of digits: nothing to strip, and the sign splits off. */
  lemma SignedDigits(sign: string, digits: string)
    requires sign == "" || sign == "-"
    requires AllDigits(digits) && digits != []
    ensures Strip(sign + digits) == sign + digits
    ensures SplitSign(sign + digits) == (if sign == "-" then -1 else 1, digits)
  {
    var s := sign + digits;
    assert s[|s| - 1] == digits[|digits| - 1];
    StripDigits(s);
    if sign == "-" {
      assert s[1..] == digits;
    } else {
      assert s == digits;
    }
  }

  /** A run of digits reads as its value. */
  lemma UnsignedDigits(digits: string)
    requires AllDigits(digits) && digits != []
    ensures ParseUnsignedReal(digits) == Some(DigitPartValue(digits) as real)
  {
    NoMarkers(digits);
    WithoutExponent(digits);
    DigitsMantissa(digits);
  }

  /** int() of an optional '-' and a run of digits. */
  lemma IntOfDigits(sign: string, digits: string)
    requires sign == "" || sign == "-"
    requires AllDigits(digits) && digits != []
    ensures ParseIntString(sign + digits) == Some((if sign == "-" then -1 else 1) * DigitPartValue(digits))
  {
    PlainDigits(digits);
    SignedDigits(sign, digits);
  }

  /** float() of a run of digits is their value. */
  lemma DigitsFloat(digits: string)
    requires AllDigits(digits) && digits != []
    ensures ParseFloatString(digits) == Some(DigitPartValue(digits) as real)
  {
    UnsignedDigits(digits);
    UnpaddedFloat(digits);
  }

  /** float() of '-' and a run of digits is their value negated. */
  lemma NegatedDigitsFloat(digits: string)
    requires AllDigits(digits) && digits != []
    ensures ParseFloatString("-" + digits) == Some(-(DigitPartValue(digits) as real))
  {
    UnsignedDigits(digits);
    SignedDigits("-", digits);
    assert ParseFloatString("-" + digits) == SignedReal((-1, digits));
  }

  /** int() reads back every integer str() writes. */
  lemma ParseShowInt(i: int)
    ensures ParseIntString(ShowInt(i)) == Some(i)
  {
    var n: nat := if i < 0 then -i else i;
    ShowNatValue(n);
    var pre := if i < 0 then "-" else "";
    assert ShowInt(i) == pre + ShowNat(n);
    IntOfDigits(pre, ShowNat(n));
  }

  /** float() reads back every integer str() writes, as a real. */
  lemma ParseShowIntAsFloat(i: int)
    ensures ParseFloatString(ShowInt(i)) == Some(i as real)
  {
    var n: nat := if i < 0 then -i else i;
    ShowNatValue(n);
    if i < 0 {
      NegatedDigitsFloat(ShowNat(n));
    } else {
      DigitsFloat(ShowNat(n));
    }
  }

  /** The tests' lane width '4.0' parses as a float. */
  lemma DecimalExample()
    ensures ToFloat(Str("4.0")) == Some(4.0)
  {
    var w, f := "4", "0";
    assert AllDigits(w) && AllDigits(f);
    DecimalFloat(w, f);
    assert DigitPartValue(w) == 4 by { assert w[..0] == ""; }
    assert FractionValue(f) == 0.0 by {
      assert f[..0] == "";
      assert DigitPartValue(f) == 0;
    }
    assert w + "." + f == "4.0";
  }

  /** float() of digits w, a '.', and digits f: the whole part w plus the fraction 0.f. */
  lemma DecimalFloat(w: string, f: string)
    requires AllDigits(w) && AllDigits(f) && w != [] && f != []
    ensures ParseFloatString(w + "." + f) == Some(DigitPartValue(w) as real + FractionValue(f))
  {
    DecimalMantissa(w, f);
    DecimalNoExponent(w, f);
    WithoutExponent(w + "." + f);
    UnpaddedFloat(w + "." + f);
  }

  /** Digits, a '.', and digits hold no exponent marker. */
  lemma DecimalNoExponent(w: string, f: string)
    requires AllDigits(w) && AllDigits(f)
    ensures var m := w + "." + f; forall i :: 0 <= i < |m| ==> m[i] != 'e' && m[i] != 'E'
  {
    var m := w + "." + f;
    forall i | 0 <= i < |m|
      ensures m[i] != 'e' && m[i] != 'E'
    {
      if i < |w| {
        assert m[i] == w[i];
      } else if i > |w| {
        assert m[i] == f[i - |w| - 1];
      }
    }
  }

  /** Text that starts and ends with a digit is read by float() without strip or sign. */
  lemma UnpaddedFloat(m: string)
    requires m != [] && IsDigit(m[0]) && IsDigit(m[|m| - 1])
    ensures ParseFloatString(m) == ParseUnsignedReal(m)
  {
    StripDigits(m);
    assert SplitSign(m) == (1, m);
  }

  /** The tests' lane count '2' parses as an int. */
  lemma IntExample()
    ensures ToInt(Str("2")) == Some(2)
  {
    assert DigitPartValue("2") == 2 by { assert "2"[..0] == ""; }
    IntOfDigits("", "2");
    assert "" + "2" == "2";
  }

  /** The tests' speed limit '60' parses as a float. */
  lemma WholeFloatExample()
    ensures ToFloat(Str("60")) == Some(60.0)
  {
    assert DigitPartValue("60") == 60 by {
      assert "60"[..1] == "6";
      assert "6"[..0] == "";
    }
    DigitsFloat("60");
  }

  /** 'invalid' has no digits before an exponent marker or a '.'. */
  lemma InvalidBody()
    ensures ParseUnsignedReal("invalid") == None
  {
    var s := "invalid";
    WithoutExponent(s);
    DotAtNone(s);
    assert s[..7] == s;
    assert !IsDigit(s[0]);
  }

  /** 'invalid' is not a float. */
  lemma InvalidIsNotFloat()
    ensures ToFloat(Str("invalid")) == None
  {
    InvalidBody();
    UnsignedText("invalid");
  }

  /** DotAt over a string with no '.'. */
  lemma {:induction false} DotAtNone(s: string)
    requires forall k :: 0 <= k < |s| ==> s[k] != '.'
    ensures DotAt(s) == |s|
  {
    if s != [] {
      DotAtNone(s[1..]);
    }
  }

  /** 'not_a_number' is not an int. */
  lemma NotANumberIsNotInt()
    ensures ToInt(Str("not_a_number")) == None
  {
    var s := "not_a_number";
    assert Strip(s) == s;
    assert SplitSign(s) == (1, s);
    assert !IsDigit(s[0]);
  }

  /** int() refuses '4.0', which float() accepts. */
  lemma DecimalIsNotInt()
    ensures ToInt(Str("4.0")) == None
  {
    var s := "4.0";
    assert Strip(s) == s;
    assert SplitSign(s) == (1, s);
    assert !IsDigit(s[1]) && s[1] != '_';
  }

  // ------------------------------------------------------- _map_attributes

  /**
   * The dict _map_attributes starts from: the configured lane width, lane
   * count and speed limit, road_type 'urban' and bidirectional False.
   */
  function InitialAttributes(config: Dict<Value>): Dict<Value>
  {
    [("lane_width", GetOr(config, "default_lane_width", Null)),
     ("num_lanes", GetOr(config, "default_num_lanes", Null)),
     ("speed_limit", GetOr(config, "default_speed_limit", Null)),
     ("road_type", Str("urban")),
     ("bidirectional", Bool(false))]
  }

  /**
   * What is written for a mapped column: lane_width and speed_limit go
   * through float() and num_lanes through int(), a value they refuse
   * writing nothing; any other name takes the value as it is.
   */
  function Converted(name: string, v: Value): Option<Value>
  {
    if name == "lane_width" || name == "speed_limit" then
      match ToFloat(v) case Some(r) => Some(Real(r)) case None => None
    else if name == "num_lanes" then
      match ToInt(v) case Some(i) => Some(Int(i)) case None => None
    else Some(v)
  }

  /** One mapping entry (original key, mapped key) applied to the attributes built so far. */
  function MapStep(acc: Dict<Value>, original: Dict<Value>, entry: (string, string)): Dict<Value>
  {
    match Get(original, entry.0)
    case None => acc
    case Some(v) =>
      match Converted(entry.1, v)
      case None => acc
      case Some(c) => Put(acc, entry.1, c)
  }

  /** The attributes after the given mapping entries, in the mapping's order. */
  function MappedAttributes(init: Dict<Value>, original: Dict<Value>, mapping: Dict<string>): Dict<Value>
  {
    if mapping == [] then init
    else MapStep(MappedAttributes(init, original, mapping[..|mapping| - 1]), original, mapping[|mapping| - 1])
  }

  /** The last value the mapping writes under `name`, if any entry writes one. */
  function LastWrite(original: Dict<Value>, mapping: Dict<string>, name: string): Option<Value>
  {
    if mapping == [] then None
    else
      var e := mapping[|mapping| - 1];
      if e.1 == name && Get(original, e.0).Some? && Converted(name, Get(original, e.0).value).Some?
      then Converted(name, Get(original, e.0).value)
      else LastWrite(original, mapping[..|mapping| - 1], name)
  }

  /** Whether mapping entry i writes a value under `name`. */
  predicate Writes(original: Dict<Value>, mapping: Dict<string>, name: string, i: int)
    requires 0 <= i < |mapping|
  {
    mapping[i].1 == name && Get(original, mapping[i].0).Some? &&
    Converted(name, Get(original, mapping[i].0).value).Some?
  }

  /**
   * A name reads as the last value written under it, and keeps its
   * starting value when no entry writes it.
   */
  lemma {:induction false} MappedGet(init: Dict<Value>, original: Dict<Value>, mapping: Dict<string>, name: string)
    ensures Get(MappedAttributes(init, original, mapping), name) ==
              if LastWrite(original, mapping, name).Some? then LastWrite(original, mapping, name) else Get(init, name)
  {
    if mapping != [] {
      var init' := mapping[..|mapping| - 1];
      var e := mapping[|mapping| - 1];
      MappedGet(init, original, init', name);
      var before := MappedAttributes(init, original, init');
      if Get(original, e.0).Some? && Converted(e.1, Get(original, e.0).value).Some? {
        PutGet(before, e.1, Converted(e.1, Get(original, e.0).value).value, name);
      }
    }
  }

  /** Nothing is written under a name exactly when no entry for it names a present, convertible value. */
  lemma {:induction false} LastWriteNone(original: Dict<Value>, mapping: Dict<string>, name: string)
    ensures LastWrite(original, mapping, name).None? <==>
              forall i :: 0 <= i < |mapping| ==> !Writes(original, mapping, name, i)
  {
    if mapping != [] {
      var init := mapping[..|mapping| - 1];
      LastWriteNone(original, init, name);
      assert forall i :: 0 <= i < |init| ==> (Writes(original, init, name, i) <==> Writes(original, mapping, name, i));
      var e := mapping[|mapping| - 1];
      if Writes(original, mapping, name, |mapping| - 1) {
        assert LastWrite(original, mapping, name) == Converted(name, Get(original, e.0).value);
      } else {
        assert LastWrite(original, mapping, name) == LastWrite(original, init, name);
      }
    }
  }

  /** The attributes keep distinct keys. */
  lemma {:induction false} MappedDistinct(init: Dict<Value>, original: Dict<Value>, mapping: Dict<string>)
    requires DistinctKeys(init)
    ensures DistinctKeys(MappedAttributes(init, original, mapping))
  {
    if mapping != [] {
      var init' := mapping[..|mapping| - 1];
      var e := mapping[|mapping| - 1];
      MappedDistinct(init, original, init');
      var before := MappedAttributes(init, original, init');
      if Get(original, e.0).Some? && Converted(e.1, Get(original, e.0).value).Some? {
        PutKeys(before, e.1, Converted(e.1, Get(original, e.0).value).value);
      }
    }
  }

  /**
   * _map_attributes: for each (original key, mapped key) of the mapping, in
   * order, a present column is converted and written under the mapped key.
   */
  method MapAttributes(config: Dict<Value>, original: Dict<Value>, mapping: Dict<string>)
    returns (mapped: Dict<Value>)
    ensures mapped == MappedAttributes(InitialAttributes(config), original, mapping)
  {
    mapped := InitialAttributes(config);
    for i := 0 to |mapping|
      invariant mapped == MappedAttributes(InitialAttributes(config), original, mapping[..i])
    {
      assert mapping[..i + 1][..i] == mapping[..i];
      var (originalKey, mappedKey) := mapping[i];
      var value := Get(original, originalKey);
      if value.Some? {
        if mappedKey == "lane_width" {
          var r := ToFloat(value.value);
          if r.Some? {
            mapped := Put(mapped, "lane_width", Real(r.value));
          }
        } else if mappedKey == "num_lanes" {
          var n := ToInt(value.value);
          if n.Some? {
            mapped := Put(mapped, "num_lanes", Int(n.value));
          }
        } else if mappedKey == "speed_limit" {
          var r := ToFloat(value.value);
          if r.Some? {
            mapped := Put(mapped, "speed_limit", Real(r.value));
          }
        } else {
          mapped := Put(mapped, mappedKey, value.value);
        }
      }
    }
    assert mapping[..|mapping|] == mapping;
  }

  /** With an empty mapping the result is exactly the defaults. */
  lemma EmptyMappingGivesDefaults(config: Dict<Value>, original: Dict<Value>)
    ensures MappedAttributes(InitialAttributes(config), original, []) == InitialAttributes(config)
    ensures Get(InitialAttributes(config), "road_type") == Some(Str("urban"))
    ensures Get(InitialAttributes(config), "bidirectional") == Some(Bool(false))
    ensures Get(InitialAttributes(config), "lane_width") == Some(GetOr(config, "default_lane_width", Null))
  {
    var d := InitialAttributes(config);
    assert d[1..][1..][1..] == [("road_type", Str("urban")), ("bidirectional", Bool(false))];
    assert "lane_width" != "road_type" && "num_lanes" != "road_type" && "speed_limit" != "road_type";
    assert "lane_width" != "bidirectional" && "num_lanes" != "bidirectional" && "speed_limit" != "bidirectional";
    assert "road_type" != "bidirectional";
    var tail := d[1..][1..][1..];
    assert Get(d, "road_type") == Get(d[1..], "road_type") == Get(d[1..][1..], "road_type") == Get(tail, "road_type");
    assert Get(d, "bidirectional") == Get(d[1..], "bidirectional") == Get(d[1..][1..], "bidirectional")
        == Get(tail, "bidirectional") == Get(tail[1..], "bidirectional");
  }

  /** When entry i writes a name and no later entry maps to it, the name reads as entry i's converted value. */
  lemma {:induction false} LastWriteIs(original: Dict<Value>, mapping: Dict<string>, name: string, i: int)
    requires 0 <= i < |mapping| && Writes(original, mapping, name, i)
    requires forall j :: i < j < |mapping| ==> mapping[j].1 != name
    ensures LastWrite(original, mapping, name) == Converted(name, Get(original, mapping[i].0).value)
  {
    if i < |mapping| - 1 {
      var init := mapping[..|mapping| - 1];
      assert init[i] == mapping[i];
      LastWriteIs(original, init, name, i);
    }
  }

  /** When entry i writes a name and no later entry maps to it, the attributes hold entry i's converted value. */
  lemma MappedReads(init: Dict<Value>, original: Dict<Value>, mapping: Dict<string>, name: string, i: int)
    requires 0 <= i < |mapping| && Writes(original, mapping, name, i)
    requires forall j :: i < j < |mapping| ==> mapping[j].1 != name
    ensures Get(MappedAttributes(init, original, mapping), name) == Converted(name, Get(original, mapping[i].0).value)
  {
    LastWriteIs(original, mapping, name, i);
    MappedGet(init, original, mapping, name);
  }

  /** When no entry writes a name, the attributes keep its starting value. */
  lemma MappedKeeps(init: Dict<Value>, original: Dict<Value>, mapping: Dict<string>, name: string)
    requires forall i :: 0 <= i < |mapping| ==> !Writes(original, mapping, name, i)
    ensures Get(MappedAttributes(init, original, mapping), name) == Get(init, name)
  {
    LastWriteNone(original, mapping, name);
    MappedGet(init, original, mapping, name);
  }

  lemma DistinctExampleKeys()
    ensures "WIDTH" != "LANES" && "WIDTH" != "SPEED" && "WIDTH" != "TYPE"
    ensures "LANES" != "SPEED" && "LANES" != "TYPE" && "SPEED" != "TYPE"
    ensures "lane_width" != "num_lanes" && "lane_width" != "speed_limit" && "lane_width" != "road_type"
    ensures "num_lanes" != "speed_limit" && "num_lanes" != "road_type" && "speed_limit" != "road_type"
  {
    assert "WIDTH"[0] != "LANES"[0] && "WIDTH"[0] != "SPEED"[0] && "LANES"[0] != "SPEED"[0];
    assert "num_lanes"[0] != "road_type"[0];
  }

  /** Reading a key from a three- or four-entry dict whose keys are the tests' column names. */
  lemma ExampleGets<V>(d: Dict<V>)
    requires |d| >= 3 && d[0].0 == "WIDTH" && d[1].0 == "LANES" && d[2].0 == "SPEED"
    requires |d| == 4 ==> d[3].0 == "TYPE"
    requires |d| <= 4
    ensures Get(d, "WIDTH") == Some(d[0].1)
    ensures Get(d, "LANES") == Some(d[1].1)
    ensures Get(d, "SPEED") == Some(d[2].1)
    ensures |d| == 4 ==> Get(d, "TYPE") == Some(d[3].1)
  {
    DistinctExampleKeys();
    assert Get(d, "LANES") == Get(d[1..], "LANES");
    assert Get(d, "SPEED") == Get(d[1..], "SPEED") == Get(d[1..][1..], "SPEED");
    if |d| == 4 {
      assert Get(d, "TYPE") == Get(d[1..], "TYPE") == Get(d[1..][1..], "TYPE") == Get(d[1..][1..][1..], "TYPE");
    }
  }

  /**
   * The custom mapping of the converter's tests: WIDTH, LANES, SPEED and
   * TYPE mapped to lane_width, num_lanes, speed_limit and road_type, with
   * cells that parse as 4.0, 2 and 60.0 (DecimalExample, IntExample and WholeFloatExample show that the
   * tests' '4.0', '2' and '60' do).
   */
  lemma CustomMappingExample(init: Dict<Value>, original: Dict<Value>, mapping: Dict<string>)
    requires |original| == 4 && original[0].0 == "WIDTH" && original[1].0 == "LANES" && original[2].0 == "SPEED" && original[3].0 == "TYPE"
    requires ToFloat(original[0].1) == Some(4.0) && ToInt(original[1].1) == Some(2) && ToFloat(original[2].1) == Some(60.0)
    requires mapping == [("WIDTH", "lane_width"), ("LANES", "num_lanes"), ("SPEED", "speed_limit"), ("TYPE", "road_type")]
    ensures Get(MappedAttributes(init, original, mapping), "lane_width") == Some(Real(4.0))
    ensures Get(MappedAttributes(init, original, mapping), "num_lanes") == Some(Int(2))
    ensures Get(MappedAttributes(init, original, mapping), "speed_limit") == Some(Real(60.0))
    ensures Get(MappedAttributes(init, original, mapping), "road_type") == Some(original[3].1)
  {
    DistinctExampleKeys();
    ExampleGets(original);
    MappedReads(init, original, mapping, "lane_width", 0);
    MappedReads(init, original, mapping, "num_lanes", 1);
    MappedReads(init, original, mapping, "speed_limit", 2);
    MappedReads(init, original, mapping, "road_type", 3);
  }

  /**
   * Values float() and int() refuse leave the starting values in place;
   * the tests' 'invalid', 'not_a_number' and None are such values
   * (InvalidIsNotFloat, NotANumberIsNotInt, ToFloat(Null) == None).
   */
  lemma InvalidValuesKeepDefaults(init: Dict<Value>, original: Dict<Value>, mapping: Dict<string>)
    requires |original| == 3 && original[0].0 == "WIDTH" && original[1].0 == "LANES" && original[2].0 == "SPEED"
    requires ToFloat(original[0].1).None? && ToInt(original[1].1).None? && ToFloat(original[2].1).None?
    requires mapping == [("WIDTH", "lane_width"), ("LANES", "num_lanes"), ("SPEED", "speed_limit")]
    ensures Get(MappedAttributes(init, original, mapping), "lane_width") == Get(init, "lane_width")
    ensures Get(MappedAttributes(init, original, mapping), "num_lanes") == Get(init, "num_lanes")
    ensures Get(MappedAttributes(init, original, mapping), "speed_limit") == Get(init, "speed_limit")
  {
    DistinctExampleKeys();
    ExampleGets(original);
    MappedKeeps(init, original, mapping, "lane_width");
    MappedKeeps(init, original, mapping, "num_lanes");
    MappedKeeps(init, original, mapping, "speed_limit");
  }
}
