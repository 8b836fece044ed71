/**
  The two conversions between text and numbers that the page relies on:
  JavaScript's global `parseInt` with no radix (text to integer, NaN as None), and
  the decimal rendering of a number inside a template literal (integer to text).
  Numbers are exact integers here: the page only ever compares parsed values with
  small house numbers and prints small counts.
*/
module JsNumbers {
  import opened Wrappers

  /** The characters ECMAScript's TrimString removes: WhiteSpace and LineTerminator. */
  predicate IsWhiteSpace(c: char) {
    c == '\t' || c == '\n' || c == '\U{000B}' || c == '\U{000C}' || c == '\r' || c == ' '
    || c == '\U{00A0}' || c == '\U{1680}' || ('\U{2000}' <= c <= '\U{200A}')
    || c == '\U{2028}' || c == '\U{2029}' || c == '\U{202F}' || c == '\U{205F}'
    || c == '\U{3000}' || c == '\U{FEFF}'
  }

  predicate IsDecimalDigit(c: char) {
    '0' <= c <= '9'
  }

  /** A digit of the given radix; parseInt without a radix uses 10, or 16 after a "0x" prefix. */
  predicate IsDigitOf(c: char, radix: nat) {
    if radix == 16 then IsDecimalDigit(c) || 'a' <= c <= 'f' || 'A' <= c <= 'F'
    else IsDecimalDigit(c)
  }

  function DigitValue(c: char): (d: nat)
    requires IsDigitOf(c, 16)
    ensures d < 16
    ensures IsDecimalDigit(c) ==> d < 10
  {
    if IsDecimalDigit(c) then c as nat - '0' as nat
    else if 'a' <= c <= 'f' then c as nat - 'a' as nat + 10
    else c as nat - 'A' as nat + 10
  }

  predicate AllDigitsOf(s: string, radix: nat) {
    forall i :: 0 <= i < |s| ==> IsDigitOf(s[i], radix)
  }

  /** The value of a string of digits read most significant first. */
  function ValueOf(ds: string, radix: nat): nat
    requires radix == 10 || radix == 16
    requires AllDigitsOf(ds, radix)
  {
    if ds == [] then 0
    else ValueOf(ds[..|ds| - 1], radix) * radix + DigitValue(ds[|ds| - 1])
  }

  /** Leading white space removed, as ECMAScript's TrimString(_, start) does. */
  function TrimStart(s: string): (r: string)
  {
    if s != [] && IsWhiteSpace(s[0]) then TrimStart(s[1..]) else s
  }

  /** The longest prefix of `s` made of digits of `radix`. */
  function DigitPrefix(s: string, radix: nat): (r: string)
    ensures |r| <= |s| && r == s[..|r|]
    ensures AllDigitsOf(r, radix)
    ensures |r| == |s| || !IsDigitOf(s[|r|], radix)
  {
    if s != [] && IsDigitOf(s[0], radix) then [s[0]] + DigitPrefix(s[1..], radix) else []
  }

  /** True when `u` starts with the hexadecimal prefix "0x" or "0X". */
  predicate HasHexPrefix(u: string) {
    |u| >= 2 && u[0] == '0' && (u[1] == 'x' || u[1] == 'X')
  }

  /** The text after an optional leading '+' or '-'. */
  function StripSign(t: string): string {
    if t != [] && (t[0] == '-' || t[0] == '+') then t[1..] else t
  }

  /** The unsigned part of parseInt: "0x"/"0X" selects radix 16, anything else radix 10. */
  function ParseMagnitude(u: string): Option<nat> {
    var radix := if HasHexPrefix(u) then 16 else 10;
    var z := DigitPrefix(if HasHexPrefix(u) then u[2..] else u, radix);
    if z == [] then None else Some(ValueOf(z, radix))
  }

  /**
    parseInt(s) with the radix left out: skip leading white space, read an optional
    sign, switch to radix 16 after "0x"/"0X", then read the longest run of digits.
    No digits at all gives NaN, modelled as None.
  */
  function ParseInt(s: string): Option<int> {
    ParseSigned(TrimStart(s))
  }

  /** parseInt after the white space: a sign, then the magnitude. */
  function ParseSigned(t: string): Option<int> {
    match ParseMagnitude(StripSign(t))
    case None => None
    case Some(m) =>
      var v: int := if t != [] && t[0] == '-' then -(m as int) else m;
      Some(v)
  }

  function DecimalDigit(d: nat): (c: char)
    requires d < 10
    ensures IsDecimalDigit(c) && DigitValue(c) == d
  {
    "0123456789"[d]
  }

  /** The decimal text of a natural number, as `${n}` prints it. */
  function NatToString(n: nat): (r: string)
    ensures |r| >= 1 && AllDigitsOf(r, 10)
    ensures ValueOf(r, 10) == n
    ensures r[0] == '0' ==> r == "0"
    decreases n
  {
    if n < 10 then [DecimalDigit(n)]
    else
      var prefix := NatToString(n / 10);
      var r := prefix + [DecimalDigit(n % 10)];
      assert r[..|r| - 1] == prefix;
      r
  }

  /** The decimal text of an integer, with a leading '-' when it is negative. */
  function IntToString(i: int): string {
    if i < 0 then "-" + NatToString(-i) else NatToString(i)
  }

  /** Reading a run of digits stops at the first character that is not a digit. */
  lemma {:induction false} DigitPrefixOfDigits(a: string, b: string, radix: nat)
    requires AllDigitsOf(a, radix)
    requires b == [] || !IsDigitOf(b[0], radix)
    ensures DigitPrefix(a + b, radix) == a
  {
    if a != [] {
      assert (a + b)[1..] == a[1..] + b;
      DigitPrefixOfDigits(a[1..], b, radix);
    }
  }

  /** The decimal text of a natural number is read back by the unsigned part of parseInt. */
  lemma ParseMagnitudeNatToString(n: nat, rest: string)
    requires rest == [] || (!IsDecimalDigit(rest[0]) && (n != 0 || (rest[0] != 'x' && rest[0] != 'X')))
    ensures ParseMagnitude(NatToString(n) + rest) == Some(n)
  {
    var s := NatToString(n);
    assert !HasHexPrefix(s + rest) by {
      if |s + rest| >= 2 && (s + rest)[0] == '0' {
        assert s[0] == '0';
        assert s == "0";
        assert (s + rest)[1] == rest[0];
      }
    }
    DigitPrefixOfDigits(s, rest, 10);
  }

  /**
    parseInt reads back the decimal text of a natural number, whatever text that does
    not start with a digit follows it ("101.5", "101abc" and "101x" all read as 101).
    Only after "0" is a following 'x' or 'X' excluded, because "0x..." switches to
    hexadecimal.
  */
  lemma ParseNatToString(n: nat, rest: string)
    requires rest == [] || (!IsDecimalDigit(rest[0]) && (n != 0 || (rest[0] != 'x' && rest[0] != 'X')))
    ensures ParseInt(NatToString(n) + rest) == Some(n)
  {
    var s := NatToString(n) + rest;
    assert s[0] == NatToString(n)[0];
    assert IsDecimalDigit(s[0]);
    assert !IsWhiteSpace(s[0]);
    assert TrimStart(s) == s;
    assert StripSign(s) == s;
    ParseMagnitudeNatToString(n, rest);
  }

  /** parseInt reads back every integer printed in decimal. */
  lemma ParseIntToString(i: int)
    ensures ParseInt(IntToString(i)) == Some(i)
  {
    if i < 0 {
      var s := IntToString(i);
      assert TrimStart(s) == s;
      assert StripSign(s) == NatToString(-i) + [];
      ParseMagnitudeNatToString(-i, []);
    } else {
      ParseNatToString(i, []);
      assert NatToString(i) + [] == NatToString(i);
    }
  }

  /**
    Trimming drops exactly the leading run of white space: what remains is a suffix
    of the input that does not start with white space.
  */
  lemma {:induction false} TrimStartDropsLeadingWhiteSpace(s: string)
    ensures |TrimStart(s)| <= |s| && TrimStart(s) == s[|s| - |TrimStart(s)|..]
    ensures forall i :: 0 <= i < |s| - |TrimStart(s)| ==> IsWhiteSpace(s[i])
    ensures TrimStart(s) == [] || !IsWhiteSpace(TrimStart(s)[0])
  {
    if s != [] && IsWhiteSpace(s[0]) {
      var tail := s[1..];
      TrimStartDropsLeadingWhiteSpace(tail);
      var r := TrimStart(tail);
      assert TrimStart(s) == r;
      assert s[|s| - |r|..] == tail[|tail| - |r|..];
      forall i | 1 <= i < |s| - |r| ensures IsWhiteSpace(s[i]) {
        assert s[i] == tail[i - 1];
      }
    }
  }

  /** Trimming removes any run of leading white space. */
  lemma {:induction false} TrimStartSkipsWhiteSpace(ws: string, s: string)
    requires forall i :: 0 <= i < |ws| ==> IsWhiteSpace(ws[i])
    ensures TrimStart(ws + s) == TrimStart(s)
  {
    if ws != [] {
      assert (ws + s)[0] == ws[0];
      assert (ws + s)[1..] == ws[1..] + s;
      TrimStartSkipsWhiteSpace(ws[1..], s);
    } else {
      assert ws + s == s;
    }
  }

  /** Leading white space never changes what parseInt reads. */
  lemma ParseIntSkipsWhiteSpace(ws: string, s: string)
    requires forall i :: 0 <= i < |ws| ==> IsWhiteSpace(ws[i])
    ensures ParseInt(ws + s) == ParseInt(s)
  {
    TrimStartSkipsWhiteSpace(ws, s);
    var t := TrimStart(s);
    assert TrimStart(ws + s) == t;
    assert ParseInt(ws + s) == ParseSigned(t);
  }

  /** Plain decimal digits, without a "0x" prefix, are read as their decimal value. */
  lemma ParseDecimalText(text: string)
    requires text != [] && AllDigitsOf(text, 10) && !HasHexPrefix(text)
    ensures ParseInt(text) == Some(ValueOf(text, 10))
  {
    assert TrimStart(text) == text;
    assert StripSign(text) == text;
    DigitPrefixOfDigits(text, [], 10);
    assert text + [] == text;
  }

  /** parseInt("101") is 101. */
  lemma Parse101()
    ensures ParseInt("101") == Some(101)
  {
    assert "101"[..2] == "10" && "10"[..1] == "1";
    ParseDecimalText("101");
  }

  /** parseInt("102") is 102. */
  lemma Parse102()
    ensures ParseInt("102") == Some(102)
  {
    assert "102"[..2] == "10" && "10"[..1] == "1";
    ParseDecimalText("102");
  }

  /** Distinct naturals print as distinct text. */
  lemma NatToStringInjective(m: nat, n: nat)
    ensures NatToString(m) == NatToString(n) <==> m == n
  {
  }
}
