/**
 * The two number conversions the task manager relies on: JavaScript's
 * `parseInt` called without a radix (for the index typed at the mark and
 * remove prompts) and the decimal rendering of a non-negative integer in a
 * template literal (for the numbers printed by the listing).
 */
module JsNumbers {
  import opened Wrappers

  /** Value of `c` as a digit ('0'-'9', then 'a'-'z' or 'A'-'Z' from 10 on); 36 for any other character. */
  function DigitValue(c: char): (v: nat)
    ensures v <= 36
  {
    if '0' <= c <= '9' then c as int - '0' as int
    else if 'a' <= c <= 'z' then c as int - 'a' as int + 10
    else if 'A' <= c <= 'Z' then c as int - 'A' as int + 10
    else 36
  }

  predicate IsDigit(c: char, radix: nat)
  {
    DigitValue(c) < radix
  }

  /** The decimal digit character for `d`. */
  function DigitChar(d: nat): (c: char)
    requires d < 10
    ensures IsDigit(c, 10) && DigitValue(c) == d
  {
    ('0' as int + d) as char
  }

  /** The code points ECMAScript counts as WhiteSpace or LineTerminator, which `parseInt` skips at the start. */
  predicate IsJsSpace(c: char)
  {
    c == '\t' || c == '\U{000B}' || c == '\U{000C}' || c == ' ' || c == '\U{00A0}' || c == '\U{FEFF}' ||
    c == '\U{1680}' || ('\U{2000}' <= c <= '\U{200A}') || c == '\U{202F}' || c == '\U{205F}' ||
    c == '\U{3000}' || c == '\n' || c == '\r' || c == '\U{2028}' || c == '\U{2029}'
  }

  /** `s` without its leading white space. */
  function TrimStart(s: string): (r: string)
    ensures |r| <= |s| && r == s[|s| - |r|..]
    ensures forall k :: 0 <= k < |s| - |r| ==> IsJsSpace(s[k])
    ensures r != [] ==> !IsJsSpace(r[0])
  {
    if s != [] && IsJsSpace(s[0]) then TrimStart(s[1..]) else s
  }

  /** The longest prefix of `s` made of digits of `radix`. */
  function DigitPrefix(s: string, radix: nat): (z: string)
    ensures z <= s
    ensures forall k :: 0 <= k < |z| ==> IsDigit(z[k], radix)
    ensures |z| < |s| ==> !IsDigit(s[|z|], radix)
  {
    if s != [] && IsDigit(s[0], radix) then [s[0]] + DigitPrefix(s[1..], radix) else []
  }

  /** The value of the digit string `z` in `radix`, most significant digit first. */
  function DigitsValue(z: string, radix: nat): nat
  {
    if z == [] then 0 else DigitsValue(z[..|z| - 1], radix) * radix + DigitValue(z[|z| - 1])
  }

  /**
   * `parseInt(s)` with no radix: skip leading white space, take an optional
   * sign, then read the magnitude. No digits gives NaN, written `None`.
   */
  function ParseInt(s: string): Option<int>
  {
    ParseSigned(TrimStart(s))
  }

  /** An optional '-' or '+' followed by a magnitude. */
  function ParseSigned(t: string): Option<int>
  {
    if t != [] && t[0] == '-' then
      match ParseMagnitude(t[1..])
      case None => None
      case Some(m) => Some(-m)
    else if t != [] && t[0] == '+' then ParseMagnitude(t[1..])
    else ParseMagnitude(t)
  }

  /**
   * A "0x"/"0X" prefix selects radix 16, anything else radix 10; the value is
   * that of the longest run of digits that follows, trailing text ignored.
   */
  function ParseMagnitude(u: string): Option<int>
  {
    var hex := |u| >= 2 && u[0] == '0' && (u[1] == 'x' || u[1] == 'X');
    var radix := if hex then 16 else 10;
    var z := DigitPrefix(if hex then u[2..] else u, radix);
    if z == [] then None else Some(DigitsValue(z, radix))
  }

  /**
   * The decimal rendering of `n`, as `${n}` gives it: digits only, a leading
   * zero only for zero itself, and reading the digits back gives `n`.
   */
  function DecimalString(n: nat): (s: string)
    ensures s != [] && forall k :: 0 <= k < |s| ==> IsDigit(s[k], 10)
    ensures (s[0] == '0') == (n == 0)
    ensures DigitsValue(s, 10) == n
  {
    if n < 10 then [DigitChar(n)] else DecimalString(n / 10) + [DigitChar(n % 10)]
  }

  /** A run of digits followed by anything that is not a digit: the run is the digit prefix. */
  lemma {:induction false} DigitPrefixOfRun(w: string, rest: string, radix: nat)
    requires forall k :: 0 <= k < |w| ==> IsDigit(w[k], radix)
    requires rest == [] || !IsDigit(rest[0], radix)
    ensures DigitPrefix(w + rest, radix) == w
  {
    if w == [] {
      assert w + rest == rest;
    } else {
      assert (w + rest)[0] == w[0];
      assert (w + rest)[1..] == w[1..] + rest;
      DigitPrefixOfRun(w[1..], rest, radix);
      assert [w[0]] + w[1..] == w;
    }
  }

  /** The magnitude of a rendered number followed by non-digit text is that number. */
  lemma MagnitudeOfDecimal(n: nat, rest: string)
    requires rest == [] || !IsDigit(rest[0], 10)
    requires n == 0 && rest != [] ==> rest[0] != 'x' && rest[0] != 'X'
    ensures ParseMagnitude(DecimalString(n) + rest) == Some(n)
  {
    var w := DecimalString(n);
    var u := w + rest;
    assert u[0] == w[0];
    if n == 0 {
      assert w == "0";
      assert |u| >= 2 ==> u[1] == rest[0];
    }
    DigitPrefixOfRun(w, rest, 10);
  }

  /** Parsing a rendered number gives it back when the text after it does not start with a digit
      (nor, after a lone 0, with 'x' or 'X', which would start a hexadecimal numeral). */
  lemma ParseIntOfDecimal(n: nat, rest: string)
    requires rest == [] || !IsDigit(rest[0], 10)
    requires n == 0 && rest != [] ==> rest[0] != 'x' && rest[0] != 'X'
    ensures ParseInt(DecimalString(n) + rest) == Some(n)
  {
    var w := DecimalString(n);
    assert (w + rest)[0] == w[0];
    ParseIntOfDigitStart(w + rest);
    MagnitudeOfDecimal(n, rest);
  }

  /** Text that starts with a decimal digit has no space to skip and no sign. */
  lemma ParseIntOfDigitStart(s: string)
    requires s != [] && IsDigit(s[0], 10)
    ensures ParseInt(s) == ParseMagnitude(s)
  {
    assert !IsJsSpace(s[0]) && s[0] != '-' && s[0] != '+';
    assert TrimStart(s) == s;
  }

  /** A minus sign in front of a rendered number gives its negation. */
  lemma ParseIntOfNegative(n: nat)
    ensures ParseInt("-" + DecimalString(n)) == Some(-(n as int))
  {
    var w := DecimalString(n);
    ParseIntOfMinus(w);
    assert w + [] == w;
    MagnitudeOfDecimal(n, []);
  }

  /** Text that starts with '-' reads as the negated magnitude after it. */
  lemma ParseIntOfMinus(w: string)
    ensures ParseMagnitude(w).None? ==> ParseInt("-" + w) == None
    ensures ParseMagnitude(w).Some? ==> ParseInt("-" + w) == Some(-ParseMagnitude(w).value)
  {
    var s := "-" + w;
    assert s[0] == '-' && !IsJsSpace(s[0]);
    assert TrimStart(s) == s;
    assert s[1..] == w;
  }

  /** Leading white space does not change what `parseInt` reads. */
  lemma {:induction false} ParseIntSkipsSpace(ws: string, s: string)
    requires forall k :: 0 <= k < |ws| ==> IsJsSpace(ws[k])
    ensures ParseInt(ws + s) == ParseInt(s)
  {
    TrimStartSkipsSpace(ws, s);
  }

  lemma {:induction false} TrimStartSkipsSpace(ws: string, s: string)
    requires forall k :: 0 <= k < |ws| ==> IsJsSpace(ws[k])
    ensures TrimStart(ws + s) == TrimStart(s)
  {
    if ws != [] {
      assert IsJsSpace((ws + s)[0]);
      assert (ws + s)[1..] == ws[1..] + s;
      TrimStartSkipsSpace(ws[1..], s);
    } else {
      assert ws + s == s;
    }
  }

  /** Text with no decimal digit at all parses as NaN. */
  lemma ParseIntWithoutDigits(s: string)
    requires forall k :: 0 <= k < |s| ==> !IsDigit(s[k], 10)
    ensures ParseInt(s) == None
  {
    var t := TrimStart(s);
    var j := |s| - |t|;
    assert t == s[j..];
    assert t != [] ==> t[0] == s[j];
    assert |t| >= 2 ==> t[1] == s[j + 1];
    SignedWithoutDigit(t);
  }

  /** When neither of the first two characters is a digit, there is no magnitude after an optional sign. */
  lemma SignedWithoutDigit(t: string)
    requires t == [] || !IsDigit(t[0], 10)
    requires |t| >= 2 ==> !IsDigit(t[1], 10)
    ensures ParseSigned(t) == None
  {
    MagnitudeWithoutDigit(t);
    if t != [] {
      MagnitudeWithoutDigit(t[1..]);
    }
  }

  /** A magnitude that does not start with a decimal digit is NaN. */
  lemma MagnitudeWithoutDigit(u: string)
    requires u == [] || !IsDigit(u[0], 10)
    ensures ParseMagnitude(u) == None
  {
  }

  /** After "0x" or "0X", the run of hexadecimal digits is read in radix 16, trailing text ignored. */
  lemma ParseIntOfHexRun(x: char, w: string, rest: string)
    requires x == 'x' || x == 'X'
    requires w != [] && forall k :: 0 <= k < |w| ==> IsDigit(w[k], 16)
    requires rest == [] || !IsDigit(rest[0], 16)
    ensures ParseInt(['0', x] + w + rest) == Some(DigitsValue(w, 16))
  {
    var v := w + rest;
    var s := ['0', x] + v;
    assert s == ['0', x] + w + rest;
    assert s[0] == '0' && s[1] == x && s[2..] == v;
    DigitPrefixOfRun(w, rest, 16);
    HexMagnitude(s, v);
    assert ParseMagnitude(s) == Some(DigitsValue(w, 16));
    ParseIntOfDigitStart(s);
  }

  /** A magnitude written "0x" or "0X" then `v` is the value of the hexadecimal digit prefix of `v`. */
  lemma HexMagnitude(u: string, v: string)
    requires |u| >= 2 && u[0] == '0' && (u[1] == 'x' || u[1] == 'X') && u[2..] == v
    ensures DigitPrefix(v, 16) != [] ==> ParseMagnitude(u) == Some(DigitsValue(DigitPrefix(v, 16), 16))
    ensures DigitPrefix(v, 16) == [] ==> ParseMagnitude(u) == None
  {
  }

  /** "0x" or "0X" with no hexadecimal digit after it is NaN, not zero. */
  lemma ParseIntOfBareHexPrefix(x: char, rest: string)
    requires x == 'x' || x == 'X'
    requires rest == [] || !IsDigit(rest[0], 16)
    ensures ParseInt(['0', x] + rest) == None
  {
    var s := ['0', x] + rest;
    assert s[0] == '0' && s[1] == x && s[2..] == rest;
    ParseIntOfDigitStart(s);
    HexMagnitude(s, rest);
  }

  /** "0x1A" reads as 26. */
  lemma ParseIntOfHex()
    ensures ParseInt("0x1A") == Some(26)
  {
    ParseIntOfHexRun('x', "1A", []);
    assert ['0', 'x'] + "1A" + [] == "0x1A";
    assert "1A"[..1] == "1" && "1"[..0] == [];
    assert DigitsValue("1", 16) == 1;
  }
}
