/** ECMAScript's global `parseInt(string)` called without a radix, as the
    room page uses it to turn a message id into the integer `messageId` of
    the delete request. A Number that is not NaN is modelled by an
    unbounded `int`; negative zero is folded into zero. */
module JsParseInt {

  /** The Number that `parseInt` returns: an integral value, or NaN. */
  datatype Parsed = NaN | Num(value: int)

  /** The StrWhiteSpaceChar set of ECMAScript: WhiteSpace (TAB, VT, FF,
      SPACE, NBSP, ZWNBSP and the Unicode Zs category) and LineTerminator. */
  predicate IsStrWhiteSpace(c: char) {
    || c == '\t' || c == '\U{000B}' || c == '\U{000C}' || c == ' '
    || c == '\U{00A0}' || c == '\U{FEFF}' || c == '\U{1680}'
    || ('\U{2000}' <= c <= '\U{200A}') || c == '\U{202F}' || c == '\U{205F}' || c == '\U{3000}'
    || c == '\n' || c == '\r' || c == '\U{2028}' || c == '\U{2029}'
  }

  /** The value of `c` as a digit of radix up to 36; 36 when `c` is no digit at all. */
  function DigitValue(c: char): (v: nat)
    ensures v <= 36
    ensures v < 10 <==> '0' <= c <= '9'
  {
    if '0' <= c <= '9' then c as int - '0' as int
    else if 'a' <= c <= 'z' then c as int - 'a' as int + 10
    else if 'A' <= c <= 'Z' then c as int - 'A' as int + 10
    else 36
  }

  predicate IsDigit(c: char, radix: nat) {
    DigitValue(c) < radix
  }

  /** The string with its leading white space removed. */
  function TrimStart(s: string): string {
    if s != [] && IsStrWhiteSpace(s[0]) then TrimStart(s[1..]) else s
  }

  /** The longest prefix of `s` made of digits of the given radix. */
  function DigitPrefix(s: string, radix: nat): string {
    if s != [] && IsDigit(s[0], radix) then [s[0]] + DigitPrefix(s[1..], radix) else []
  }

  /** The value of a digit string read most significant digit first. */
  function DigitsValue(ds: string, radix: nat): nat {
    if ds == [] then 0
    else DigitsValue(ds[..|ds| - 1], radix) * radix + DigitValue(ds[|ds| - 1])
  }

  /** The string after one optional leading sign. */
  function StripSign(s: string): string {
    if s != [] && (s[0] == '-' || s[0] == '+') then s[1..] else s
  }

  predicate HasHexPrefix(s: string) {
    |s| >= 2 && s[0] == '0' && (s[1] == 'x' || s[1] == 'X')
  }

  /** The value of the digits at the start of an unsigned string: radix 16
      after a "0x"/"0X" prefix, radix 10 otherwise; NaN when there is no
      digit. */
  function ParseMagnitude(unsigned: string): (r: Parsed)
    ensures r.Num? ==> r.value >= 0
  {
    var radix := if HasHexPrefix(unsigned) then 16 else 10;
    var digits := DigitPrefix(if HasHexPrefix(unsigned) then unsigned[2..] else unsigned, radix);
    if digits == [] then NaN else Num(DigitsValue(digits, radix))
  }

  /** `parseInt(input)`: skip leading white space, take one optional sign,
      then read the magnitude; a minus sign negates it. */
  function ParseInt(input: string): (r: Parsed)
    ensures r.Num? ==> TrimStart(input) != []
    ensures r.Num? && r.value < 0 ==> StartsWithMinus(input)
    ensures r.Num? && StartsWithMinus(input) ==> r.value <= 0
  {
    var s := TrimStart(input);
    match ParseMagnitude(StripSign(s))
    case NaN => NaN
    case Num(v) => if s != [] && s[0] == '-' then Num(-v) else Num(v)
  }

  /** The first character after the leading white space is '-'. */
  predicate StartsWithMinus(input: string) {
    var s := TrimStart(input);
    s != [] && s[0] == '-'
  }

  /** Every character left after trimming comes from the input. */
  lemma {:induction false} TrimStartKeeps(s: string)
    ensures forall c :: c in TrimStart(s) ==> c in s
  {
    if s != [] && IsStrWhiteSpace(s[0]) {
      TrimStartKeeps(s[1..]);
    }
  }

  /** Only an input holding a decimal digit parses to a number (a hex
      numeral starts with its "0"). */
  lemma NumberNeedsDigit(input: string)
    ensures ParseInt(input).Num? ==> exists c :: c in input && '0' <= c <= '9'
  {
    var s := TrimStart(input);
    var u := StripSign(s);
    if ParseInt(input).Num? {
      TrimStartKeeps(input);
      assert u != [];
      assert u[0] in s;
      if !HasHexPrefix(u) {
        assert IsDigit(u[0], 10);
      }
      assert u[0] in input;
    }
  }

  /** The decimal numeral of `n`, without sign or leading zeros, as a
      server writes an integer primary key into a GraphQL `ID`. */
  function DecimalString(n: nat): (r: string)
    ensures |r| >= 1
    ensures forall i :: 0 <= i < |r| ==> '0' <= r[i] <= '9'
    ensures |r| > 1 ==> r[0] != '0'
  {
    var d := ['0' + (n % 10) as char];
    if n < 10 then d else DecimalString(n / 10) + d
  }

  lemma {:induction false} DecimalValue(n: nat)
    ensures DigitsValue(DecimalString(n), 10) == n
  {
    if n >= 10 {
      var ds := DecimalString(n);
      assert ds[..|ds| - 1] == DecimalString(n / 10);
      DecimalValue(n / 10);
    }
  }

  lemma {:induction false} DigitPrefixOfDigits(ds: string, rest: string, radix: nat)
    requires forall i :: 0 <= i < |ds| ==> IsDigit(ds[i], radix)
    requires rest == [] || !IsDigit(rest[0], radix)
    ensures DigitPrefix(ds + rest, radix) == ds
  {
    if ds != [] {
      assert (ds + rest)[1..] == ds[1..] + rest;
      DigitPrefixOfDigits(ds[1..], rest, radix);
    } else {
      assert ds + rest == rest;
    }
  }

  /** The integer id of a message round-trips: `parseInt` of a decimal
      numeral gives back its value, and whatever follows the numeral is
      ignored as long as it cannot continue it (for zero, an "x" would turn
      "0" into a hexadecimal prefix). */
  lemma ParseDecimal(n: nat, rest: string)
    requires rest == [] || !IsDigit(rest[0], 10)
    requires n == 0 ==> rest == [] || (rest[0] != 'x' && rest[0] != 'X')
    ensures ParseInt(DecimalString(n) + rest) == Num(n)
  {
    var ds := DecimalString(n);
    var s := ds + rest;
    assert s[0] == ds[0];
    assert TrimStart(s) == s;
    assert StripSign(s) == s;
    assert ParseMagnitude(s) == Num(n) by {
      assert !HasHexPrefix(s) by {
        if |ds| > 1 { assert s[0] != '0'; } else { assert |s| >= 2 ==> s[1] == rest[0]; }
      }
      DigitPrefixOfDigits(ds, rest, 10);
      DecimalValue(n);
    }
  }

  /** The value a sign gives a magnitude. */
  function Signed(sign: string, v: nat): int {
    if sign == "-" then -(v as int) else v
  }

  /** One optional sign in front of an unsigned string that starts with
      neither white space nor a sign: the sign applies to its magnitude. */
  lemma ParseSigned(sign: string, u: string)
    requires sign == "" || sign == "-" || sign == "+"
    requires u != [] && !IsStrWhiteSpace(u[0]) && u[0] != '-' && u[0] != '+'
    ensures ParseMagnitude(u).NaN? ==> ParseInt(sign + u) == NaN
    ensures ParseMagnitude(u).Num? ==> ParseInt(sign + u) == Num(Signed(sign, ParseMagnitude(u).value))
  {
    var t := sign + u;
    assert t[0] == (if sign == "" then u[0] else sign[0]);
    assert TrimStart(t) == t;
    assert StripSign(t) == u;
  }

  lemma MagnitudeOfDigits(ds: string, rest: string)
    requires ds != [] && forall i :: 0 <= i < |ds| ==> IsDigit(ds[i], 10)
    requires rest == [] || !IsDigit(rest[0], 10)
    requires !HasHexPrefix(ds + rest)
    ensures ParseMagnitude(ds + rest) == Num(DigitsValue(ds, 10))
  {
    DigitPrefixOfDigits(ds, rest, 10);
  }

  /** Any run of decimal digits, leading zeros allowed, after an optional
      sign and before a tail that cannot continue it, parses to its value,
      negated after a minus ("007" is 7, "+5" is 5, "-5px" is -5). */
  lemma ParseDigits(sign: string, ds: string, rest: string)
    requires sign == "" || sign == "-" || sign == "+"
    requires ds != [] && forall i :: 0 <= i < |ds| ==> IsDigit(ds[i], 10)
    requires rest == [] || !IsDigit(rest[0], 10)
    requires !HasHexPrefix(ds + rest)
    ensures ParseInt(sign + (ds + rest)) == Num(Signed(sign, DigitsValue(ds, 10)))
  {
    var u := ds + rest;
    assert u[0] == ds[0] && IsDigit(u[0], 10);
    MagnitudeOfDigits(ds, rest);
    ParseSigned(sign, u);
  }

  lemma MagnitudeOfHex(x: char, hs: string, rest: string)
    requires x == 'x' || x == 'X'
    requires hs != [] && forall i :: 0 <= i < |hs| ==> IsDigit(hs[i], 16)
    requires rest == [] || !IsDigit(rest[0], 16)
    ensures ParseMagnitude(['0', x] + hs + rest) == Num(DigitsValue(hs, 16))
  {
    var prefix, digits := ['0', x], hs + rest;
    assert prefix + hs + rest == prefix + digits;
    var u := prefix + digits;
    assert u[2..] == digits;
    assert HasHexPrefix(u);
    DigitPrefixOfDigits(hs, rest, 16);
  }

  /** A "0x" or "0X" prefix, after an optional sign, reads the hexadecimal
      digits that follow it ("0x1A" is 26, "-0x1A" is -26). */
  lemma ParseHexDigits(sign: string, x: char, hs: string, rest: string)
    requires sign == "" || sign == "-" || sign == "+"
    requires x == 'x' || x == 'X'
    requires hs != [] && forall i :: 0 <= i < |hs| ==> IsDigit(hs[i], 16)
    requires rest == [] || !IsDigit(rest[0], 16)
    ensures ParseInt(sign + (['0', x] + hs + rest)) == Num(Signed(sign, DigitsValue(hs, 16)))
  {
    var u := ['0', x] + hs + rest;
    MagnitudeOfHex(x, hs, rest);
    ParseSigned(sign, u);
  }

  /** A hexadecimal prefix with no hexadecimal digit after it is NaN. */
  lemma ParseHexWithoutDigits(sign: string, x: char, rest: string)
    requires sign == "" || sign == "-" || sign == "+"
    requires x == 'x' || x == 'X'
    requires rest == [] || !IsDigit(rest[0], 16)
    ensures ParseInt(sign + (['0', x] + rest)) == NaN
  {
    var u := ['0', x] + rest;
    var t := sign + u;
    assert t[0] == (if sign == "" then '0' else sign[0]);
    assert TrimStart(t) == t;
    assert StripSign(t) == u;
    assert HasHexPrefix(u) && u[2..] == rest;
    assert DigitPrefix(rest, 16) == [];
  }

  /** A minus sign in front of the numeral negates the value. */
  lemma ParseNegativeDecimal(n: nat)
    ensures ParseInt("-" + DecimalString(n)) == Num(-(n as int))
  {
    var ds := DecimalString(n);
    var s := ['-'] + ds;
    assert s[0] == '-' && s[1..] == ds;
    assert TrimStart(s) == s;
    assert StripSign(s) == ds;
    assert ParseMagnitude(ds) == Num(n) by {
      assert !HasHexPrefix(ds);
      assert ds + [] == ds;
      DigitPrefixOfDigits(ds, [], 10);
      DecimalValue(n);
    }
  }

  /** Leading white space never changes the result. */
  lemma {:induction false} ParseSkipsWhiteSpace(ws: string, s: string)
    requires forall i :: 0 <= i < |ws| ==> IsStrWhiteSpace(ws[i])
    ensures ParseInt(ws + s) == ParseInt(s)
  {
    TrimAfterWhiteSpace(ws, s);
    assert TrimStart(ws + s) == TrimStart(s);
  }

  lemma {:induction false} TrimAfterWhiteSpace(ws: string, s: string)
    requires forall i :: 0 <= i < |ws| ==> IsStrWhiteSpace(ws[i])
    ensures TrimStart(ws + s) == TrimStart(s)
  {
    if ws == [] {
      assert ws + s == s;
    } else {
      assert (ws + s)[1..] == ws[1..] + s;
      TrimAfterWhiteSpace(ws[1..], s);
    }
  }

  /** Leading white space, then at most one sign, then anything but a
      decimal digit (an opaque global id such as a base64 string, a lone
      sign, or nothing at all) parses to NaN. Without a sign the rest must
      not itself start with white space or a sign, which would be skipped. */
  lemma ParseNonNumeric(ws: string, sign: string, s: string)
    requires forall i :: 0 <= i < |ws| ==> IsStrWhiteSpace(ws[i])
    requires sign == "" || sign == "-" || sign == "+"
    requires s == [] || !IsDigit(s[0], 10)
    requires sign == "" && s != [] ==> !IsStrWhiteSpace(s[0]) && s[0] != '-' && s[0] != '+'
    ensures ParseInt(ws + sign + s) == NaN
  {
    assert ws + sign + s == ws + (sign + s);
    ParseSkipsWhiteSpace(ws, sign + s);
    SignedNonNumeric(sign, s);
  }

  lemma SignedNonNumeric(sign: string, s: string)
    requires sign == "" || sign == "-" || sign == "+"
    requires s == [] || !IsDigit(s[0], 10)
    requires sign == "" && s != [] ==> !IsStrWhiteSpace(s[0]) && s[0] != '-' && s[0] != '+'
    ensures ParseInt(sign + s) == NaN
  {
    var t := sign + s;
    assert TrimStart(t) == t;
    assert StripSign(t) == s;
    assert ParseMagnitude(s) == NaN by {
      assert !HasHexPrefix(s);
      assert DigitPrefix(s, 10) == [];
    }
  }
}
