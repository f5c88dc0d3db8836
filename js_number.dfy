/**
 * The sign of JavaScript's `Number(s)` for a string `s`, following the
 * StringNumericLiteral grammar of section 7.1.4.1 of ECMA-262: surrounding
 * white space is ignored, an empty string is 0, a decimal literal may carry
 * a sign, a fraction and an exponent, `Infinity` is a literal, `0x`, `0o`
 * and `0b` introduce unsigned integers, and anything else is NaN.
 * `qty <= 0` on a string converts it this way and then compares; only the
 * sign matters for that comparison, so only the sign is computed.
 */
module JsNumber {

  import opened JsStrings

  datatype Sign = NaN | Negative | Zero | Positive

  predicate IsDecimalDigit(c: char) {
    '0' <= c <= '9'
  }

  /** Zero or more decimal digits. */
  predicate DecimalDigits(s: string) {
    forall i :: 0 <= i < |s| ==> IsDecimalDigit(s[i])
  }

  predicate AllZeros(s: string) {
    forall i :: 0 <= i < |s| ==> s[i] == '0'
  }

  /** The digits allowed after `0x`/`0X`, `0o`/`0O` or `0b`/`0B`. */
  predicate IsRadixDigit(c: char, radix: char) {
    if radix == 'x' || radix == 'X' then IsDecimalDigit(c) || 'a' <= c <= 'f' || 'A' <= c <= 'F'
    else if radix == 'o' || radix == 'O' then '0' <= c <= '7'
    else c == '0' || c == '1'
  }

  /** The first position holding `a` or `b`, or `|s|` when there is none. */
  function IndexOfEither(s: string, a: char, b: char): (k: nat)
    ensures k <= |s|
    ensures k < |s| ==> s[k] == a || s[k] == b
    ensures forall i :: 0 <= i < k ==> s[i] != a && s[i] != b
  {
    if s == [] then 0
    else if s[0] == a || s[0] == b then 0
    else 1 + IndexOfEither(s[1..], a, b)
  }

  /** An exponent's SignedInteger: an optional sign and at least one digit. */
  predicate SignedInteger(s: string) {
    if |s| > 0 && (s[0] == '+' || s[0] == '-') then |s| > 1 && DecimalDigits(s[1..])
    else |s| > 0 && DecimalDigits(s)
  }

  /**
   * StrUnsignedDecimalLiteral: `Infinity`, or digits with an optional
   * fraction (at least one digit in all) and an optional exponent. The
   * value is zero exactly when every mantissa digit is zero.
   */
  function UnsignedDecimalSign(u: string): Sign {
    if u == "Infinity" then Positive
    else
      var k := IndexOfEither(u, 'e', 'E');
      var mantissa := u[..k];
      if k < |u| && !SignedInteger(u[k + 1..]) then NaN
      else
        // the decimal point: one character, passed as both alternatives
        var d := IndexOfEither(mantissa, '.', '.');
        var whole := mantissa[..d];
        var fraction := if d < |mantissa| then mantissa[d + 1..] else "";
        if !DecimalDigits(whole) || !DecimalDigits(fraction) || |whole| + |fraction| == 0 then NaN
        else if AllZeros(whole) && AllZeros(fraction) then Zero
        else Positive
  }

  function Negate(s: Sign): Sign {
    match s
    case Positive => Negative
    case Negative => Positive
    case _ => s
  }

  /** NonDecimalIntegerLiteral after its two-character prefix: at least one digit of the radix. */
  function NonDecimalSign(digits: string, radix: char): Sign {
    if |digits| > 0 && forall i :: 0 <= i < |digits| ==> IsRadixDigit(digits[i], radix) then
      if AllZeros(digits) then Zero else Positive
    else NaN
  }

  /** StrNumericLiteral, on a trimmed non-empty string. */
  function LiteralSign(t: string): Sign
    requires t != ""
  {
    if |t| >= 2 && t[0] == '0' && t[1] in "xXoObB" then NonDecimalSign(t[2..], t[1])
    else if t[0] == '+' then UnsignedDecimalSign(t[1..])
    else if t[0] == '-' then Negate(UnsignedDecimalSign(t[1..]))
    else UnsignedDecimalSign(t)
  }

  /** The sign of `Number(s)`; white space alone, like the empty string, is 0. */
  function NumberSign(s: string): Sign {
    var t := Trim(s);
    if t == "" then Zero else LiteralSign(t)
  }

  /** `s <= 0` with `s` a string: false when the string is not a number. */
  predicate AtMostZero(s: string) {
    NumberSign(s) == Zero || NumberSign(s) == Negative
  }

  lemma {:induction false} IndexOfAbsent(s: string, a: char, b: char)
    requires forall i :: 0 <= i < |s| ==> s[i] != a && s[i] != b
    ensures IndexOfEither(s, a, b) == |s|
  {
  }

  /** A string without white space at either end is its own trim. */
  lemma {:induction false} TrimOfUnpadded(s: string)
    requires s != [] && !IsJsSpace(s[0]) && !IsJsSpace(s[|s| - 1])
    ensures Trim(s) == s
  {
  }

  /** A run of decimal digits is positive unless every digit is zero. */
  lemma {:induction false} UnsignedDigitsSign(d: string)
    requires d != [] && DecimalDigits(d)
    ensures UnsignedDecimalSign(d) == if AllZeros(d) then Zero else Positive
  {
    assert d[0] != "Infinity"[0];
    IndexOfAbsent(d, 'e', 'E');
    assert d[..|d|] == d;
    IndexOfAbsent(d, '.', '.');
  }

  /**
   * A whole number typed as digits, bare or after a minus sign, compares
   * with 0 as its value does: `"0"`, `"000"` and `"-0"` are at most zero,
   * `"12"` is not, `"-12"` is.
   */
  lemma {:induction false} DigitsSign(d: string)
    requires d != [] && DecimalDigits(d)
    ensures NumberSign(d) == if AllZeros(d) then Zero else Positive
    ensures NumberSign("-" + d) == if AllZeros(d) then Zero else Negative
    ensures AtMostZero(d) <==> AllZeros(d)
    ensures AtMostZero("-" + d)
  {
    TrimOfUnpadded(d);
    UnsignedDigitsSign(d);
    assert d[0] !in "+-";
    var m := "-" + d;
    assert m[|m| - 1] == d[|d| - 1];
    TrimOfUnpadded(m);
    assert m[1..] == d;
  }

  /** White space alone, like the empty string, converts to 0, which is at most zero. */
  lemma {:induction false} BlankIsZero(s: string)
    requires Blank(s)
    ensures NumberSign(s) == Zero && AtMostZero(s)
  {
    TrimEmptyIffBlank(s);
  }

  /** A string whose first character is not white space keeps that character first when trimmed. */
  lemma {:induction false} TrimKeepsFirst(s: string)
    requires s != [] && !IsJsSpace(s[0])
    ensures Trim(s) != [] && Trim(s)[0] == s[0]
  {
    assert TrimStart(s) == s;
    assert !AllSpace(s);
  }

  /**
   * A trimmed literal other than `Infinity` that starts with a letter is
   * NaN: a mantissa cannot start with a letter, and a leading `e` or `E`
   * leaves the mantissa empty.
   */
  lemma {:induction false} LetterLiteralIsNaN(t: string)
    requires t != [] && ('a' <= t[0] <= 'z' || 'A' <= t[0] <= 'Z') && t != "Infinity"
    ensures LiteralSign(t) == NaN
  {
    var k := IndexOfEither(t, 'e', 'E');
    if k == |t| || SignedInteger(t[k + 1..]) {
      var mantissa := t[..k];
      var d := IndexOfEither(mantissa, '.', '.');
      if k > 0 {
        assert mantissa[0] == t[0];
        assert d > 0;
        assert mantissa[..d][0] == t[0];
      }
    }
  }

  /**
   * Text that starts with a letter is not a number, whatever follows,
   * unless it trims to `Infinity`; NaN compares false with 0.
   */
  lemma {:induction false} WordIsNaN(s: string)
    requires s != [] && ('a' <= s[0] <= 'z' || 'A' <= s[0] <= 'Z') && Trim(s) != "Infinity"
    ensures NumberSign(s) == NaN && !AtMostZero(s)
  {
    TrimKeepsFirst(s);
    LetterLiteralIsNaN(Trim(s));
  }
}
