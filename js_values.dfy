/**
 * The pieces of JavaScript semantics the two views rely on:
 * numbers (with NaN and the infinities), `String.prototype.trim`,
 * `Number(text)`, the truthiness that drives `x || default`, and the
 * untyped objects (`Record<string, any>`) that the logistics form holds.
 */
module JsValues {
  import opened Wrappers

  /** A JavaScript number. Finite values are kept exact (no IEEE-754 rounding). */
  datatype JsNumber = NaN | Finite(value: real) | Infinity(positive: bool)

  /** A value held in a form field: text typed into an input, or a number. */
  datatype Value = Text(text: string) | Num(num: JsNumber)

  /** A plain JavaScript object; a key that is absent reads as `undefined`. */
  type Record = map<string, Value>

  // ---------------------------------------------------------------------
  // Whitespace and String.prototype.trim
  // ---------------------------------------------------------------------

  /** WhiteSpace and LineTerminator code points, the set `trim` and `Number` strip. */
  predicate IsJsWhitespace(c: char)
  {
    || c == '\t' || c == '\n' || c == '\U{000B}' || c == '\U{000C}' || c == '\r' || c == ' '
    || c == '\U{00A0}' || c == '\U{1680}' || ('\U{2000}' <= c <= '\U{200A}')
    || c == '\U{2028}' || c == '\U{2029}' || c == '\U{202F}' || c == '\U{205F}'
    || c == '\U{3000}' || c == '\U{FEFF}'
  }

  predicate AllWhitespace(s: string)
  {
    forall i :: 0 <= i < |s| ==> IsJsWhitespace(s[i])
  }

  /** Drops leading whitespace. */
  function TrimStart(s: string): string
    decreases |s|
  {
    if s != [] && IsJsWhitespace(s[0]) then TrimStart(s[1..]) else s
  }

  /** Drops trailing whitespace. */
  function TrimEnd(s: string): string
    decreases |s|
  {
    if s != [] && IsJsWhitespace(s[|s| - 1]) then TrimEnd(s[..|s| - 1]) else s
  }

  /** `s.trim()`. */
  function Trim(s: string): (t: string)
    ensures |t| <= |s|
    ensures s != [] && !IsJsWhitespace(s[0]) && !IsJsWhitespace(s[|s| - 1]) ==> t == s
  {
    var u := TrimStart(s);
    TrimStartSpec(s);
    TrimEndSpec(u);
    assert s != [] && !IsJsWhitespace(s[0]) ==> u == s;
    TrimEnd(u)
  }

  /** `TrimStart` gives the suffix of `s` after its leading whitespace. */
  lemma {:induction false} TrimStartSpec(s: string)
    ensures var r := TrimStart(s);
      && |r| <= |s| && r == s[|s| - |r|..]
      && AllWhitespace(s[..|s| - |r|])
      && (r == [] || !IsJsWhitespace(r[0]))
    decreases |s|
  {
    if s != [] && IsJsWhitespace(s[0]) {
      var t := s[1..];
      TrimStartSpec(t);
      var r := TrimStart(t);
      assert s[|s| - |r|..] == t[|t| - |r|..];
      var dropped := s[..|s| - |r|];
      assert dropped == [s[0]] + t[..|t| - |r|];
      assert AllWhitespace(dropped) by {
        forall k | 0 <= k < |dropped| ensures IsJsWhitespace(dropped[k]) {
          if k > 0 {
            assert dropped[k] == t[..|t| - |r|][k - 1];
          }
        }
      }
    } else {
      assert s[..0] == [];
    }
  }

  /** `TrimEnd` gives the prefix of `s` before its trailing whitespace. */
  lemma {:induction false} TrimEndSpec(s: string)
    ensures var r := TrimEnd(s);
      && |r| <= |s| && r == s[..|r|]
      && AllWhitespace(s[|r|..])
      && (r == [] || !IsJsWhitespace(r[|r| - 1]))
    decreases |s|
  {
    if s != [] && IsJsWhitespace(s[|s| - 1]) {
      var t := s[..|s| - 1];
      TrimEndSpec(t);
      var r := TrimEnd(t);
      assert s[..|r|] == t[..|r|];
      assert AllWhitespace(s[|r|..]) by {
        forall k | 0 <= k < |s| - |r| ensures IsJsWhitespace(s[|r|..][k]) {
          if |r| + k < |t| {
            assert s[|r|..][k] == t[|r|..][k];
          }
        }
      }
    } else {
      assert s[|s|..] == [];
    }
  }

  /**
   * `trim` gives the empty string exactly for all-whitespace text, never
   * leaves whitespace at either end, and keeps text that has none there.
   */
  lemma TrimSpec(s: string)
    ensures Trim(s) == [] <==> AllWhitespace(s)
    ensures Trim(s) != [] ==> !IsJsWhitespace(Trim(s)[0]) && !IsJsWhitespace(Trim(s)[|Trim(s)| - 1])
    ensures (s == [] || (!IsJsWhitespace(s[0]) && !IsJsWhitespace(s[|s| - 1]))) ==> Trim(s) == s
  {
    var t := TrimStart(s);
    TrimStartSpec(s);
    TrimEndSpec(t);
    var r := TrimEnd(t);
    assert r != [] ==> r[0] == t[0];
    assert AllWhitespace(s) ==> t == [] by {
      if t != [] {
        assert t[0] == s[|s| - |t|];
      }
    }
    assert t == [] ==> AllWhitespace(s) by {
      if t == [] {
        assert s[..|s|] == s;
      }
    }
    assert s != [] && !IsJsWhitespace(s[0]) ==> t == s;
  }

  // ---------------------------------------------------------------------
  // Number(text)
  // ---------------------------------------------------------------------

  predicate IsDigit(c: char)
  {
    '0' <= c <= '9'
  }

  predicate AllDigits(s: string)
  {
    forall i :: 0 <= i < |s| ==> IsDigit(s[i])
  }

  function DigitValue(c: char): (d: nat)
    requires IsDigit(c)
    ensures d < 10
  {
    c as int - '0' as int
  }

  /** The value of a string of decimal digits, most significant first. */
  function DigitsValue(s: string): nat
    requires AllDigits(s)
    decreases |s|
  {
    if s == [] then 0 else DigitsValue(s[..|s| - 1]) * 10 + DigitValue(s[|s| - 1])
  }

  function Pow10(k: nat): (p: nat)
    ensures p >= 1
  {
    if k == 0 then 1 else 10 * Pow10(k - 1)
  }

  /** The index of the first '.' in `s`, or `|s|` when there is none. */
  function DotIndex(s: string): (k: nat)
    ensures k <= |s|
    ensures k < |s| ==> s[k] == '.'
    ensures forall i :: 0 <= i < k ==> s[i] != '.'
    decreases |s|
  {
    if s == [] then 0 else if s[0] == '.' then 0 else 1 + DotIndex(s[1..])
  }

  /** The value of the digits after the decimal point. */
  function FractionValue(frac: string): (v: real)
    requires AllDigits(frac)
    ensures v >= 0.0
    ensures frac == [] ==> v == 0.0
  {
    DigitsValue(frac) as real / Pow10(|frac|) as real
  }

  /**
   * An unsigned StrDecimalLiteral: "Infinity", or digits with an optional
   * '.' and fraction, at least one digit in all. Anything else is NaN.
   */
  function UnsignedDecimal(u: string): (n: JsNumber)
    ensures n.Finite? ==> n.value >= 0.0
    ensures n != Infinity(false)
    ensures n.Finite? ==> u != [] && (IsDigit(u[0]) || u[0] == '.')
  {
    if u == "Infinity" then Infinity(true)
    else
      var k := DotIndex(u);
      var whole := u[..k];
      var frac := if k < |u| then u[k + 1..] else "";
      if AllDigits(whole) && AllDigits(frac) && (whole != "" || frac != "") then
        assert u != [] && (k == 0 || whole[0] == u[0]);
        Finite(DigitsValue(whole) as real + FractionValue(frac))
      else
        NaN
  }

  function Negate(n: JsNumber): JsNumber
  {
    match n
    case NaN => NaN
    case Finite(v) => Finite(-v)
    case Infinity(p) => Infinity(!p)
  }

  /**
   * `Number(s)` for a string: surrounding whitespace is ignored, a blank
   * string is 0, one sign is allowed before the unsigned literal.
   */
  function TextToNumber(s: string): (n: JsNumber)
    ensures AllWhitespace(s) ==> n == Finite(0.0)
    ensures n.Finite? && n.value < 0.0 ==> Trim(s) != [] && Trim(s)[0] == '-'
  {
    TrimSpec(s);
    var t := Trim(s);
    if t == [] then Finite(0.0)
    else if t[0] == '-' then Negate(UnsignedDecimal(t[1..]))
    else if t[0] == '+' then UnsignedDecimal(t[1..])
    else UnsignedDecimal(t)
  }

  /** `Number(x)` for a form value, with `undefined` giving NaN. */
  function ToNumber(v: Option<Value>): (n: JsNumber)
    ensures v.None? ==> n.NaN?
    ensures v.Some? && v.value.Num? ==> n == v.value.num
    ensures v.Some? && v.value.Text? && AllWhitespace(v.value.text) ==> n == Finite(0.0)
  {
    match v
    case None => NaN
    case Some(Text(s)) => TextToNumber(s)
    case Some(Num(x)) => x
  }

  predicate IsLatinLetter(c: char)
  {
    'a' <= c <= 'z' || 'A' <= c <= 'Z'
  }

  /** Text that, once trimmed, starts with a letter other than the `I` of "Infinity" is NaN. */
  lemma LeadingLetterIsNaN(s: string)
    requires Trim(s) != [] && IsLatinLetter(Trim(s)[0]) && Trim(s)[0] != 'I'
    ensures TextToNumber(s) == NaN
  {
    var t := Trim(s);
    assert t != "Infinity";
    assert !IsDigit(t[0]) && t[0] != '.';
  }

  /** A literal with a decimal point reads as its whole part plus its fraction. */
  lemma UnsignedFraction(w: string, f: string)
    requires AllDigits(w) && AllDigits(f) && (w != [] || f != [])
    ensures UnsignedDecimal(w + "." + f) == Finite(DigitsValue(w) as real + FractionValue(f))
  {
    var u := w + "." + f;
    assert u[|w|] == '.';
    assert forall i :: 0 <= i < |w| ==> u[i] == w[i] && u[i] != '.' by {
      forall i | 0 <= i < |w| ensures u[i] == w[i] && u[i] != '.' { assert IsDigit(w[i]); }
    }
    var k := DotIndex(u);
    assert k == |w|;
    assert u[..k] == w && u[k + 1..] == f;
    assert u != "Infinity" by {
      if w != [] { assert IsDigit(u[0]); } else { assert u[0] == '.'; }
    }
  }

  /** `Number("2.5") === 2.5` */
  lemma TwoPointFive()
    ensures TextToNumber("2.5") == Finite(2.5)
  {
    var s := "2.5";
    assert !IsJsWhitespace(s[0]) && !IsJsWhitespace(s[|s| - 1]);
    TrimSpec(s);
    assert s == "2" + "." + "5";
    UnsignedFraction("2", "5");
    assert FractionValue("5") == 0.5 by {
      assert DigitsValue("5") == 5 && Pow10(1) == 10;
    }
    assert DigitsValue("2") == 2;
  }

  /** `Number("Infinity")` and `Number("-Infinity")` are the two infinities. */
  lemma InfinityTexts()
    ensures TextToNumber("Infinity") == Infinity(true)
    ensures TextToNumber("-Infinity") == Infinity(false)
  {
    var p, n := "Infinity", "-Infinity";
    assert !IsJsWhitespace(p[0]) && !IsJsWhitespace(p[|p| - 1]);
    assert !IsJsWhitespace(n[0]) && !IsJsWhitespace(n[|n| - 1]);
    TrimSpec(p);
    TrimSpec(n);
    assert n[1..] == p;
  }

  /** The decimal text of a natural number, as `String(n)` writes it. */
  function NatText(n: nat): (s: string)
    ensures s != [] && AllDigits(s)
  {
    if n < 10 then ['0' + n as char] else NatText(n / 10) + ['0' + (n % 10) as char]
  }

  lemma {:induction false} DigitsValueOfNatText(n: nat)
    ensures DigitsValue(NatText(n)) == n
  {
    if n >= 10 {
      var s := NatText(n);
      assert s[..|s| - 1] == NatText(n / 10);
      DigitsValueOfNatText(n / 10);
    }
  }

  /** An unsigned literal made of digits only reads as its decimal value. */
  lemma UnsignedDigits(s: string)
    requires s != [] && AllDigits(s)
    ensures UnsignedDecimal(s) == Finite(DigitsValue(s) as real)
  {
    assert s != "Infinity" by { assert IsDigit(s[0]); }
    assert forall i :: 0 <= i < |s| ==> s[i] != '.' by {
      forall i | 0 <= i < |s| ensures s[i] != '.' { assert IsDigit(s[i]); }
    }
    assert s[..DotIndex(s)] == s;
  }

  /** A digit string reads as its decimal value. */
  lemma DigitsNumber(s: string)
    requires s != [] && AllDigits(s)
    ensures TextToNumber(s) == Finite(DigitsValue(s) as real)
  {
    assert IsDigit(s[0]) && IsDigit(s[|s| - 1]);
    TrimSpec(s);
    assert Trim(s) == s;
    UnsignedDigits(s);
  }

  /** `Number(String(n)) === n` for every natural number. */
  lemma NumberOfNatText(n: nat)
    ensures TextToNumber(NatText(n)) == Finite(n as real)
  {
    var s := NatText(n);
    DigitsNumber(s);
    DigitsValueOfNatText(n);
    assert DigitsValue(s) == n;
  }

  /** A minus sign before a digit string negates its value. */
  lemma NegatedDigits(s: string)
    requires s != [] && AllDigits(s)
    ensures TextToNumber("-" + s) == Finite(-(DigitsValue(s) as real))
  {
    var t := "-" + s;
    assert t[0] == '-' && t[1..] == s;
    assert t[|t| - 1] == s[|s| - 1] && IsDigit(s[|s| - 1]);
    assert Trim(t) == t;
    UnsignedDigits(s);
  }

  /** `Number("-" + String(n)) === -n` for every natural number. */
  lemma NumberOfNegatedNatText(n: nat)
    ensures TextToNumber("-" + NatText(n)) == Finite(-(n as real))
  {
    var s := NatText(n);
    NegatedDigits(s);
    DigitsValueOfNatText(n);
    assert DigitsValue(s) == n;
  }

  // ---------------------------------------------------------------------
  // Comparisons and truthiness
  // ---------------------------------------------------------------------

  /** `n <= 0`; every comparison with NaN is false. */
  predicate AtMostZero(n: JsNumber)
  {
    match n
    case NaN => false
    case Finite(v) => v <= 0.0
    case Infinity(p) => !p
  }

  /** A number is falsy exactly when it is NaN or zero. */
  predicate Truthy(n: JsNumber)
  {
    !n.NaN? && n != Finite(0.0)
  }

  /** `n || fallback` for a number. */
  function OrDefault(n: JsNumber, fallback: real): (r: JsNumber)
    requires fallback != 0.0
    ensures Truthy(r)
    ensures Truthy(n) ==> r == n
    ensures !Truthy(n) ==> r == Finite(fallback)
  {
    if Truthy(n) then n else Finite(fallback)
  }
}
