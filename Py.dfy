/**
 * The part of Python's value semantics that the handlers rely on: JSON-like
 * values, truthiness (`x or y`, `if not x`), `dict.get`, equality with an
 * int literal, the built-in conversions `float()`, `int()` and `str()`, the
 * string methods `strip()` and `lower()`, and `round(x, n)`.
 */
module Py {

  datatype Option<+T> = None | Some(value: T) {
    function GetOr(default: T): T {
      match this
      case Some(v) => v
      case None => default
    }
  }

  datatype Result<+T, +E> = Ok(value: T) | Err(error: E)

  /** A Python value as it comes out of a JSON body, a form or a database row. */
  datatype PyValue =
    | PyNone
    | PyBool(b: bool)
    | PyInt(i: int)
    | PyFloat(x: real)
    | PyStr(s: string)
    | PyList(items: seq<PyValue>)
    | PyDict(m: map<string, PyValue>)

  type Dict = map<string, PyValue>

  /** `bool(v)` */
  predicate Truthy(v: PyValue) {
    match v
    case PyNone => false
    case PyBool(b) => b
    case PyInt(i) => i != 0
    case PyFloat(x) => x != 0.0
    case PyStr(s) => s != []
    case PyList(items) => items != []
    case PyDict(m) => m != map[]
  }

  /** `a or b` */
  function Or(a: PyValue, b: PyValue): PyValue {
    if Truthy(a) then a else b
  }

  /** `d.get(k)` */
  function Get(d: Dict, k: string): PyValue {
    if k in d then d[k] else PyNone
  }

  /** `d.get(k, default)`: the default is used only when the key is absent. */
  function GetOr(d: Dict, k: string, default: PyValue): PyValue {
    if k in d then d[k] else default
  }

  /** A nullable float column read as `x or 0`. */
  function OrZero(o: Option<real>): real {
    o.GetOr(0.0)
  }

  /** `if not x` for a nullable numeric column. */
  predicate Falsy(o: Option<real>) {
    o == None || o == Some(0.0)
  }

  /** The value of a number in arithmetic and in round(); bool is a subclass of int. */
  function AsNumber(v: PyValue): Option<real> {
    match v
    case PyBool(b) => Some(if b then 1.0 else 0.0)
    case PyInt(i) => Some(i as real)
    case PyFloat(x) => Some(x)
    case _ => None
  }

  /** `v == n` for an int literal n (True == 1 and 1.0 == 1 in Python). */
  predicate EqualsInt(v: PyValue, n: int) {
    match v
    case PyBool(b) => (if b then 1 else 0) == n
    case PyInt(i) => i == n
    case PyFloat(x) => x == n as real
    case _ => false
  }

  /** `float(v)`; None stands for the TypeError or ValueError it raises. */
  function ToFloat(v: PyValue): (r: Option<real>)
    ensures AsNumber(v).Some? ==> r == AsNumber(v)
    ensures v.PyNone? || v.PyList? || v.PyDict? ==> r == None
  {
    match v
    case PyStr(s) => ParseFloat(s)
    case _ => AsNumber(v)
  }

  /**
   * `float(v) if v is not None else None` inside a `try` whose failure
   * gives None: None for None and for anything float() refuses.
   */
  function FloatOuNone(v: PyValue): (r: Option<real>)
    ensures v.PyNone? ==> r == None
    ensures !v.PyNone? ==> r == ToFloat(v)
  {
    if v.PyNone? then None else ToFloat(v)
  }

  /** `int(x)` on a float truncates toward zero. */
  function Truncate(x: real): (r: int)
    ensures 0.0 <= x ==> r as real <= x < r as real + 1.0
    ensures x < 0.0 ==> r as real - 1.0 < x <= r as real
  {
    if x >= 0.0 then x.Floor else -((-x).Floor)
  }

  /** `int(v)`; None stands for the TypeError or ValueError it raises. */
  function ToInt(v: PyValue): Option<int> {
    match v
    case PyBool(b) => Some(if b then 1 else 0)
    case PyInt(i) => Some(i)
    case PyFloat(x) => Some(Truncate(x))
    case PyStr(s) => ParseInt(s)
    case _ => None
  }

  // ---------------------------------------------------------------------
  // Strings
  // ---------------------------------------------------------------------

  /** The ASCII whitespace that str.strip() removes: space, \t, \n, \v, \f, \r. */
  predicate IsSpace(c: char) {
    c == ' ' || ('\t' <= c <= '\r')
  }

  function StripLeft(s: string): string {
    if s != [] && IsSpace(s[0]) then StripLeft(s[1..]) else s
  }

  function StripRight(s: string): string {
    if s != [] && IsSpace(s[|s| - 1]) then StripRight(s[..|s| - 1]) else s
  }

  /** `s.strip()` */
  function Strip(s: string): string {
    StripRight(StripLeft(s))
  }

  predicate Blank(s: string) {
    forall k :: 0 <= k < |s| ==> IsSpace(s[k])
  }

  lemma {:induction false} StripLeftEmptyIffBlank(s: string)
    ensures StripLeft(s) == [] <==> Blank(s)
  {
    if s != [] && IsSpace(s[0]) {
      StripLeftEmptyIffBlank(s[1..]);
      assert Blank(s) <==> Blank(s[1..]) by {
        if Blank(s[1..]) {
          forall k | 0 <= k < |s| ensures IsSpace(s[k]) {
            if k > 0 { assert s[k] == s[1..][k - 1]; }
          }
        }
      }
    } else if s != [] {
      assert !IsSpace(s[0]);
    }
  }

  lemma {:induction false} StripRightEmptyIffBlank(s: string)
    ensures StripRight(s) == [] <==> Blank(s)
  {
    if s != [] && IsSpace(s[|s| - 1]) {
      var t := s[..|s| - 1];
      StripRightEmptyIffBlank(t);
      assert Blank(s) <==> Blank(t) by {
        if Blank(t) {
          forall k | 0 <= k < |s| ensures IsSpace(s[k]) {
            if k < |s| - 1 { assert s[k] == t[k]; }
          }
        }
      }
    } else if s != [] {
      assert !IsSpace(s[|s| - 1]);
    }
  }

  /** strip() leaves nothing exactly when the string is all whitespace. */
  lemma StripEmptyIffBlank(s: string)
    ensures Strip(s) == [] <==> Blank(s)
  {
    StripLeftEmptyIffBlank(s);
    StripRightEmptyIffBlank(StripLeft(s));
    StripLeftBlank(s);
  }

  lemma {:induction false} StripLeftBlank(s: string)
    ensures Blank(StripLeft(s)) <==> Blank(s)
  {
    if s != [] && IsSpace(s[0]) {
      StripLeftBlank(s[1..]);
      assert Blank(s) <==> Blank(s[1..]) by {
        if Blank(s[1..]) {
          forall k | 0 <= k < |s| ensures IsSpace(s[k]) {
            if k > 0 { assert s[k] == s[1..][k - 1]; }
          }
        }
      }
    }
  }

  /** A string whose ends are not whitespace is left alone by strip(). */
  lemma StripTrimmed(s: string)
    requires s == [] || (!IsSpace(s[0]) && !IsSpace(s[|s| - 1]))
    ensures Strip(s) == s
  {
  }

  lemma {:induction false} StripLeftStarts(s: string)
    ensures StripLeft(s) == [] || !IsSpace(StripLeft(s)[0])
  {
    if s != [] && IsSpace(s[0]) {
      StripLeftStarts(s[1..]);
    }
  }

  lemma {:induction false} StripRightPrefix(s: string)
    ensures |StripRight(s)| <= |s| && StripRight(s) == s[..|StripRight(s)|]
    ensures StripRight(s) == [] || !IsSpace(StripRight(s)[|StripRight(s)| - 1])
  {
    if s != [] && IsSpace(s[|s| - 1]) {
      StripRightPrefix(s[..|s| - 1]);
    }
  }

  /** After strip() neither end is whitespace. */
  lemma StripEnds(s: string)
    ensures var t := Strip(s); t == [] || (!IsSpace(t[0]) && !IsSpace(t[|t| - 1]))
  {
    StripLeftStarts(s);
    StripRightPrefix(StripLeft(s));
    var t := Strip(s);
    if t != [] {
      assert t[0] == StripLeft(s)[0];
    }
  }

  function LowerChar(c: char): char {
    if 'A' <= c <= 'Z' then (c as int + 32) as char else c
  }

  /** `s.lower()` on ASCII letters. */
  function Lower(s: string): (r: string)
    ensures |r| == |s|
    ensures forall k :: 0 <= k < |s| ==> r[k] == LowerChar(s[k])
  {
    if s == [] then [] else [LowerChar(s[0])] + Lower(s[1..])
  }

  /** Lowercasing twice is lowercasing once. */
  lemma LowerIdempotent(s: string)
    ensures Lower(Lower(s)) == Lower(s)
  {
    assert forall k :: 0 <= k < |s| ==> Lower(Lower(s))[k] == Lower(s)[k];
  }

  // ---------------------------------------------------------------------
  // Numbers in text: int(s), float(s), str(n)
  // ---------------------------------------------------------------------

  predicate IsDigit(c: char) {
    '0' <= c <= '9'
  }

  predicate AllDigits(s: string) {
    forall k :: 0 <= k < |s| ==> IsDigit(s[k])
  }

  function DigitValue(c: char): nat
    requires IsDigit(c)
  {
    c as int - '0' as int
  }

  function DigitChar(d: nat): (c: char)
    requires d < 10
    ensures IsDigit(c) && DigitValue(c) == d
  {
    ('0' as int + d) as char
  }

  /** The value of a string of decimal digits, most significant first. */
  function DigitsValue(s: string): nat
    requires AllDigits(s)
  {
    if s == [] then 0 else DigitsValue(s[..|s| - 1]) * 10 + DigitValue(s[|s| - 1])
  }

  function SplitSign(t: string): (bool, string) {
    if t != [] && (t[0] == '+' || t[0] == '-') then (t[0] == '-', t[1..]) else (false, t)
  }

  /** `int(s)`: surrounding whitespace, an optional sign, one or more decimal digits. */
  function ParseInt(s: string): Option<int> {
    var (negative, body) := SplitSign(Strip(s));
    if body != [] && AllDigits(body) then
      Some(if negative then -(DigitsValue(body) as int) else DigitsValue(body))
    else
      None
  }

  /** Index of the first '.' in s, or |s| when there is none. */
  function DotIndex(s: string): (k: nat)
    ensures k <= |s|
    ensures forall j :: 0 <= j < k ==> s[j] != '.'
    ensures k < |s| ==> s[k] == '.'
  {
    if s == [] then 0 else if s[0] == '.' then 0 else 1 + DotIndex(s[1..])
  }

  /**
   * `float(s)`: surrounding whitespace, an optional sign, digits with at most
   * one decimal point and at least one digit in all.
   */
  function ParseFloat(s: string): Option<real> {
    var (negative, body) := SplitSign(Strip(s));
    var k := DotIndex(body);
    var whole := body[..k];
    var frac := if k < |body| then body[k + 1..] else [];
    if AllDigits(whole) && AllDigits(frac) && |whole| + |frac| > 0 then
      var v := DigitsValue(whole) as real + DigitsValue(frac) as real / Pow10(|frac|) as real;
      Some(if negative then -v else v)
    else
      None
  }

  /** `str(n)` for a natural number. */
  function NatToString(n: nat): (s: string)
    ensures s != [] && AllDigits(s)
    decreases n
  {
    if n < 10 then [DigitChar(n)] else NatToString(n / 10) + [DigitChar(n % 10)]
  }

  /** `str(i)` for an int. */
  function IntToString(i: int): string {
    if i < 0 then "-" + NatToString(-i) else NatToString(i)
  }

  lemma {:induction false} NatToStringValue(n: nat)
    ensures DigitsValue(NatToString(n)) == n
    decreases n
  {
    var s := NatToString(n);
    if n >= 10 {
      NatToStringValue(n / 10);
      assert s[..|s| - 1] == NatToString(n / 10);
    }
  }

  /** int(str(i)) == i: the two conversions are inverse on ints. */
  lemma ParseIntOfIntToString(i: int)
    ensures ParseInt(IntToString(i)) == Some(i)
  {
    var n: nat := if i < 0 then -i else i;
    var digits := NatToString(n);
    NatToStringValue(n);
    var s := IntToString(i);
    assert !IsSpace(s[0]) && !IsSpace(s[|s| - 1]);
    StripTrimmed(s);
    if i < 0 {
      assert SplitSign(s) == (true, digits);
    } else {
      assert SplitSign(s) == (false, digits);
    }
  }

  /** `str(v)` where Python's text for v is one of the modelled forms. */
  function StrOf(v: PyValue): Option<string> {
    match v
    case PyNone => Some("None")
    case PyBool(b) => Some(if b then "True" else "False")
    case PyInt(i) => Some(IntToString(i))
    case PyStr(s) => Some(s)
    case _ => None
  }

  /** The only int whose text is "1" is 1. */
  lemma IntToStringIsOne(i: int)
    ensures IntToString(i) == "1" <==> i == 1
  {
    if IntToString(i) == "1" {
      ParseIntOfIntToString(i);
      assert ParseInt("1") == Some(1) by {
        assert SplitSign(Strip("1")) == (false, "1");
      }
    }
  }

  // ---------------------------------------------------------------------
  // round(x, n)
  // ---------------------------------------------------------------------

  function Pow10(n: nat): (r: nat)
    ensures r >= 1
  {
    if n == 0 then 1 else 10 * Pow10(n - 1)
  }

  /** x * 10^n, one decimal place at a time (linear in x at every step). */
  function Shift(x: real, n: nat): real
  {
    if n == 0 then x else 10.0 * Shift(x, n - 1)
  }

  /** x / 10^n, one decimal place at a time. */
  function Unshift(x: real, n: nat): real
  {
    if n == 0 then x else Unshift(x, n - 1) / 10.0
  }

  /** Half a unit in the n-th decimal place. */
  function HalfUnit(n: nat): real {
    Unshift(0.5, n)
  }

  /** The integer nearest to y, a tie going to the even one. */
  function RoundHalfEven(y: real): (k: int)
    ensures -0.5 <= k as real - y <= 0.5
    ensures k as real - y == 0.5 || k as real - y == -0.5 ==> k % 2 == 0
  {
    var f := y.Floor;
    var d := y - f as real;
    if d < 0.5 then f else if d > 0.5 then f + 1 else if f % 2 == 0 then f else f + 1
  }

  /**
   * `round(x, n)` on the exact value x: the nearest multiple of 10^-n, a
   * tie going to the even multiple.
   */
  function Round(x: real, n: nat): (r: real)
    ensures x - HalfUnit(n) <= r <= x + HalfUnit(n)
    ensures HasDecimals(r, n)
  {
    var k := RoundHalfEven(Shift(x, n));
    RoundWithinHalfUnit(x, n, k);
    Unshift(k as real, n)
  }

  /** r has at most n decimal places: r * 10^n is a whole number. */
  predicate HasDecimals(r: real, n: nat) {
    Shift(r, n).Floor as real == Shift(r, n)
  }

  lemma RoundWithinHalfUnit(x: real, n: nat, k: int)
    requires -0.5 <= k as real - Shift(x, n) <= 0.5
    ensures x - HalfUnit(n) <= Unshift(k as real, n) <= x + HalfUnit(n)
    ensures HasDecimals(Unshift(k as real, n), n)
  {
    var d := k as real - Shift(x, n);
    UnshiftAdd(Shift(x, n), d, n);
    UnshiftShift(x, n);
    UnshiftMonotone(-0.5, d, n);
    UnshiftMonotone(d, 0.5, n);
    UnshiftAdd(-0.5, 0.5, n);
    UnshiftZero(n);
    ShiftUnshift(k as real, n);
  }

  lemma {:induction false} UnshiftZero(n: nat)
    ensures Unshift(0.0, n) == 0.0
  {
    if n > 0 {
      UnshiftZero(n - 1);
    }
  }

  lemma {:induction false} ShiftMonotone(a: real, b: real, n: nat)
    requires a <= b
    ensures Shift(a, n) <= Shift(b, n)
  {
    if n > 0 {
      ShiftMonotone(a, b, n - 1);
    }
  }

  lemma {:induction false} UnshiftMonotone(a: real, b: real, n: nat)
    requires a <= b
    ensures Unshift(a, n) <= Unshift(b, n)
  {
    if n > 0 {
      UnshiftMonotone(a, b, n - 1);
    }
  }

  lemma {:induction false} UnshiftAdd(a: real, b: real, n: nat)
    ensures Unshift(a + b, n) == Unshift(a, n) + Unshift(b, n)
  {
    if n > 0 {
      UnshiftAdd(a, b, n - 1);
    }
  }

  lemma {:induction false} UnshiftTimesTen(a: real, n: nat)
    ensures Unshift(10.0 * a, n) == 10.0 * Unshift(a, n)
  {
    if n > 0 {
      UnshiftTimesTen(a, n - 1);
    }
  }

  lemma {:induction false} ShiftTenth(a: real, n: nat)
    ensures Shift(a / 10.0, n) == Shift(a, n) / 10.0
  {
    if n > 0 {
      ShiftTenth(a, n - 1);
    }
  }

  /** Shifting right undoes shifting left. */
  lemma {:induction false} UnshiftShift(x: real, n: nat)
    ensures Unshift(Shift(x, n), n) == x
  {
    if n > 0 {
      UnshiftTimesTen(Shift(x, n - 1), n - 1);
      UnshiftShift(x, n - 1);
    }
  }

  /** Shifting left undoes shifting right. */
  lemma {:induction false} ShiftUnshift(x: real, n: nat)
    ensures Shift(Unshift(x, n), n) == x
  {
    if n > 0 {
      ShiftTenth(Unshift(x, n - 1), n - 1);
      ShiftUnshift(x, n - 1);
    }
  }

  /** Rounding half to even never reverses the order of two values. */
  lemma RoundHalfEvenMonotone(y1: real, y2: real)
    requires y1 <= y2
    ensures RoundHalfEven(y1) <= RoundHalfEven(y2)
  {
    if y1 != y2 {
      var k1 := RoundHalfEven(y1);
      var k2 := RoundHalfEven(y2);
      assert k1 as real <= y1 + 0.5 < y2 + 0.5;
      assert k2 as real >= y2 - 0.5 > y1 - 0.5;
      assert (k1 - k2) as real < 1.0;
    }
  }

  /** round(x, n) is monotone in x. */
  lemma RoundMonotone(x: real, y: real, n: nat)
    requires x <= y
    ensures Round(x, n) <= Round(y, n)
  {
    ShiftMonotone(x, y, n);
    RoundHalfEvenMonotone(Shift(x, n), Shift(y, n));
    UnshiftMonotone(RoundHalfEven(Shift(x, n)) as real, RoundHalfEven(Shift(y, n)) as real, n);
  }

  /** A value that already has n decimal places is left alone by round(., n). */
  lemma RoundExact(x: real, n: nat)
    requires HasDecimals(x, n)
    ensures Round(x, n) == x
  {
    var m := Shift(x, n).Floor;
    assert RoundHalfEven(Shift(x, n)) == m;
    UnshiftShift(x, n);
  }

  /** round(round(x, n), n) == round(x, n). */
  lemma RoundIdempotent(x: real, n: nat)
    ensures Round(Round(x, n), n) == Round(x, n)
  {
    RoundExact(Round(x, n), n);
  }

  lemma RoundZero(n: nat)
    ensures Round(0.0, n) == 0.0
  {
    ShiftZero(n);
    RoundExact(0.0, n);
  }

  lemma {:induction false} ShiftZero(n: nat)
    ensures Shift(0.0, n) == 0.0
  {
    if n > 0 {
      ShiftZero(n - 1);
    }
  }
}
