/**
 * The few pieces of JavaScript value semantics the back end and the front end
 * lean on: JSON values as a handler receives them, truthiness (`!v`, `a && b`),
 * a thrown error's optional message, the decimal text of an integer, the
 * UTF-16 length behind `String.prototype.length`, and the string a template
 * literal `${v}` produces.
 */
module Js {

  datatype Option<T> = None | Some(value: T)

  /**
   * A value decoded from a JSON request body, or `undefined` for a missing
   * field. Numbers are integers here; objects are opaque.
   */
  datatype JsVal =
    | Undefined
    | Null
    | Bool(b: bool)
    | Num(n: int)
    | Str(s: string)
    | Arr(items: seq<JsVal>)
    | Obj

  /** JavaScript truthiness: `!v` holds exactly when `Truthy(v)` does not. */
  predicate Truthy(v: JsVal) {
    match v
    case Undefined => false
    case Null => false
    case Bool(b) => b
    case Num(n) => n != 0
    case Str(s) => s != ""
    case Arr(_) => true
    case Obj => true
  }

  /**
   * What an awaited call gives back: a value, or a thrown error whose
   * `message` property may be absent (`undefined`).
   */
  datatype Outcome<T> = Returned(value: T) | Threw(message: Option<string>)

  /** `err?.message ?? fallback`: only an absent message falls back, an empty one does not. */
  function MessageOr<T>(o: Outcome<T>, fallback: string): (m: string)
    requires o.Threw?
    ensures o.message.Some? ==> m == o.message.value
    ensures o.message.None? ==> m == fallback
  {
    match o.message
    case Some(text) => text
    case None => fallback
  }

  predicate StartsWith(s: string, prefix: string) {
    |prefix| <= |s| && s[..|prefix|] == prefix
  }

  // ---------------------------------------------------------------------------
  // Decimal text of integers (what `${n}` gives for an integer-valued number)
  // ---------------------------------------------------------------------------

  predicate IsDigit(c: char) {
    '0' <= c <= '9'
  }

  function DigitValue(c: char): (d: nat)
    requires IsDigit(c)
    ensures d < 10
  {
    (c as int) - ('0' as int)
  }

  function DigitChar(d: nat): (c: char)
    requires d < 10
    ensures IsDigit(c) && DigitValue(c) == d
  {
    (('0' as int) + d) as char
  }

  predicate AllDigits(s: string) {
    forall i :: 0 <= i < |s| ==> IsDigit(s[i])
  }

  /** A numeral as JavaScript prints one: digits only, no leading zero unless it is "0". */
  predicate Canonical(s: string) {
    |s| > 0 && AllDigits(s) && (s[0] == '0' ==> |s| == 1)
  }

  /** The value of a string of decimal digits, most significant first. */
  function DigitsValue(s: string): nat
    requires AllDigits(s)
  {
    if s == [] then 0 else DigitsValue(s[..|s| - 1]) * 10 + DigitValue(s[|s| - 1])
  }

  /** The decimal numeral of a natural number. */
  function NatText(n: nat): (s: string)
    ensures Canonical(s)
    ensures DigitsValue(s) == n
  {
    if n < 10 then [DigitChar(n)]
    else
      var prefix := NatText(n / 10);
      var s := prefix + [DigitChar(n % 10)];
      assert s[..|s| - 1] == prefix;
      s
  }

  /** The decimal numeral of an integer, with a leading '-' when negative. */
  function NumberText(n: int): (s: string)
    ensures |s| > 0
    ensures ':' !in s
  {
    if n < 0 then "-" + NatText(-n) else NatText(n)
  }

  /** Reads back a numeral produced by `NumberText`; anything else is `None`. */
  function ParseNumber(s: string): Option<int> {
    if |s| > 0 && s[0] == '-' then
      if Canonical(s[1..]) && DigitsValue(s[1..]) > 0 then Some(-(DigitsValue(s[1..]) as int)) else None
    else if Canonical(s) then Some(DigitsValue(s))
    else None
  }

  /** A canonical numeral is the numeral of its own value. */
  lemma {:induction false} NatTextOfValue(s: string)
    requires Canonical(s)
    ensures NatText(DigitsValue(s)) == s
  {
    var n := DigitsValue(s);
    if |s| == 1 {
      assert s[..0] == [];
    } else {
      var prefix := s[..|s| - 1];
      assert Canonical(prefix) by {
        assert prefix[0] == s[0];
      }
      NatTextOfValue(prefix);
      var p := DigitsValue(prefix);
      assert n == p * 10 + DigitValue(s[|s| - 1]);
      assert p > 0;
      assert n >= 10;
      assert n / 10 == p && n % 10 == DigitValue(s[|s| - 1]);
      assert DigitChar(n % 10) == s[|s| - 1];
      assert s == prefix + [s[|s| - 1]];
    }
  }

  /** `ParseNumber` inverts `NumberText`, in both directions. */
  lemma NumberTextRoundTrip(n: int, s: string)
    ensures ParseNumber(NumberText(n)) == Some(n)
    ensures ParseNumber(s) == Some(n) ==> NumberText(n) == s
  {
    if n < 0 {
      var t := NumberText(n);
      assert t[1..] == NatText(-n);
    }
    if ParseNumber(s) == Some(n) {
      if |s| > 0 && s[0] == '-' {
        NatTextOfValue(s[1..]);
        assert s == "-" + s[1..];
      } else {
        NatTextOfValue(s);
      }
    }
  }

  /** Different integers have different decimal texts. */
  lemma NumberTextInjective(m: int, n: int)
    requires NumberText(m) == NumberText(n)
    ensures m == n
  {
    NumberTextRoundTrip(m, "");
    NumberTextRoundTrip(n, "");
  }

  // ---------------------------------------------------------------------------
  // String length and string conversion
  // ---------------------------------------------------------------------------

  /**
   * `String.prototype.length`: the number of UTF-16 code units, so a character
   * outside the Basic Multilingual Plane counts twice.
   */
  function Utf16Length(s: string): (n: nat)
    ensures |s| <= n <= 2 * |s|
  {
    if s == [] then 0
    else Utf16Length(s[..|s| - 1]) + (if s[|s| - 1] as int >= 0x1_0000 then 2 else 1)
  }

  /** Every character of `s` is a single UTF-16 code unit. */
  predicate InBasicPlane(s: string) {
    forall i :: 0 <= i < |s| ==> s[i] as int < 0x1_0000
  }

  lemma {:induction false} BasicPlaneLength(s: string)
    requires InBasicPlane(s)
    ensures Utf16Length(s) == |s|
  {
    if s != [] {
      BasicPlaneLength(s[..|s| - 1]);
    }
  }

  /** The string a template literal `${v}` makes of a JSON value. */
  function ToJsString(v: JsVal): (s: string)
    decreases v, 1
  {
    match v
    case Undefined => "undefined"
    case Null => "null"
    case Bool(b) => if b then "true" else "false"
    case Num(n) => NumberText(n)
    case Str(text) => text
    case Arr(items) => JoinedText(v, items)
    case Obj => "[object Object]"
  }

  /**
   * `Array.prototype.join(",")` over the elements of the array `whole`, with
   * `undefined` and `null` elements written as empty strings.
   */
  function JoinedText(whole: JsVal, items: seq<JsVal>): (s: string)
    requires forall i :: 0 <= i < |items| ==> items[i] < whole
    decreases whole, 0, |items|
  {
    if items == [] then ""
    else
      var last := items[|items| - 1];
      var text := if last.Undefined? || last.Null? then "" else ToJsString(last);
      if |items| == 1 then text else JoinedText(whole, items[..|items| - 1]) + "," + text
  }
}
