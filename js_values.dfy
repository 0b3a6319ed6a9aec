/** JSON values as `JSON.parse` produces them (plus `undefined` for a missing
    property), JavaScript truthiness, and the string conversion a template
    literal applies to them. */
module JsValues {

  datatype JsValue =
    | Undefined
    | Null
    | Bool(b: bool)
    | Num(n: real)
    | Str(s: string)
    | Arr(items: seq<JsValue>)
    | Obj(fields: map<string, JsValue>)

  /** What `if (v)` and `v && ...` test. JSON.parse never yields NaN, so a
      number is falsy exactly when it is zero. */
  predicate Truthy(v: JsValue) {
    match v
    case Undefined => false
    case Null => false
    case Bool(b) => b
    case Num(n) => n != 0.0
    case Str(s) => s != ""
    case Arr(_) => true
    case Obj(_) => true
  }

  /** Property access `v.name`; reading a property that is not there gives `undefined`. */
  function Field(v: JsValue, name: string): JsValue {
    match v
    case Obj(fields) => if name in fields then fields[name] else Undefined
    case _ => Undefined
  }

  // ---------------------------------------------------------------------------
  // Decimal text of integers

  predicate IsDigit(c: char) {
    '0' <= c <= '9'
  }

  predicate IsDigits(s: string) {
    forall i :: 0 <= i < |s| ==> IsDigit(s[i])
  }

  function DigitChar(d: nat): (c: char)
    requires d < 10
    ensures IsDigit(c) && c as int - '0' as int == d
  {
    (d + '0' as int) as char
  }

  /** Decimal text of a natural number, most significant digit first, no leading zeros. */
  function NatText(n: nat): string
  {
    if n < 10 then [DigitChar(n)] else NatText(n / 10) + [DigitChar(n % 10)]
  }

  /** The number a string of digits denotes. */
  function DigitsValue(s: string): nat
    requires IsDigits(s)
  {
    if |s| == 0 then 0 else DigitsValue(s[..|s| - 1]) * 10 + (s[|s| - 1] as int - '0' as int)
  }

  /** Reading back the decimal text of n gives n. */
  lemma {:induction false} NatTextRoundTrip(n: nat)
    ensures |NatText(n)| > 0 && IsDigits(NatText(n))
    ensures DigitsValue(NatText(n)) == n
  {
    if n >= 10 {
      NatTextRoundTrip(n / 10);
      var s := NatText(n);
      assert s[..|s| - 1] == NatText(n / 10);
    }
  }

  /** Decimal text of an integer, with a leading '-' when negative. */
  function IntText(i: int): string
  {
    if i < 0 then "-" + NatText(-i) else NatText(i)
  }

  /** Different integers print differently. */
  lemma IntTextInjective(i: int, j: int)
    requires IntText(i) == IntText(j)
    ensures i == j
  {
    NatTextRoundTrip(if i < 0 then -i else i);
    NatTextRoundTrip(if j < 0 then -j else j);
    // the sign is readable from the first character
    assert IntText(i)[0] == '-' <==> i < 0;
    assert IntText(j)[0] == '-' <==> j < 0;
    if i < 0 {
      assert IntText(i)[1..] == NatText(-i);
      assert IntText(j)[1..] == NatText(-j);
    }
  }

  // ---------------------------------------------------------------------------
  // Template-literal conversion

  /** 2^53: up to this magnitude every integer is a double, and JavaScript
      prints an integral number as its exact decimal digits. Beyond it the
      shortest round-trip digits are padded with zeros (or put in exponent
      notation), which the model leaves to the host. */
  const ExactIntegerLimit: real := 9007199254740992.0

  /** `String(n)`. Integral numbers of magnitude at most 2^53 print as their
      exact decimal digits; every other number is printed by the host's
      shortest round-trip formatting, passed in as `numText`. */
  function NumberText(n: real, numText: real -> string): string
  {
    if n == n.Floor as real && -ExactIntegerLimit <= n <= ExactIntegerLimit
    then IntText(n.Floor)
    else numText(n)
  }

  /** `${v}`: the string a template literal makes of a value. */
  function ToText(v: JsValue, numText: real -> string): string
    decreases v
  {
    match v
    case Undefined => "undefined"
    case Null => "null"
    case Bool(b) => if b then "true" else "false"
    case Num(n) => NumberText(n, numText)
    case Str(s) => s
    case Arr(items) => JoinText(items, numText)
    case Obj(_) => "[object Object]"
  }

  /** `Array.prototype.join(",")`: null and undefined elements become "". */
  function JoinText(items: seq<JsValue>, numText: real -> string): string
    decreases items
  {
    if |items| == 0 then ""
    else
      var head := if items[0].Undefined? || items[0].Null? then "" else ToText(items[0], numText);
      if |items| == 1 then head else head + "," + JoinText(items[1..], numText)
  }

  /** An integral number prints as its decimal digits, which contain no comma. */
  lemma IntegralNumberText(i: int, numText: real -> string)
    requires -ExactIntegerLimit <= i as real <= ExactIntegerLimit
    ensures ToText(Num(i as real), numText) == IntText(i)
    ensures ',' !in ToText(Num(i as real), numText)
  {
    NatTextRoundTrip(if i < 0 then -i else i);
    var t := IntText(i);
    forall k | 0 <= k < |t|
      ensures t[k] != ','
    {
      if i < 0 && k > 0 {
        assert t[k] == NatText(-i)[k - 1];
      }
    }
  }
}
