/** The slice of JavaScript value semantics that link-preview relies on:
    truthiness for `||`, nullishness for `??`, string conversion for template
    literals and attribute names, and number conversion for timer delays. */
module JsValues {

  datatype Option<+T> = None | Some(value: T)

  /** A JavaScript value. Numbers are integers in this model; NaN is kept as
      its own case because it is falsy without being nullish. Every object
      (plain object, array, function) is `Obj`. */
  datatype JsValue =
    | Undefined
    | Null
    | Bool(b: bool)
    | Num(n: int)
    | NaN
    | Str(s: string)
    | Obj

  /** ECMAScript ToBoolean. */
  predicate Truthy(v: JsValue) {
    match v
    case Undefined => false
    case Null => false
    case Bool(b) => b
    case Num(n) => n != 0
    case NaN => false
    case Str(s) => s != ""
    case Obj => true
  }

  /** The values `??` replaces. */
  predicate Nullish(v: JsValue) {
    v.Undefined? || v.Null?
  }

  /** `a || b` */
  function Or(a: JsValue, b: JsValue): JsValue {
    if Truthy(a) then a else b
  }

  /** `a ?? b`: one of the operands, nullish only when both are. */
  function Coalesce(a: JsValue, b: JsValue): (r: JsValue)
    ensures r == a || r == b
    ensures Nullish(r) <==> Nullish(a) && Nullish(b)
  {
    if Nullish(a) then b else a
  }

  /** `a || b` is one of its operands, and truthy exactly when either is. */
  lemma OrPicksOperand(a: JsValue, b: JsValue)
    ensures Or(a, b) == a || Or(a, b) == b
    ensures Truthy(Or(a, b)) <==> Truthy(a) || Truthy(b)
  {
  }

  /** The falsy values are exactly undefined, null, false, 0, NaN and "". */
  lemma FalsyValues(v: JsValue)
    ensures !Truthy(v) <==> v in {Undefined, Null, Bool(false), Num(0), NaN, Str("")}
  {
  }

  /** `||` and `??` disagree exactly on a value that is falsy but not nullish
      (false, 0, NaN, ""), and only when the default differs from it. */
  lemma OrCoalesceDiffer(v: JsValue, d: JsValue)
    ensures Or(v, d) != Coalesce(v, d) <==> !Truthy(v) && !Nullish(v) && v != d
  {
  }

  function DigitChar(d: nat): (c: char)
    requires d < 10
    ensures '0' <= c <= '9'
  {
    "0123456789"[d]
  }

  predicate IsDigit(c: char) {
    '0' <= c <= '9'
  }

  /** Decimal digits of a natural number, most significant first. */
  function NatToString(n: nat): (s: string)
    ensures |s| > 0
    ensures forall i :: 0 <= i < |s| ==> IsDigit(s[i])
    decreases n
  {
    if n < 10 then [DigitChar(n)] else NatToString(n / 10) + [DigitChar(n % 10)]
  }

  /** The value of a string of decimal digits, read left to right. */
  function DigitsValue(s: string): nat
    requires forall i :: 0 <= i < |s| ==> IsDigit(s[i])
  {
    if |s| == 0 then 0
    else
      assert IsDigit(s[|s| - 1]);
      DigitsValue(s[..|s| - 1]) * 10 + (s[|s| - 1] as int - '0' as int)
  }

  /** Reading back the digits of `n` gives `n`. */
  lemma {:induction false} DigitsRoundTrip(n: nat)
    ensures DigitsValue(NatToString(n)) == n
    decreases n
  {
    var s := NatToString(n);
    if n >= 10 {
      DigitsRoundTrip(n / 10);
      assert s[..|s| - 1] == NatToString(n / 10);
      assert s[|s| - 1] == DigitChar(n % 10);
      assert "0123456789"[n % 10] as int - '0' as int == n % 10;
    } else {
      assert "0123456789"[n] as int - '0' as int == n;
    }
  }

  /** ECMAScript ToString, as a template literal `${v}` or an attribute name
      uses it. A string is itself, and a natural number is decimal text that
      reads back as that number. */
  function ToStr(v: JsValue): (s: string)
    ensures v.Str? ==> s == v.s
    ensures !v.Str? ==> |s| > 0
    ensures v.Num? && v.n >= 0 ==> (forall i :: 0 <= i < |s| ==> IsDigit(s[i])) && DigitsValue(s) == v.n
  {
    match v
    case Undefined => "undefined"
    case Null => "null"
    case Bool(b) => if b then "true" else "false"
    case Num(n) => if n < 0 then "-" + NatToString(-n) else DigitsRoundTrip(n); NatToString(n)
    case NaN => "NaN"
    case Str(s) => s
    case Obj => "[object Object]"
  }

  /** The delay in milliseconds that `setTimeout` uses for `v`: the value is
      converted to a number and anything negative or NaN becomes 0. Strings
      are read only when they are plain decimal digits; "" converts to 0. */
  function TimerDelay(v: JsValue): (d: nat)
    ensures !Truthy(v) ==> d == 0
    ensures v.Num? && v.n >= 0 ==> d == v.n
  {
    match v
    case Num(n) => if n > 0 then n else 0
    case Bool(b) => if b then 1 else 0
    case Str(s) => if forall i :: 0 <= i < |s| ==> IsDigit(s[i]) then DigitsValue(s) else 0
    case _ => 0
  }

  /** A decimal string delay is read as the number it spells. */
  lemma TimerDelayOfDecimal(n: nat)
    ensures TimerDelay(Str(NatToString(n))) == n
  {
    DigitsRoundTrip(n);
  }
}
