/**
 * JavaScript primitive values and the few operators the mapper applies to
 * them: truthiness, string conversion for concatenation, `+`, `-` and the
 * relational comparisons.  Numbers are integers here (every number the
 * mapper handles is an offset, a limit, a total, a length or an id).
 */
module JsValues {

  datatype Option<+T> = None | Some(value: T) {
    function GetOr(default: T): T {
      match this
      case Some(v) => v
      case None => default
    }
  }

  /** What a JavaScript call can throw. */
  datatype Error =
    | TypeError               // a property read on null/undefined, or a call of a non-function
    | NotAString              // inflection given a non-string: the library's reaction is not modelled
    | Thrown(message: string) // an explicit `throw new Error(message)`

  datatype Result<+T> = Ok(value: T) | Err(error: Error) {
    predicate IsFailure() {
      Err?
    }

    function PropagateFailure<U>(): Result<U>
      requires Err?
    {
      Err(error)
    }

    function Extract(): T
      requires Ok?
    {
      value
    }
  }

  datatype Prim =
    | Undefined
    | Null
    | Bool(b: bool)
    | Num(n: int)
    | NaN
    | Str(s: string)

  /** `!!p` */
  predicate Truthy(p: Prim) {
    match p
    case Undefined => false
    case Null => false
    case Bool(b) => b
    case Num(n) => n != 0
    case NaN => false
    case Str(s) => s != ""
  }

  predicate IsDigit(c: char) {
    '0' <= c <= '9'
  }

  predicate AllDigits(s: string) {
    forall i :: 0 <= i < |s| ==> IsDigit(s[i])
  }

  function DigitValue(c: char): nat
    requires IsDigit(c)
  {
    c as int - '0' as int
  }

  function Digit(d: nat): (c: char)
    requires d < 10
    ensures IsDigit(c) && DigitValue(c) == d
  {
    (d + '0' as int) as char
  }

  /** Decimal digits of `n`, most significant first, no leading zero. */
  function NatToString(n: nat): (s: string)
    ensures |s| > 0 && AllDigits(s)
    ensures |s| > 1 ==> s[0] != '0'
  {
    if n < 10 then [Digit(n)] else NatToString(n / 10) + [Digit(n % 10)]
  }

  /** `String(n)` for an integer number. */
  function IntToString(n: int): string {
    if n < 0 then "-" + NatToString(-n) else NatToString(n)
  }

  /** The value of a string of decimal digits. */
  function DigitsValue(s: string): nat
    requires AllDigits(s)
  {
    if s == [] then 0 else DigitsValue(s[..|s| - 1]) * 10 + DigitValue(s[|s| - 1])
  }

  /**
   * `Number(s)` for the strings this model distinguishes: the empty string
   * is 0, an optionally signed run of decimal digits is its value, and every
   * other string is NaN.
   */
  function StringToNumber(s: string): (r: Prim)
    ensures r.Num? || r.NaN?
  {
    if s == "" then Num(0)
    else if (s[0] == '-' || s[0] == '+') && |s| > 1 && AllDigits(s[1..]) then
      (if s[0] == '-' then Num(0 - DigitsValue(s[1..])) else Num(DigitsValue(s[1..])))
    else if AllDigits(s) then Num(DigitsValue(s))
    else NaN
  }

  /** ToNumber */
  function ToNumber(p: Prim): (r: Prim)
    ensures r.Num? || r.NaN?
    ensures p.Num? ==> r == p
  {
    match p
    case Undefined => NaN
    case Null => Num(0)
    case Bool(b) => if b then Num(1) else Num(0)
    case Num(_) => p
    case NaN => NaN
    case Str(s) => StringToNumber(s)
  }

  /** ToString, as used by `'...' + p` */
  function ToStr(p: Prim): string {
    match p
    case Undefined => "undefined"
    case Null => "null"
    case Bool(b) => if b then "true" else "false"
    case Num(n) => IntToString(n)
    case NaN => "NaN"
    case Str(s) => s
  }

  /** `a + b`: concatenation as soon as one side is a string, addition otherwise. */
  function Plus(a: Prim, b: Prim): (r: Prim)
    ensures (a.Str? || b.Str?) ==> r == Str(ToStr(a) + ToStr(b))
    ensures a.Num? && b.Num? ==> r == Num(a.n + b.n)
  {
    if a.Str? || b.Str? then Str(ToStr(a) + ToStr(b))
    else
      match (ToNumber(a), ToNumber(b))
      case (Num(x), Num(y)) => Num(x + y)
      case _ => NaN
  }

  /** `a - b` */
  function Minus(a: Prim, b: Prim): (r: Prim)
    ensures r.Num? || r.NaN?
    ensures a.Num? && b.Num? ==> r == Num(a.n - b.n)
  {
    match (ToNumber(a), ToNumber(b))
    case (Num(x), Num(y)) => Num(x - y)
    case _ => NaN
  }

  /** Code-unit order on strings (JavaScript compares strings this way). */
  predicate StrLess(a: string, b: string) {
    if b == [] then false
    else if a == [] then true
    else if a[0] != b[0] then a[0] < b[0]
    else StrLess(a[1..], b[1..])
  }

  /**
   * The abstract relational comparison `a < b`: `None` is JavaScript's
   * undefined outcome, which every relational operator reads as false.
   */
  function Compare(a: Prim, b: Prim): (r: Option<bool>)
    ensures a.Num? && b.Num? ==> r == Some(a.n < b.n)
    ensures (a.NaN? || a.Undefined? || b.NaN? || b.Undefined?) ==> r == None
  {
    if a.Str? && b.Str? then Some(StrLess(a.s, b.s))
    else
      match (ToNumber(a), ToNumber(b))
      case (Num(x), Num(y)) => Some(x < y)
      case _ => None
  }

  /** `a < b` */
  predicate Less(a: Prim, b: Prim) {
    Compare(a, b) == Some(true)
  }

  /** `a > b` */
  predicate Greater(a: Prim, b: Prim) {
    Compare(b, a) == Some(true)
  }

  /** `a >= b` */
  predicate GreaterOrEqual(a: Prim, b: Prim) {
    Compare(a, b) == Some(false)
  }

  lemma {:induction false} DigitsOfNatToString(n: nat)
    ensures DigitsValue(NatToString(n)) == n
  {
    if n >= 10 {
      var s := NatToString(n / 10) + [Digit(n % 10)];
      assert s[..|s| - 1] == NatToString(n / 10);
      DigitsOfNatToString(n / 10);
    }
  }

  /** Reading back the decimal form of an integer gives the integer. */
  lemma NumberRoundTrip(n: int)
    ensures StringToNumber(IntToString(n)) == Num(n)
    ensures ToNumber(Str(IntToString(n))) == Num(n)
  {
    if n < 0 {
      var s := "-" + NatToString(-n);
      assert s[1..] == NatToString(-n);
      DigitsOfNatToString(-n);
    } else {
      DigitsOfNatToString(n);
    }
  }

  /** Distinct integers print differently. */
  lemma IntToStringInjective(m: int, n: int)
    requires IntToString(m) == IntToString(n)
    ensures m == n
  {
    NumberRoundTrip(m);
    NumberRoundTrip(n);
  }
}
