/**
  The JavaScript values that travel through the application: the primitive
  values a JSON request body or a form field can hold, JavaScript truthiness,
  the `||` operator and the string conversion a template literal applies.
 */
module JsValues {

  /** A JSON-like primitive. `JMissing` is `undefined`: a key the object does not have. */
  datatype JsValue =
    | JStr(s: string)
    | JNum(n: int)
    | JBool(b: bool)
    | JNull
    | JMissing

  /** A loosely-typed JavaScript object, such as a parsed request body. */
  type Record = map<string, JsValue>

  /** Property access `obj.key`: a key the object lacks reads as `undefined`. */
  function Get(rec: Record, key: string): JsValue {
    if key in rec then rec[key] else JMissing
  }

  /** JavaScript truthiness: `""`, `0`, `false`, `null` and `undefined` are falsy. */
  function Truthy(v: JsValue): (t: bool)
    ensures t <==> v !in FalsyValues
  {
    match v
    case JStr(s) => s != ""
    case JNum(n) => n != 0
    case JBool(b) => b
    case JNull => false
    case JMissing => false
  }

  /** The five falsy values the model's JavaScript values can take. */
  const FalsyValues: set<JsValue> := {JStr(""), JNum(0), JBool(false), JNull, JMissing}

  /** A chain `a || b || c` does not depend on how it is grouped. */
  lemma OrAssociative(a: JsValue, b: JsValue, c: JsValue)
    ensures Or(Or(a, b), c) == Or(a, Or(b, c))
  {
  }

  /** `a || b`: the left operand when it is truthy, the right one otherwise. */
  function Or(a: JsValue, b: JsValue): (r: JsValue)
    ensures Truthy(r) <==> Truthy(a) || Truthy(b)
    ensures Truthy(a) ==> r == a
    ensures !Truthy(a) ==> r == b
  {
    if Truthy(a) then a else b
  }

  function DigitChar(d: nat): (c: char)
    requires d < 10
    ensures '0' <= c <= '9'
    ensures (c as int) - ('0' as int) == d
  {
    "0123456789"[d]
  }

  predicate AllDigits(s: string) {
    forall i :: 0 <= i < |s| ==> '0' <= s[i] <= '9'
  }

  /** The decimal digits of a natural number, most significant first. */
  function NatToDecimal(n: nat): (s: string)
    ensures |s| > 0 && AllDigits(s)
    ensures s[0] == '0' ==> s == "0"
    decreases n
  {
    if n < 10 then [DigitChar(n)] else NatToDecimal(n / 10) + [DigitChar(n % 10)]
  }

  /** The number a string of decimal digits denotes: the partner of `NatToDecimal`. */
  function DecimalValue(s: string): nat
    requires AllDigits(s)
  {
    if s == [] then 0
    else DecimalValue(s[..|s| - 1]) * 10 + ((s[|s| - 1] as int) - ('0' as int))
  }

  /** Reading back the digits `NatToDecimal` writes yields the original number. */
  lemma {:induction false} DecimalRoundTrip(n: nat)
    ensures DecimalValue(NatToDecimal(n)) == n
    decreases n
  {
    if n >= 10 {
      var s := NatToDecimal(n);
      assert s[..|s| - 1] == NatToDecimal(n / 10);
      DecimalRoundTrip(n / 10);
    }
  }

  /** A digit string with a non-zero leading digit denotes at least 1. */
  lemma {:induction false} LeadingDigitPositive(s: string)
    requires |s| > 0 && AllDigits(s) && s[0] != '0'
    ensures DecimalValue(s) >= 1
    decreases |s|
  {
    if |s| > 1 {
      LeadingDigitPositive(s[..|s| - 1]);
    }
  }

  /**
    Canonical decimal is unique: a digit string without a superfluous leading
    zero is exactly the one `NatToDecimal` writes for the number it denotes.
   */
  lemma {:induction false} CanonicalDecimalUnique(s: string)
    requires |s| > 0 && AllDigits(s) && (s[0] == '0' ==> s == "0")
    ensures s == NatToDecimal(DecimalValue(s))
    decreases |s|
  {
    var n := DecimalValue(s);
    if |s| == 1 {
      assert s[..|s| - 1] == [];
      assert DecimalValue(s[..|s| - 1]) == 0;
      assert s[|s| - 1] == s[0];
      assert n == (s[0] as int) - ('0' as int);
      assert NatToDecimal(n) == [DigitChar(n)];
    } else {
      var p := s[..|s| - 1];
      var d := (s[|s| - 1] as int) - ('0' as int);
      assert p[0] == s[0] && s[0] != '0';
      LeadingDigitPositive(p);
      CanonicalDecimalUnique(p);
      assert n == DecimalValue(p) * 10 + d && 0 <= d < 10;
      assert n / 10 == DecimalValue(p) && n % 10 == d;
      assert NatToDecimal(n) == NatToDecimal(n / 10) + [DigitChar(n % 10)];
      assert s == p + [s[|s| - 1]];
    }
  }

  /** `String(n)` for an integral number: canonical decimal, with a `-` in front exactly when negative. */
  function IntToDecimal(n: int): (s: string)
    ensures |s| > 0
    ensures n < 0 <==> s[0] == '-'
    ensures n >= 0 ==> AllDigits(s) && DecimalValue(s) == n
    ensures n >= 0 ==> (s[0] == '0' ==> s == "0")
    ensures n < 0 ==> AllDigits(s[1..]) && DecimalValue(s[1..]) == -n
    ensures n < 0 ==> |s| > 1 && s[1] != '0'
  {
    DecimalRoundTrip(if n < 0 then -n else n);
    if n < 0 then "-" + NatToDecimal(-n) else NatToDecimal(n)
  }

  /** `String(v)`, the conversion a template literal `${v}` applies. */
  function ToJsString(v: JsValue): (s: string)
    ensures v.JStr? ==> s == v.s
    ensures v.JNum? ==> s == IntToDecimal(v.n)
    ensures v.JNum? && v.n >= 0 ==> |s| > 0 && AllDigits(s) && DecimalValue(s) == v.n && (s[0] == '0' ==> s == "0")
    ensures v.JNum? && v.n < 0 ==> |s| > 1 && s[0] == '-' && s[1] != '0' && AllDigits(s[1..]) && DecimalValue(s[1..]) == -v.n
    ensures v.JBool? ==> s == (if v.b then "true" else "false")
    ensures v == JNull ==> s == "null"
    ensures v == JMissing ==> s == "undefined"
  {
    match v
    case JStr(s) => s
    case JNum(n) => IntToDecimal(n)
    case JBool(b) => if b then "true" else "false"
    case JNull => "null"
    case JMissing => "undefined"
  }
}
