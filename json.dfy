/**
 * Parsed JSON documents, seen the way the Ruby client sees them once the JSON
 * library has turned the text into Ruby values: `nil`, booleans, integers,
 * strings, arrays and hashes. The module also gives the three pieces of Ruby
 * behaviour the response classifier relies on: truthiness, `value['key']`
 * and string interpolation (`"#{value}"`).
 */
module Json {

  /** A parsed JSON value. Floating-point numbers are not modelled. */
  datatype Json =
    | JNull
    | JBool(b: bool)
    | JInt(i: int)
    | JString(s: string)
    | JArray(elems: seq<Json>)
    | JObject(fields: map<string, Json>)

  /** The Ruby exceptions the classifier can let escape. */
  datatype Exception =
    | ParseError     // the JSON library refused the response text
    | NoMethodError  // `[]` called on nil, true or false
    | TypeError      // `[]` with a string key on an integer or array; `Array + x` for a non-array x

  /** A Ruby expression either yields a value or raises. */
  datatype Eval<T> = Value(value: T) | Raise(exception: Exception)

  /** Ruby truthiness: only `nil` and `false` are false. */
  predicate Truthy(v: Json)
    ensures v.JString? || v.JInt? || v.JArray? || v.JObject? ==> Truthy(v)
    ensures v.JNull? || v == JBool(false) ==> !Truthy(v)
    ensures v == JBool(true) ==> Truthy(v)
  {
    !(v.JNull? || v == JBool(false))
  }

  /** `t` occurs somewhere in `s` (Ruby's `s.include?(t)`). */
  predicate Contains(s: string, t: string)
    decreases |s|
  {
    t <= s || (s != [] && Contains(s[1..], t))
  }

  /**
   * Ruby's `v[key]` for a string key: a hash gives the value or `nil`, a
   * string gives `key` itself when it contains it and `nil` otherwise, nil
   * and booleans have no `[]`, and integers and arrays reject a string index.
   */
  function Index(v: Json, key: string): (r: Eval<Json>)
    ensures r.Value? <==> v.JObject? || v.JString?
    ensures v.JObject? && key !in v.fields ==> r == Value(JNull)
    ensures v.JNull? || v.JBool? ==> r == Raise(NoMethodError)
    ensures v.JInt? || v.JArray? ==> r == Raise(TypeError)
    ensures v.JObject? && key in v.fields ==> r == Value(v.fields[key])
    ensures v.JString? ==> (r == Value(JString(key)) <==> Contains(v.s, key))
    ensures v.JString? && !Contains(v.s, key) ==> r == Value(JNull)
  {
    match v
    case JObject(fields) => Value(if key in fields then fields[key] else JNull)
    case JString(s) => Value(if Contains(s, key) then JString(key) else JNull)
    case JNull => Raise(NoMethodError)
    case JBool(_) => Raise(NoMethodError)
    case JInt(_) => Raise(TypeError)
    case JArray(_) => Raise(TypeError)
  }

  /** The character of a decimal digit. */
  function DigitChar(d: nat): (c: char)
    requires d < 10
    ensures '0' <= c <= '9' && c as int - '0' as int == d
  {
    ['0', '1', '2', '3', '4', '5', '6', '7', '8', '9'][d]
  }

  predicate IsDigits(s: string) {
    forall k | 0 <= k < |s| :: '0' <= s[k] <= '9'
  }

  /** Ruby's `n.to_s` for a non-negative integer: shortest decimal form. */
  function NatToString(n: nat): (s: string)
    ensures |s| > 0 && IsDigits(s)
    ensures s[0] == '0' ==> n == 0
    decreases n
  {
    if n < 10 then [DigitChar(n)] else NatToString(n / 10) + [DigitChar(n % 10)]
  }

  /** The number a string of decimal digits denotes. */
  function DecimalValue(s: string): nat
    requires IsDigits(s)
  {
    if s == [] then 0
    else DecimalValue(s[..|s| - 1]) * 10 + (s[|s| - 1] as int - '0' as int)
  }

  /** Reading back what `NatToString` wrote gives the number again. */
  lemma {:induction false} NatToStringRoundTrip(n: nat)
    ensures DecimalValue(NatToString(n)) == n
    decreases n
  {
    if n >= 10 {
      var s := NatToString(n);
      assert s[..|s| - 1] == NatToString(n / 10);
      NatToStringRoundTrip(n / 10);
    }
  }

  /** Ruby's `i.to_s` for any integer. */
  function IntToString(i: int): (s: string)
    ensures |s| > 0
    ensures i >= 0 ==> IsDigits(s) && DecimalValue(s) == i
    ensures i < 0 ==> s[0] == '-' && IsDigits(s[1..]) && DecimalValue(s[1..]) == -i
    ensures i >= 0 && s[0] == '0' ==> i == 0
    ensures i == 0 ==> s == "0"
    ensures i < 0 ==> |s| > 1 && s[1] != '0'
  {
    if i >= 0 then
      NatToStringRoundTrip(i);
      NatToString(i)
    else
      NatToStringRoundTrip(-i);
      assert ("-" + NatToString(-i))[1..] == NatToString(-i);
      "-" + NatToString(-i)
  }

  /**
   * What `"#{v}"` inserts: nothing for `nil`, the text itself for a string,
   * Ruby's `to_s` for booleans and integers. Arrays and hashes are rendered as
   * fixed placeholders (see the README).
   */
  function ToS(v: Json): (s: string)
    ensures v.JString? ==> s == v.s
    ensures v.JNull? ==> s == ""
    ensures v.JInt? && v.i >= 0 ==> IsDigits(s) && DecimalValue(s) == v.i
    ensures v.JInt? && v.i < 0 ==> |s| > 0 && s[0] == '-' && IsDigits(s[1..]) && DecimalValue(s[1..]) == -v.i
    ensures v == JInt(0) ==> s == "0"
    ensures v.JInt? && v.i > 0 ==> s[0] != '0'
    ensures v.JInt? && v.i < 0 ==> |s| > 1 && s[1] != '0'
    ensures v.JBool? ==> s == (if v.b then "true" else "false")
  {
    match v
    case JNull => ""
    case JBool(b) => if b then "true" else "false"
    case JInt(i) => IntToString(i)
    case JString(s) => s
    case JArray(_) => "[...]"
    case JObject(_) => "{...}"
  }
}
