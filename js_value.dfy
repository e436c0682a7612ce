/** The JavaScript values the server inspects: the fields of a decoded
    request body and the `parameters` of a planned operation, together with
    the three pieces of JavaScript semantics the server relies on: truthiness
    (`!x`), property reads (`x.key`) and string conversion (`String(x)`). */
module JsValue {

  /** A value decoded from JSON, plus `undefined`, which is what reading a
      missing property gives. Numbers are restricted to integers. */
  datatype Value =
    | Undefined
    | Null
    | Bool(b: bool)
    | Num(n: int)
    | Str(s: string)
    | Arr(elems: seq<Value>)
    | Obj(fields: map<string, Value>)

  /** The outcome of an expression that may throw: its value, or the
      `message` of the Error it throws. */
  datatype Result<T> = Ok(value: T) | Err(message: string)

  /** JavaScript truthiness, the test behind `if (!x)`: the falsy values
      are exactly undefined, null, false, 0 and ""; every array and every
      object is truthy, the empty array included. */
  predicate Truthy(v: Value)
    ensures !Truthy(v) <==> v in {Undefined, Null, Bool(false), Num(0), Str("")}
  {
    match v
    case Undefined => false
    case Null => false
    case Bool(b) => b
    case Num(n) => n != 0
    case Str(s) => s != ""
    case Arr(_) => true
    case Obj(_) => true
  }

  /** `v.key`: a property read throws a TypeError on `undefined` and `null`,
      gives the own property of an object, and gives `undefined` otherwise.
      The keys read by the server ("commitMessage") are defined by no
      prototype, so inherited properties are not modelled. */
  function ReadProperty(v: Value, key: string): (r: Result<Value>)
    ensures r.Err? <==> v == Undefined || v == Null
    ensures v.Obj? && key in v.fields ==> r == Ok(v.fields[key])
    ensures r.Ok? && !(v.Obj? && key in v.fields) ==> r.value == Undefined
    ensures v == Undefined ==> r == Err("Cannot read properties of undefined (reading '" + key + "')")
    ensures v == Null ==> r == Err("Cannot read properties of null (reading '" + key + "')")
  {
    match v
    case Undefined => Err("Cannot read properties of undefined (reading '" + key + "')")
    case Null => Err("Cannot read properties of null (reading '" + key + "')")
    case Obj(fields) => Ok(if key in fields then fields[key] else Undefined)
    case _ => Ok(Undefined)
  }

  const NoPrimitive := "Cannot convert object to primitive value"

  /** Whether `String` finds, in `v` or in an array inside it, an object
      with its own "toString" property. A JSON value is never callable, so
      such an object hides `Object.prototype.toString` behind a value that
      cannot be called, and the conversion has nothing to fall back on. */
  predicate HasOwnToString(v: Value)
    decreases v
  {
    match v
    case Obj(fields) => "toString" in fields
    case Arr(elems) => exists i :: 0 <= i < |elems| && HasOwnToString(elems[i])
    case _ => false
  }

  /** `String(v)`, or the TypeError it throws. An array converts as
      `Array.prototype.join(",")` does, with `undefined` and `null`
      elements converting to "" and the first element that throws ending
      the conversion. */
  function ToStr(v: Value): (r: Result<string>)
    ensures r.Err? <==> HasOwnToString(v)
    ensures r.Err? ==> r.message == NoPrimitive
    ensures v.Str? ==> r == Ok(v.s)
    decreases v
  {
    match v
    case Undefined => Ok("undefined")
    case Null => Ok("null")
    case Bool(b) => Ok(if b then "true" else "false")
    case Num(n) => Ok(if n < 0 then "-" + Decimal(-n) else Decimal(n))
    case Str(s) => Ok(s)
    case Obj(fields) => if "toString" in fields then Err(NoPrimitive) else Ok("[object Object]")
    case Arr(elems) =>
      var parts := seq(|elems|, i requires 0 <= i < |elems| =>
        if elems[i] == Undefined || elems[i] == Null then Ok("") else ToStr(elems[i]));
      assert forall i :: 0 <= i < |elems| ==> (parts[i].Err? <==> HasOwnToString(elems[i]));
      JoinResults(parts)
  }

  /** The converted parts separated by ",", or the first part's error. */
  function JoinResults(parts: seq<Result<string>>): (r: Result<string>)
    ensures r.Err? <==> exists i :: 0 <= i < |parts| && parts[i].Err?
    ensures r.Err? ==> exists i :: 0 <= i < |parts| && parts[i] == r && forall j :: 0 <= j < i ==> parts[j].Ok?
    ensures r.Ok? && |parts| > 1 ==> r.value != ""
  {
    if |parts| == 0 then Ok("")
    else
      var init := JoinResults(parts[..|parts| - 1]);
      if init.Err? then init
      else
        match parts[|parts| - 1]
        case Err(m) => Err(m)
        case Ok(last) => Ok(if |parts| == 1 then last else init.value + "," + last)
  }

  function DigitChar(d: nat): (c: char)
    requires d < 10
    ensures '0' <= c <= '9' && c as int - '0' as int == d
  {
    "0123456789"[d]
  }

  function DigitValue(c: char): nat
    requires '0' <= c <= '9'
  {
    (c as int - '0' as int) as nat
  }

  /** The decimal numeral of `n`, without leading zeros. */
  function Decimal(n: nat): (r: string)
    ensures |r| > 0
    ensures AllDigits(r)
    ensures |r| > 1 ==> r[0] != '0'
    ensures r[0] == '0' <==> n == 0
  {
    if n < 10 then [DigitChar(n)] else Decimal(n / 10) + [DigitChar(n % 10)]
  }

  /** The number a string of decimal digits denotes. */
  function DecimalValue(s: string): nat
    requires AllDigits(s)
  {
    if s == [] then 0 else 10 * DecimalValue(s[..|s| - 1]) + DigitValue(s[|s| - 1])
  }

  /** Reading the numeral `Decimal` writes gives back the number. */
  lemma {:induction false} DecimalRoundTrip(n: nat)
    ensures DecimalValue(Decimal(n)) == n
  {
    var r := Decimal(n);
    if n >= 10 {
      DecimalRoundTrip(n / 10);
      assert r[..|r| - 1] == Decimal(n / 10);
    }
  }

  /** A numeral as `String` writes an integer: an optional "-" followed by
      a non-empty run of decimal digits. */
  predicate IsIntegerNumeral(s: string) {
    if |s| > 0 && s[0] == '-' then |s| > 1 && AllDigits(s[1..]) else |s| > 0 && AllDigits(s)
  }

  /** Whether `s` consists of decimal digits only. */
  predicate AllDigits(s: string) {
    forall i :: 0 <= i < |s| ==> '0' <= s[i] <= '9'
  }

  /** The integer an integer numeral denotes. */
  function IntegerValue(s: string): int
    requires IsIntegerNumeral(s)
  {
    if s[0] == '-' then -(DecimalValue(s[1..]) as int) else DecimalValue(s)
  }

  /** A run of digits is an integer numeral denoting its decimal value. */
  lemma DigitsNumeral(d: string)
    requires |d| > 0 && AllDigits(d)
    ensures IsIntegerNumeral(d)
    ensures IntegerValue(d) == DecimalValue(d)
  {
    assert '0' <= d[0] <= '9';
  }

  /** A "-" in front of a run of digits negates the number it denotes. */
  lemma NegatedNumeral(d: string)
    requires |d| > 0 && AllDigits(d)
    ensures IsIntegerNumeral("-" + d)
    ensures IntegerValue("-" + d) == -(DecimalValue(d) as int)
  {
    assert ("-" + d)[1..] == d;
  }

  /** `String` writes an integer as a numeral that reads back as that
      integer, negative integers included. */
  lemma ToStrNumRoundTrip(n: int)
    ensures ToStr(Num(n)).Ok?
    ensures IsIntegerNumeral(ToStr(Num(n)).value)
    ensures IntegerValue(ToStr(Num(n)).value) == n
    ensures var t := ToStr(Num(n)).value; t[0] != '-' && |t| > 1 ==> t[0] != '0'
    ensures var t := ToStr(Num(n)).value; t[0] == '-' ==> t[1] != '0'
  {
    NumText(n);
    if n < 0 {
      var d := Decimal(-n);
      DecimalRoundTrip(-n);
      NegatedNumeral(d);
      assert ("-" + d)[1] == d[0];
    } else {
      DecimalRoundTrip(n);
      DigitsNumeral(Decimal(n));
    }
  }

  /** The text `String` gives for an integer: its magnitude in decimal,
      after a "-" when it is negative. */
  lemma NumText(n: int)
    ensures ToStr(Num(n)) == Ok(if n < 0 then "-" + Decimal(-n) else Decimal(n))
  {
  }

  /** A truthy value that is not an array converts to a non-empty string,
      unless it is an object with its own "toString". */
  lemma TruthyTextNonEmpty(v: Value)
    requires Truthy(v) && !v.Arr?
    ensures ToStr(v).Err? <==> v.Obj? && "toString" in v.fields
    ensures ToStr(v).Ok? ==> ToStr(v).value != ""
  {
  }

  /** Arrays are the exception: an array converts to the empty string
      exactly when it is empty or holds one element that converts to "",
      although every array is truthy. */
  lemma ArrayTextEmpty(elems: seq<Value>)
    ensures ToStr(Arr(elems)) == Ok("") <==>
      |elems| == 0 || (|elems| == 1 && (elems[0] == Undefined || elems[0] == Null || ToStr(elems[0]) == Ok("")))
  {
  }
}
