/** Option and Result, the failure-compatible wrappers used throughout the model. */
module Wrappers {

  datatype Option<+T> = None | Some(value: T)

  /** `Err` stands for an exception that has been thrown and not yet caught. */
  datatype Result<+T, +E> = Ok(value: T) | Err(error: E) {

    predicate IsFailure() {
      Err?
    }

    function PropagateFailure<U>(): Result<U, E>
      requires Err?
    {
      Err(error)
    }

    function Extract(): T
      requires Ok?
    {
      value
    }
  }
}

/**
 The fragment of JavaScript's value semantics that the proxy and its client
 rely on: JSON values, `undefined`, truthiness (for `!` and `||`), property
 reads that throw on `undefined` and `null`, conversion to a string inside a
 template literal, `Array.prototype.join`, and the `ok` flag of a fetch
 response.
 */
module Js {
  import opened Wrappers

  /** A parsed JSON value. Numbers are integers here. */
  datatype Json =
    | JNull
    | JBool(b: bool)
    | JNum(n: int)
    | JStr(s: string)
    | JArr(items: seq<Json>)
    | JObj(fields: map<string, Json>)

  /** What a property read yields: `undefined`, or a JSON value. */
  datatype Value = Undefined | Defined(json: Json)

  /** The exceptions that the two components throw or observe. */
  datatype Exception =
    | TypeError          // a property read on undefined or null
    | SyntaxError        // `response.json()` on a body that is not JSON
    | NetworkError       // `fetch` itself rejected: no HTTP response at all
    | Error(message: string)  // `new Error(message)`

  /** The empty object `{}`. */
  const EmptyObject: Json := JObj(map[])

  predicate TruthyJson(j: Json) {
    match j
    case JNull => false
    case JBool(b) => b
    case JNum(n) => n != 0
    case JStr(s) => s != ""
    case JArr(_) => true
    case JObj(_) => true
  }

  /** JavaScript truthiness; `undefined` is falsy. */
  predicate Truthy(v: Value)
    ensures !Truthy(v) <==> v in {Undefined, Defined(JNull), Defined(JBool(false)), Defined(JNum(0)), Defined(JStr(""))}
  {
    v.Defined? && TruthyJson(v.json)
  }

  /** `a || b`: the left operand when it is truthy, otherwise the right one. */
  function Or(a: Value, b: Json): (r: Json)
    ensures Truthy(a) ==> Defined(r) == a
    ensures !Truthy(a) ==> r == b
    ensures TruthyJson(r) <==> Truthy(a) || TruthyJson(b)
  {
    if Truthy(a) then a.json else b
  }

  /** `fetch`'s `response.ok`: the status is in the range 200 to 299. */
  predicate HttpOk(status: nat)
    ensures HttpOk(status) <==> status / 100 == 2
  {
    200 <= status <= 299
  }

  // ---------------------------------------------------------------------
  // Decimal numerals

  predicate IsDigit(c: char) {
    '0' <= c <= '9'
  }

  predicate AllDigits(s: string) {
    forall i :: 0 <= i < |s| ==> IsDigit(s[i])
  }

  /** A numeral in canonical form: digits only, no leading zero. */
  predicate Canonical(s: string) {
    |s| >= 1 && AllDigits(s) && (s[0] == '0' ==> |s| == 1)
  }

  function DigitChar(d: nat): (c: char)
    requires d < 10
    ensures IsDigit(c)
  {
    ('0' as int + d) as char
  }

  function DigitValue(c: char): (d: nat)
    requires IsDigit(c)
    ensures d < 10
  {
    c as int - '0' as int
  }

  /** The decimal numeral of a natural number, as `${n}` prints it. */
  function NatToDecimal(n: nat): (r: string)
    ensures Canonical(r)
    ensures r[0] == '0' <==> n == 0
  {
    if n < 10 then [DigitChar(n)] else NatToDecimal(n / 10) + [DigitChar(n % 10)]
  }

  /** The value of a numeral, read left to right. */
  function DecimalValue(s: string): nat
    requires AllDigits(s)
  {
    if s == [] then 0 else DecimalValue(s[..|s| - 1]) * 10 + DigitValue(s[|s| - 1])
  }

  lemma {:induction false} DecimalRoundTrip(n: nat)
    ensures DecimalValue(NatToDecimal(n)) == n
  {
    if n >= 10 {
      var r := NatToDecimal(n);
      assert r[..|r| - 1] == NatToDecimal(n / 10);
      DecimalRoundTrip(n / 10);
    }
  }

  lemma {:induction false} DecimalValueAtLeastLeadingDigit(s: string)
    requires |s| >= 1 && AllDigits(s)
    ensures DecimalValue(s) >= DigitValue(s[0])
    ensures |s| >= 2 && s[0] != '0' ==> DecimalValue(s) >= 10
  {
    if |s| >= 2 {
      var init := s[..|s| - 1];
      assert init[0] == s[0];
      DecimalValueAtLeastLeadingDigit(init);
    }
  }

  /** Every canonical numeral is the numeral of its own value. */
  lemma {:induction false} CanonicalRoundTrip(s: string)
    requires Canonical(s)
    ensures NatToDecimal(DecimalValue(s)) == s
  {
    if |s| >= 2 {
      var init := s[..|s| - 1];
      assert init[0] == s[0];
      DecimalValueAtLeastLeadingDigit(s);
      DecimalValueAtLeastLeadingDigit(init);
      CanonicalRoundTrip(init);
      var v := DecimalValue(s);
      assert v / 10 == DecimalValue(init) && v % 10 == DigitValue(s[|s| - 1]);
      assert s == init + [s[|s| - 1]];
    }
  }

  /** Two naturals print alike only when they are equal. */
  lemma NatToDecimalInjective(m: nat, n: nat)
    requires NatToDecimal(m) == NatToDecimal(n)
    ensures m == n
  {
    DecimalRoundTrip(m);
    DecimalRoundTrip(n);
  }

  /** `String(n)` for an integer number. */
  function NumberToString(n: int): (r: string)
    ensures n >= 0 ==> r == NatToDecimal(n)
    ensures n < 0 ==> r == "-" + NatToDecimal(-n)
  {
    if n < 0 then "-" + NatToDecimal(-n) else NatToDecimal(n)
  }

  /**
   The array index a property name denotes: a canonical numeral. (The
   engine's upper bound of 2^32 - 2 on indices is not modelled.)
   */
  function ArrayIndex(name: string): (r: Option<nat>)
    ensures r.Some? <==> Canonical(name)
    ensures r.Some? ==> NatToDecimal(r.value) == name
  {
    if Canonical(name) then
      CanonicalRoundTrip(name);
      Some(DecimalValue(name))
    else None
  }

  lemma ArrayIndexOfNumeral(k: nat)
    ensures ArrayIndex(NatToDecimal(k)) == Some(k)
  {
    DecimalRoundTrip(k);
  }

  // ---------------------------------------------------------------------
  // Property reads

  /**
   `v[name]` (also written `v.name`). Reading any property of `undefined` or
   `null` throws a TypeError. Only the names the two components read are
   modelled (`error`, `candidates`, `length`, `content`, `parts`, `text` and
   indices), none of which `Object.prototype` defines: an object yields its
   own field; an array or a string yields its `length` and its elements by
   index; booleans and numbers have none of these properties.
   */
  function Prop(v: Value, name: string): (r: Result<Value, Exception>)
    ensures r.Err? <==> v == Undefined || v == Defined(JNull)
    ensures r.Err? ==> r.error == TypeError
    ensures v.Defined? && v.json.JObj? ==>
              r == Ok(if name in v.json.fields then Defined(v.json.fields[name]) else Undefined)
    ensures v.Defined? && v.json.JArr? && name == "length" ==> r == Ok(Defined(JNum(|v.json.items|)))
    ensures v.Defined? && v.json.JArr? && name != "length" ==>
              (Ok(Undefined) == r <==> ArrayIndex(name).None? || ArrayIndex(name).value >= |v.json.items|)
    ensures v.Defined? && v.json.JArr? && name != "length" && ArrayIndex(name).Some?
            && ArrayIndex(name).value < |v.json.items| ==>
              r == Ok(Defined(v.json.items[ArrayIndex(name).value]))
    ensures v.Defined? && v.json.JStr? && name == "length" ==> r == Ok(Defined(JNum(|v.json.s|)))
    ensures v.Defined? && v.json.JStr? && name != "length" ==>
              (Ok(Undefined) == r <==> ArrayIndex(name).None? || ArrayIndex(name).value >= |v.json.s|)
    ensures v.Defined? && v.json.JStr? && name != "length" && ArrayIndex(name).Some?
            && ArrayIndex(name).value < |v.json.s| ==>
              r == Ok(Defined(JStr([v.json.s[ArrayIndex(name).value]])))
    ensures v.Defined? && (v.json.JBool? || v.json.JNum?) ==> r == Ok(Undefined)
  {
    match v
    case Undefined => Err(TypeError)
    case Defined(JNull) => Err(TypeError)
    case Defined(JObj(m)) => Ok(if name in m then Defined(m[name]) else Undefined)
    case Defined(JArr(items)) =>
      if name == "length" then Ok(Defined(JNum(|items|)))
      else
        var k := ArrayIndex(name);
        if k.Some? && k.value < |items| then Ok(Defined(items[k.value])) else Ok(Undefined)
    case Defined(JStr(s)) =>
      if name == "length" then Ok(Defined(JNum(|s|)))
      else
        var k := ArrayIndex(name);
        if k.Some? && k.value < |s| then Ok(Defined(JStr([s[k.value]]))) else Ok(Undefined)
    case Defined(_) => Ok(Undefined)
  }

  // ---------------------------------------------------------------------
  // Strings

  /**
   `Array.prototype.join`: the parts in order with `sep` between each two
   neighbours, built left to right as the language standard describes it.
   */
  function Join(parts: seq<string>, sep: string): (r: string)
    ensures parts == [] ==> r == ""
    ensures |parts| >= 1 ==> parts[0] <= r
  {
    if |parts| == 0 then ""
    else if |parts| == 1 then parts[0]
    else Join(parts[..|parts| - 1], sep) + sep + parts[|parts| - 1]
  }

  /** Where part `i` begins in `Join(parts, sep)`: all earlier parts, each with its separator. */
  function Offset(parts: seq<string>, sep: string, i: nat): nat
    requires i <= |parts|
  {
    if i == 0 then 0 else Offset(parts, sep, i - 1) + |parts[i - 1]| + |sep|
  }

  function SumLengths(parts: seq<string>): nat
  {
    if parts == [] then 0 else SumLengths(parts[..|parts| - 1]) + |parts[|parts| - 1]|
  }

  lemma {:induction false} OffsetOfPrefix(parts: seq<string>, sep: string, k: nat, i: nat)
    requires i <= k <= |parts|
    ensures Offset(parts[..k], sep, i) == Offset(parts, sep, i)
  {
    if i > 0 {
      OffsetOfPrefix(parts, sep, k, i - 1);
    }
  }

  lemma {:induction false} OffsetIsSum(parts: seq<string>, sep: string, i: nat)
    requires i <= |parts|
    ensures Offset(parts, sep, i) == SumLengths(parts[..i]) + i * |sep|
  {
    if i > 0 {
      OffsetIsSum(parts, sep, i - 1);
      assert parts[..i][..i - 1] == parts[..i - 1];
    }
  }

  /** A join of n >= 1 parts is exactly as long as its parts plus n - 1 separators. */
  lemma {:induction false} JoinLength(parts: seq<string>, sep: string)
    requires |parts| >= 1
    ensures |Join(parts, sep)| + |sep| == Offset(parts, sep, |parts|)
    ensures |Join(parts, sep)| == SumLengths(parts) + (|parts| - 1) * |sep|
  {
    if |parts| >= 2 {
      var init := parts[..|parts| - 1];
      JoinLength(init, sep);
      OffsetOfPrefix(parts, sep, |parts| - 1, |parts| - 1);
    }
    OffsetIsSum(parts, sep, |parts|);
    assert parts[..|parts|] == parts;
  }

  /** Part `i` stands, unchanged, at its offset in the join. */
  lemma {:induction false} JoinPartAt(parts: seq<string>, sep: string, i: nat)
    requires i < |parts|
    ensures Offset(parts, sep, i) + |parts[i]| <= |Join(parts, sep)|
    ensures Join(parts, sep)[Offset(parts, sep, i)..Offset(parts, sep, i) + |parts[i]|] == parts[i]
  {
    var n := |parts|;
    if n >= 2 {
      var init := parts[..n - 1];
      JoinLength(init, sep);
      OffsetOfPrefix(parts, sep, n - 1, n - 1);
      var j := Join(parts, sep);
      assert j == Join(init, sep) + sep + parts[n - 1];
      if i < n - 1 {
        JoinPartAt(init, sep, i);
        OffsetOfPrefix(parts, sep, n - 1, i);
        var o := Offset(parts, sep, i);
        assert j[o..o + |parts[i]|] == Join(init, sep)[o..o + |parts[i]|];
      } else {
        assert Offset(parts, sep, i) == |Join(init, sep)| + |sep|;
      }
    }
  }

  /** Between part `i - 1` and part `i` stands exactly one separator. */
  lemma {:induction false} JoinSeparatorAt(parts: seq<string>, sep: string, i: nat)
    requires 0 < i < |parts|
    ensures |sep| <= Offset(parts, sep, i) <= |Join(parts, sep)|
    ensures Join(parts, sep)[Offset(parts, sep, i) - |sep|..Offset(parts, sep, i)] == sep
  {
    var n := |parts|;
    var init := parts[..n - 1];
    var j := Join(parts, sep);
    JoinLength(init, sep);
    OffsetOfPrefix(parts, sep, n - 1, n - 1);
    assert j == Join(init, sep) + sep + parts[n - 1];
    if i < n - 1 {
      JoinSeparatorAt(init, sep, i);
      JoinLength(init, sep);
      OffsetOfPrefix(parts, sep, n - 1, i);
      OffsetOfPrefix(init, sep, i + 1, i);
      var o := Offset(parts, sep, i);
      JoinPartAt(init, sep, i);
      assert j[o - |sep|..o] == Join(init, sep)[o - |sep|..o];
    } else {
      assert Offset(parts, sep, i) == |Join(init, sep)| + |sep|;
    }
  }

  /** Joining two non-empty lists is joining their joins. */
  lemma {:induction false} JoinConcat(a: seq<string>, b: seq<string>, sep: string)
    requires |a| >= 1 && |b| >= 1
    ensures Join(a + b, sep) == Join(a, sep) + sep + Join(b, sep)
  {
    var ab := a + b;
    if |b| == 1 {
      assert ab[..|ab| - 1] == a;
    } else {
      var binit := b[..|b| - 1];
      assert ab[..|ab| - 1] == a + binit;
      JoinConcat(a, binit, sep);
      assert b[..|b| - 1] == binit;
    }
  }

  /**
   `String(v)`, which is also what `${v}` inserts into a template literal.
   Arrays print as their elements joined by commas (null prints as nothing),
   every object as "[object Object]".
   */
  function ToString(v: Json): (r: string)
    ensures v.JObj? ==> r == "[object Object]"
    ensures v.JStr? ==> r == v.s
    ensures v.JNum? ==> r == NumberToString(v.n)
    ensures v == JNull ==> r == "null"
    ensures v.JBool? ==> r == (if v.b then "true" else "false")
    ensures v.JArr? && |v.items| == 1 ==> r == (if v.items[0] == JNull then "" else ToString(v.items[0]))
  {
    match v
    case JNull => "null"
    case JBool(b) => if b then "true" else "false"
    case JNum(n) => NumberToString(n)
    case JStr(s) => s
    case JArr(items) =>
      Join(seq(|items|, i requires 0 <= i < |items| => if items[i] == JNull then "" else ToString(items[i])), ",")
    case JObj(_) => "[object Object]"
  }
}
