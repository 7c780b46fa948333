/** The loosely shaped values the pages receive from the backend (`res.data`), and the
    JavaScript coercions the pages apply to them: truthiness, optional property reads
    (`v?.key`), `String(v)`, `Number(v)` and `parseInt(s, 10)`.

    Numbers are integers; `JNaN` is JavaScript's NaN. An absent property is `None`
    (JavaScript's `undefined`). */
module Json {
  import opened Wrappers
  import opened Text

  datatype Json =
    | JNull
    | JBool(b: bool)
    | JNum(n: int)
    | JNaN
    | JStr(s: string)
    | JArr(items: seq<Json>)
    | JObj(fields: map<string, Json>)

  /** JavaScript truthiness: null, false, 0, NaN and "" are falsy. */
  predicate Truthy(v: Json) {
    match v
    case JNull => false
    case JBool(b) => b
    case JNum(n) => n != 0
    case JNaN => false
    case JStr(s) => s != ""
    case JArr(_) => true
    case JObj(_) => true
  }

  /** `v?.key` for the data properties the pages read: only objects carry them. */
  function Get(v: Json, key: string): (r: Option<Json>)
    ensures r.Some? <==> v.JObj? && key in v.fields
    ensures r.Some? ==> r.value == v.fields[key]
  {
    if v.JObj? && key in v.fields then Some(v.fields[key]) else None
  }

  predicate TruthyOpt(o: Option<Json>) {
    o.Some? && Truthy(o.value)
  }

  /** `v.key !== undefined && v.key !== null`. */
  predicate Present(v: Json, key: string) {
    Get(v, key).Some? && Get(v, key).value != JNull
  }

  /** `a || b` where `a` may be undefined. */
  function Or(a: Option<Json>, b: Json): (r: Json)
    ensures TruthyOpt(a) ==> r == a.value
    ensures !TruthyOpt(a) ==> r == b
  {
    if TruthyOpt(a) then a.value else b
  }

  /** `a || b` where both may be undefined. */
  function OrOpt(a: Option<Json>, b: Option<Json>): (r: Option<Json>)
    ensures TruthyOpt(a) ==> r == a
    ensures !TruthyOpt(a) ==> r == b
  {
    if TruthyOpt(a) then a else b
  }

  /** `String(v)`. Array items that are null print as the empty string. */
  function ToStr(v: Json): string
  {
    match v
    case JNull => "null"
    case JBool(b) => if b then "true" else "false"
    case JNum(n) => IntToString(n)
    case JNaN => "NaN"
    case JStr(s) => s
    case JArr(items) =>
      Join(seq(|items|, k requires 0 <= k < |items| =>
                 if items[k] == JNull then "" else ToStr(items[k])), ",")
    case JObj(_) => "[object Object]"
  }

  /** The length of the longest prefix of `s` made of decimal digits. */
  function DigitRun(s: string): (n: nat)
    ensures n <= |s| && AllDigits(s[..n])
    ensures n < |s| ==> !IsDigit(s[n])
  {
    if s != [] && IsDigit(s[0]) then
      var m := DigitRun(s[1..]);
      assert s[..m + 1] == [s[0]] + s[1..][..m];
      m + 1
    else 0
  }

  /** `Number(s)` for a string: blank text is 0; an optionally signed run of decimal
      digits is its value; every other text is NaN in this model. */
  function StringToNumber(s: string): (r: Json)
    ensures r.JNum? || r.JNaN?
  {
    var t := Trim(s);
    if t == "" then JNum(0)
    else if t[0] == '-' && |t| > 1 && AllDigits(t[1..]) then JNum(-(DigitsValue(t[1..]) as int))
    else if t[0] == '+' && |t| > 1 && AllDigits(t[1..]) then JNum(DigitsValue(t[1..]))
    else if AllDigits(t) then JNum(DigitsValue(t))
    else JNaN
  }

  /** `Number(v)`: always a number, possibly NaN. Arrays and objects convert through
      their string form. */
  function ToNumber(v: Json): (r: Json)
    ensures r.JNum? || r.JNaN?
  {
    match v
    case JNull => JNum(0)
    case JBool(b) => JNum(if b then 1 else 0)
    case JNum(n) => JNum(n)
    case JNaN => JNaN
    case JStr(s) => StringToNumber(s)
    case JArr(_) => StringToNumber(ToStr(v))
    case JObj(_) => StringToNumber(ToStr(v))
  }

  /** `parseInt(s, 10)`: leading white space and one optional sign are skipped, then
      the longest run of decimal digits is read; no digits at all is NaN. */
  function ParseIntBase10(s: string): (r: Json)
    ensures r.JNum? || r.JNaN?
  {
    var t := TrimStart(s);
    var neg := t != [] && t[0] == '-';
    var body := if t != [] && (t[0] == '-' || t[0] == '+') then t[1..] else t;
    var n := DigitRun(body);
    if n == 0 then JNaN
    else if neg then JNum(-(DigitsValue(body[..n]) as int))
    else JNum(DigitsValue(body[..n]))
  }

  lemma NatToStringNoSpace(n: nat)
    ensures forall k :: 0 <= k < |NatToString(n)| ==> !IsSpace(NatToString(n)[k])
  {
  }

  lemma {:induction false} IntToStringShape(i: int)
    ensures var s := IntToString(i);
      s != [] && !IsSpace(s[0]) && !IsSpace(s[|s| - 1])
      && (i < 0 ==> s[0] == '-' && s[1..] == NatToString(-i))
      && (i >= 0 ==> s == NatToString(i))
  {
    if i < 0 {
      assert ("-" + NatToString(-i))[1..] == NatToString(-i);
    }
  }

  /** `Number(String(i)) === i`: the number a page prints reads back as itself. */
  lemma {:induction false} ToNumberIntToString(i: int)
    ensures ToNumber(JStr(IntToString(i))) == JNum(i)
  {
    var s := IntToString(i);
    IntToStringShape(i);
    assert TrimStart(s) == s;
    assert Trim(s) == s;
    if i < 0 {
      DigitsValueNatToString(-i);
    } else {
      DigitsValueNatToString(i);
    }
  }

  /** `parseInt(String(i) + rest, 10) === i` when `rest` does not continue the digits:
      text after the number (such as " days") is ignored. */
  lemma {:induction false} ParseIntIntToString(i: int, rest: string)
    requires rest == [] || !IsDigit(rest[0])
    ensures ParseIntBase10(IntToString(i) + rest) == JNum(i)
  {
    if i < 0 {
      var m: nat := -i;
      ParseIntNegative(m, rest);
      assert IntToString(i) + rest == "-" + NatToString(m) + rest;
    } else {
      ParseIntNat(i, rest);
    }
  }

  lemma {:induction false} ParseIntNegative(m: nat, rest: string)
    requires rest == [] || !IsDigit(rest[0])
    ensures ParseIntBase10("-" + NatToString(m) + rest) == JNum(-(m as int))
  {
    var d := NatToString(m);
    DigitRunOf(d, rest);
    DigitsValueNatToString(m);
    assert (d + rest)[..|d|] == d;
    assert "-" + d + rest == "-" + (d + rest);
    ParseIntSigned(d + rest);
  }

  lemma {:induction false} ParseIntNat(m: nat, rest: string)
    requires rest == [] || !IsDigit(rest[0])
    ensures ParseIntBase10(NatToString(m) + rest) == JNum(m)
  {
    var d := NatToString(m);
    DigitRunOf(d, rest);
    DigitsValueNatToString(m);
    assert (d + rest)[..|d|] == d;
    ParseIntUnsigned(d + rest);
  }

  lemma ParseIntSigned(body: string)
    ensures ParseIntBase10("-" + body) ==
      (if DigitRun(body) == 0 then JNaN else JNum(-(DigitsValue(body[..DigitRun(body)]) as int)))
  {
    var s := "-" + body;
    assert TrimStart(s) == s;
    assert s[1..] == body;
  }

  lemma ParseIntUnsigned(body: string)
    requires body != [] && IsDigit(body[0])
    ensures ParseIntBase10(body) ==
      (if DigitRun(body) == 0 then JNaN else JNum(DigitsValue(body[..DigitRun(body)])))
  {
    assert TrimStart(body) == body;
  }

  lemma {:induction false} DigitRunOf(d: string, rest: string)
    requires AllDigits(d)
    requires rest == [] || !IsDigit(rest[0])
    ensures DigitRun(d + rest) == |d|
  {
    if d != [] {
      DigitRunOf(d[1..], rest);
      assert (d + rest)[1..] == d[1..] + rest;
    }
  }
}
