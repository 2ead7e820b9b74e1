/** The JavaScript values the modelled code inspects, with the language's
    truthiness, `String(v)`, `Number(v)` and property reads.  Numbers are
    integers here; `NaN` is a value of its own. */
module Js {
  import opened Text
  import opened Options

  datatype Value =
    | Undefined
    | Null
    | Bool(b: bool)
    | Num(n: int)
    | NaN
    | Str(s: string)
    | Obj(fields: map<string, Value>)
    | Arr(items: seq<Value>)

  /** What `if (v)` and `!v` test: `undefined`, `null`, `false`, `0`, `NaN`
      and `""` are falsy, everything else is truthy. */
  predicate Truthy(v: Value) {
    match v
    case Undefined => false
    case Null => false
    case Bool(b) => b
    case Num(n) => n != 0
    case NaN => false
    case Str(s) => s != ""
    case Obj(_) => true
    case Arr(_) => true
  }

  /** `a || b` */
  function Or(a: Value, b: Value): Value {
    if Truthy(a) then a else b
  }

  predicate Nullish(v: Value) {
    v == Undefined || v == Null
  }

  function IntToString(n: int): string {
    if n < 0 then "-" + NatToString(-n) else NatToString(n)
  }

  /** `String(v)`, which is also what a template literal `${v}` inserts. */
  function ToStr(v: Value): string
    decreases v, 1
  {
    match v
    case Undefined => "undefined"
    case Null => "null"
    case Bool(b) => if b then "true" else "false"
    case Num(n) => IntToString(n)
    case NaN => "NaN"
    case Str(s) => s
    case Obj(_) => "[object Object]"
    case Arr(items) => JoinItems(items, 0)
  }

  /** `Array.prototype.join(",")` from index `i`, where `undefined` and
      `null` elements print as nothing. */
  function JoinItems(items: seq<Value>, i: nat): string
    requires i <= |items|
    decreases Arr(items), 0, |items| - i
  {
    if i == |items| then ""
    else
      assert items[i] in items;
      (if i == 0 then "" else ",")
      + (if Nullish(items[i]) then "" else ToStr(items[i]))
      + JoinItems(items, i + 1)
  }

  /** `Number(s)` for a string: surrounding whitespace is ignored, the empty
      string is 0, and otherwise an optional sign and decimal digits are
      accepted. Hexadecimal, exponents, fractions and `Infinity` are not
      modelled and read as `NaN`. */
  function StringToNumber(s: string): (r: Value)
    ensures r.Num? || r.NaN?
  {
    var t := Trim(s);
    if t == "" then Num(0)
    else if AllDigits(t) then Num(DigitsValue(t))
    else if |t| > 1 && t[0] == '-' && AllDigits(t[1..]) then Num(-(DigitsValue(t[1..]) as int))
    else if |t| > 1 && t[0] == '+' && AllDigits(t[1..]) then Num(DigitsValue(t[1..]))
    else NaN
  }

  /** `Number(v)` */
  function ToNumber(v: Value): (r: Value)
    ensures r.Num? || r.NaN?
  {
    match v
    case Undefined => NaN
    case Null => Num(0)
    case Bool(b) => Num(if b then 1 else 0)
    case Num(_) => v
    case NaN => NaN
    case Str(s) => StringToNumber(s)
    case Obj(_) => StringToNumber(ToStr(v))
    case Arr(_) => StringToNumber(ToStr(v))
  }

  /** `isNaN(v)` */
  predicate IsNaN(v: Value) {
    ToNumber(v).NaN?
  }

  /** The number of UTF-16 code units of `s`, which is what a JavaScript
      string's `length` counts: a character above U+FFFF is a surrogate
      pair and counts twice. */
  function Utf16Length(s: string): (n: nat)
    ensures |s| <= n <= 2 * |s|
    ensures n == 0 <==> s == ""
  {
    if s == [] then 0
    else (if s[0] as int >= 0x1_0000 then 2 else 1) + Utf16Length(s[1..])
  }

  /** A string of characters in the basic multilingual plane has one code
      unit per character, and one character above it has two. */
  lemma {:induction false} Utf16LengthOfBmp(s: string)
    requires forall i :: 0 <= i < |s| ==> s[i] as int < 0x1_0000
    ensures Utf16Length(s) == |s|
  {
    if s != [] {
      assert forall i :: 0 <= i < |s[1..]| ==> s[1..][i] == s[i + 1];
      Utf16LengthOfBmp(s[1..]);
    }
  }

  /** `v?.key` (and `v.key` on a value that is not nullish): a missing
      property reads as `undefined`. A string's `length` counts UTF-16 code
      units. */
  function Prop(v: Value, key: string): Value {
    match v
    case Obj(m) => if key in m then m[key] else Undefined
    case Str(s) => if key == "length" then Num(Utf16Length(s)) else Undefined
    case Arr(items) => if key == "length" then Num(|items|) else Undefined
    case _ => Undefined
  }

  /** `v.key` without optional chaining: `None` is the TypeError thrown when
      `v` is `undefined` or `null`. */
  function Member(v: Value, key: string): (r: Option<Value>)
    ensures r.None? <==> Nullish(v)
    ensures r.Some? ==> r.value == Prop(v, key)
  {
    if Nullish(v) then None else Some(Prop(v, key))
  }

  lemma NatToStringNoWhitespace(n: nat)
    ensures forall i :: 0 <= i < |NatToString(n)| ==> !IsWhitespace(NatToString(n)[i])
  {
    var s := NatToString(n);
    assert forall i :: 0 <= i < |s| ==> IsDigit(s[i]);
  }

  /** Rendering an integer and reading it back with `Number` gives it back. */
  lemma StringToNumberOfIntToString(n: int)
    ensures StringToNumber(IntToString(n)) == Num(n)
  {
    var d := NatToString(if n < 0 then -n else n);
    NatToStringNoWhitespace(if n < 0 then -n else n);
    DigitsValueOfNatToString(if n < 0 then -n else n);
    var t := IntToString(n);
    if n < 0 {
      assert t == "-" + d && t[1..] == d;
      assert !IsWhitespace(t[0]);
      assert forall i :: 0 <= i < |t| ==> !IsWhitespace(t[i]);
      TrimNoWhitespace(t);
      assert !AllDigits(t) by { assert !IsDigit(t[0]); }
    } else {
      TrimNoWhitespace(t);
    }
  }

  lemma ToNumberOfIntToString(n: int)
    ensures ToNumber(Str(IntToString(n))) == Num(n)
  {
    StringToNumberOfIntToString(n);
  }
}
