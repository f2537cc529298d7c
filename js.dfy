/**
  The JavaScript values the form code handles, and the few pieces of JavaScript
  semantics it relies on: truthiness, `||`, `??`, property reads, object spread,
  `String(x)` and `parseInt(s, 10)`.

  Numbers are integers (plus NaN); the object key order of JavaScript is not kept.
 */
module Js {

  datatype Option<+T> = None | Some(value: T)

  /** A JSON-like JavaScript value. */
  datatype Value =
    | Undefined
    | Null
    | Bool(b: bool)
    | Num(n: int)
    | NaN
    | Str(s: string)
    | Arr(items: seq<Value>)
    | Obj(fields: map<string, Value>)

  /** JavaScript truthiness: `!!v`. */
  predicate Truthy(v: Value) {
    match v
    case Undefined => false
    case Null => false
    case Bool(b) => b
    case Num(n) => n != 0
    case NaN => false
    case Str(s) => s != ""
    case Arr(_) => true
    case Obj(_) => true
  }

  /** `v === null || v === undefined` */
  predicate Nullish(v: Value) {
    v.Undefined? || v.Null?
  }

  /** `typeof v === "object"` for a non-null value (arrays included). */
  predicate IsObject(v: Value) {
    v.Obj? || v.Arr?
  }

  /** `a || b` */
  function Or(a: Value, b: Value): Value {
    if Truthy(a) then a else b
  }

  /** `a ?? b` */
  function Coalesce(a: Value, b: Value): Value {
    if Nullish(a) then b else a
  }

  /** `k in v` for the non-index keys the form code asks about. */
  predicate Has(v: Value, k: string) {
    v.Obj? && k in v.fields
  }

  /** `v?.k` for the non-index keys the form code reads. */
  function Prop(v: Value, k: string): Value {
    if v.Obj? && k in v.fields then v.fields[k] else Undefined
  }

  /** `m[k]` on a plain record. */
  function Lookup(m: map<string, Value>, k: string): Value {
    if k in m then m[k] else Undefined
  }

  /** An optional string prop or route parameter that is present and truthy. */
  predicate Present(o: Option<string>) {
    o.Some? && o.value != ""
  }

  /** The own enumerable properties copied by `{ ...v }`. */
  function Spread(v: Value): map<string, Value> {
    match v
    case Obj(f) => f
    case Arr(items) => IndexMap(items, |items|)
    case Str(s) => IndexMap(seq(|s|, i requires 0 <= i < |s| => Str([s[i]])), |s|)
    case _ => map[]
  }

  /** `{ ...base, ...over }`: the keys of both, the entries of `over` winning. */
  function Merge(base: map<string, Value>, over: map<string, Value>): (r: map<string, Value>)
    ensures r.Keys == base.Keys + over.Keys
    ensures forall k :: k in over ==> r[k] == over[k]
    ensures forall k :: k in base && k !in over ==> r[k] == base[k]
  {
    map k | k in base.Keys + over.Keys :: if k in over then over[k] else base[k]
  }

  function IndexMap(items: seq<Value>, n: nat): map<string, Value>
    requires n <= |items|
  {
    if n == 0 then map[] else IndexMap(items, n - 1)[NatToString(n - 1) := items[n - 1]]
  }

  // ---------------------------------------------------------------------------
  // Decimal digits

  predicate IsDigit(c: char) {
    '0' <= c <= '9'
  }

  predicate AllDigits(s: string) {
    forall i :: 0 <= i < |s| ==> IsDigit(s[i])
  }

  function DigitChar(d: nat): char
    requires d < 10
  {
    "0123456789"[d]
  }

  function DigitOf(c: char): nat
    requires IsDigit(c)
  {
    (c as int - '0' as int) as nat
  }

  /** The value of a string of decimal digits, most significant first. */
  function DigitsValue(s: string): nat
    requires AllDigits(s)
  {
    if s == [] then 0 else DigitsValue(s[..|s| - 1]) * 10 + DigitOf(s[|s| - 1])
  }

  /** The decimal numeral of `n`, without leading zeros. */
  function NatToString(n: nat): string
  {
    if n < 10 then [DigitChar(n)] else NatToString(n / 10) + [DigitChar(n % 10)]
  }

  /** `String(n)` for an integer number. */
  function IntToString(n: int): string {
    if n < 0 then "-" + NatToString(-n) else NatToString(n)
  }

  lemma {:induction false} NatToStringDigits(n: nat)
    ensures var s := NatToString(n); |s| >= 1 && AllDigits(s) && DigitsValue(s) == n
    ensures n < 10 ==> |NatToString(n)| == 1
    ensures 10 <= n < 100 ==> |NatToString(n)| == 2
  {
    if n >= 10 {
      NatToStringDigits(n / 10);
      var s := NatToString(n);
      assert s[..|s| - 1] == NatToString(n / 10);
      assert DigitOf(s[|s| - 1]) == n % 10;
    } else {
      assert DigitOf(NatToString(n)[0]) == n;
    }
  }

  // ---------------------------------------------------------------------------
  // String(x)

  function Join(parts: seq<string>, sep: string): string {
    if parts == [] then ""
    else if |parts| == 1 then parts[0]
    else parts[0] + sep + Join(parts[1..], sep)
  }

  /** `String(v)`. */
  function ToStr(v: Value): string
    decreases v
  {
    match v
    case Undefined => "undefined"
    case Null => "null"
    case Bool(b) => if b then "true" else "false"
    case Num(n) => IntToString(n)
    case NaN => "NaN"
    case Str(s) => s
    case Arr(items) =>
      Join(seq(|items|, i requires 0 <= i < |items| => if Nullish(items[i]) then "" else ToStr(items[i])), ",")
    case Obj(_) => "[object Object]"
  }

  // ---------------------------------------------------------------------------
  // parseInt(s, 10)

  /** The white space `parseInt` skips (the common ones; see README). */
  predicate IsSpace(c: char) {
    c == ' ' || c == '\t' || c == '\n' || c == '\r' || c == '\U{B}' || c == '\U{C}'
    || c == '\U{A0}' || c == '\U{FEFF}' || c == '\U{2028}' || c == '\U{2029}'
  }

  function TrimStart(s: string): (r: string)
    ensures r == [] || !IsSpace(r[0])
    ensures |r| <= |s| && r == s[|s| - |r|..]
  {
    if s != [] && IsSpace(s[0]) then TrimStart(s[1..]) else s
  }

  /** The longest prefix of `s` made of decimal digits. */
  function DigitPrefix(s: string): (r: string)
    ensures AllDigits(r) && r <= s
  {
    if s == [] || !IsDigit(s[0]) then [] else [s[0]] + DigitPrefix(s[1..])
  }

  /** `parseInt(s, 10)`: skip leading white space, read an optional sign and
      the longest run of digits; NaN when there is none. */
  function ParseInt(s: string): Value {
    ReadSigned(TrimStart(s))
  }

  /** An optional sign and the longest run of digits after it. */
  function ReadSigned(t: string): Value {
    var negative := |t| > 0 && t[0] == '-';
    var rest := if |t| > 0 && (t[0] == '-' || t[0] == '+') then t[1..] else t;
    var d := DigitPrefix(rest);
    if d == [] then NaN
    else if negative then Num(-(DigitsValue(d) as int))
    else Num(DigitsValue(d))
  }

  lemma {:induction false} DigitPrefixOfDigits(s: string)
    requires AllDigits(s)
    ensures DigitPrefix(s) == s
  {
    if s != [] {
      DigitPrefixOfDigits(s[1..]);
    }
  }

  lemma TrimStartAtNonSpace(s: string)
    requires s != [] && !IsSpace(s[0])
    ensures TrimStart(s) == s
  {
  }

  lemma ReadSignedNegated(s: string, d: string)
    requires d != [] && AllDigits(d) && s == "-" + d
    ensures ReadSigned(s) == Num(-(DigitsValue(d) as int))
  {
    assert s[1..] == d;
    DigitPrefixOfDigits(d);
  }

  /** A run of digits reads back as its value. */
  lemma ParseIntOfDigits(d: string)
    requires d != [] && AllDigits(d)
    ensures ParseInt(d) == Num(DigitsValue(d))
  {
    assert IsDigit(d[0]);
    TrimStartAtNonSpace(d);
    DigitPrefixOfDigits(d);
  }

  /** A minus sign followed by a run of digits reads back as the negated value. */
  lemma ParseIntOfNegatedDigits(d: string)
    requires d != [] && AllDigits(d)
    ensures ParseInt("-" + d) == Num(-(DigitsValue(d) as int))
  {
    TrimStartAtNonSpace("-" + d);
    ReadSignedNegated("-" + d, d);
  }

  /** `parseInt(String(n), 10) === n` for every integer `n`. */
  lemma ParseIntRoundTrip(n: int)
    ensures ParseInt(IntToString(n)) == Num(n)
  {
    var m: nat := if n < 0 then -n else n;
    NatToStringDigits(m);
    if n < 0 {
      ParseIntOfNegatedDigits(NatToString(m));
    } else {
      ParseIntOfDigits(NatToString(m));
    }
  }

  /** `parseInt(x, 10)` converts its argument with `String` first. */
  function ParseIntValue(v: Value): Value {
    ParseInt(ToStr(v))
  }

  /** `x ? String(x) : ""` */
  function IdString(v: Value): Value {
    if Truthy(v) then Str(ToStr(v)) else Str("")
  }

  /** A non-zero number turned into its id string reads back as the same
      number; zero gives the empty string. */
  lemma IdStringRoundTrip(n: int)
    ensures n != 0 ==> IdString(Num(n)) == Str(IntToString(n)) && ParseIntValue(Str(IntToString(n))) == Num(n)
    ensures n == 0 ==> IdString(Num(n)) == Str("")
  {
    if n != 0 {
      ParseIntRoundTrip(n);
      assert ToStr(Num(n)) == IntToString(n);
    }
  }

  /** Entry `k` of `r` holds a string: `String(x)` of the value `x` that `raw`
      has under `k` when that is truthy, "" otherwise. */
  predicate StringifiedId(r: map<string, Value>, raw: Value, k: string) {
    k in r && r[k].Str?
    && (Truthy(Prop(raw, k)) ==> r[k].s == ToStr(Prop(raw, k)))
    && (!Truthy(Prop(raw, k)) ==> r[k].s == "")
  }
}
