/** JavaScript values as the paging code sees them: documents, cursor
    payloads, filter fragments and sort values are all built from `Value`.
    Numbers are integers (floating point is not modelled); an `ObjectId` holds
    its hexadecimal text and a `Date` its milliseconds since the epoch. */
module Values {
  import opened Wrappers

  datatype Value =
    | Undefined
    | Null
    | Bool(b: bool)
    | Num(n: int)
    | Str(s: string)
    | ObjectId(hex: string)
    | Date(ms: int)
    | Arr(elems: seq<Value>)
    | Obj(fields: map<string, Value>)

  /** A stored document (or any plain object): field name to value. */
  type Doc = map<string, Value>

  /** JavaScript truthiness: `undefined`, `null`, `false`, `0` and `''` are falsy. */
  predicate Truthy(v: Value) {
    !(v.Undefined? || v.Null? || v == Bool(false) || v == Num(0) || v == Str(""))
  }

  /** `d[k]` on a plain object: a missing field reads as `undefined`. */
  function Get(d: Doc, k: string): Value {
    if k in d then d[k] else Undefined
  }

  /** Optional chaining `v?.[k]`: never throws; only objects have fields here
      (property lookups on strings and arrays are not modelled). */
  function OptGet(v: Value, k: string): Value {
    if v.Obj? then Get(v.fields, k) else Undefined
  }

  /** Plain member access `v.k`: throws a TypeError (None) on `undefined` and `null`. */
  function Prop(v: Value, k: string): (r: Option<Value>)
    ensures r.None? <==> v.Undefined? || v.Null?
    ensures r.Some? ==> r.value == OptGet(v, k)
  {
    if v.Undefined? || v.Null? then None else Some(OptGet(v, k))
  }

  /** The two renderings of a `Date` the code uses, left abstract: the
      ISO-8601 text of `toISOString` and the local text of `toString`. */
  datatype DateText = DateText(iso: int -> string, local: int -> string)

  /** Largest time value a valid `Date` can hold (ECMAScript time range). */
  const MaxTimeValue: int := 8_640_000_000_000_000

  predicate ValidTime(ms: int) {
    -MaxTimeValue <= ms <= MaxTimeValue
  }

  /** `date.toISOString()`: throws a RangeError (None) on an invalid date. */
  function IsoString(f: DateText, ms: int): (r: Option<string>)
    ensures r.Some? <==> ValidTime(ms)
  {
    if ValidTime(ms) then Some(f.iso(ms)) else None
  }

  function DigitChar(d: nat): (c: char)
    requires d < 10
    ensures '0' <= c <= '9'
  {
    "0123456789"[d]
  }

  /** Decimal text of a natural number, most significant digit first. */
  function NatText(n: nat): (r: string)
    ensures |r| > 0
    ensures forall i :: 0 <= i < |r| ==> '0' <= r[i] <= '9'
    ensures n >= 10 ==> r[0] != '0'
  {
    if n < 10 then [DigitChar(n)] else NatText(n / 10) + [DigitChar(n % 10)]
  }

  /** `String(n)` for an integer. */
  function IntText(n: int): string {
    if n < 0 then "-" + NatText(-n) else NatText(n)
  }

  function JoinComma(parts: seq<string>): string {
    if |parts| == 0 then "" else if |parts| == 1 then parts[0] else parts[0] + "," + JoinComma(parts[1..])
  }

  /** Template-literal coercion `${v}`: arrays are joined with commas
      (`null`/`undefined` elements become empty), plain objects give
      "[object Object]", an invalid date gives "Invalid Date". */
  function ToText(f: DateText, v: Value): string
    decreases v
  {
    match v
    case Undefined => "undefined"
    case Null => "null"
    case Bool(b) => if b then "true" else "false"
    case Num(n) => IntText(n)
    case Str(s) => s
    case ObjectId(h) => h
    case Date(ms) => if ValidTime(ms) then f.local(ms) else "Invalid Date"
    case Arr(xs) =>
      JoinComma(seq(|xs|, i requires 0 <= i < |xs| =>
        if xs[i].Undefined? || xs[i].Null? then "" else ToText(f, xs[i])))
    case Obj(_) => "[object Object]"
  }

  predicate IsHexChar(c: char) {
    ('0' <= c <= '9') || ('a' <= c <= 'f') || ('A' <= c <= 'F')
  }

  predicate IsLowerHexChar(c: char) {
    ('0' <= c <= '9') || ('a' <= c <= 'f')
  }

  function LowerHexChar(c: char): (r: char)
    requires IsHexChar(c)
    ensures IsLowerHexChar(r)
    ensures IsLowerHexChar(c) ==> r == c
  {
    if 'A' <= c <= 'F' then (c as int - 'A' as int + 'a' as int) as char else c
  }

  /** The canonical text of an ObjectId: 24 lower-case hexadecimal digits. */
  predicate IsObjectIdHex(h: string) {
    |h| == 24 && forall i :: 0 <= i < |h| ==> IsLowerHexChar(h[i])
  }

  /** `new Types.ObjectId(s)` for a string `s`: 24 hexadecimal digits in
      either case are accepted and normalised to lower case; any other
      string throws (None). The 12-character binary form is not modelled. */
  function ParseObjectId(s: string): (r: Option<Value>)
    ensures r.Some? <==> |s| == 24 && forall i :: 0 <= i < |s| ==> IsHexChar(s[i])
    ensures r.Some? ==> r.value.ObjectId? && IsObjectIdHex(r.value.hex)
    ensures r.Some? ==> |r.value.hex| == |s| && forall i :: 0 <= i < |s| ==> r.value.hex[i] == LowerHexChar(s[i])
    ensures IsObjectIdHex(s) ==> r == Some(ObjectId(s))
  {
    if |s| == 24 && forall i :: 0 <= i < |s| ==> IsHexChar(s[i]) then
      var h := seq(|s|, i requires 0 <= i < |s| => LowerHexChar(s[i]));
      assert IsObjectIdHex(s) ==> h == s;
      Some(ObjectId(h))
    else
      None
  }
}
