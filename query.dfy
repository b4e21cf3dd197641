/** A reference semantics for the part of the store's query language the
    paging code produces: `$or`, `$and`, field equality and the field
    operators `$gt`, `$lt`, `$eq`, `$exists`; and the order a sort
    specification imposes on documents. Values compare only within one kind
    (integers, strings, ObjectIds, dates); the store's ordering across kinds
    is not modelled. */
module Query {
  import opened Values

  /** A sort specification: an object whose key order matters, kept as the
      list of its entries in insertion order. */
  type SortSpec = seq<(string, Value)>

  /** Code-unit lexicographic order on strings. */
  predicate StrLess(a: string, b: string)
    decreases |a|
  {
    if |a| == 0 then |b| > 0
    else if |b| == 0 then false
    else a[0] < b[0] || (a[0] == b[0] && StrLess(a[1..], b[1..]))
  }

  /** `StrLess` is a strict total order. */
  lemma {:induction false} StrLessTrichotomy(a: string, b: string)
    ensures StrLess(a, b) || a == b || StrLess(b, a)
    ensures !(StrLess(a, b) && StrLess(b, a))
    ensures !StrLess(a, a)
    decreases |a|
  {
    if |a| > 0 {
      StrLessTrichotomy(a[1..], a[1..]);
    }
    if |a| > 0 && |b| > 0 {
      StrLessTrichotomy(a[1..], b[1..]);
      if a[0] == b[0] && a[1..] == b[1..] {
        assert a == [a[0]] + a[1..] && b == [b[0]] + b[1..];
      }
    }
  }

  /** Values the store compares with each other here. */
  predicate SameKind(a: Value, b: Value) {
    (a.Num? && b.Num?) || (a.Str? && b.Str?) || (a.ObjectId? && b.ObjectId?) || (a.Date? && b.Date?)
  }

  /** The store's order on two values of one kind (ObjectIds by their
      lower-case hexadecimal text, which orders them as their bytes). */
  predicate Less(a: Value, b: Value) {
    match (a, b)
    case (Num(x), Num(y)) => x < y
    case (Str(x), Str(y)) => StrLess(x, y)
    case (ObjectId(x), ObjectId(y)) => StrLess(x, y)
    case (Date(x), Date(y)) => x < y
    case _ => false
  }

  /** Two values of one kind are ordered one way, the other way, or equal. */
  lemma LessTrichotomy(a: Value, b: Value)
    requires SameKind(a, b)
    ensures Less(a, b) || a == b || Less(b, a)
    ensures !(Less(a, b) && Less(b, a))
    ensures !Less(a, a)
  {
    match (a, b)
    case (Str(x), Str(y)) => StrLessTrichotomy(x, y);
    case (ObjectId(x), ObjectId(y)) => StrLessTrichotomy(x, y);
    case _ =>
  }

  /** A document field name (not an operator). */
  predicate IsFieldName(k: string) {
    |k| > 0 && k[0] != '$'
  }

  /** An object read as a set of field operators: non-empty, every key an operator. */
  predicate IsOperatorDoc(ops: Doc) {
    |ops| > 0 && forall op :: op in ops ==> |op| > 0 && op[0] == '$'
  }

  /** Whether document `d` satisfies the query object `q`. */
  predicate Matches(d: Doc, q: Value)
    decreases q
  {
    q.Obj? && forall k :: k in q.fields ==> ClauseHolds(d, k, q.fields[k])
  }

  /** One top-level entry `k: c` of a query object. Operators other than
      `$or` and `$and` at this level (such as `$text`) are not interpreted. */
  predicate ClauseHolds(d: Doc, k: string, c: Value)
    decreases c
  {
    if k == "$or" then
      c.Arr? && |c.elems| > 0 && exists i :: 0 <= i < |c.elems| && Matches(d, c.elems[i])
    else if k == "$and" then
      c.Arr? && |c.elems| > 0 && forall i :: 0 <= i < |c.elems| ==> Matches(d, c.elems[i])
    else
      IsFieldName(k) && FieldHolds(d, k, c)
  }

  /** A field condition: an operator object, `null` (the field is null or
      missing) or a value the field must equal. */
  predicate FieldHolds(d: Doc, k: string, c: Value) {
    if c.Obj? && IsOperatorDoc(c.fields) then
      forall op :: op in c.fields ==> OpHolds(d, k, op, c.fields[op])
    else if c.Null? then
      k !in d || d[k] == Null
    else
      k in d && d[k] == c
  }

  predicate OpHolds(d: Doc, k: string, op: string, arg: Value) {
    if op == "$gt" then k in d && Less(arg, d[k])
    else if op == "$lt" then k in d && Less(d[k], arg)
    else if op == "$eq" then k in d && d[k] == arg
    else if op == "$exists" then (Truthy(arg) <==> k in d)
    else false
  }

  /** Sort values the store reads as ascending and as descending. */
  predicate Ascending(dir: Value) {
    dir == Num(1) || dir == Str("asc") || dir == Str("ascending")
  }

  predicate Descending(dir: Value) {
    dir == Num(-1) || dir == Str("desc") || dir == Str("descending")
  }

  /** Under one sort entry with direction `dir`, value `a` comes strictly before `b`. */
  predicate KeyPrecedes(a: Value, b: Value, dir: Value) {
    if Ascending(dir) then Less(a, b) else if Descending(dir) then Less(b, a) else false
  }

  /** The order a sort specification imposes: lexicographic over its entries. */
  predicate Precedes(spec: SortSpec, d1: Doc, d2: Doc)
    decreases |spec|
  {
    if |spec| == 0 then false
    else
      var k := spec[0].0;
      KeyPrecedes(Get(d1, k), Get(d2, k), spec[0].1)
      || (Get(d1, k) == Get(d2, k) && Precedes(spec[1..], d1, d2))
  }
}
