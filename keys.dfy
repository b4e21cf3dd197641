/** The ordering keys of src/paging-v3.ts: `KeyBuilder` (one key, its
    coercion and its direction) and `CursorBuilder` (a primary and an
    optional secondary key: seek predicates, sort, pivot, payload and the
    rebuilding of typed values from a payload). Both are pure: their results
    are values built fresh on every call. */
module Keys {
  import opened Wrappers
  import opened Values
  import opened Lodash
  import opened Query

  /** A key coercion (`keyBuilder`); `None` stands for a thrown exception. */
  type Coercion = Value -> Option<Value>

  const ASC: Value := Num(1)
  const DESC: Value := Num(-1)

  /** A key configuration as the caller passes it; every property may be absent. */
  datatype KeyProps = KeyProps(key: Option<string>, keyBuilder: Option<Coercion>, keyOrder: Option<Value>)

  /** `_.isEmpty` of a key configuration: absent, or an object with no properties. */
  predicate IsEmptyKey(p: Option<KeyProps>) {
    p.None? || (p.value.key.None? && p.value.keyBuilder.None? && p.value.keyOrder.None?)
  }

  /** The coercion of the default key: a string becomes an ObjectId (and
      throws when it is not one); any other value passes through. */
  const DefaultIdBuilder: Coercion := (v: Value) => if v.Str? then ParseObjectId(v.s) else Some(v)

  /** `DEFAULT_KEY`: `_id`, ascending, with the ObjectId coercion. */
  const DefaultKey: KeyProps := KeyProps(Some("_id"), Some(DefaultIdBuilder), Some(ASC))

  /** A `KeyBuilder` object: the properties of its configuration, an absent
      `keyOrder` reading as `undefined`. */
  datatype KeyBuilder = KeyBuilder(key: Option<string>, keyBuilder: Option<Coercion>, keyOrder: Value)

  /** `new KeyBuilder(props)`. */
  function NewKeyBuilder(props: KeyProps): KeyBuilder {
    KeyBuilder(props.key, props.keyBuilder, if props.keyOrder.Some? then props.keyOrder.value else Undefined)
  }

  /** Two optional coercions are the same function. */
  ghost predicate SameCoercion(a: Option<Coercion>, b: Option<Coercion>) {
    (a.None? <==> b.None?) && (a.Some? && b.Some? ==> forall v :: a.value(v) == b.value(v))
  }

  /** `kb` is the key builder made from `props`. */
  ghost predicate BuiltFrom(kb: KeyBuilder, props: KeyProps) {
    kb.key == props.key && SameCoercion(kb.keyBuilder, props.keyBuilder)
    && kb.keyOrder == (if props.keyOrder.Some? then props.keyOrder.value else Undefined)
  }

  /** The property name a computed key `[key]` produces: `undefined` becomes "undefined". */
  function FieldName(key: Option<string>): string {
    if key.Some? then key.value else "undefined"
  }

  /** `builder ? builder(cursor) : cursor` inside KeyBuilder's try block. */
  function Coerce(kb: KeyBuilder, cursor: Value): (r: Option<Value>)
    ensures kb.keyBuilder.None? ==> r == Some(cursor)
  {
    if kb.keyBuilder.Some? then kb.keyBuilder.value(cursor) else Some(cursor)
  }

  /** `KeyBuilder.afterOf`: strictly greater for an ascending key, strictly
      smaller otherwise, and present; `null` when the coercion throws. */
  function KeyAfterOf(kb: KeyBuilder, cursor: Value): (r: Value)
    ensures Coerce(kb, cursor).None? <==> r == Null
    ensures Coerce(kb, cursor).Some? ==>
      r == Obj(map[(if kb.keyOrder == ASC then "$gt" else "$lt") := Coerce(kb, cursor).value, "$exists" := Bool(true)])
  {
    match Coerce(kb, cursor)
    case None => Null
    case Some(c) =>
      if kb.keyOrder == ASC then Obj(map["$gt" := c, "$exists" := Bool(true)])
      else Obj(map["$lt" := c, "$exists" := Bool(true)])
  }

  /** `KeyBuilder.beforeOf`: the mirror of `KeyAfterOf`. */
  function KeyBeforeOf(kb: KeyBuilder, cursor: Value): (r: Value)
    ensures Coerce(kb, cursor).None? <==> r == Null
    ensures Coerce(kb, cursor).Some? ==>
      r == Obj(map[(if kb.keyOrder == ASC then "$lt" else "$gt") := Coerce(kb, cursor).value, "$exists" := Bool(true)])
  {
    match Coerce(kb, cursor)
    case None => Null
    case Some(c) =>
      if kb.keyOrder == ASC then Obj(map["$lt" := c, "$exists" := Bool(true)])
      else Obj(map["$gt" := c, "$exists" := Bool(true)])
  }

  /** `CursorBuilder.order`: the direction of a key for a traversal. */
  function Order(keyOrder: Value, reverse: bool): (r: Value)
    ensures !reverse ==> r == keyOrder
    ensures reverse ==> (r == DESC <==> keyOrder == ASC)
    ensures reverse ==> (r == ASC <==> keyOrder != ASC)
  {
    if reverse then (if keyOrder == ASC then DESC else ASC) else keyOrder
  }

  /** Reversing twice restores an ascending or descending direction. */
  lemma OrderInvolution(keyOrder: Value)
    requires keyOrder == ASC || keyOrder == DESC
    ensures Order(Order(keyOrder, true), true) == keyOrder
  {
  }

  /** Any direction other than `ASC` (such as the spelling "asc") reverses to `ASC`. */
  lemma OrderOfOtherSpelling(keyOrder: Value)
    requires keyOrder != ASC
    ensures Order(keyOrder, true) == ASC
  {
  }

  /** The before-predicate of a key is the after-predicate of the same key
      with its direction reversed by `Order`. */
  lemma KeyBeforeIsReversedAfter(kb: KeyBuilder, cursor: Value)
    ensures KeyBeforeOf(kb, cursor) == KeyAfterOf(kb.(keyOrder := Order(kb.keyOrder, true)), cursor)
  {
  }

  /** A `CursorBuilder` object: its primary and optional secondary key builder. */
  datatype CursorBuilder = CursorBuilder(primary: KeyBuilder, secondary: Option<KeyBuilder>)

  /** The `keys` list a cursor builder keeps: the primary key name, then the
      secondary one when a secondary key builder exists. */
  function KeyNames(cb: CursorBuilder): seq<string> {
    [FieldName(cb.primary.key)] + (if cb.secondary.Some? then [FieldName(cb.secondary.value.key)] else [])
  }

  /** `new CursorBuilder(primary, secondary)`: an empty primary with a
      secondary present promotes the secondary; a missing primary is
      `DEFAULT_KEY`. */
  function NewCursorBuilder(primary: Option<KeyProps>, secondary: Option<KeyProps>): (cb: CursorBuilder)
    ensures IsEmptyKey(primary) && secondary.Some? ==> BuiltFrom(cb.primary, secondary.value) && cb.secondary.None?
    ensures primary.None? && secondary.None? ==> BuiltFrom(cb.primary, DefaultKey) && cb.secondary.None?
    ensures !(IsEmptyKey(primary) && secondary.Some?) ==>
      (primary.Some? ==> BuiltFrom(cb.primary, primary.value))
      && (cb.secondary.Some? <==> secondary.Some?)
      && (secondary.Some? ==> BuiltFrom(cb.secondary.value, secondary.value))
    ensures 1 <= |KeyNames(cb)| <= 2 && KeyNames(cb)[0] == FieldName(cb.primary.key)
    ensures |KeyNames(cb)| == 2 <==> cb.secondary.Some?
  {
    var promote := IsEmptyKey(primary) && secondary.Some?;
    var p := if promote then secondary else primary;
    var s := if promote then None else secondary;
    var pk := NewKeyBuilder(if p.Some? then p.value else DefaultKey);
    var sk := if s.Some? then Some(NewKeyBuilder(s.value)) else None;
    CursorBuilder(pk, sk)
  }

  /** `this.primary.key` as a property name. */
  function PrimaryField(cb: CursorBuilder): string {
    FieldName(cb.primary.key)
  }

  /** `this?.secondary?.key` when truthy: the secondary key is in use only
      when it is configured with a non-empty name. */
  function SecondaryField(cb: CursorBuilder): (r: Option<string>)
    ensures r.Some? ==> cb.secondary.Some? && cb.secondary.value.key == Some(r.value) && r.value != ""
    ensures cb.secondary.Some? && cb.secondary.value.key.Some? && cb.secondary.value.key.value != "" ==>
      r == Some(cb.secondary.value.key.value)
  {
    if cb.secondary.Some? && cb.secondary.value.key.Some? && cb.secondary.value.key.value != "" then
      Some(cb.secondary.value.key.value)
    else None
  }

  /** `CursorBuilder.pivot`: the key fields of a document. */
  function Pivot(cb: CursorBuilder, node: Doc): (r: Doc)
    ensures forall k :: k in KeyNames(cb) ==> Get(r, k) == Get(node, k)
    ensures forall k :: k in r ==> k in KeyNames(cb)
  {
    Pick(node, KeyNames(cb))
  }

  /** `CursorBuilder.afterOf`: one strict clause on the primary key, or,
      with a secondary key, `$or` of that clause and "primary equal to the
      pivot and secondary strictly after". The equality uses the pivot's
      value as it is; the strict clauses use the coerced value. */
  function AfterOf(cb: CursorBuilder, node: Doc): (r: Value)
    ensures SecondaryField(cb).None? ==>
      r == Obj(map[PrimaryField(cb) := KeyAfterOf(cb.primary, Get(node, PrimaryField(cb)))])
    ensures SecondaryField(cb).Some? ==>
      var p, s := PrimaryField(cb), SecondaryField(cb).value;
      r == Obj(map["$or" := Arr([
        Obj(map[p := KeyAfterOf(cb.primary, Get(node, p))]),
        Obj(map[p := Obj(map["$eq" := Get(node, p)])][s := KeyAfterOf(cb.secondary.value, Get(node, s))])])])
  {
    var pivot := Pivot(cb, node);
    var p := PrimaryField(cb);
    var value := Get(pivot, p);
    var next := Obj(map[p := KeyAfterOf(cb.primary, value)]);
    match SecondaryField(cb)
    case Some(s) =>
      assert KeyNames(cb)[1] == s;
      Obj(map["$or" := Arr([next,
        Obj(map[p := Obj(map["$eq" := value])][s := KeyAfterOf(cb.secondary.value, Get(pivot, s))])])])
    case None => next
  }

  /** `CursorBuilder.beforeOf`: `AfterOf` with the mirrored key predicates. */
  function BeforeOf(cb: CursorBuilder, node: Doc): (r: Value)
    ensures SecondaryField(cb).None? ==>
      r == Obj(map[PrimaryField(cb) := KeyBeforeOf(cb.primary, Get(node, PrimaryField(cb)))])
    ensures SecondaryField(cb).Some? ==>
      var p, s := PrimaryField(cb), SecondaryField(cb).value;
      r == Obj(map["$or" := Arr([
        Obj(map[p := KeyBeforeOf(cb.primary, Get(node, p))]),
        Obj(map[p := Obj(map["$eq" := Get(node, p)])][s := KeyBeforeOf(cb.secondary.value, Get(node, s))])])])
  {
    var pivot := Pivot(cb, node);
    var p := PrimaryField(cb);
    var value := Get(pivot, p);
    var next := Obj(map[p := KeyBeforeOf(cb.primary, value)]);
    match SecondaryField(cb)
    case Some(s) =>
      assert KeyNames(cb)[1] == s;
      Obj(map["$or" := Arr([next,
        Obj(map[p := Obj(map["$eq" := value])][s := KeyBeforeOf(cb.secondary.value, Get(pivot, s))])])])
    case None => next
  }

  /** The same cursor builder with every key direction reversed by `Order`. */
  function Flipped(cb: CursorBuilder): CursorBuilder {
    cb.(primary := cb.primary.(keyOrder := Order(cb.primary.keyOrder, true)),
        secondary := if cb.secondary.Some?
                     then Some(cb.secondary.value.(keyOrder := Order(cb.secondary.value.keyOrder, true)))
                     else None)
  }

  /** A backward seek is a forward seek under the reversed directions. */
  lemma BeforeIsFlippedAfter(cb: CursorBuilder, node: Doc)
    ensures BeforeOf(cb, node) == AfterOf(Flipped(cb), node)
  {
    KeyBeforeIsReversedAfter(cb.primary, Get(node, PrimaryField(cb)));
    if SecondaryField(cb).Some? {
      KeyBeforeIsReversedAfter(cb.secondary.value, Get(node, SecondaryField(cb).value));
    }
  }

  /** Sets property `k` of an ordered object: an existing key keeps its
      place and takes the new value, a new key goes last. */
  function Put(spec: SortSpec, k: string, v: Value): (r: SortSpec)
    ensures (forall i :: 0 <= i < |spec| ==> spec[i].0 != k) ==> r == spec + [(k, v)]
    ensures forall i :: 0 <= i < |spec| && spec[i].0 == k && (forall j :: 0 <= j < i ==> spec[j].0 != k)
              ==> r == spec[i := (k, v)]
    decreases |spec|
  {
    if |spec| == 0 then [(k, v)]
    else if spec[0].0 == k then [(k, v)] + spec[1..]
    else [spec[0]] + Put(spec[1..], k, v)
  }

  /** `CursorBuilder.sort`: the primary key, then the secondary key when in
      use, each with its direction for this traversal. No `_id` tiebreaker is
      added. */
  function Sort(cb: CursorBuilder, reverse: bool): (r: SortSpec)
    ensures SecondaryField(cb).None? ==> r == [(PrimaryField(cb), Order(cb.primary.keyOrder, reverse))]
    ensures SecondaryField(cb).Some? && SecondaryField(cb).value != PrimaryField(cb) ==>
      r == [(PrimaryField(cb), Order(cb.primary.keyOrder, reverse)),
            (SecondaryField(cb).value, Order(cb.secondary.value.keyOrder, reverse))]
    ensures SecondaryField(cb).Some? && SecondaryField(cb).value == PrimaryField(cb) ==>
      r == [(PrimaryField(cb), Order(cb.secondary.value.keyOrder, reverse))]
  {
    var first := Put([], PrimaryField(cb), Order(cb.primary.keyOrder, reverse));
    match SecondaryField(cb)
    case Some(s) => Put(first, s, Order(cb.secondary.value.keyOrder, reverse))
    case None => first
  }

  /** `CursorBuilder.plain`: the key fields as text, a primary `Date` in
      ISO-8601 form (any other value, a secondary `Date` included, through
      `${...}`); `None` when `toISOString` throws on an invalid date. */
  function Plain(cb: CursorBuilder, f: DateText, node: Doc): (r: Option<Doc>)
    ensures r.None? <==> Get(node, PrimaryField(cb)).Date? && !ValidTime(Get(node, PrimaryField(cb)).ms)
    ensures r.Some? ==> PrimaryField(cb) in r.value && forall k :: k in r.value ==> r.value[k].Str?
    ensures r.Some? && SecondaryField(cb).Some? ==> SecondaryField(cb).value in r.value
    ensures r.Some? ==> forall k :: k in r.value ==> k == PrimaryField(cb) || Some(k) == SecondaryField(cb)
    ensures r.Some? && SecondaryField(cb).Some? ==>
      r.value[SecondaryField(cb).value] == Str(ToText(f, Get(node, SecondaryField(cb).value)))
    ensures r.Some? && !Get(node, PrimaryField(cb)).Date? && Some(PrimaryField(cb)) != SecondaryField(cb) ==>
      r.value[PrimaryField(cb)] == Str(ToText(f, Get(node, PrimaryField(cb))))
    ensures r.Some? && Get(node, PrimaryField(cb)).Date? && Some(PrimaryField(cb)) != SecondaryField(cb) ==>
      r.value[PrimaryField(cb)] == Str(IsoString(f, Get(node, PrimaryField(cb)).ms).value)
  {
    var p := PrimaryField(cb);
    var v := Get(node, p);
    var text := if v.Date? then IsoString(f, v.ms) else Some(ToText(f, v));
    match text
    case None => None
    case Some(t) =>
      match SecondaryField(cb)
      case Some(s) => Some(map[p := Str(t)][s := Str(ToText(f, Get(node, s)))])
      case None => Some(map[p := Str(t)])
  }

  /** `this.primary.keyBuilder(x)` called directly, as `node` does: a key
      without a `keyBuilder` throws a TypeError (None). */
  function CallBuilder(kb: KeyBuilder, v: Value): (r: Option<Value>)
    ensures kb.keyBuilder.None? ==> r.None?
    ensures kb.keyBuilder.Some? ==> r == Coerce(kb, v)
  {
    if kb.keyBuilder.Some? then kb.keyBuilder.value(v) else None
  }

  /** `CursorBuilder.node`: typed key values rebuilt from a decoded payload
      (which may be `null` or any other value); `None` when a coercion
      throws or is missing. */
  function Node(cb: CursorBuilder, data: Value): (r: Option<Doc>)
    ensures r.Some? ==> PrimaryField(cb) in r.value
    ensures r.Some? && SecondaryField(cb).Some? ==> SecondaryField(cb).value in r.value
    ensures r.Some? ==> forall k :: k in r.value ==> k == PrimaryField(cb) || Some(k) == SecondaryField(cb)
    ensures r.Some? && Some(PrimaryField(cb)) != SecondaryField(cb) ==>
      Some(r.value[PrimaryField(cb)]) == CallBuilder(cb.primary, OptGet(data, PrimaryField(cb)))
    ensures r.Some? && SecondaryField(cb).Some? ==>
      Some(r.value[SecondaryField(cb).value]) == CallBuilder(cb.secondary.value, OptGet(data, SecondaryField(cb).value))
    ensures r.None? <==>
      CallBuilder(cb.primary, OptGet(data, PrimaryField(cb))).None?
      || (SecondaryField(cb).Some? && CallBuilder(cb.secondary.value, OptGet(data, SecondaryField(cb).value)).None?)
  {
    var p := PrimaryField(cb);
    var a := CallBuilder(cb.primary, OptGet(data, p));
    match SecondaryField(cb)
    case Some(s) =>
      var b := CallBuilder(cb.secondary.value, OptGet(data, s));
      if a.None? || b.None? then None else Some(map[p := a.value][s := b.value])
    case None =>
      if a.None? then None else Some(map[p := a.value])
  }
}
