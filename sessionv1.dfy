/** `Paging` of src/paging.ts, the single-key predecessor of `PagingV3`: one
    key with a value constructor (`KeyType`) and a direction, cursor tokens
    that wrap the key value as `{ cursor }`, and next/previous filters made
    by copying the filter and overriding the key's entry. */
module SessionV1 {
  import opened Wrappers
  import opened Lodash
  import opened Values
  import opened Query
  import Keys
  import opened Seek
  import opened Pages
  import opened Codec

  /** `KeyType` as the caller passes it: absent (the ObjectId default
      applies), a falsy value (the raw cursor is used), or a constructor. */
  datatype TypeProp = TypeAbsent | TypeFalsy | TypeCtor(make: Keys.Coercion)

  /** `props.filter`: absent (the destructuring default `{}` applies), `null`,
      or an object. */
  datatype FilterProp = FilterAbsent | FilterNull | FilterGiven(doc: Doc)

  /** `PagingProps`. */
  datatype PropsV1 = PropsV1(
    filter: FilterProp,
    search: Option<string>,
    key: Option<string>,
    keyType: TypeProp,
    order: Option<Value>,
    cursors: Option<Cursors>,
    toEntity: Option<Doc -> Value>)

  /** What the constructor and `cursor` throw: a token that fails to decode
      ("Pagination error."), both tokens given, reading `.cursor` of an
      absent `before`, or a `KeyType` constructor that throws. */
  datatype V1Error = PaginationError | BothCursors | TypeError | KeyTypeThrew

  /** `new Types.ObjectId(v)`: a string of 24 hexadecimal digits is parsed
      (any other string throws), an ObjectId is copied, `undefined`, `null`
      and a number make a new id (`generated`, standing for the one the driver
      generates from the clock and its counter), and other values throw. */
  function ObjectIdFrom(generated: string, v: Value): (r: Option<Value>)
    ensures v.Str? ==> r == ParseObjectId(v.s)
    ensures v.ObjectId? ==> r == Some(v)
    ensures v.Undefined? || v.Null? ==> r == Some(ObjectId(generated))
    ensures r.Some? ==> r.value.ObjectId?
  {
    match v
    case Str(s) => ParseObjectId(s)
    case ObjectId(_) => Some(v)
    case Undefined => Some(ObjectId(generated))
    case Null => Some(ObjectId(generated))
    case Num(_) => Some(ObjectId(generated))
    case _ => None
  }

  /** `KeyType ? new KeyType(cursor) : cursor`; None when the constructor throws. */
  function Make(keyType: TypeProp, generated: string, cursor: Value): (r: Option<Value>)
    ensures keyType.TypeFalsy? ==> r == Some(cursor)
    ensures keyType.TypeAbsent? ==> r == ObjectIdFrom(generated, cursor)
    ensures keyType.TypeCtor? ==> r == keyType.make(cursor)
  {
    match keyType
    case TypeAbsent => ObjectIdFrom(generated, cursor)
    case TypeFalsy => Some(cursor)
    case TypeCtor(make) => make(cursor)
  }

  /** `afterOf(cursor)`: `{ $gt: value }` for an ascending key, `{ $lt: value }`
      otherwise; no `$exists`. */
  function AfterOf(keyType: TypeProp, order: Value, generated: string, cursor: Value): (r: Option<Value>)
    ensures r.None? <==> Make(keyType, generated, cursor).None?
    ensures r.Some? ==>
      r.value == Obj(map[(if order == Keys.ASC then "$gt" else "$lt") := Make(keyType, generated, cursor).value])
  {
    match Make(keyType, generated, cursor)
    case None => None
    case Some(m) => Some(if order == Keys.ASC then Obj(map["$gt" := m]) else Obj(map["$lt" := m]))
  }

  /** `beforeOf(cursor)`: the mirror of `AfterOf`. */
  function BeforeOf(keyType: TypeProp, order: Value, generated: string, cursor: Value): (r: Option<Value>)
    ensures r.None? <==> Make(keyType, generated, cursor).None?
    ensures r.Some? ==>
      r.value == Obj(map[(if order == Keys.ASC then "$lt" else "$gt") := Make(keyType, generated, cursor).value])
  {
    match Make(keyType, generated, cursor)
    case None => None
    case Some(m) => Some(if order == Keys.ASC then Obj(map["$lt" := m]) else Obj(map["$gt" := m]))
  }

  /** A backward bound is a forward bound under the reversed direction. */
  lemma BeforeIsReversedAfter(keyType: TypeProp, order: Value, generated: string, cursor: Value)
    ensures BeforeOf(keyType, order, generated, cursor) == AfterOf(keyType, Keys.Order(order, true), generated, cursor)
  {
  }

  /** `parse`: the payload of a token; unlike `PagingV3.decrypt`, a token
      that fails to decode throws "Pagination error.". */
  function Parse(c: Codec, secret: string, token: string): (r: Result<Value, V1Error>)
    ensures secret != "" ==> (r.Failure? <==> c.verify(token, secret).None?)
    ensures r.Failure? ==> r.error == PaginationError
    ensures r.Success? && secret != "" ==> Some(r.value) == c.verify(token, secret)
  {
    var v := if secret != "" then c.verify(token, secret) else c.parse(token);
    if v.Some? then Success(v.value) else Failure(PaginationError)
  }

  /** `stringify(cursor)`: the token of the payload `{ cursor }`. */
  function Stringify(c: Codec, secret: string, cursor: Value): (r: string)
    ensures secret != "" ==> r == c.sign(map["cursor" := cursor], secret)
  {
    var payload := map["cursor" := cursor];
    if secret != "" then c.sign(payload, secret) else c.stringify(payload)
  }

  /** One side of `decrypt`: `cursors?.side && parse(cursors.side)`. */
  function DecryptSide(c: Codec, secret: string, token: Option<string>): (r: Result<Value, V1Error>)
    ensures token.None? ==> r == Success(Undefined)
    ensures token == Some("") ==> r == Success(Str(""))
    ensures token.Some? && token.value != "" ==> r == Parse(c, secret, token.value)
  {
    match token
    case None => Success(Undefined)
    case Some(t) => if t == "" then Success(Str("")) else Parse(c, secret, t)
  }

  /** The prune rule of the constructor's `pickBy`: arrays are kept when
      non-empty; other values unless `undefined`, `null` or `''`. */
  predicate Kept(v: Value) {
    if v.Arr? then |v.elems| > 0 else !(v.Undefined? || v.Null? || v == Str(""))
  }

  /** The rule keeps exactly what is not `undefined`, `null`, `''` or `[]`;
      in particular it keeps `0`, `false` and empty objects, which the
      truthiness rule of `PagingV3` would drop or keep differently. */
  lemma KeptIsNotEmpty(v: Value)
    ensures Kept(v) <==> !(v.Undefined? || v.Null? || v == Str("") || v == Arr([]))
    ensures Kept(Num(0)) && Kept(Bool(false)) && Kept(Obj(map[])) && !Kept(Arr([]))
    ensures Kept(v) && !v.Arr? && v != Num(0) && v != Bool(false) ==> Truthy(v)
  {
    if v.Arr? && |v.elems| == 0 {
      assert v == Arr([]);
    }
  }

  /** The constructor's state: final filter, count condition, sort and direction. */
  datatype SettingV1 = SettingV1(filter: Doc, condition: Doc, sort: SortSpec, reverse: bool)

  function KeyOf(props: PropsV1): string {
    if props.key.Some? then props.key.value else "_id"
  }

  function OrderOf(props: PropsV1): Value {
    if props.order.Some? then props.order.value else Keys.ASC
  }

  function FilterOf(props: PropsV1): Doc {
    if props.filter.FilterGiven? then props.filter.doc else map[]
  }

  /** `condition` and `filter` are one object unless `props.filter` is `null`. */
  predicate Aliased(props: PropsV1) {
    !props.filter.FilterNull?
  }

  /** Lines 108-130: the key's entry the cursor bundle sets, with
      `$exists: true`, or what is thrown. Decoding both tokens comes first,
      then the check for two tokens, then `.cursor` of the chosen one. */
  function CursorEntry(props: PropsV1, c: Codec, secret: string, generated: string, cursors: Cursors): (r: Result<(bool, Value), V1Error>)
  {
    match DecryptSide(c, secret, cursors.after)
    case Failure(e) => Failure(e)
    case Success(after) =>
      match DecryptSide(c, secret, cursors.before)
      case Failure(e) => Failure(e)
      case Success(before) =>
        if Truthy(after) && Truthy(before) then Failure(BothCursors)
        else
          match Prop(if Truthy(after) then after else before, "cursor")
          case None => Failure(TypeError)
          case Some(cursor) =>
            var bound := if Truthy(after) then AfterOf(props.keyType, OrderOf(props), generated, cursor)
                         else BeforeOf(props.keyType, OrderOf(props), generated, cursor);
            match bound
            case None => Failure(KeyTypeThrew)
            case Some(b) => Success((Truthy(before), Obj(b.fields["$exists" := Bool(true)])))
  }

  /** Lines 132-149: the single-key sort, the text search and the pruning.
      The search term also lands in the condition when it is the filter itself. */
  function FinishV1(props: PropsV1, keyed: Doc, reverse: bool): SettingV1 {
    var sort := [(KeyOf(props), Keys.Order(OrderOf(props), reverse))];
    var search := props.search;
    var searched := if search.Some? && search.value != "" then keyed["$text" := Obj(map["$search" := Str(search.value)])] else keyed;
    var sorted := if search.Some? && search.value != "" then Keys.Put(sort, "score", Obj(map["$meta" := Str("textScore")])) else sort;
    SettingV1(PickBy(searched, Kept), if Aliased(props) then searched else map[], sorted, reverse)
  }

  /** The whole constructor as a specification. */
  function SetupV1(props: PropsV1, c: Codec, secret: string, generated: string): Result<SettingV1, V1Error> {
    if props.cursors.None? then Success(FinishV1(props, FilterOf(props), false))
    else
      match CursorEntry(props, c, secret, generated, props.cursors.value)
      case Failure(e) => Failure(e)
      case Success((reverse, entry)) => Success(FinishV1(props, FilterOf(props)[KeyOf(props) := entry], reverse))
  }

  /** What `cursor(many)` returns. */
  datatype CursorOut = CursorOut(afterCursor: string, beforeCursor: string, filterNext: Doc, filterPrevious: Doc, data: seq<Doc>)

  /** `cursor` on a page already in forward order: the key values of the last
      and first documents (`undefined` for an empty page) are wrapped into
      tokens and override the key's entry in two copies of the filter. */
  function CursorOf(key: string, keyType: TypeProp, order: Value, filter: Doc, c: Codec, secret: string, generated: string, data: seq<Doc>)
    : (r: Result<CursorOut, V1Error>)
    ensures r.Success? ==> r.value.data == data
  {
    var lastCursor := if |data| > 0 then Get(data[|data| - 1], key) else Undefined;
    var firstCursor := if |data| > 0 then Get(data[0], key) else Undefined;
    match AfterOf(keyType, order, generated, lastCursor)
    case None => Failure(KeyTypeThrew)
    case Some(next) =>
      match BeforeOf(keyType, order, generated, firstCursor)
      case None => Failure(KeyTypeThrew)
      case Some(previous) =>
        Success(CursorOut(Stringify(c, secret, lastCursor), Stringify(c, secret, firstCursor),
                          filter[key := next], filter[key := previous], data))
  }

  /** The envelope `build` returns. */
  function EnvelopeV1(o: CursorOut, toEntity: Option<Doc -> Value>, condition: Doc, count: Value -> nat): Envelope {
    var countPrevious := count(Obj(o.filterPrevious));
    var countNext := count(Obj(o.filterNext));
    Envelope(Entities(toEntity, o.data),
      PagingInfo(count(Obj(condition)), |o.data|,
        if countNext != 0 then Some(PageLink(o.afterCursor, countNext)) else None,
        if countPrevious != 0 then Some(PageLink(o.beforeCursor, countPrevious)) else None))
  }

  class Paging {
    var filter: Doc
    var condition: Doc
    var sort: SortSpec
    var key: string
    var keyType: TypeProp
    var order: Value
    var reverse: bool
    var secret: string
    var search: Option<string>
    var toEntity: Option<Doc -> Value>
    var codec: Codec

    function State(): SettingV1
      reads this
    {
      SettingV1(filter, condition, sort, reverse)
    }

    /** Lines 83-103: the defaults and the fields set before the cursors. */
    constructor FromProps(props: PropsV1, env: Option<string>, c: Codec)
      ensures key == KeyOf(props) && keyType == props.keyType && order == OrderOf(props)
      ensures filter == FilterOf(props) && condition == FilterOf(props)
      ensures secret == SecretFrom(env) && codec == c && search == props.search && toEntity == props.toEntity
      ensures !reverse && sort == []
    {
      toEntity := props.toEntity;
      search := props.search;
      key := KeyOf(props);
      keyType := props.keyType;
      order := OrderOf(props);
      condition := FilterOf(props);
      filter := FilterOf(props);
      secret := SecretFrom(env);
      reverse := false;
      sort := [];
      codec := c;
    }

    /** Lines 108-130: decode the tokens, then set the key's entry of the
      filter (and of the condition, when it is the same object). */
    method ApplyCursors(props: PropsV1, cursors: Cursors, generated: string) returns (err: Option<V1Error>)
      requires key == KeyOf(props) && keyType == props.keyType && order == OrderOf(props)
      modifies this
      ensures key == old(key) && keyType == old(keyType) && order == old(order)
      ensures secret == old(secret) && codec == old(codec) && search == old(search) && toEntity == old(toEntity)
      ensures sort == old(sort)
      ensures CursorEntry(props, old(codec), old(secret), generated, cursors).Failure? <==> err.Some?
      ensures err.Some? ==> err.value == CursorEntry(props, old(codec), old(secret), generated, cursors).error
      ensures err.None? ==>
        var e := CursorEntry(props, old(codec), old(secret), generated, cursors).value;
        reverse == e.0 && filter == old(filter)[key := e.1]
        && condition == if Aliased(props) then filter else old(condition)
    {
      var after := DecryptSide(codec, secret, cursors.after);
      if after.Failure? {
        return Some(after.error);
      }
      var before := DecryptSide(codec, secret, cursors.before);
      if before.Failure? {
        return Some(before.error);
      }
      reverse := Truthy(before.value);
      if Truthy(after.value) && Truthy(before.value) {
        return Some(BothCursors);
      }
      var cursor := Prop(if Truthy(after.value) then after.value else before.value, "cursor");
      if cursor.None? {
        return Some(TypeError);
      }
      var bound := if Truthy(after.value) then AfterOf(keyType, order, generated, cursor.value)
                   else BeforeOf(keyType, order, generated, cursor.value);
      if bound.None? {
        return Some(KeyTypeThrew);
      }
      filter := filter[key := Obj(bound.value.fields["$exists" := Bool(true)])];
      if Aliased(props) {
        condition := filter;
      }
      return None;
    }

    /** Lines 132-149: sort, text search and pruning. */
    method ApplySortAndSearch(props: PropsV1)
      requires key == KeyOf(props) && order == OrderOf(props) && search == props.search
      requires Aliased(props) ==> condition == filter
      requires !Aliased(props) ==> condition == map[]
      modifies this
      ensures State() == FinishV1(props, old(filter), old(reverse))
      ensures key == old(key) && keyType == old(keyType) && order == old(order)
      ensures secret == old(secret) && codec == old(codec) && search == old(search) && toEntity == old(toEntity)
    {
      sort := [(key, Keys.Order(order, reverse))];
      if search.Some? && search.value != "" {
        filter := filter["$text" := Obj(map["$search" := Str(search.value)])];
        if Aliased(props) {
          condition := filter;
        }
        sort := Keys.Put(sort, "score", Obj(map["$meta" := Str("textScore")]));
      }
      filter := PickBy(filter, Kept);
    }

    /** `new Paging(props)`: the new object, or what its constructor throws. */
    static method Create(props: PropsV1, env: Option<string>, c: Codec, generated: string) returns (r: Result<Paging, V1Error>)
      ensures r.Success? <==> SetupV1(props, c, SecretFrom(env), generated).Success?
      ensures r.Failure? ==> r.error == SetupV1(props, c, SecretFrom(env), generated).error
      ensures r.Success? ==> fresh(r.value) && r.value.State() == SetupV1(props, c, SecretFrom(env), generated).value
      ensures r.Success? ==> r.value.key == KeyOf(props) && r.value.keyType == props.keyType && r.value.order == OrderOf(props)
      ensures r.Success? ==> r.value.secret == SecretFrom(env) && r.value.codec == c && r.value.toEntity == props.toEntity
    {
      var p := new Paging.FromProps(props, env, c);
      if !Aliased(props) {
        p.condition := map[];
      }
      if props.cursors.Some? {
        var err := p.ApplyCursors(props, props.cursors.value, generated);
        if err.Some? {
          return Failure(err.value);
        }
      }
      p.ApplySortAndSearch(props);
      return Success(p);
    }

    /** `cursor(many)`: reverses a backward page in place, then builds the
      tokens and the two neighbouring filters; `this.filter` is left as it is. */
    method Cursor(many: array<Doc>, generated: string) returns (r: Result<CursorOut, V1Error>)
      modifies many
      ensures many[..] == if reverse then Reversed(old(many[..])) else old(many[..])
      ensures r == CursorOf(key, keyType, order, filter, codec, secret, generated, many[..])
      ensures filter == old(filter)
    {
      if reverse {
        ReverseInPlace(many);
      }
      var data := many[..];
      var lastCursor := if |data| > 0 then Get(data[|data| - 1], key) else Undefined;
      var next := AfterOf(keyType, order, generated, lastCursor);
      if next.None? {
        return Failure(KeyTypeThrew);
      }
      var filterNext := filter[key := next.value];
      var firstCursor := if |data| > 0 then Get(data[0], key) else Undefined;
      var previous := BeforeOf(keyType, order, generated, firstCursor);
      if previous.None? {
        return Failure(KeyTypeThrew);
      }
      var filterPrevious := filter[key := previous.value];
      r := Success(CursorOut(Stringify(codec, secret, lastCursor), Stringify(codec, secret, firstCursor),
                             filterNext, filterPrevious, data));
    }

    /** `build(many, model)`, with `count` standing for `countDocuments`. */
    method Build(many: array<Doc>, count: Value -> nat, generated: string) returns (r: Result<Envelope, V1Error>)
      modifies many
      ensures many[..] == if reverse then Reversed(old(many[..])) else old(many[..])
      ensures var o := CursorOf(key, keyType, order, filter, codec, secret, generated, many[..]);
        r == if o.Failure? then Failure(o.error) else Success(EnvelopeV1(o.value, toEntity, condition, count))
    {
      var o := Cursor(many, generated);
      if o.Failure? {
        return Failure(o.error);
      }
      var countPrevious := count(Obj(o.value.filterPrevious));
      var countNext := count(Obj(o.value.filterNext));
      var total := count(Obj(condition));
      r := Success(Envelope(Entities(toEntity, o.value.data),
             PagingInfo(total, |o.value.data|,
               if countNext != 0 then Some(PageLink(o.value.afterCursor, countNext)) else None,
               if countPrevious != 0 then Some(PageLink(o.value.beforeCursor, countPrevious)) else None)));
    }
  }

  // Properties of the constructor.

  /** A token that is present and non-empty but does not verify. */
  predicate Undecodable(c: Codec, secret: string, t: Option<string>) {
    t.Some? && t.value != "" && c.verify(t.value, secret).None?
  }

  /** What the constructor throws, in the order it checks: a token that does
      not verify ("Pagination error."), then two truthy payloads, then
      `.cursor` of an absent `before` when `after` is falsy, which is what a
      cursor bundle with neither token gets. */
  lemma SetupThrowsV1(props: PropsV1, c: Codec, secret: string, generated: string)
    requires secret != ""
    ensures props.cursors.None? ==> SetupV1(props, c, secret, generated).Success?
    ensures props.cursors.Some? ==>
      var cs := props.cursors.value;
      var r := SetupV1(props, c, secret, generated);
      (r == Failure(PaginationError) <==> Undecodable(c, secret, cs.after) || Undecodable(c, secret, cs.before))
      && (!Undecodable(c, secret, cs.after) && !Undecodable(c, secret, cs.before) ==>
            var a := DecryptSide(c, secret, cs.after).value;
            var b := DecryptSide(c, secret, cs.before).value;
            (r == Failure(BothCursors) <==> Truthy(a) && Truthy(b))
            && (r == Failure(TypeError) <==> !Truthy(a) && (b.Undefined? || b.Null?)))
    ensures props.cursors == Some(Cursors(None, None)) ==> SetupV1(props, c, secret, generated) == Failure(TypeError)
  {
    if props.cursors.Some? {
      var cs := props.cursors.value;
      var ra := DecryptSide(c, secret, cs.after);
      var rb := DecryptSide(c, secret, cs.before);
      assert ra.Failure? <==> Undecodable(c, secret, cs.after);
      assert rb.Failure? <==> Undecodable(c, secret, cs.before);
    }
  }

  /** The traversal is backwards exactly when a truthy `before` payload was decoded. */
  lemma ReverseIffBeforeV1(props: PropsV1, c: Codec, secret: string, generated: string)
    requires SetupV1(props, c, secret, generated).Success?
    ensures SetupV1(props, c, secret, generated).value.reverse <==>
      props.cursors.Some? && Truthy(DecryptSide(c, secret, props.cursors.value.before).value)
  {
  }

  /** Entries of the caller's filter other than the key and the search term
      survive exactly when the prune rule keeps them, unchanged. */
  lemma PruneKeepsCallerEntriesV1(props: PropsV1, c: Codec, secret: string, generated: string, k: string)
    requires SetupV1(props, c, secret, generated).Success?
    requires k != KeyOf(props) && k != "$text"
    ensures var filter := SetupV1(props, c, secret, generated).value.filter;
      var user := FilterOf(props);
      (k in filter <==> k in user && Kept(user[k])) && (k in filter ==> filter[k] == user[k])
  {
  }

  /** The sort is the key alone with the direction for this traversal, and
      the text score after it when there is a search term (in place of the
      key when the key is `score` itself). */
  lemma SortV1(props: PropsV1, c: Codec, secret: string, generated: string)
    requires SetupV1(props, c, secret, generated).Success?
    ensures var s := SetupV1(props, c, secret, generated).value;
      var dir := Keys.Order(OrderOf(props), s.reverse);
      var score := ("score", Obj(map["$meta" := Str("textScore")]));
      if !(props.search.Some? && props.search.value != "") then s.sort == [(KeyOf(props), dir)]
      else if KeyOf(props) != "score" then s.sort == [(KeyOf(props), dir), score]
      else s.sort == [score]
  {
  }

  /** A strict bound without `$exists` holds exactly when its comparison does. */
  lemma StrictSelects(d: Doc, k: string, op: string, m: Value)
    requires op == "$gt" || op == "$lt"
    ensures FieldHolds(d, k, Obj(map[op := m])) <==> OpHolds(d, k, op, m)
  {
    assert map[op := m].Keys == {op};
  }

  /** The bound `AfterOf` builds for a value `m` selects the documents that
      have the key and follow `m` under the one-key sort with the same direction. */
  lemma BoundSelectsSuccessors(k: string, order: Value, m: Value, d: Doc)
    requires order == Keys.ASC || order == Keys.DESC
    ensures var op := if order == Keys.ASC then "$gt" else "$lt";
      (FieldHolds(d, k, Obj(map[op := m])) <==> k in d && Precedes([(k, order)], map[k := m], d))
      && (FieldHolds(d, k, Obj(map[op := m, "$exists" := Bool(true)])) <==> k in d && Precedes([(k, order)], map[k := m], d))
  {
    var op := if order == Keys.ASC then "$gt" else "$lt";
    StrictSelects(d, k, op, m);
    StrictWithExists(d, k, op, m);
    PrecedesOne(k, order, map[k := m], d);
  }

  /** With a cursor bundle whose entry is computed, the constructor succeeds,
      its direction is the entry's and the key keeps the entry in the filter. */
  lemma EntrySetupV1(props: PropsV1, c: Codec, secret: string, generated: string)
    requires props.cursors.Some? && IsFieldName(KeyOf(props))
    requires CursorEntry(props, c, secret, generated, props.cursors.value).Success?
    ensures var e := CursorEntry(props, c, secret, generated, props.cursors.value).value;
      var s := SetupV1(props, c, secret, generated);
      s.Success? && s.value.reverse == e.0 && KeyOf(props) in s.value.filter && s.value.filter[KeyOf(props)] == e.1
  {
    var e := CursorEntry(props, c, secret, generated, props.cursors.value).value;
    assert e.1.Obj?;
    assert KeyOf(props) != "$text";
  }

  /** An `after` token whose payload carries a `cursor` the key type accepts
      as `m`: the traversal is forward, the key's filter entry is the strict
      bound on `m` with `$exists`, and it selects the documents that follow
      `m` under the constructor's own sort direction. */
  lemma AfterTokenSeekV1(props: PropsV1, c: Codec, secret: string, generated: string, t: string, m: Value, d: Doc)
    requires secret != "" && t != "" && props.cursors == Some(Cursors(Some(t), None))
    requires c.verify(t, secret).Some? && Truthy(c.verify(t, secret).value)
    requires Make(props.keyType, generated, OptGet(c.verify(t, secret).value, "cursor")) == Some(m)
    requires IsFieldName(KeyOf(props)) && (OrderOf(props) == Keys.ASC || OrderOf(props) == Keys.DESC)
    ensures SetupV1(props, c, secret, generated).Success?
    ensures var s := SetupV1(props, c, secret, generated).value;
      var key := KeyOf(props);
      !s.reverse && key in s.filter
      && s.filter[key] == Obj(map[(if OrderOf(props) == Keys.ASC then "$gt" else "$lt") := m, "$exists" := Bool(true)])
      && (FieldHolds(d, key, s.filter[key]) <==> key in d && Precedes([(key, Keys.Order(OrderOf(props), s.reverse))], map[key := m], d))
  {
    var key := KeyOf(props);
    var op := if OrderOf(props) == Keys.ASC then "$gt" else "$lt";
    var entry := Obj(map[op := m]["$exists" := Bool(true)]);
    assert CursorEntry(props, c, secret, generated, props.cursors.value) == Success((false, entry));
    EntrySetupV1(props, c, secret, generated);
    BoundSelectsSuccessors(key, OrderOf(props), m, d);
  }

  /** A `before` token: the traversal is backwards, the key's entry is the
      mirrored bound, and it selects the documents that precede `m` in the
      caller's direction, which follow it under the reversed sort. */
  lemma BeforeTokenSeekV1(props: PropsV1, c: Codec, secret: string, generated: string, t: string, m: Value, d: Doc)
    requires secret != "" && t != "" && props.cursors == Some(Cursors(None, Some(t)))
    requires c.verify(t, secret).Some? && Truthy(c.verify(t, secret).value)
    requires Make(props.keyType, generated, OptGet(c.verify(t, secret).value, "cursor")) == Some(m)
    requires IsFieldName(KeyOf(props)) && (OrderOf(props) == Keys.ASC || OrderOf(props) == Keys.DESC)
    ensures SetupV1(props, c, secret, generated).Success?
    ensures var s := SetupV1(props, c, secret, generated).value;
      var key := KeyOf(props);
      s.reverse && key in s.filter
      && s.filter[key] == Obj(map[(if OrderOf(props) == Keys.ASC then "$lt" else "$gt") := m, "$exists" := Bool(true)])
      && (FieldHolds(d, key, s.filter[key]) <==> key in d && Precedes([(key, Keys.Order(OrderOf(props), s.reverse))], map[key := m], d))
      && (FieldHolds(d, key, s.filter[key]) <==> key in d && Precedes([(key, OrderOf(props))], d, map[key := m]))
  {
    var key := KeyOf(props);
    var op := if OrderOf(props) == Keys.ASC then "$lt" else "$gt";
    var entry := Obj(map[op := m]["$exists" := Bool(true)]);
    assert CursorEntry(props, c, secret, generated, props.cursors.value) == Success((true, entry));
    EntrySetupV1(props, c, secret, generated);
    MirroredBoundSelectsPredecessors(key, OrderOf(props), m, d);
  }

  /** The mirrored bound `BeforeOf` builds selects the documents that follow
      `m` under the reversed sort, which are those preceding it under `order`. */
  lemma MirroredBoundSelectsPredecessors(k: string, order: Value, m: Value, d: Doc)
    requires order == Keys.ASC || order == Keys.DESC
    ensures var op := if order == Keys.ASC then "$lt" else "$gt";
      var f := FieldHolds(d, k, Obj(map[op := m, "$exists" := Bool(true)]));
      (f <==> k in d && Precedes([(k, Keys.Order(order, true))], map[k := m], d))
      && (f <==> k in d && Precedes([(k, order)], d, map[k := m]))
      && (FieldHolds(d, k, Obj(map[op := m])) <==> k in d && Precedes([(k, order)], d, map[k := m]))
  {
    BoundSelectsSuccessors(k, Keys.Order(order, true), m, d);
    PrecedesOne(k, order, d, map[k := m]);
  }

  /** Finding, as written: when no `null` filter is passed, the count
      condition is the filter object itself, so an `after` token for
      ObjectId `h` writes the seek bound into it and `count` counts only the
      documents after the cursor instead of the caller's (empty) filter. */
  lemma ConditionTakesSeekBoundV1(props: PropsV1, c: Codec, secret: string, generated: string, t: string, h: string)
    requires props.filter == FilterAbsent && props.key.None? && props.keyType == TypeAbsent && props.order.None?
    requires props.search.None? && props.cursors == Some(Cursors(Some(t), None)) && t != ""
    requires secret != "" && c.verify(t, secret) == Some(Obj(map["cursor" := Str(h)])) && IsObjectIdHex(h)
    ensures SetupV1(props, c, secret, generated).Success?
    ensures SetupV1(props, c, secret, generated).value.condition ==
      map["_id" := Obj(map["$gt" := ObjectId(h), "$exists" := Bool(true)])]
    ensures SetupV1(props, c, secret, generated).value.condition != FilterOf(props)
  {
    var entry := Obj(map["$gt" := ObjectId(h)]["$exists" := Bool(true)]);
    assert CursorEntry(props, c, secret, generated, props.cursors.value) == Success((false, entry));
    assert "_id" in SetupV1(props, c, secret, generated).value.condition;
  }

  /** Corrected: the count condition is the caller's filter, whatever the
      cursor and the search; everything else is as the constructor builds it. */
  function CorrectedSetupV1(props: PropsV1, c: Codec, secret: string, generated: string): (r: Result<SettingV1, V1Error>)
    ensures r.Success? <==> SetupV1(props, c, secret, generated).Success?
    ensures r.Failure? ==> r.error == SetupV1(props, c, secret, generated).error
    ensures r.Success? ==>
      r.value.condition == FilterOf(props)
      && r.value.(condition := SetupV1(props, c, secret, generated).value.condition) == SetupV1(props, c, secret, generated).value
  {
    match SetupV1(props, c, secret, generated)
    case Failure(e) => Failure(e)
    case Success(s) => Success(s.(condition := FilterOf(props)))
  }

  // Properties of cursor and build.

  /** `filterNext` and `filterPrevious` are copies of the filter that differ
      in the key's entry only: the bound past the last document and the
      bound before the first one. */
  lemma NeighbourFiltersV1(key: string, keyType: TypeProp, order: Value, filter: Doc, c: Codec, secret: string, generated: string, data: seq<Doc>)
    requires CursorOf(key, keyType, order, filter, c, secret, generated, data).Success?
    ensures var o := CursorOf(key, keyType, order, filter, c, secret, generated, data).value;
      var lastCursor := if |data| > 0 then Get(data[|data| - 1], key) else Undefined;
      var firstCursor := if |data| > 0 then Get(data[0], key) else Undefined;
      o.filterNext.Keys == filter.Keys + {key} && o.filterPrevious.Keys == filter.Keys + {key}
      && (forall k :: k in filter && k != key ==> o.filterNext[k] == filter[k] && o.filterPrevious[k] == filter[k])
      && Some(o.filterNext[key]) == AfterOf(keyType, order, generated, lastCursor)
      && Some(o.filterPrevious[key]) == BeforeOf(keyType, order, generated, firstCursor)
      && o.afterCursor == Stringify(c, secret, lastCursor)
      && o.beforeCursor == Stringify(c, secret, firstCursor)
  {
  }

  /** The key's entry of `filterNext` selects the documents that follow the
      last one of the page under the forward sort; that of `filterPrevious`
      the documents that precede the first one. */
  lemma NeighbourFiltersSelectV1(key: string, keyType: TypeProp, order: Value, filter: Doc, c: Codec, secret: string, generated: string, data: seq<Doc>, d: Doc)
    requires CursorOf(key, keyType, order, filter, c, secret, generated, data).Success?
    requires |data| > 0 && (order == Keys.ASC || order == Keys.DESC)
    ensures var o := CursorOf(key, keyType, order, filter, c, secret, generated, data).value;
      var m := Make(keyType, generated, Get(data[|data| - 1], key)).value;
      var p := Make(keyType, generated, Get(data[0], key)).value;
      (FieldHolds(d, key, o.filterNext[key]) <==> key in d && Precedes([(key, order)], map[key := m], d))
      && (FieldHolds(d, key, o.filterPrevious[key]) <==> key in d && Precedes([(key, order)], d, map[key := p]))
  {
    var m := Make(keyType, generated, Get(data[|data| - 1], key)).value;
    var p := Make(keyType, generated, Get(data[0], key)).value;
    BoundSelectsSuccessors(key, order, m, d);
    MirroredBoundSelectsPredecessors(key, order, p, d);
  }

  /** On an empty page both tokens wrap `undefined`, and with the default
      key type both bounds are on a newly generated ObjectId. */
  lemma EmptyPageBoundsV1(key: string, order: Value, filter: Doc, c: Codec, secret: string, generated: string)
    ensures var o := CursorOf(key, TypeAbsent, order, filter, c, secret, generated, []);
      o.Success? && o.value.afterCursor == o.value.beforeCursor == Stringify(c, secret, Undefined)
      && o.value.filterNext[key] == Obj(map[(if order == Keys.ASC then "$gt" else "$lt") := ObjectId(generated)])
      && o.value.filterPrevious[key] == Obj(map[(if order == Keys.ASC then "$lt" else "$gt") := ObjectId(generated)])
  {
  }

  /** `JSON` image of a token payload: verifying what `Stringify` signed for
      the cursor value `x` gives an object (possibly with extra claims such
      as `iat`) whose `cursor` is `p`. */
  predicate VerifiesTo(c: Codec, secret: string, x: Value, p: Value) {
    var t := c.sign(map["cursor" := x], secret);
    var v := c.verify(t, secret);
    t != "" && v.Some? && v.value.Obj? && "cursor" in v.value.fields && v.value.fields["cursor"] == p
  }

  /** Token round trip: the next-link token of a page, verified back to a
      payload whose `cursor` the key type rebuilds into the same value as the
      last document's key, and given as `after`, makes the constructor seek
      with exactly the bound `filterNext` counted, plus `$exists`. */
  lemma NextTokenResumesAfterLastV1(props: PropsV1, c: Codec, secret: string, generated: string, filter: Doc, data: seq<Doc>, p: Value)
    requires secret != "" && IsFieldName(KeyOf(props)) && |data| > 0
    requires VerifiesTo(c, secret, Get(data[|data| - 1], KeyOf(props)), p)
    requires Make(props.keyType, generated, p) == Make(props.keyType, generated, Get(data[|data| - 1], KeyOf(props)))
    requires props.cursors == Some(Cursors(Some(Stringify(c, secret, Get(data[|data| - 1], KeyOf(props)))), None))
    requires CursorOf(KeyOf(props), props.keyType, OrderOf(props), filter, c, secret, generated, data).Success?
    ensures var o := CursorOf(KeyOf(props), props.keyType, OrderOf(props), filter, c, secret, generated, data);
      SetupV1(props, c, secret, generated).Success?
      && !SetupV1(props, c, secret, generated).value.reverse
      && SetupV1(props, c, secret, generated).value.filter[KeyOf(props)]
         == Obj(o.value.filterNext[KeyOf(props)].fields["$exists" := Bool(true)])
  {
    var key := KeyOf(props);
    var x := Get(data[|data| - 1], key);
    var m := Make(props.keyType, generated, x).value;
    var op := if OrderOf(props) == Keys.ASC then "$gt" else "$lt";
    var entry := Obj(map[op := m]["$exists" := Bool(true)]);
    assert CursorEntry(props, c, secret, generated, props.cursors.value) == Success((false, entry));
    EntrySetupV1(props, c, secret, generated);
  }

  /** The previous-link token, given back as `before`, makes the constructor
      seek backwards with exactly the bound `filterPrevious` counted. */
  lemma PreviousTokenResumesBeforeFirstV1(props: PropsV1, c: Codec, secret: string, generated: string, filter: Doc, data: seq<Doc>, p: Value)
    requires secret != "" && IsFieldName(KeyOf(props)) && |data| > 0
    requires VerifiesTo(c, secret, Get(data[0], KeyOf(props)), p)
    requires Make(props.keyType, generated, p) == Make(props.keyType, generated, Get(data[0], KeyOf(props)))
    requires props.cursors == Some(Cursors(None, Some(Stringify(c, secret, Get(data[0], KeyOf(props))))))
    requires CursorOf(KeyOf(props), props.keyType, OrderOf(props), filter, c, secret, generated, data).Success?
    ensures var o := CursorOf(KeyOf(props), props.keyType, OrderOf(props), filter, c, secret, generated, data);
      SetupV1(props, c, secret, generated).Success?
      && SetupV1(props, c, secret, generated).value.reverse
      && SetupV1(props, c, secret, generated).value.filter[KeyOf(props)]
         == Obj(o.value.filterPrevious[KeyOf(props)].fields["$exists" := Bool(true)])
  {
    var key := KeyOf(props);
    var x := Get(data[0], key);
    var m := Make(props.keyType, generated, x).value;
    var op := if OrderOf(props) == Keys.ASC then "$lt" else "$gt";
    var entry := Obj(map[op := m]["$exists" := Bool(true)]);
    assert CursorEntry(props, c, secret, generated, props.cursors.value) == Success((true, entry));
    EntrySetupV1(props, c, secret, generated);
  }

  /** For the default key type the JSON image of an ObjectId, its text,
      rebuilds the same ObjectId, so the round trips above apply to it. */
  lemma DefaultTypeRebuildsObjectId(generated: string, h: string)
    requires IsObjectIdHex(h)
    ensures Make(TypeAbsent, generated, Str(h)) == Make(TypeAbsent, generated, ObjectId(h)) == Some(ObjectId(h))
  {
  }

  /** The links of the envelope follow the counts: a link is null exactly
      when its count is zero, and carries the count and the token. */
  lemma EnvelopeFollowsCountsV1(o: CursorOut, toEntity: Option<Doc -> Value>, condition: Doc, count: Value -> nat)
    ensures var e := EnvelopeV1(o, toEntity, condition, count);
      (e.paging.next.None? <==> count(Obj(o.filterNext)) == 0)
      && (e.paging.previous.None? <==> count(Obj(o.filterPrevious)) == 0)
      && (e.paging.next.Some? ==> e.paging.next.value == PageLink(o.afterCursor, count(Obj(o.filterNext))))
      && (e.paging.previous.Some? ==> e.paging.previous.value == PageLink(o.beforeCursor, count(Obj(o.filterPrevious))))
      && e.paging.count == count(Obj(condition))
      && e.paging.length == |o.data| == |e.data|
  {
  }
}
