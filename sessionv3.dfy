/** `PagingV3` of src/paging-v3.ts: the constructor turns the request's
    cursor tokens into a filter and a sort; `encryptAll` and `build` turn the
    fetched page into the `{data, paging}` envelope with the tokens and
    counts of the neighbouring pages. The store's `countDocuments` is a
    function supplied by the caller. */
module SessionV3 {
  import opened Wrappers
  import opened Values
  import opened Lodash
  import opened Query
  import opened Keys
  import opened Seek
  import opened Pages
  import opened Codec

  /** `props.paging`. */
  datatype PagingInput = PagingInput(limit: Option<int>, offset: Option<int>, cursors: Option<Cursors>)

  /** `PagingPropsV3`: every property may be absent. */
  datatype PropsV3 = PropsV3(
    filter: Option<Doc>,
    paging: Option<PagingInput>,
    search: Option<string>,
    primary: Option<KeyProps>,
    secondary: Option<KeyProps>,
    toEntity: Option<Doc -> Value>)

  /** What the constructor throws: both tokens given, or a key coercion
      that threw (or was missing) while `node` rebuilt the cursor. */
  datatype V3Error = BothCursors | KeyBuilderThrew

  /** The state the constructor leaves: final filter, count condition, sort
      and direction. */
  datatype Setting = Setting(filter: Doc, condition: Doc, sort: SortSpec, reverse: bool)

  /** `clone(props.filter) || {}`: a top-level copy of the caller's filter. */
  function UserFilter(props: PropsV3): Doc {
    if props.filter.Some? then props.filter.value else map[]
  }

  function CursorsOf(props: PropsV3): Option<Cursors> {
    if props.paging.Some? then props.paging.value.cursors else None
  }

  /** `x || 0` for an optional number. */
  function OrZero(x: Option<int>): int {
    if x.Some? then x.value else 0
  }

  predicate SearchTruthy(search: Option<string>) {
    search.Some? && search.value != ""
  }

  /** `{ $search: search }` and `{ $meta: 'textScore' }`. */
  function TextClause(term: string): Value {
    Obj(map["$search" := Str(term)])
  }

  const TextScore: Value := Obj(map["$meta" := Str("textScore")])

  /** `decrypt`: the payload of a token, `null` whenever decoding throws. */
  function Decrypt(c: Codec, secret: string, token: string): (r: Value)
    ensures secret != "" && c.verify(token, secret).None? ==> r == Null
    ensures secret != "" && c.verify(token, secret).Some? ==> r == c.verify(token, secret).value
  {
    var v := if secret != "" then c.verify(token, secret) else c.parse(token);
    if v.Some? then v.value else Null
  }

  /** One side of `decryptAll`: `cursors?.side && decrypt(cursors.side)`, so
      an absent token reads `undefined` and an empty one stays `''`. */
  function DecryptSide(c: Codec, secret: string, token: Option<string>): (r: Value)
    ensures token.None? ==> r.Undefined?
    ensures token == Some("") ==> r == Str("")
    ensures token.Some? && token.value != "" ==> r == Decrypt(c, secret, token.value)
  {
    match token
    case None => Undefined
    case Some(t) => if t == "" then Str("") else Decrypt(c, secret, t)
  }

  /** `encrypt`: the signed plain payload of a node, `null` (None) when
      building the payload throws. */
  function Encrypt(c: Codec, secret: string, cb: CursorBuilder, f: DateText, node: Doc): (r: Option<string>)
    ensures r.None? <==> Plain(cb, f, node).None?
    ensures r.Some? && secret != "" ==> r.value == c.sign(Plain(cb, f, node).value, secret)
  {
    match Plain(cb, f, node)
    case None => None
    case Some(p) => Some(if secret != "" then c.sign(p, secret) else c.stringify(p))
  }

  /** Lines 242-252 of the constructor: the decoded tokens, the direction
      and the seek predicate to merge into the filter, or what is thrown. */
  function CursorPredicate(cb: CursorBuilder, c: Codec, secret: string, cursors: Cursors): (r: Result<(bool, Doc), V3Error>)
  {
    var after := DecryptSide(c, secret, cursors.after);
    var before := DecryptSide(c, secret, cursors.before);
    if Truthy(after) && Truthy(before) then Failure(BothCursors)
    else
      var reverse := Truthy(before);
      match Node(cb, if Truthy(before) then before else after)
      case None => Failure(KeyBuilderThrew)
      case Some(node) =>
        var seek := if reverse then BeforeOf(cb, node) else AfterOf(cb, node);
        Success((reverse, seek.fields))
  }

  /** The count condition after the merge. `clone` copies only the top
      level, so a nested object or array that the filter shares with the
      condition is written by `merge` in place: those entries of the
      condition take the merged value, the others keep the caller's. */
  function AliasedCondition(orig: Doc, seek: Doc): (r: Doc)
    ensures r.Keys == orig.Keys
    ensures forall k :: k in orig && (k !in seek || !MergesInPlace(orig[k], seek[k])) ==> r[k] == orig[k]
  {
    map k | k in orig :: if k in seek && MergesInPlace(orig[k], seek[k]) then MergeValue(orig[k], seek[k]) else orig[k]
  }

  /** Lines 255-262: the sort for the direction, the text search, and the
      removal of falsy filter entries. */
  function Finish(cb: CursorBuilder, merged: Doc, condition: Doc, reverse: bool, search: Option<string>): Setting {
    var sort := Sort(cb, reverse);
    var searched := if SearchTruthy(search) then merged["$text" := TextClause(search.value)] else merged;
    var sorted := if SearchTruthy(search) then Put(sort, "score", TextScore) else sort;
    Setting(PickBy(searched, Truthy), condition, sorted, reverse)
  }

  /** The whole constructor as a specification: its resulting state or the
      error it throws. */
  function Setup(props: PropsV3, c: Codec, secret: string): Result<Setting, V3Error> {
    var cb := NewCursorBuilder(props.primary, props.secondary);
    var user := UserFilter(props);
    if CursorsOf(props).None? then Success(Finish(cb, user, user, false, props.search))
    else
      match CursorPredicate(cb, c, secret, CursorsOf(props).value)
      case Failure(e) => Failure(e)
      case Success((reverse, seek)) =>
        Success(Finish(cb, MergeFields(user, seek), AliasedCondition(user, seek), reverse, props.search))
  }

  /** What `encryptAll` returns: only the data for an empty page, otherwise
      the two tokens and the two neighbouring filters as well. */
  datatype Boundaries =
    | PageOnly(data: seq<Doc>)
    | Bounded(afterCursor: Option<string>, beforeCursor: Option<string>,
              filterNext: Value, filterPrevious: Value, data: seq<Doc>)

  /** `encryptAll` on a page already in forward order: the last document
      bounds the next page, the first one the previous page, each combined
      with the current filter by `$and`. */
  function BoundariesOf(cb: CursorBuilder, c: Codec, secret: string, f: DateText, filter: Doc, data: seq<Doc>): (r: Boundaries)
    ensures r.data == data
    ensures r.PageOnly? <==> |data| == 0
  {
    if |data| == 0 then PageOnly(data)
    else
      var lastPivot, firstPivot := data[|data| - 1], data[0];
      Bounded(Encrypt(c, secret, cb, f, lastPivot), Encrypt(c, secret, cb, f, firstPivot),
              Obj(map["$and" := Arr([AfterOf(cb, lastPivot), Obj(filter)])]),
              Obj(map["$and" := Arr([BeforeOf(cb, firstPivot), Obj(filter)])]),
              data)
  }

  /** `${token}` for a token `encrypt` returned: a failed one reads "null". */
  function TokenText(t: Option<string>): string {
    if t.Some? then t.value else "null"
  }

  /** The filter `build` counts for the next page; destructuring the
      data-only result of an empty page gives `undefined`. */
  function NextFilter(b: Boundaries): Value {
    if b.Bounded? then b.filterNext else Undefined
  }

  function PreviousFilter(b: Boundaries): Value {
    if b.Bounded? then b.filterPrevious else Undefined
  }

  /** The token text `build` puts in the next link ("undefined" when missing). */
  function NextText(b: Boundaries): string {
    if b.Bounded? then TokenText(b.afterCursor) else "undefined"
  }

  function PreviousText(b: Boundaries): string {
    if b.Bounded? then TokenText(b.beforeCursor) else "undefined"
  }

  /** The envelope `build` returns, as written. */
  function EnvelopeOf(b: Boundaries, toEntity: Option<Doc -> Value>, condition: Doc, count: Value -> nat): Envelope {
    var countPrevious := count(PreviousFilter(b));
    var countNext := count(NextFilter(b));
    var total := count(Obj(condition));
    Envelope(Entities(toEntity, b.data),
      PagingInfo(total, |b.data|,
        if countNext != 0 then Some(PageLink(NextText(b), countNext)) else None,
        if countPrevious != 0 then Some(PageLink(PreviousText(b), countPrevious)) else None))
  }

  /** The envelope with an empty page giving no links, as the links are
      evidently meant: a link exists only when there is a boundary document
      whose token it carries. */
  function CorrectedEnvelopeOf(b: Boundaries, toEntity: Option<Doc -> Value>, condition: Doc, count: Value -> nat): (e: Envelope)
    ensures b.PageOnly? ==> e.paging.next.None? && e.paging.previous.None?
    ensures b.Bounded? ==> e == EnvelopeOf(b, toEntity, condition, count)
  {
    var e := EnvelopeOf(b, toEntity, condition, count);
    if b.PageOnly? then e.(paging := e.paging.(next := None, previous := None)) else e
  }

  class PagingV3 {
    var filter: Doc
    var condition: Doc
    var sort: SortSpec
    var limit: int
    var skip: int
    var builder: CursorBuilder
    var reverse: bool
    var secret: string
    var search: Option<string>
    var toEntity: Option<Doc -> Value>
    var codec: Codec
    var dates: DateText

    function State(): Setting
      reads this
    {
      Setting(filter, condition, sort, reverse)
    }

    /** Lines 223-232: the fields set before the cursors are looked at. */
    constructor FromProps(props: PropsV3, env: Option<string>, c: Codec, f: DateText)
      ensures builder == NewCursorBuilder(props.primary, props.secondary)
      ensures search == props.search && toEntity == props.toEntity
      ensures condition == UserFilter(props) && filter == UserFilter(props)
      ensures secret == SecretFrom(env) && codec == c && dates == f
      ensures limit == OrZero(if props.paging.Some? then props.paging.value.limit else None)
      ensures skip == OrZero(if props.paging.Some? then props.paging.value.offset else None)
      ensures !reverse && sort == []
    {
      builder := NewCursorBuilder(props.primary, props.secondary);
      search := props.search;
      condition := UserFilter(props);
      filter := UserFilter(props);
      secret := SecretFrom(env);
      toEntity := props.toEntity;
      limit := OrZero(if props.paging.Some? then props.paging.value.limit else None);
      skip := OrZero(if props.paging.Some? then props.paging.value.offset else None);
      reverse := false;
      sort := [];
      codec := c;
      dates := f;
    }

    /** Lines 238-253: decode the tokens, refuse two of them, rebuild the
      cursor node and merge its seek predicate into the filter (and, through
      shared nested objects, into the count condition). */
    method ApplyCursors(cursors: Cursors) returns (err: Option<V3Error>)
      modifies this
      ensures builder == old(builder) && secret == old(secret) && codec == old(codec) && dates == old(dates)
      ensures search == old(search) && toEntity == old(toEntity) && sort == old(sort)
      ensures CursorPredicate(builder, codec, secret, cursors).Failure? <==> err.Some?
      ensures err.Some? ==> err.value == CursorPredicate(builder, codec, secret, cursors).error
      ensures err.None? ==>
        var seek := CursorPredicate(builder, codec, secret, cursors).value;
        reverse == seek.0 && filter == MergeFields(old(filter), seek.1) && condition == AliasedCondition(old(condition), seek.1)
    {
      var after := DecryptSide(codec, secret, cursors.after);
      var before := DecryptSide(codec, secret, cursors.before);
      if Truthy(after) && Truthy(before) {
        return Some(BothCursors);
      }
      reverse := Truthy(before);
      var node := Node(builder, if Truthy(before) then before else after);
      if node.None? {
        return Some(KeyBuilderThrew);
      }
      var seek := if reverse then BeforeOf(builder, node.value) else AfterOf(builder, node.value);
      condition := AliasedCondition(condition, seek.fields);
      filter := MergeFields(filter, seek.fields);
      return None;
    }

    /** Lines 255-262: the sort for the direction, the text search and the
      removal of falsy filter entries. */
    method ApplySortAndSearch()
      modifies this
      ensures State() == Finish(builder, old(filter), old(condition), old(reverse), search)
      ensures builder == old(builder) && secret == old(secret) && codec == old(codec) && dates == old(dates)
      ensures search == old(search) && toEntity == old(toEntity)
    {
      sort := Sort(builder, reverse);
      if SearchTruthy(search) {
        filter := filter["$text" := TextClause(search.value)];
        sort := Put(sort, "score", TextScore);
      }
      filter := PickBy(filter, Truthy);
    }

    /** `new PagingV3(props)`: the new object, or what its constructor throws. */
    static method Create(props: PropsV3, env: Option<string>, c: Codec, f: DateText) returns (r: Result<PagingV3, V3Error>)
      ensures r.Success? <==> Setup(props, c, SecretFrom(env)).Success?
      ensures r.Failure? ==> r.error == Setup(props, c, SecretFrom(env)).error
      ensures r.Success? ==> fresh(r.value) && r.value.State() == Setup(props, c, SecretFrom(env)).value
      ensures r.Success? ==> r.value.builder == NewCursorBuilder(props.primary, props.secondary)
      ensures r.Success? ==> r.value.secret == SecretFrom(env) && r.value.codec == c && r.value.dates == f
      ensures r.Success? ==> r.value.toEntity == props.toEntity
    {
      var p := new PagingV3.FromProps(props, env, c, f);
      var cursors := CursorsOf(props);
      if cursors.Some? {
        var err := p.ApplyCursors(cursors.value);
        if err.Some? {
          return Failure(err.value);
        }
      }
      p.ApplySortAndSearch();
      return Success(p);
    }

    /** `encryptAll(many)`: reverses a backward page in place, then reports
      its boundaries. */
    method EncryptAll(many: array<Doc>) returns (b: Boundaries)
      modifies many
      ensures many[..] == if reverse then Reversed(old(many[..])) else old(many[..])
      ensures b == BoundariesOf(builder, codec, secret, dates, filter, many[..])
    {
      if many.Length == 0 {
        assert Reversed(many[..]) == [];
        return PageOnly(many[..]);
      }
      if reverse {
        ReverseInPlace(many);
      }
      var data := many[..];
      var lastPivot := data[|data| - 1];
      var filterNext := Obj(map["$and" := Arr([AfterOf(builder, lastPivot), Obj(filter)])]);
      var firstPivot := data[0];
      var filterPrevious := Obj(map["$and" := Arr([BeforeOf(builder, firstPivot), Obj(filter)])]);
      b := Bounded(Encrypt(codec, secret, builder, dates, lastPivot), Encrypt(codec, secret, builder, dates, firstPivot),
                   filterNext, filterPrevious, data);
    }

    /** `build(many, model)`: the envelope, with `count` standing for the
      store's `countDocuments`. */
    method Build(many: array<Doc>, count: Value -> nat) returns (e: Envelope)
      modifies many
      ensures many[..] == if reverse then Reversed(old(many[..])) else old(many[..])
      ensures e == EnvelopeOf(BoundariesOf(builder, codec, secret, dates, filter, many[..]), toEntity, condition, count)
    {
      var b := EncryptAll(many);
      var countPrevious := count(PreviousFilter(b));
      var countNext := count(NextFilter(b));
      var total := count(Obj(condition));
      var entities := Entities(toEntity, b.data);
      e := Envelope(entities, PagingInfo(total, |b.data|,
             if countNext != 0 then Some(PageLink(NextText(b), countNext)) else None,
             if countPrevious != 0 then Some(PageLink(PreviousText(b), countPrevious)) else None));
    }
  }

  // Properties of the constructor.

  /** The constructor throws exactly when a cursor bundle is given and
      either both decoded tokens are truthy or rebuilding the cursor node
      throws; both tokens truthy is reported first. */
  lemma SetupThrows(props: PropsV3, c: Codec, secret: string)
    ensures var cb := NewCursorBuilder(props.primary, props.secondary);
      Setup(props, c, secret).Failure? <==>
        CursorsOf(props).Some? &&
        (var after := DecryptSide(c, secret, CursorsOf(props).value.after);
         var before := DecryptSide(c, secret, CursorsOf(props).value.before);
         (Truthy(after) && Truthy(before)) || Node(cb, if Truthy(before) then before else after).None?)
    ensures Setup(props, c, secret) == Failure(BothCursors) <==>
        CursorsOf(props).Some? &&
        Truthy(DecryptSide(c, secret, CursorsOf(props).value.after)) &&
        Truthy(DecryptSide(c, secret, CursorsOf(props).value.before))
  {
  }

  /** The direction is backward exactly when the decoded `before` is truthy. */
  lemma ReverseIffBefore(props: PropsV3, c: Codec, secret: string)
    requires Setup(props, c, secret).Success?
    ensures Setup(props, c, secret).value.reverse <==>
      CursorsOf(props).Some? && Truthy(DecryptSide(c, secret, CursorsOf(props).value.before))
  {
  }

  /** The final filter has no falsy top-level entry and no key that was not
      in the caller's filter, the seek predicate or the text search. */
  lemma FilterHasNoFalsyEntries(props: PropsV3, c: Codec, secret: string)
    requires Setup(props, c, secret).Success?
    ensures var filter := Setup(props, c, secret).value.filter;
      forall k :: k in filter ==> Truthy(filter[k])
    ensures var filter := Setup(props, c, secret).value.filter;
      forall k :: k in filter ==>
        (k in UserFilter(props) || k == "$text" ||
         (CursorsOf(props).Some? && k in CursorPredicate(NewCursorBuilder(props.primary, props.secondary), c, secret, CursorsOf(props).value).value.1))
  {
  }

  /** A successful constructor run is `Finish` applied to the merged filter,
      the count condition and the direction of its cursor step. */
  lemma SetupShape(props: PropsV3, c: Codec, secret: string) returns (merged: Doc, condition: Doc, reverse: bool)
    requires Setup(props, c, secret).Success?
    ensures Setup(props, c, secret).value == Finish(NewCursorBuilder(props.primary, props.secondary), merged, condition, reverse, props.search)
    ensures CursorsOf(props).None? ==> merged == condition == UserFilter(props) && !reverse
    ensures CursorsOf(props).Some? ==>
      var cp := CursorPredicate(NewCursorBuilder(props.primary, props.secondary), c, secret, CursorsOf(props).value);
      cp.Success? && reverse == cp.value.0
      && merged == MergeFields(UserFilter(props), cp.value.1) && condition == AliasedCondition(UserFilter(props), cp.value.1)
  {
    var cb := NewCursorBuilder(props.primary, props.secondary);
    var user := UserFilter(props);
    if CursorsOf(props).None? {
      merged, condition, reverse := user, user, false;
    } else {
      var cp := CursorPredicate(cb, c, secret, CursorsOf(props).value);
      merged, condition, reverse := MergeFields(user, cp.value.1), AliasedCondition(user, cp.value.1), cp.value.0;
    }
  }

  /** What `Finish` does to the filter and the sort. */
  lemma FinishEffect(cb: CursorBuilder, merged: Doc, condition: Doc, reverse: bool, search: Option<string>)
    ensures var s := Finish(cb, merged, condition, reverse, search);
      (SearchTruthy(search) ==>
         "$text" in s.filter && s.filter["$text"] == TextClause(search.value)
         && s.sort == Put(Sort(cb, reverse), "score", TextScore))
      && (!SearchTruthy(search) ==> s.sort == Sort(cb, reverse))
      && (forall k :: k != "$text" ==> (k in s.filter <==> k in merged && Truthy(merged[k])))
      && (forall k :: k != "$text" && k in s.filter ==> s.filter[k] == merged[k])
      && s.condition == condition && s.reverse == reverse
  {
    PruneSearched(merged, search);
  }

  /** Pruning the filter after the text clause is added: the clause stays and
      every other entry stays exactly when it is truthy. */
  lemma PruneSearched(merged: Doc, search: Option<string>)
    ensures var searched := if SearchTruthy(search) then merged["$text" := TextClause(search.value)] else merged;
      var f := PickBy(searched, Truthy);
      (SearchTruthy(search) ==> "$text" in f && f["$text"] == TextClause(search.value))
      && (forall k :: k != "$text" ==> (k in f <==> k in merged && Truthy(merged[k])))
      && (forall k :: k != "$text" && k in f ==> f[k] == merged[k])
  {
    if SearchTruthy(search) {
      var searched := merged["$text" := TextClause(search.value)];
      assert "$text" in searched && Truthy(searched["$text"]);
    }
  }

  /** A truthy search term adds `$text` to the filter and a text score after
      the key entries of the sort; without one the sort is the keys' sort. */
  lemma SearchAddsTextAndScore(props: PropsV3, c: Codec, secret: string)
    requires Setup(props, c, secret).Success?
    ensures var s := Setup(props, c, secret).value;
      var keySort := Sort(NewCursorBuilder(props.primary, props.secondary), s.reverse);
      (SearchTruthy(props.search) ==>
         "$text" in s.filter && s.filter["$text"] == TextClause(props.search.value)
         && s.sort == Put(keySort, "score", TextScore))
      && (!SearchTruthy(props.search) ==> s.sort == keySort)
    ensures var s := Setup(props, c, secret).value;
      var keySort := Sort(NewCursorBuilder(props.primary, props.secondary), s.reverse);
      SearchTruthy(props.search) && (forall i :: 0 <= i < |keySort| ==> keySort[i].0 != "score") ==>
        s.sort == keySort + [("score", TextScore)]
  {
    var merged, condition, reverse := SetupShape(props, c, secret);
    FinishEffect(NewCursorBuilder(props.primary, props.secondary), merged, condition, reverse, props.search);
  }

  /** When the caller's filter does not mention the seek keys, the final
      filter is the caller's filter plus the seek predicate, cleared of falsy
      entries, and the count condition is the caller's filter. */
  lemma SeekAddsClauses(props: PropsV3, c: Codec, secret: string)
    requires CursorsOf(props).Some? && !SearchTruthy(props.search)
    requires var cp := CursorPredicate(NewCursorBuilder(props.primary, props.secondary), c, secret, CursorsOf(props).value);
      cp.Success? && UserFilter(props).Keys !! cp.value.1.Keys
    ensures var cp := CursorPredicate(NewCursorBuilder(props.primary, props.secondary), c, secret, CursorsOf(props).value);
      var s := Setup(props, c, secret).value;
      s.filter == PickBy(UserFilter(props) + cp.value.1, Truthy) && s.condition == UserFilter(props)
  {
    var cp := CursorPredicate(NewCursorBuilder(props.primary, props.secondary), c, secret, CursorsOf(props).value);
    MergeDisjoint(UserFilter(props), cp.value.1);
    var user := UserFilter(props);
    var cond := AliasedCondition(user, cp.value.1);
    assert cond == user;
  }

  /** The default key rebuilt from a payload that is `null` (a token that
      did not verify): `{ _id: undefined }`. */
  lemma DefaultNodeOfNull(data: Value)
    requires !data.Obj?
    ensures Node(NewCursorBuilder(None, None), data) == Some(map["_id" := Undefined])
  {
  }

  /** The clause `{ $gt: undefined, $exists: true }` holds of no document. */
  lemma UndefinedBoundSelectsNothing(d: Doc, k: string)
    ensures !FieldHolds(d, k, Obj(map["$gt" := Undefined, "$exists" := Bool(true)]))
  {
    var ops := map["$gt" := Undefined, "$exists" := Bool(true)];
    assert "$gt" in ops && IsOperatorDoc(ops);
  }

  /** Without a cursor bundle the filter has only the caller's (truthy)
      entries and possibly `$text`. */
  lemma NoCursorsKeepsCallerKeys(props: PropsV3, c: Codec, secret: string, k: string)
    requires CursorsOf(props).None? && k != "$text"
    ensures Setup(props, c, secret).Success?
    ensures k in Setup(props, c, secret).value.filter <==> k in UserFilter(props) && Truthy(UserFilter(props)[k])
  {
    var merged, condition, reverse := SetupShape(props, c, secret);
    FinishEffect(NewCursorBuilder(props.primary, props.secondary), merged, condition, reverse, props.search);
  }

  /** The seek predicate of an after token that does not verify, under the
      default key. */
  lemma UndecodableTokenSeek(c: Codec, secret: string, t: string)
    requires t != "" && secret != "" && c.verify(t, secret).None?
    ensures CursorPredicate(NewCursorBuilder(None, None), c, secret, Cursors(Some(t), None))
      == Success((false, map["_id" := Obj(map["$gt" := Undefined, "$exists" := Bool(true)])]))
  {
    var cb := NewCursorBuilder(None, None);
    DefaultNodeOfNull(Null);
    assert AfterOf(cb, map["_id" := Undefined]) == Obj(map["_id" := Obj(map["$gt" := Undefined, "$exists" := Bool(true)])]);
  }

  /** A token that does not verify is not the same as no token: the filter
      gets an `_id` clause `{ $gt: undefined, $exists: true }`, which no
      document satisfies, where a request without cursors has none. */
  lemma UndecodableTokenIsNotNoCursor(props: PropsV3, c: Codec, secret: string, t: string)
    requires props.primary.None? && props.secondary.None? && "_id" !in UserFilter(props)
    requires CursorsOf(props) == Some(Cursors(Some(t), None)) && t != ""
    requires secret != "" && c.verify(t, secret).None?
    ensures Setup(props, c, secret).Success?
    ensures var filter := Setup(props, c, secret).value.filter;
      "_id" in filter && filter["_id"] == Obj(map["$gt" := Undefined, "$exists" := Bool(true)])
      && forall d: Doc :: !FieldHolds(d, "_id", filter["_id"])
    ensures "_id" !in Setup(props.(paging := Some(props.paging.value.(cursors := None))), c, secret).value.filter
  {
    var bound := Obj(map["$gt" := Undefined, "$exists" := Bool(true)]);
    UndecodableTokenFilter(props, c, secret, t);
    forall d: Doc ensures !FieldHolds(d, "_id", bound) {
      UndefinedBoundSelectsNothing(d, "_id");
    }
    NoCursorsKeepsCallerKeys(props.(paging := Some(props.paging.value.(cursors := None))), c, secret, "_id");
  }

  /** The `_id` entry an after token that does not verify leaves in the filter. */
  lemma UndecodableTokenFilter(props: PropsV3, c: Codec, secret: string, t: string)
    requires props.primary.None? && props.secondary.None? && "_id" !in UserFilter(props)
    requires CursorsOf(props) == Some(Cursors(Some(t), None)) && t != ""
    requires secret != "" && c.verify(t, secret).None?
    ensures Setup(props, c, secret).Success?
    ensures var filter := Setup(props, c, secret).value.filter;
      "_id" in filter && filter["_id"] == Obj(map["$gt" := Undefined, "$exists" := Bool(true)])
  {
    var bound := Obj(map["$gt" := Undefined, "$exists" := Bool(true)]);
    var user := UserFilter(props);
    var seek := map["_id" := bound];
    UndecodableTokenSeek(c, secret, t);
    SeekSetup(props, c, secret, false, seek);
    var merged := MergeFields(user, seek);
    MergeNewKey(user, "_id", bound);
    FinishKeepsEntry(NewCursorBuilder(None, None), merged, AliasedCondition(user, seek), false, props.search, "_id");
  }

  /** A truthy entry other than `$text` survives the pruning unchanged. */
  lemma FinishKeepsEntry(cb: CursorBuilder, merged: Doc, condition: Doc, reverse: bool, search: Option<string>, k: string)
    requires k != "$text" && k in merged && Truthy(merged[k])
    ensures var s := Finish(cb, merged, condition, reverse, search);
      k in s.filter && s.filter[k] == merged[k]
  {
    FinishEffect(cb, merged, condition, reverse, search);
  }

  /** Merging a key the filter does not have copies the source's value. */
  lemma MergeNewKey(user: Doc, k: string, v: Value)
    requires k !in user
    ensures k in MergeFields(user, map[k := v]) && MergeFields(user, map[k := v])[k] == v
  {
    assert MergeFields(user, map[k := v])[k] == MergeValue(Undefined, v);
    MergeOntoNothing(v);
  }

  /** With a seek predicate, the constructor merges it into the caller's
      filter and the count condition is the caller's filter after the
      in-place part of the merge. */
  lemma SeekSetup(props: PropsV3, c: Codec, secret: string, reverse: bool, seek: Doc)
    requires CursorsOf(props).Some?
    requires CursorPredicate(NewCursorBuilder(props.primary, props.secondary), c, secret, CursorsOf(props).value) == Success((reverse, seek))
    ensures Setup(props, c, secret) == Success(Finish(NewCursorBuilder(props.primary, props.secondary),
      MergeFields(UserFilter(props), seek), AliasedCondition(UserFilter(props), seek), reverse, props.search))
  {
  }

  /** Finding, as written: with a caller filter `{ _id: { $ne: x } }` and an
      after token for ObjectId `h`, the merge writes the seek bound into the
      object the count condition shares, so `count` no longer counts the
      caller's filter. */
  lemma ConditionTakesSeekBound(props: PropsV3, c: Codec, secret: string, t: string, x: Value, h: string)
    requires props.primary.None? && props.secondary.None?
    requires props.filter == Some(map["_id" := Obj(map["$ne" := x])])
    requires CursorsOf(props) == Some(Cursors(Some(t), None)) && t != ""
    requires secret != "" && c.verify(t, secret) == Some(Obj(map["_id" := Str(h)])) && IsObjectIdHex(h)
    ensures Setup(props, c, secret).Success?
    ensures Setup(props, c, secret).value.condition["_id"] ==
      Obj(map["$ne" := x, "$gt" := ObjectId(h), "$exists" := Bool(true)])
    ensures Setup(props, c, secret).value.condition != UserFilter(props)
  {
    var bound := map["$gt" := ObjectId(h), "$exists" := Bool(true)];
    DefaultAfterSeek(c, secret, t, map["_id" := Str(h)], h);
    DefaultAfterBound(h);
    SeekSetup(props, c, secret, false, map["_id" := Obj(bound)]);
    AliasedBound(x, h);
  }

  /** The seek bound of the default key for ObjectId `h`. */
  lemma DefaultAfterBound(h: string)
    ensures AfterOf(NewCursorBuilder(None, None), map["_id" := ObjectId(h)])
      == Obj(map["_id" := Obj(map["$gt" := ObjectId(h), "$exists" := Bool(true)])])
  {
  }

  /** The in-place merge of the bound for ObjectId `h` into a caller's
      `{ $ne: x }` clause. */
  lemma AliasedBound(x: Value, h: string)
    ensures var user := map["_id" := Obj(map["$ne" := x])];
      var cond := AliasedCondition(user, map["_id" := Obj(map["$gt" := ObjectId(h), "$exists" := Bool(true)])]);
      cond["_id"] == Obj(map["$ne" := x, "$gt" := ObjectId(h), "$exists" := Bool(true)]) && cond != user
  {
    var bound := map["$gt" := ObjectId(h), "$exists" := Bool(true)];
    var user := map["_id" := Obj(map["$ne" := x])];
    var uf := map["$ne" := x];
    assert MergesInPlace(user["_id"], Obj(bound));
    MergeDisjoint(uf, bound);
    assert uf + bound == map["$ne" := x, "$gt" := ObjectId(h), "$exists" := Bool(true)];
    var cond := AliasedCondition(user, map["_id" := Obj(bound)]);
    assert cond["_id"] != user["_id"] by {
      assert "$gt" in cond["_id"].fields && "$gt" !in user["_id"].fields;
    }
  }

  /** Corrected: the count condition is the caller's filter itself (a deep
      copy), whatever the cursor; everything else is as the constructor
      builds it. */
  function CorrectedSetup(props: PropsV3, c: Codec, secret: string): (r: Result<Setting, V3Error>)
    ensures r.Success? <==> Setup(props, c, secret).Success?
    ensures r.Failure? ==> r.error == Setup(props, c, secret).error
    ensures r.Success? ==>
      r.value.condition == UserFilter(props)
      && r.value.(condition := Setup(props, c, secret).value.condition) == Setup(props, c, secret).value
  {
    match Setup(props, c, secret)
    case Failure(e) => Failure(e)
    case Success(s) => Success(s.(condition := UserFilter(props)))
  }

  // Properties of encryptAll and build.

  /** Reporting the boundaries of a page fetched backwards: its first fetched
      document bounds the next page and its last fetched document the
      previous one. */
  lemma BackwardPageBoundaries(cb: CursorBuilder, c: Codec, secret: string, f: DateText, filter: Doc, fetched: seq<Doc>)
    requires |fetched| > 0
    ensures var b := BoundariesOf(cb, c, secret, f, filter, Reversed(fetched));
      b.Bounded?
      && b.filterNext == Obj(map["$and" := Arr([AfterOf(cb, fetched[0]), Obj(filter)])])
      && b.filterPrevious == Obj(map["$and" := Arr([BeforeOf(cb, fetched[|fetched| - 1]), Obj(filter)])])
      && b.afterCursor == Encrypt(c, secret, cb, f, fetched[0])
      && b.beforeCursor == Encrypt(c, secret, cb, f, fetched[|fetched| - 1])
  {
    ReversedEnds(fetched);
  }

  /** The next-page filter selects exactly the documents of the current
      filter that come after the page's last document in sort order. */
  lemma NextFilterSelectsFollowing(cb: CursorBuilder, c: Codec, secret: string, f: DateText, filter: Doc, data: seq<Doc>, d: Doc)
    requires |data| > 0 && SeekConfig(cb) && Fits(cb, data[|data| - 1], d)
    ensures Matches(d, BoundariesOf(cb, c, secret, f, filter, data).filterNext) <==>
      Precedes(Sort(cb, false), data[|data| - 1], d) && Matches(d, Obj(filter))
  {
    MatchesBoth(d, AfterOf(cb, data[|data| - 1]), Obj(filter));
    AfterSelectsSuccessors(cb, data[|data| - 1], d);
  }

  /** The previous-page filter selects exactly the documents of the current
      filter that come before the page's first document in sort order. */
  lemma PreviousFilterSelectsPreceding(cb: CursorBuilder, c: Codec, secret: string, f: DateText, filter: Doc, data: seq<Doc>, d: Doc)
    requires |data| > 0 && SeekConfig(cb) && Fits(cb, data[0], d)
    ensures Matches(d, BoundariesOf(cb, c, secret, f, filter, data).filterPrevious) <==>
      Precedes(Sort(cb, false), d, data[0]) && Matches(d, Obj(filter))
  {
    MatchesBoth(d, BeforeOf(cb, data[0]), Obj(filter));
    BeforeSelectsPredecessors(cb, data[0], d);
  }

  /** The default key rebuilt from a payload carrying an ObjectId's text. */
  lemma DefaultNodeOfText(q: Doc, h: string)
    requires "_id" in q && q["_id"] == Str(h) && IsObjectIdHex(h)
    ensures Node(NewCursorBuilder(None, None), Obj(q)) == Some(map["_id" := ObjectId(h)])
  {
  }

  /** A verified after token whose payload carries the text of ObjectId `h`
      makes the default key seek past it. */
  lemma DefaultAfterSeek(c: Codec, secret: string, t: string, q: Doc, h: string)
    requires secret != "" && t != "" && c.verify(t, secret) == Some(Obj(q))
    requires "_id" in q && q["_id"] == Str(h) && IsObjectIdHex(h)
    ensures var cb := NewCursorBuilder(None, None);
      CursorPredicate(cb, c, secret, Cursors(Some(t), None)) == Success((false, AfterOf(cb, map["_id" := ObjectId(h)]).fields))
  {
    DefaultNodeOfText(q, h);
  }

  /** A verified before token whose payload carries the text of ObjectId `h`
      makes the default key seek before it. */
  lemma DefaultBeforeSeek(c: Codec, secret: string, t: string, q: Doc, h: string)
    requires secret != "" && t != "" && c.verify(t, secret) == Some(Obj(q))
    requires "_id" in q && q["_id"] == Str(h) && IsObjectIdHex(h)
    ensures var cb := NewCursorBuilder(None, None);
      CursorPredicate(cb, c, secret, Cursors(None, Some(t))) == Success((true, BeforeOf(cb, map["_id" := ObjectId(h)]).fields))
  {
    DefaultNodeOfText(q, h);
  }

  /** `decrypt(encrypt(node))`: under a codec that recovers what it signs,
      the decrypted payload carries every field of `plain(node)`. */
  lemma EncryptDecrypt(c: Codec, secret: string, cb: CursorBuilder, f: DateText, node: Doc)
    requires secret != "" && Plain(cb, f, node).Some? && RecoversPayload(c, secret, Plain(cb, f, node).value)
    ensures var t := Encrypt(c, secret, cb, f, node);
      t.Some? && t.value != ""
      && Decrypt(c, secret, t.value).Obj?
      && forall k :: k in Plain(cb, f, node).value ==>
           k in Decrypt(c, secret, t.value).fields && Decrypt(c, secret, t.value).fields[k] == Plain(cb, f, node).value[k]
  {
  }

  /** The key builders turn the text `plain` writes for each key of `node`
      back into the key's value, and the codec recovers what it signs: the
      pivot of `node` survives a token round trip. */
  ghost predicate RebuildsPivot(cb: CursorBuilder, c: Codec, secret: string, f: DateText, node: Doc) {
    var pl := Plain(cb, f, node);
    var p := PrimaryField(cb);
    SecondaryField(cb) != Some(p)
    && pl.Some? && RecoversPayload(c, secret, pl.value)
    && CallBuilder(cb.primary, pl.value[p]) == Some(Get(node, p))
    && (SecondaryField(cb).Some? ==>
          CallBuilder(cb.secondary.value, pl.value[SecondaryField(cb).value]) == Some(Get(node, SecondaryField(cb).value)))
  }

  /** The seek predicates depend on a document only through its key fields. */
  lemma SeekDependsOnKeys(cb: CursorBuilder, a: Doc, b: Doc)
    requires Get(a, PrimaryField(cb)) == Get(b, PrimaryField(cb))
    requires SecondaryField(cb).Some? ==> Get(a, SecondaryField(cb).value) == Get(b, SecondaryField(cb).value)
    ensures AfterOf(cb, a) == AfterOf(cb, b) && BeforeOf(cb, a) == BeforeOf(cb, b)
  {
  }

  /** Decrypting the token of a node whose pivot survives the round trip
      rebuilds a node with the same key fields. */
  lemma TokenRebuildsNode(cb: CursorBuilder, c: Codec, secret: string, f: DateText, node: Doc)
    requires secret != "" && RebuildsPivot(cb, c, secret, f, node)
    ensures var t := Encrypt(c, secret, cb, f, node);
      t.Some? && t.value != ""
      && var v := DecryptSide(c, secret, t);
      Truthy(v) && Node(cb, v).Some?
      && AfterOf(cb, Node(cb, v).value) == AfterOf(cb, node)
      && BeforeOf(cb, Node(cb, v).value) == BeforeOf(cb, node)
  {
    var pl := Plain(cb, f, node).value;
    var p := PrimaryField(cb);
    EncryptDecrypt(c, secret, cb, f, node);
    var t := Encrypt(c, secret, cb, f, node).value;
    var v := DecryptSide(c, secret, Some(t));
    assert v == Decrypt(c, secret, t);
    assert OptGet(v, p) == pl[p];
    if SecondaryField(cb).Some? {
      assert OptGet(v, SecondaryField(cb).value) == pl[SecondaryField(cb).value];
    }
    SeekDependsOnKeys(cb, Node(cb, v).value, node);
  }

  /** Token round trip: the next-link token of a page whose last document's
      pivot survives the round trip, given back as `after`, makes the
      constructor seek with exactly the boundary predicate `filterNext`
      counted. */
  lemma NextTokenResumesAfterLast(cb: CursorBuilder, c: Codec, secret: string, f: DateText, filter: Doc, data: seq<Doc>)
    requires |data| > 0 && secret != ""
    requires RebuildsPivot(cb, c, secret, f, data[|data| - 1])
    ensures var b := BoundariesOf(cb, c, secret, f, filter, data);
      b.afterCursor.Some?
      && CursorPredicate(cb, c, secret, Cursors(b.afterCursor, None)) == Success((false, AfterOf(cb, data[|data| - 1]).fields))
  {
    TokenRebuildsNode(cb, c, secret, f, data[|data| - 1]);
  }

  /** The previous-link token, given back as `before`, makes the constructor
      seek backwards with exactly the predicate `filterPrevious` counted. */
  lemma PreviousTokenResumesBeforeFirst(cb: CursorBuilder, c: Codec, secret: string, f: DateText, filter: Doc, data: seq<Doc>)
    requires |data| > 0 && secret != ""
    requires RebuildsPivot(cb, c, secret, f, data[0])
    ensures var b := BoundariesOf(cb, c, secret, f, filter, data);
      b.beforeCursor.Some?
      && CursorPredicate(cb, c, secret, Cursors(None, b.beforeCursor)) == Success((true, BeforeOf(cb, data[0]).fields))
  {
    TokenRebuildsNode(cb, c, secret, f, data[0]);
  }

  /** The default key: an ObjectId `_id` survives the round trip whenever the
      codec recovers its payload `{ _id: hex }`. */
  lemma DefaultKeyRebuildsPivot(c: Codec, secret: string, f: DateText, node: Doc)
    requires "_id" in node && node["_id"].ObjectId? && IsObjectIdHex(node["_id"].hex)
    requires RecoversPayload(c, secret, map["_id" := Str(node["_id"].hex)])
    ensures RebuildsPivot(NewCursorBuilder(None, None), c, secret, f, node)
  {
    var cb := NewCursorBuilder(None, None);
    assert Plain(cb, f, node) == Some(map["_id" := Str(node["_id"].hex)]);
  }

  /** The links of the envelope follow the counts: a link is null exactly
      when its count is zero, and carries the count and the token text;
      `length` is the page length and the data are the page, in order,
      through `toEntity` when there is one. */
  lemma EnvelopeFollowsCounts(b: Boundaries, toEntity: Option<Doc -> Value>, condition: Doc, count: Value -> nat)
    ensures var e := EnvelopeOf(b, toEntity, condition, count);
      (e.paging.next.None? <==> count(NextFilter(b)) == 0)
      && (e.paging.previous.None? <==> count(PreviousFilter(b)) == 0)
      && (e.paging.next.Some? ==> e.paging.next.value == PageLink(NextText(b), count(NextFilter(b))))
      && (e.paging.previous.Some? ==> e.paging.previous.value == PageLink(PreviousText(b), count(PreviousFilter(b))))
      && e.paging.count == count(Obj(condition))
      && e.paging.length == |b.data| == |e.data|
      && forall i :: 0 <= i < |b.data| ==> e.data[i] == if toEntity.Some? then toEntity.value(b.data[i]) else Obj(b.data[i])
  {
  }

  /** Finding, as written: an empty page still gets links whenever the
      store counts anything for an `undefined` filter (the whole
      collection), and their token is the text "undefined". */
  lemma EmptyPageLinksAsWritten(toEntity: Option<Doc -> Value>, condition: Doc, count: Value -> nat)
    requires count(Undefined) > 0
    ensures var e := EnvelopeOf(PageOnly([]), toEntity, condition, count);
      e.paging.next == Some(PageLink("undefined", count(Undefined)))
      && e.paging.previous == Some(PageLink("undefined", count(Undefined)))
  {
  }
}
