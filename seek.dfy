/** What the seek predicates of `CursorBuilder` select, under the query
    semantics of `Query`: the after-predicate of a pivot document holds of a
    document exactly when that document comes after the pivot in the order
    of `CursorBuilder.sort`, compared key by key with each key's own
    direction; the before-predicate is its mirror. */
module Seek {
  import opened Wrappers
  import opened Values
  import opened Query
  import opened Keys

  lemma MatchesOne(d: Doc, k: string, c: Value)
    ensures Matches(d, Obj(map[k := c])) <==> ClauseHolds(d, k, c)
  {
    assert k in map[k := c];
  }

  lemma MatchesTwo(d: Doc, k1: string, c1: Value, k2: string, c2: Value)
    requires k1 != k2
    ensures Matches(d, Obj(map[k1 := c1][k2 := c2])) <==> ClauseHolds(d, k1, c1) && ClauseHolds(d, k2, c2)
  {
    var m := map[k1 := c1][k2 := c2];
    assert k1 in m && m[k1] == c1 && k2 in m && m[k2] == c2;
  }

  lemma MatchesEither(d: Doc, a: Value, b: Value)
    ensures Matches(d, Obj(map["$or" := Arr([a, b])])) <==> Matches(d, a) || Matches(d, b)
  {
    MatchesOne(d, "$or", Arr([a, b]));
    var xs := [a, b];
    assert Matches(d, a) ==> Matches(d, xs[0]);
    assert Matches(d, b) ==> Matches(d, xs[1]);
  }

  lemma MatchesBoth(d: Doc, a: Value, b: Value)
    ensures Matches(d, Obj(map["$and" := Arr([a, b])])) <==> Matches(d, a) && Matches(d, b)
  {
    MatchesOne(d, "$and", Arr([a, b]));
    var xs := [a, b];
    assert xs[0] == a && xs[1] == b;
  }

  /** A field condition made of one strict comparison and `$exists: true`
      holds exactly when the field is present and the comparison holds. */
  lemma StrictWithExists(d: Doc, k: string, op: string, c: Value)
    requires op == "$gt" || op == "$lt"
    ensures FieldHolds(d, k, Obj(map[op := c, "$exists" := Bool(true)])) <==> k in d && OpHolds(d, k, op, c)
  {
    var ops := map[op := c, "$exists" := Bool(true)];
    assert ops.Keys == {op, "$exists"};
    assert IsOperatorDoc(ops) by {
      forall o | o in ops ensures |o| > 0 && o[0] == '$' {
        assert o == op || o == "$exists";
      }
    }
    assert ops[op] == c && ops["$exists"] == Bool(true);
  }

  /** A key's strict clause, when the coercion succeeds, selects the
      documents that have the field with a value beyond the coerced cursor
      (greater for an ascending key, smaller otherwise). */
  lemma KeyAfterSelects(kb: KeyBuilder, k: string, cursor: Value, d: Doc)
    requires IsFieldName(k) && Coerce(kb, cursor).Some?
    ensures ClauseHolds(d, k, KeyAfterOf(kb, cursor)) <==>
      k in d && (var c := Coerce(kb, cursor).value;
                 if kb.keyOrder == ASC then Less(c, d[k]) else Less(d[k], c))
  {
    var c := Coerce(kb, cursor).value;
    if kb.keyOrder == ASC {
      StrictWithExists(d, k, "$gt", c);
    } else {
      StrictWithExists(d, k, "$lt", c);
    }
  }

  /** The order of a one-entry sort specification. */
  lemma PrecedesOne(k: string, dir: Value, a: Doc, b: Doc)
    ensures Precedes([(k, dir)], a, b) <==> KeyPrecedes(Get(a, k), Get(b, k), dir)
  {
    assert [(k, dir)][1..] == [];
  }

  /** The order of a two-entry sort specification. */
  lemma PrecedesTwo(k1: string, dir1: Value, k2: string, dir2: Value, a: Doc, b: Doc)
    ensures Precedes([(k1, dir1), (k2, dir2)], a, b) <==>
      KeyPrecedes(Get(a, k1), Get(b, k1), dir1) || (Get(a, k1) == Get(b, k1) && KeyPrecedes(Get(a, k2), Get(b, k2), dir2))
  {
    assert [(k1, dir1), (k2, dir2)][1..] == [(k2, dir2)];
    PrecedesOne(k2, dir2, a, b);
  }

  /** When the coercion throws, the clause is `null`: it holds of the
      documents whose field is null or missing, and no longer bounds the key. */
  lemma KeyAfterOnThrow(kb: KeyBuilder, k: string, cursor: Value, d: Doc)
    requires IsFieldName(k) && Coerce(kb, cursor).None?
    ensures ClauseHolds(d, k, KeyAfterOf(kb, cursor)) <==> k !in d || d[k] == Null
  {
  }

  /** A key ordered strictly ascending (`1`) or descending (`-1`). */
  predicate Directed(kb: KeyBuilder) {
    kb.keyOrder == ASC || kb.keyOrder == DESC
  }

  /** Cursor builders the theorems speak of: real field names, distinct
      primary and secondary keys, each key ascending or descending. */
  predicate SeekConfig(cb: CursorBuilder) {
    IsFieldName(PrimaryField(cb)) && Directed(cb.primary)
    && (SecondaryField(cb).Some? ==>
          IsFieldName(SecondaryField(cb).value) && SecondaryField(cb).value != PrimaryField(cb)
          && Directed(cb.secondary.value))
  }

  /** One key's values in the pivot and in the document are comparable, and
      the key's coercion leaves the (already typed) pivot value as it is. */
  predicate FitsKey(kb: KeyBuilder, k: string, pivot: Doc, d: Doc) {
    k in pivot && k in d && SameKind(pivot[k], d[k]) && Coerce(kb, pivot[k]) == Some(pivot[k])
  }

  predicate Fits(cb: CursorBuilder, pivot: Doc, d: Doc) {
    FitsKey(cb.primary, PrimaryField(cb), pivot, d)
    && (SecondaryField(cb).Some? ==> FitsKey(cb.secondary.value, SecondaryField(cb).value, pivot, d))
  }

  lemma KeyAfterPrecedes(kb: KeyBuilder, k: string, pivot: Doc, d: Doc)
    requires IsFieldName(k) && Directed(kb) && FitsKey(kb, k, pivot, d)
    ensures ClauseHolds(d, k, KeyAfterOf(kb, pivot[k])) <==> KeyPrecedes(pivot[k], d[k], Order(kb.keyOrder, false))
  {
    KeyAfterSelects(kb, k, pivot[k], d);
  }

  /** The two-key after-predicate: strictly after on the primary key, or
      level on it and strictly after on the secondary key. */
  lemma TwoKeyAfterSelects(kb1: KeyBuilder, p: string, kb2: KeyBuilder, s: string, pivot: Doc, d: Doc)
    requires IsFieldName(p) && IsFieldName(s) && p != s && Directed(kb1) && Directed(kb2)
    requires FitsKey(kb1, p, pivot, d) && FitsKey(kb2, s, pivot, d)
    ensures Matches(d, Obj(map["$or" := Arr([
        Obj(map[p := KeyAfterOf(kb1, Get(pivot, p))]),
        Obj(map[p := Obj(map["$eq" := Get(pivot, p)])][s := KeyAfterOf(kb2, Get(pivot, s))])])]))
      <==> KeyPrecedes(pivot[p], d[p], kb1.keyOrder)
           || (pivot[p] == d[p] && KeyPrecedes(pivot[s], d[s], kb2.keyOrder))
  {
    var first := Obj(map[p := KeyAfterOf(kb1, pivot[p])]);
    var second := Obj(map[p := Obj(map["$eq" := pivot[p]])][s := KeyAfterOf(kb2, pivot[s])]);
    MatchesEither(d, first, second);
    MatchesOne(d, p, KeyAfterOf(kb1, pivot[p]));
    KeyAfterPrecedes(kb1, p, pivot, d);
    TieThenAfter(kb2, p, s, pivot, d);
  }

  /** The second branch of the two-key predicate: equal on the primary key
      and strictly after on the secondary one. */
  lemma TieThenAfter(kb2: KeyBuilder, p: string, s: string, pivot: Doc, d: Doc)
    requires IsFieldName(p) && IsFieldName(s) && p != s && Directed(kb2)
    requires p in pivot && p in d && FitsKey(kb2, s, pivot, d)
    ensures Matches(d, Obj(map[p := Obj(map["$eq" := pivot[p]])][s := KeyAfterOf(kb2, pivot[s])]))
      <==> pivot[p] == d[p] && KeyPrecedes(pivot[s], d[s], kb2.keyOrder)
  {
    var eq := Obj(map["$eq" := pivot[p]]);
    MatchesTwo(d, p, eq, s, KeyAfterOf(kb2, pivot[s]));
    assert "$eq" in eq.fields && IsOperatorDoc(eq.fields);
    assert FieldHolds(d, p, eq) <==> pivot[p] == d[p];
    KeyAfterPrecedes(kb2, s, pivot, d);
  }

  /** The after-predicate of a pivot holds of a document exactly when the
      document comes strictly after the pivot in the forward sort order. */
  lemma AfterSelectsSuccessors(cb: CursorBuilder, pivot: Doc, d: Doc)
    requires SeekConfig(cb) && Fits(cb, pivot, d)
    ensures Matches(d, AfterOf(cb, pivot)) <==> Precedes(Sort(cb, false), pivot, d)
  {
    var p := PrimaryField(cb);
    match SecondaryField(cb)
    case None =>
      KeyAfterPrecedes(cb.primary, p, pivot, d);
      MatchesOne(d, p, KeyAfterOf(cb.primary, pivot[p]));
      PrecedesOne(p, cb.primary.keyOrder, pivot, d);
    case Some(s) =>
      TwoKeyAfterSelects(cb.primary, p, cb.secondary.value, s, pivot, d);
      PrecedesTwo(p, cb.primary.keyOrder, s, cb.secondary.value.keyOrder, pivot, d);
  }

  /** `Sort` of the flipped builder is the reversed `Sort`. */
  lemma FlippedSort(cb: CursorBuilder)
    ensures Sort(Flipped(cb), false) == Sort(cb, true)
    ensures PrimaryField(Flipped(cb)) == PrimaryField(cb) && SecondaryField(Flipped(cb)) == SecondaryField(cb)
  {
  }

  /** The before-predicate of a pivot holds of a document exactly when the
      document comes strictly after the pivot in the reversed sort order,
      the order a backward query runs in. */
  lemma BeforeSelectsReverseSuccessors(cb: CursorBuilder, pivot: Doc, d: Doc)
    requires SeekConfig(cb) && Fits(cb, pivot, d)
    ensures Matches(d, BeforeOf(cb, pivot)) <==> Precedes(Sort(cb, true), pivot, d)
  {
    BeforeIsFlippedAfter(cb, pivot);
    FlippedSort(cb);
    AfterSelectsSuccessors(Flipped(cb), pivot, d);
  }

  /** Under strictly ascending or descending directions, the reversed sort
      orders every pair of comparable documents the other way round. */
  lemma ReversedSortIsConverse(cb: CursorBuilder, a: Doc, b: Doc)
    requires SeekConfig(cb) && Fits(cb, a, b)
    ensures Precedes(Sort(cb, true), a, b) <==> Precedes(Sort(cb, false), b, a)
  {
    var p := PrimaryField(cb);
    var o1 := cb.primary.keyOrder;
    LessTrichotomy(a[p], b[p]);
    if SecondaryField(cb).Some? {
      var s := SecondaryField(cb).value;
      var o2 := cb.secondary.value.keyOrder;
      PrecedesTwo(p, Order(o1, true), s, Order(o2, true), a, b);
      PrecedesTwo(p, o1, s, o2, b, a);
    } else {
      PrecedesOne(p, Order(o1, true), a, b);
      PrecedesOne(p, o1, b, a);
    }
  }

  /** The before-predicate of a pivot holds of a document exactly when the
      document comes strictly before the pivot in the forward sort order. */
  lemma BeforeSelectsPredecessors(cb: CursorBuilder, pivot: Doc, d: Doc)
    requires SeekConfig(cb) && Fits(cb, pivot, d)
    ensures Matches(d, BeforeOf(cb, pivot)) <==> Precedes(Sort(cb, false), d, pivot)
  {
    BeforeSelectsReverseSuccessors(cb, pivot, d);
    ReversedSortIsConverse(cb, pivot, d);
  }

  /** The document agrees with the pivot on every key in use. */
  predicate SameKeys(cb: CursorBuilder, pivot: Doc, d: Doc) {
    Get(pivot, PrimaryField(cb)) == Get(d, PrimaryField(cb))
    && (SecondaryField(cb).Some? ==> Get(pivot, SecondaryField(cb).value) == Get(d, SecondaryField(cb).value))
  }

  /** Every comparable document is after the pivot, before it, or level with
      it on the keys, and exactly one of the three: the next and previous
      filters of a boundary never overlap and miss only its ties. */
  lemma SeekTrichotomy(cb: CursorBuilder, pivot: Doc, d: Doc)
    requires SeekConfig(cb) && Fits(cb, pivot, d)
    ensures Matches(d, AfterOf(cb, pivot)) || Matches(d, BeforeOf(cb, pivot)) || SameKeys(cb, pivot, d)
    ensures !(Matches(d, AfterOf(cb, pivot)) && Matches(d, BeforeOf(cb, pivot)))
    ensures SameKeys(cb, pivot, d) ==> !Matches(d, AfterOf(cb, pivot)) && !Matches(d, BeforeOf(cb, pivot))
  {
    AfterSelectsSuccessors(cb, pivot, d);
    BeforeSelectsPredecessors(cb, pivot, d);
    var p := PrimaryField(cb);
    var o1 := cb.primary.keyOrder;
    LessTrichotomy(pivot[p], d[p]);
    if SecondaryField(cb).Some? {
      var s := SecondaryField(cb).value;
      var o2 := cb.secondary.value.keyOrder;
      LessTrichotomy(pivot[s], d[s]);
      PrecedesTwo(p, o1, s, o2, pivot, d);
      PrecedesTwo(p, o1, s, o2, d, pivot);
    } else {
      PrecedesOne(p, o1, pivot, d);
      PrecedesOne(p, o1, d, pivot);
    }
  }

  /** With the default key (`_id`, ascending, ObjectId coercion) the
      after-predicate selects exactly the documents with a greater ObjectId. */
  lemma DefaultKeySeek(pivot: Doc, d: Doc)
    requires "_id" in pivot && "_id" in d && pivot["_id"].ObjectId? && d["_id"].ObjectId?
    ensures var cb := NewCursorBuilder(None, None);
      Matches(d, AfterOf(cb, pivot)) <==> Less(pivot["_id"], d["_id"])
  {
    var cb := NewCursorBuilder(None, None);
    assert Coerce(cb.primary, pivot["_id"]) == Some(pivot["_id"]);
    AfterSelectsSuccessors(cb, pivot, d);
  }
}
