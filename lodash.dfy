/** The effect of the lodash helpers the paging code calls (`merge`, `pick`,
    `pickBy`) on plain JavaScript values. */
module Lodash {
  import opened Values

  /** `_.merge` applied to one property: a plain-object source is merged
      key by key into an object destination (or into a fresh object), an
      array source index by index into an array destination (or into a fresh
      array), an `undefined` source keeps the destination, and any other source
      (including `null`, ObjectIds and dates) replaces it. A missing destination
      property is passed as `Undefined`. */
  function MergeValue(dst: Value, src: Value): Value
    decreases src, 1
  {
    match src
    case Obj(sf) => Obj(MergeFields(if dst.Obj? then dst.fields else map[], sf))
    case Arr(se) => Arr(MergeElems(if dst.Arr? then dst.elems else [], se))
    case Undefined => dst
    case _ => src
  }

  /** `_.merge(df, sf)` on two plain objects. */
  function MergeFields(df: Doc, sf: Doc): (r: Doc)
    decreases Obj(sf), 0
    ensures r.Keys == df.Keys + sf.Keys
    ensures forall k :: k in df && k !in sf ==> r[k] == df[k]
  {
    map k | k in df.Keys + sf.Keys :: if k in sf then MergeValue(Get(df, k), sf[k]) else df[k]
  }

  /** Array merge: index `i` of the source is merged into index `i` of the
      destination; the result is as long as the longer of the two. */
  function MergeElems(de: seq<Value>, se: seq<Value>): (r: seq<Value>)
    decreases Arr(se), 0
    ensures |r| == if |de| < |se| then |se| else |de|
  {
    seq(if |de| < |se| then |se| else |de|, i requires 0 <= i < (if |de| < |se| then |se| else |de|) =>
      if i < |se| then MergeValue(if i < |de| then de[i] else Undefined, se[i]) else de[i])
  }

  /** Whether `_.merge` writes into the destination object itself rather than
      replacing it: only an object into an object, or an array into an array. */
  predicate MergesInPlace(dst: Value, src: Value) {
    (dst.Obj? && src.Obj?) || (dst.Arr? && src.Arr?)
  }

  /** Merging into nothing copies the source: the deep clone `_.merge` makes of
      a source object or array is equal to it. */
  lemma {:induction false} MergeOntoNothing(v: Value)
    ensures MergeValue(Undefined, v) == v
    decreases v
  {
    match v
    case Obj(sf) =>
      var r := MergeFields(map[], sf);
      forall k | k in sf ensures r[k] == sf[k] {
        MergeOntoNothing(sf[k]);
      }
      assert r == sf;
    case Arr(se) =>
      var r := MergeElems([], se);
      forall i | 0 <= i < |se| ensures r[i] == se[i] {
        MergeOntoNothing(se[i]);
      }
      assert r == se;
    case _ =>
  }

  /** A source that is not merged in place and is not `undefined` replaces the
      destination outright. */
  lemma MergeReplaces(dst: Value, src: Value)
    requires !MergesInPlace(dst, src) && !src.Undefined?
    ensures MergeValue(dst, src) == src
  {
    match src
    case Obj(sf) =>
      MergeOntoNothing(src);
    case Arr(se) =>
      MergeOntoNothing(src);
    case _ =>
  }

  /** Merging an object whose keys the destination does not have is the
      plain union of the two objects. */
  lemma MergeDisjoint(df: Doc, sf: Doc)
    requires df.Keys !! sf.Keys
    ensures MergeFields(df, sf) == df + sf
  {
    var r := MergeFields(df, sf);
    forall k | k in sf ensures r[k] == sf[k] {
      MergeOntoNothing(sf[k]);
    }
  }

  /** `_.pick(node, keys)` for flat field names: the fields of `node`
      named in `keys` that `node` has. */
  function Pick(node: Doc, keys: seq<string>): (r: Doc)
    ensures forall k :: k in keys ==> Get(r, k) == Get(node, k)
    ensures r.Keys <= node.Keys
    ensures forall k :: k in r ==> k in keys
  {
    map k | k in node && k in keys :: node[k]
  }

  /** `_.pickBy(m, keep)`: the entries of `m` whose value `keep` accepts. */
  function PickBy(m: Doc, keep: Value -> bool): (r: Doc)
    ensures forall k :: k in r <==> k in m && keep(m[k])
    ensures forall k :: k in r ==> r[k] == m[k]
  {
    map k | k in m && keep(m[k]) :: m[k]
  }
}
