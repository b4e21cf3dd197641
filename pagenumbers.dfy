/** `PagingWithPage` of src/paging.ts: offset paging that reports a window
    of page numbers around the current page, with the first and the last
    page always listed. */
module PageNumbers {
  import opened Wrappers
  import opened Values

  /** The page-number part of `PagingInputInterface`; negative and
      fractional numbers are not modelled. */
  datatype PageInput = PageInput(size: Option<nat>, limit: Option<nat>, offset: Option<nat>)

  datatype PageProps = PageProps(filter: Option<Doc>, paging: Option<PageInput>)

  /** One listed page. */
  datatype PageEntry = PageEntry(more: bool, current: bool, index: int, limit: nat, offset: int)

  /** What `build` returns. */
  datatype PageResult = PageResult(count: nat, from: nat, to: nat, pages: seq<PageEntry>)

  /** Pages listed on each side of the current one. */
  const Margin: int := 3

  /** `Number(props?.paging?.size) || 10`: a missing or zero size is 10. */
  function SizeOf(paging: Option<PageInput>): (r: nat)
    ensures r > 0
    ensures paging.Some? && paging.value.size.Some? && paging.value.size.value != 0 ==> r == paging.value.size.value
    ensures paging.None? || paging.value.size.None? || paging.value.size.value == 0 ==> r == 10
  {
    if paging.Some? && paging.value.size.Some? && paging.value.size.value != 0 then paging.value.size.value else 10
  }

  /** `Number(props?.paging?.limit) || size`. */
  function LimitOf(paging: Option<PageInput>): (r: nat)
    ensures r > 0
    ensures paging.None? || paging.value.limit.None? || paging.value.limit.value == 0 ==> r == SizeOf(paging)
    ensures paging.Some? && paging.value.limit.Some? && paging.value.limit.value != 0 ==> r == paging.value.limit.value
  {
    if paging.Some? && paging.value.limit.Some? && paging.value.limit.value != 0 then paging.value.limit.value else SizeOf(paging)
  }

  /** `Number(props?.paging?.offset) || 0`. */
  function SkipOf(paging: Option<PageInput>): (r: nat)
    ensures paging.None? || paging.value.offset.None? ==> r == 0
    ensures paging.Some? && paging.value.offset.Some? ==> r == paging.value.offset.value
  {
    if paging.Some? && paging.value.offset.Some? then paging.value.offset.value else 0
  }

  /** `Math.ceil(a / b)` on naturals: the least `r` with `a <= r * b`. */
  function CeilDiv(a: nat, b: nat): (r: nat)
    requires b > 0
    ensures a <= r * b
    ensures r == 0 || (r - 1) * b < a
  {
    var q := (a + b - 1) / b;
    assert q * b <= a + b - 1 < q * b + b;
    q
  }

  /** The page at position `i` of the full list: index `i + 1`, offset `i * size`. */
  function PageAt(size: nat, current: int, i: nat): PageEntry {
    PageEntry(false, i + 1 == current, i + 1, size, i * size)
  }

  /** The full list of `length` pages (`Array.from`). */
  function AllPages(size: nat, current: int, length: nat): (r: seq<PageEntry>)
    ensures |r| == length
    ensures forall i :: 0 <= i < length ==> r[i] == PageAt(size, current, i)
  {
    seq(length, i requires 0 <= i < length => PageAt(size, current, i))
  }

  /** A page added to the window because the window missed it. */
  function FixUp(size: nat, current: int, index: int): PageEntry {
    PageEntry(true, index == current, index, size, (index - 1) * size)
  }

  /** `Array.prototype.slice(from, to)`: a negative bound counts from the end. */
  function SliceBound(n: nat, k: int): (r: nat)
    ensures r <= n
    ensures 0 <= k <= n ==> r == k
    ensures k < 0 ==> r == if n + k < 0 then 0 else n + k
    ensures k > n ==> r == n
  {
    if k < 0 then (if n + k < 0 then 0 else n + k) else if k > n then n else k
  }

  function JsSlice(s: seq<PageEntry>, from: int, to: int): (r: seq<PageEntry>)
    ensures var a := SliceBound(|s|, from); var b := SliceBound(|s|, to);
      a < b ==> r == s[a..b]
    ensures SliceBound(|s|, to) <= SliceBound(|s|, from) ==> r == []
    ensures forall j :: 0 <= j < |r| ==> r[j] in s
  {
    var a := SliceBound(|s|, from);
    var b := SliceBound(|s|, to);
    if a < b then s[a..b] else []
  }

  /** Lines 299-316: the window `[from, to)` around the current page, moved
      right when it starts before the first page and left when it ends past
      the last one. */
  function Window(length: int, current: int): (w: (int, int))
    ensures length >= 0 ==> w.1 <= length
  {
    var from := current - Margin;
    var to := current + Margin;
    var (from1, to1) := if from < 0 then (0, to - from) else (from, to);
    if to1 > length then (from1 - (to1 - length), length) else (from1, to1)
  }

  predicate HasIndex(s: seq<PageEntry>, index: int) {
    exists j :: 0 <= j < |s| && s[j].index == index
  }

  /** Lines 289-343: the pages listed for `length` pages when page `current`
      is shown: the window, then the last page and the first page added when
      the window misses them. */
  function Pagination(size: nat, length: nat, current: int): seq<PageEntry> {
    var w := Window(length, current);
    var window := JsSlice(AllPages(size, current, length), w.0, w.1);
    var withLast := if HasIndex(window, length) then window else window + [FixUp(size, current, length)];
    if HasIndex(withLast, 1) then withLast else [FixUp(size, current, 1)] + withLast
  }

  /** The listed pages as `build` computes them for `count` documents. */
  function Listed(size: nat, skip: nat, count: nat): seq<PageEntry>
    requires size > 0
  {
    Pagination(size, CeilDiv(count, size), CeilDiv(skip, size) + 1)
  }

  /** Whether `build` lists the page with `index`: `pagination.find`. */
  method Find(s: seq<PageEntry>, index: int) returns (found: bool)
    ensures found <==> HasIndex(s, index)
  {
    var j := 0;
    while j < |s|
      invariant 0 <= j <= |s|
      invariant forall i :: 0 <= i < j ==> s[i].index != index
    {
      if s[j].index == index {
        return true;
      }
      j := j + 1;
    }
    return false;
  }

  /** Lines 289-343 step by step: build every page, clamp the window,
      slice it, then push the last page and unshift the first one when
      missing. */
  method Paginate(size: nat, length: nat, current: int) returns (pagination: seq<PageEntry>)
    ensures pagination == Pagination(size, length, current)
  {
    var pages: seq<PageEntry> := [];
    var i := 0;
    while i < length
      invariant 0 <= i <= length
      invariant |pages| == i
      invariant forall j :: 0 <= j < i ==> pages[j] == PageAt(size, current, j)
    {
      pages := pages + [PageAt(size, current, i)];
      i := i + 1;
    }
    assert pages == AllPages(size, current, length);
    var from := current - Margin;
    var to := current + Margin;
    if from < 0 {
      to := to - from;
      from := 0;
    }
    if to > length {
      from := from - (to - length);
      to := length;
    }
    assert (from, to) == Window(length, current);
    pagination := JsSlice(pages, from, to);
    var hasLast := Find(pagination, length);
    if !hasLast {
      pagination := pagination + [FixUp(size, current, length)];
    }
    var hasFirst := Find(pagination, 1);
    if !hasFirst {
      pagination := [FixUp(size, current, 1)] + pagination;
    }
  }

  class PagingWithPage {
    var limit: nat
    var skip: nat
    var size: nat
    var filter: Doc

    predicate Valid()
      reads this
    {
      size > 0
    }

    /** Lines 271-276: the defaults. */
    constructor (props: PageProps)
      ensures Valid()
      ensures size == SizeOf(props.paging) && limit == LimitOf(props.paging) && skip == SkipOf(props.paging)
      ensures filter == if props.filter.Some? then props.filter.value else map[]
    {
      size := SizeOf(props.paging);
      limit := LimitOf(props.paging);
      skip := SkipOf(props.paging);
      filter := if props.filter.Some? then props.filter.value else map[];
    }

    /** `build(many, model)`, with `count` standing for the store's
      `countDocuments`, applied to the filter, and `manyLength` the length
      of the fetched page. */
    method Build(manyLength: nat, count: Value -> nat) returns (r: PageResult)
      requires Valid()
      ensures r == PageResult(count(Obj(filter)), skip, skip + manyLength, Listed(size, skip, count(Obj(filter))))
    {
      var total := count(Obj(filter));
      var length := CeilDiv(total, size);
      var current := CeilDiv(skip, size) + 1;
      var pagination := Paginate(size, length, current);
      assert pagination == Listed(size, skip, total);
      r := PageResult(total, skip, skip + manyLength, pagination);
    }
  }

  // Properties of the listed pages.

  /** Entry `e` describes its page: `offset` is `(index - 1) * size`,
      `limit` is the size and `current` marks exactly the current page. */
  predicate Describes(e: PageEntry, size: nat, current: int) {
    e.offset == (e.index - 1) * size && e.limit == size && (e.current <==> e.index == current)
  }

  /** Every listed entry, from the window or a fix-up, describes its page. */
  lemma PaginationEntriesDescribeTheirPage(size: nat, length: nat, current: int)
    ensures forall e :: e in Pagination(size, length, current) ==> Describes(e, size, current)
  {
    var w := Window(length, current);
    var window := JsSlice(AllPages(size, current, length), w.0, w.1);
    WindowEntriesDescribeTheirPage(size, length, current, w.0, w.1);
    assert Describes(FixUp(size, current, length), size, current);
    assert Describes(FixUp(size, current, 1), size, current);
    var withLast := if HasIndex(window, length) then window else window + [FixUp(size, current, length)];
    assert forall e :: e in withLast ==> Describes(e, size, current);
  }

  /** Every page of any slice of the full list describes its page. */
  lemma WindowEntriesDescribeTheirPage(size: nat, length: nat, current: int, from: int, to: int)
    ensures forall e :: e in JsSlice(AllPages(size, current, length), from, to) ==> Describes(e, size, current)
  {
    var all := AllPages(size, current, length);
    forall e | e in all
      ensures Describes(e, size, current)
    {
      var i :| 0 <= i < |all| && all[i] == e;
      assert (e.index - 1) * size == i * size;
    }
  }

  /** The first and the last page are always listed. */
  lemma PaginationHasEnds(size: nat, length: nat, current: int)
    ensures HasIndex(Pagination(size, length, current), 1)
    ensures HasIndex(Pagination(size, length, current), length)
  {
    var w := Window(length, current);
    var window := JsSlice(AllPages(size, current, length), w.0, w.1);
    var withLast := if HasIndex(window, length) then window else window + [FixUp(size, current, length)];
    assert HasIndex(withLast, length) by {
      if !HasIndex(window, length) {
        assert withLast[|withLast| - 1].index == length;
      }
    }
    if !HasIndex(withLast, 1) {
      var l := [FixUp(size, current, 1)] + withLast;
      assert l[0].index == 1;
      var j :| 0 <= j < |withLast| && withLast[j].index == length;
      assert l[j + 1].index == length;
    }
  }

  /** Entries marked `more` are exactly the fix-ups: the first or the last
      page added because the window does not reach it. */
  lemma MoreMarksFixUps(size: nat, length: nat, current: int)
    ensures forall e :: e in Pagination(size, length, current) && e.more ==> e.index == 1 || e.index == length
    ensures var w := Window(length, current);
      var window := JsSlice(AllPages(size, current, length), w.0, w.1);
      forall e :: e in Pagination(size, length, current) ==> (e.more <==> e !in window)
  {
    var w := Window(length, current);
    var all := AllPages(size, current, length);
    forall e | e in all
      ensures !e.more
    {
      var i :| 0 <= i < |all| && all[i] == e;
    }
    var window := JsSlice(all, w.0, w.1);
    assert forall e :: e in window ==> e in all;
    var withLast := if HasIndex(window, length) then window else window + [FixUp(size, current, length)];
    assert forall e :: e in withLast ==> e in window || e == FixUp(size, current, length);
  }

  /** Finding, as written: with 40 documents in pages of 10 from the start,
      the right clamp moves `from` to -2, the slice counts from the end and
      page 2 is not listed although four pages fit the window. */
  lemma WindowSkipsPages()
    ensures Window(4, 1) == (-2, 4)
    ensures var l := Listed(10, 0, 40);
      |l| == 3 && l[0].index == 1 && l[0].more && l[1].index == 3 && l[2].index == 4
      && !HasIndex(l, 2)
  {
    FortyDocumentsArePagesOneToFour();
    var window := ShiftedWindowOfFour();
    var l := [FixUp(10, 1, 1)] + window;
    assert Pagination(10, 4, 1) == l;
    assert l[1] == window[0] && l[2] == window[1];
    assert !HasIndex(l, 2) by {
      forall j | 0 <= j < |l| ensures l[j].index != 2 {
      }
    }
  }

  /** 40 documents in pages of 10, skipping none: four pages, the first shown. */
  lemma FortyDocumentsArePagesOneToFour()
    ensures Listed(10, 0, 40) == Pagination(10, 4, 1)
  {
    assert CeilDiv(40, 10) == 49 / 10 == 4;
    assert CeilDiv(0, 10) == 9 / 10 == 0;
  }

  /** The window of the finding above: only pages 3 and 4 survive the slice. */
  lemma ShiftedWindowOfFour() returns (window: seq<PageEntry>)
    ensures Window(4, 1) == (-2, 4)
    ensures window == JsSlice(AllPages(10, 1, 4), -2, 4)
    ensures |window| == 2 && window[0].index == 3 && window[1].index == 4
    ensures HasIndex(window, 4) && !HasIndex(window, 1)
  {
    var all := AllPages(10, 1, 4);
    assert SliceBound(4, -2) == 2;
    window := JsSlice(all, -2, 4);
    assert window == all[2..4];
    assert window[0] == PageAt(10, 1, 2) && window[1] == PageAt(10, 1, 3);
    assert window[1].index == 4;
  }

  /** Corrected: the right clamp stops at the first page, so the window is
      never moved below it. */
  function ClampedWindow(length: nat, current: int): (w: (int, int))
    requires 1 <= current
    ensures 0 <= w.0 <= w.1 <= length
    ensures w.1 - w.0 == if length < 2 * Margin then length else 2 * Margin
    ensures current <= length ==> w.0 < current <= w.1
  {
    var from := current - Margin;
    var to := current + Margin;
    var (from1, to1) := if from < 0 then (0, to - from) else (from, to);
    if to1 > length then (if from1 - (to1 - length) < 0 then 0 else from1 - (to1 - length), length) else (from1, to1)
  }

  /** Under the corrected window the listed range is the consecutive pages
      `from + 1 .. to`, the current one among them. */
  lemma ClampedWindowIsConsecutive(size: nat, length: nat, current: int)
    requires size > 0 && 1 <= current
    ensures var w := ClampedWindow(length, current);
      var all := AllPages(size, current, length);
      var window := JsSlice(all, w.0, w.1);
      |window| == w.1 - w.0
      && (forall j :: 0 <= j < |window| ==> window[j].index == w.0 + j + 1)
      && (current <= length ==> HasIndex(window, current))
  {
    var w := ClampedWindow(length, current);
    var all := AllPages(size, current, length);
    var window := JsSlice(all, w.0, w.1);
    forall j | 0 <= j < |window|
      ensures window[j].index == w.0 + j + 1
    {
      assert window[j] == all[w.0 + j];
    }
    if current <= length {
      assert window[current - 1 - w.0].index == current;
    }
  }

  /** An empty collection (no pages) lists page 1 and, after it, a page 0
      with a negative offset, both as fix-ups. */
  lemma EmptyCollectionPages(size: nat, current: int)
    ensures var l := Pagination(size, 0, current);
      |l| == 2 && l[0].index == 1 && l[0].more && l[1].index == 0 && l[1].more && l[1].offset == -(size as int)
  {
    var w := Window(0, current);
    var all := AllPages(size, current, 0);
    assert JsSlice(all, w.0, w.1) == [];
    var withLast := [FixUp(size, current, 0)];
    assert !HasIndex(withLast, 1);
  }
}
