/** What both paging classes do with a fetched page: the in-place
    `Array.prototype.reverse` of a page fetched backwards, the optional
    `toEntity` mapping, and the `{data, paging}` envelope. */
module Pages {
  import opened Wrappers
  import opened Values

  /** The documents of `s` in the opposite order. */
  function Reversed(s: seq<Doc>): (r: seq<Doc>)
    ensures |r| == |s|
  {
    if s == [] then [] else Reversed(s[1..]) + [s[0]]
  }

  /** Position `k` of the reversed page holds position `|s| - 1 - k` of the page. */
  lemma {:induction false} ReversedAt(s: seq<Doc>, k: nat)
    requires k < |s|
    ensures Reversed(s)[k] == s[|s| - 1 - k]
  {
    if k < |s| - 1 {
      ReversedAt(s[1..], k);
    }
  }

  /** Reversing twice gives the page back. */
  lemma ReversedTwice(s: seq<Doc>)
    ensures Reversed(Reversed(s)) == s
  {
    forall k | 0 <= k < |s| ensures Reversed(Reversed(s))[k] == s[k] {
      ReversedAt(Reversed(s), k);
      ReversedAt(s, |s| - 1 - k);
    }
  }

  /** The first and last documents trade places. */
  lemma ReversedEnds(s: seq<Doc>)
    requires |s| > 0
    ensures Reversed(s)[0] == s[|s| - 1] && Reversed(s)[|s| - 1] == s[0]
  {
    ReversedAt(s, 0);
    ReversedAt(s, |s| - 1);
  }

  /** `many.reverse()`: swaps the page end for end, in place. */
  method ReverseInPlace(a: array<Doc>)
    modifies a
    ensures a[..] == Reversed(old(a[..]))
  {
    var n := a.Length;
    var i := 0;
    while i < n / 2
      invariant 0 <= i <= n / 2
      invariant forall k :: 0 <= k < i ==> a[k] == old(a[n - 1 - k]) && a[n - 1 - k] == old(a[k])
      invariant forall k :: i <= k < n - i ==> a[k] == old(a[k])
    {
      a[i], a[n - 1 - i] := a[n - 1 - i], a[i];
      i := i + 1;
    }
    ghost var before := old(a[..]);
    forall k | 0 <= k < n ensures a[..][k] == Reversed(before)[k] {
      ReversedAt(before, k);
    }
  }

  /** `{ after: `${afterCursor}`, count }` and its `before` twin. */
  datatype PageLink = PageLink(token: string, count: nat)
  datatype PagingInfo = PagingInfo(count: nat, length: nat, next: Option<PageLink>, previous: Option<PageLink>)
  datatype Envelope = Envelope(data: seq<Value>, paging: PagingInfo)

  /** `data.map(toEntity)` when `toEntity` is a function, the page itself otherwise. */
  function Entities(toEntity: Option<Doc -> Value>, data: seq<Doc>): (r: seq<Value>)
    ensures |r| == |data|
    ensures forall i :: 0 <= i < |data| ==> r[i] == if toEntity.Some? then toEntity.value(data[i]) else Obj(data[i])
  {
    seq(|data|, i requires 0 <= i < |data| => if toEntity.Some? then toEntity.value(data[i]) else Obj(data[i]))
  }
}
