# Cursor pagination for a document store, modelled in Dafny

This project models the paging core of the `nest-mopa` library: the classes
that turn a request's paging input (cursor tokens, offsets, a search term)
into a store filter and a sort, and that turn a fetched page into the
`{ data, paging }` envelope with tokens for the next and the previous page.

- `PagingV3` (src/paging-v3.ts) seeks on one or two ordering keys
  (`KeyBuilder`, `CursorBuilder`). The keys' seek predicates are related to
  the lexicographic order the sort imposes.
- `Paging` (src/paging.ts) is the one-key predecessor. Its tokens wrap the
  key value as `{ cursor }`.
- `PagingWithPage` (src/paging.ts) is offset paging. It reports a window of
  page numbers around the current page.

Modules, from the bottom up:

| module | file | what it holds |
|---|---|---|
| `Wrappers` | wrappers.dfy | `Option`, `Result` |
| `Values` | values.dfy | JavaScript values; truthiness; property access; `${v}` text; ObjectId parsing |
| `Lodash` | lodash.dfy | the effect of lodash's `merge`, `pick` and `pickBy` on plain objects |
| `Query` | query.dfy | a reference semantics for the store's queries (`Matches`) and sorts (`Precedes`) |
| `Keys` | keys.dfy | `KeyBuilder` and `CursorBuilder` of src/paging-v3.ts |
| `Seek` | seek.dfy | theorems: each seek predicate selects exactly the successors (or predecessors) of a pivot under the sort |
| `Pages` | pages.dfy | the in-place reversal of a backward page, `toEntity`, the envelope types |
| `Codec` | codec.dfy | the token codecs (left abstract), the cursor bundle, the secret |
| `SessionV3` | sessionv3.dfy | class `PagingV3`: constructor, `encryptAll`, `build` |
| `SessionV1` | sessionv1.dfy | class `Paging`: constructor, `cursor`, `build` |
| `PageNumbers` | pagenumbers.dfy | class `PagingWithPage`: defaults and the page-number window |

The constructors of `PagingV3` and `Paging` are static `Create` methods. Each returns the new object or
the error the source throws, and its `ensures` ties the object's state to a
specification function (`Setup`, `SetupV1`). The lemmas state their
properties about that function. `encryptAll`, `cursor` and both `build`
methods reverse the page `array` in place. Their results are tied to
`BoundariesOf`, `CursorOf`, `EnvelopeOf` and `EnvelopeV1`.

Parameters stand in for the outside world:

- `countDocuments` is a function `count: Value -> nat`.
- `jsonwebtoken` and `JSON` are a `Codec` value. A `None` result stands for a
  thrown exception.
- The `NEMOPA_SECRET` environment variable is an `Option<string>`.
- `Date` rendering is a `DateText` value.
- The id the driver generates for `new ObjectId()` is a `generated` string.

Where the specification and the code disagree, the model follows the code:

- No identifier tiebreaker is added to the sort in either version.
- A `keyOrder` of `"asc"` compares as "not `ASC`", so the seek predicate uses
  `$lt` while the store sorts ascending (`Keys.OrderOfOtherSpelling`).
- In v3, a token that does not verify does not restart from the beginning.
  It seeks past `undefined`, which selects nothing
  (`SessionV3.UndecodableTokenIsNotNoCursor`).
- In v1, a token that does not decode throws "Pagination error.".
- In v1, a cursor bundle with neither token throws a `TypeError`
  (`SessionV1.SetupThrowsV1`).
- v3 merges its `$or` arrays index by index, as lodash's `merge` does.

## Model

| member | source | states |
|---|---|---|
| Values.Prop | src/paging.ts:124-126 | member access throws on `undefined` and `null`; otherwise it reads like optional chaining |
| Values.IsoString | src/paging-v3.ts:162-163 | `toISOString` throws exactly on a time value outside the valid range |
| Values.ParseObjectId | src/paging-v3.ts:20-21 | a string becomes an ObjectId exactly when it is 24 hex digits; the result is the string lower-cased digit by digit, so canonical text is kept as is |
| Lodash.MergeFields | src/paging-v3.ts:252 | `merge` of two objects has the union of their keys; keys only the destination has keep their value |
| Lodash.MergeElems | src/paging-v3.ts:252 | merging arrays gives the longer length |
| Lodash.MergeOntoNothing | src/paging-v3.ts:252 | merging into `undefined` gives the source back |
| Lodash.MergeReplaces | src/paging-v3.ts:252 | a source that is not merged in place replaces the destination |
| Lodash.MergeDisjoint | src/paging-v3.ts:252 | merging objects with disjoint keys is their union |
| Lodash.Pick | src/paging-v3.ts:151-153 | `pick` keeps exactly the listed fields the node has, with their values: no other key is in the result |
| Lodash.PickBy | src/paging-v3.ts:262 | `pickBy` keeps exactly the entries the predicate accepts, unchanged |
| Keys.Coerce | src/paging-v3.ts:39-42 | without a `keyBuilder` the cursor passes unchanged |
| Keys.KeyAfterOf | src/paging-v3.ts:37-46 | `$gt` (ascending) or `$lt` (otherwise) of the coerced cursor, with `$exists: true`; `null` exactly when the coercion throws |
| Keys.KeyBeforeOf | src/paging-v3.ts:53-62 | the mirror of `KeyAfterOf`; `null` exactly when the coercion throws |
| Keys.KeyBeforeIsReversedAfter | src/paging-v3.ts:37-62 | a key's before-predicate is its after-predicate under the reversed direction |
| Keys.Order | src/paging-v3.ts:128-132 | forward keeps the direction; reversed gives `DESC` iff the direction was `ASC` |
| Keys.OrderInvolution | src/paging-v3.ts:128-132 | reversing `ASC` or `DESC` twice restores it |
| Keys.OrderOfOtherSpelling | src/paging-v3.ts:128-132 | any direction other than `1`, such as `"asc"`, reverses to `ASC` |
| Keys.NewCursorBuilder | src/paging-v3.ts:70-82 | an empty primary with a secondary promotes the secondary; no keys gives the default key; one or two key names |
| Keys.SecondaryField | src/paging-v3.ts:87-92 | a secondary key is in use exactly when a secondary builder with a non-empty key exists, and then it is that key |
| Keys.Pivot | src/paging-v3.ts:151-153 | the pivot has exactly the node's key fields |
| Keys.AfterOf | src/paging-v3.ts:84-104 | one clause on the primary key, or `$or` of that clause and "primary equal, secondary strictly after" |
| Keys.BeforeOf | src/paging-v3.ts:106-126 | the same shape with the mirrored key predicates |
| Keys.BeforeIsFlippedAfter | src/paging-v3.ts:84-126 | a backward seek is the forward seek of the builder with every direction reversed |
| Keys.Put | src/paging-v3.ts:259 | setting a sort property keeps an existing key's place; a new key goes last |
| Keys.Sort | src/paging-v3.ts:134-146 | the primary key then the secondary key, each with its direction for the traversal; one entry when the names coincide |
| Keys.Plain | src/paging-v3.ts:158-174 | the payload holds exactly the key fields as text: a primary `Date` in ISO-8601 form, any other value through `${...}`; it fails exactly on an invalid primary `Date` |
| Keys.CallBuilder | src/paging-v3.ts:181-186 | calling a missing `keyBuilder` throws; otherwise it coerces |
| Keys.Node | src/paging-v3.ts:176-188 | the rebuilt node has exactly the key fields, each coerced from the payload; it fails exactly when a coercion throws |
| Seek.MatchesEither | src/paging-v3.ts:94-100 | a document matches the two-clause `$or` iff it matches one of the clauses |
| Seek.MatchesBoth | src/paging-v3.ts:321 | a document matches the `$and` of two queries iff it matches both |
| Seek.StrictWithExists | src/paging-v3.ts:41-42 | a strict bound with `$exists: true` holds iff the field exists and compares strictly |
| Seek.PrecedesOne | src/paging-v3.ts:134-146 | a one-entry sort orders documents by that key in its direction |
| Seek.PrecedesTwo | src/paging-v3.ts:134-146 | a two-entry sort orders by the first key, and by the second key where the first keys are equal |
| Seek.KeyAfterSelects | src/paging-v3.ts:37-46 | a key's after-clause selects the documents whose key follows the coerced cursor in the key's direction |
| Seek.KeyAfterOnThrow | src/paging-v3.ts:43-45 | when the coercion throws, the `null` clause selects the documents where the key is missing or null |
| Seek.KeyAfterPrecedes | src/paging-v3.ts:37-46 | a key's after-clause holds iff the pivot's value precedes the document's under that key's sort entry |
| Seek.TieThenAfter | src/paging-v3.ts:89-101 | the second branch holds iff the primary keys are equal and the document follows on the secondary key |
| Seek.TwoKeyAfterSelects | src/paging-v3.ts:89-101 | the two-key `$or` holds iff the document follows the pivot lexicographically on (primary, secondary) |
| Seek.AfterSelectsSuccessors | src/paging-v3.ts:84-146 | `afterOf(pivot)` selects exactly the documents after the pivot under `sort(false)` |
| Seek.FlippedSort | src/paging-v3.ts:128-146 | the sort of the flipped builder is the reversed sort |
| Seek.BeforeSelectsReverseSuccessors | src/paging-v3.ts:106-146 | `beforeOf(pivot)` selects exactly the documents after the pivot under `sort(true)` |
| Seek.ReversedSortIsConverse | src/paging-v3.ts:128-146 | under `ASC`/`DESC` keys, the reversed sort is the converse order |
| Seek.BeforeSelectsPredecessors | src/paging-v3.ts:106-146 | `beforeOf(pivot)` selects exactly the documents before the pivot under `sort(false)` |
| Seek.SeekTrichotomy | src/paging-v3.ts:84-126 | each comparable document is after the pivot, before it, or level with it on the keys, and only one of these |
| Seek.DefaultKeySeek | src/paging-v3.ts:18-23 | with the default key, the after-predicate selects the ObjectIds greater than the pivot's |
| Pages.ReversedAt | src/paging-v3.ts:311 | position `k` of the reversed page is position `n-1-k` of the page |
| Pages.ReversedTwice | src/paging-v3.ts:311 | reversing twice gives the page back |
| Pages.ReversedEnds | src/paging-v3.ts:311 | reversal swaps the first and the last document |
| Pages.ReverseInPlace | src/paging.ts:216 | the array afterwards holds the reversed page |
| Pages.Entities | src/paging-v3.ts:349-352 | the same length; each item is `toEntity` of the document, or the document itself |
| Codec.SecretFrom | src/paging-v3.ts:229 | the secret is never empty: the variable when it is set and non-empty, otherwise the default |
| SessionV3.Decrypt | src/paging-v3.ts:276-286 | the verified payload, or `null` when verifying throws |
| SessionV3.DecryptSide | src/paging-v3.ts:265-270 | a missing token gives `undefined`; an empty token gives `''`; otherwise the token is decrypted |
| SessionV3.Encrypt | src/paging-v3.ts:288-299 | fails exactly when `plain` throws; otherwise it signs the plain payload |
| SessionV3.AliasedCondition | src/paging-v3.ts:227-228 | the condition keeps the caller's keys; entries that `merge` does not write in place are unchanged |
| SessionV3.CorrectedEnvelopeOf | src/paging-v3.ts:342-365 | an empty page gets no links; otherwise the same envelope as written |
| SessionV3.PagingV3.FromProps | src/paging-v3.ts:222-232 | the builder, the copies of the filter, the secret, the limit and the offset, each 0 when missing |
| SessionV3.PagingV3.ApplyCursors | src/paging-v3.ts:238-253 | fails exactly as `CursorPredicate` does; otherwise it sets the direction and merges the seek predicate into the filter |
| SessionV3.PagingV3.ApplySortAndSearch | src/paging-v3.ts:255-262 | the new state is `Finish` of the old one |
| SessionV3.PagingV3.Create | src/paging-v3.ts:222-263 | the object's state is `Setup` of the props, or the same error |
| SessionV3.PagingV3.EncryptAll | src/paging-v3.ts:305-340 | a backward page is reversed in place; the result is `BoundariesOf` the page in forward order |
| SessionV3.PagingV3.Build | src/paging-v3.ts:342-365 | the envelope is `EnvelopeOf` the boundaries and the counts |
| SessionV3.SetupThrows | src/paging-v3.ts:238-253 | throws exactly on two truthy payloads, or when rebuilding the node throws |
| SessionV3.ReverseIffBefore | src/paging-v3.ts:247 | backward iff a truthy `before` payload was decoded |
| SessionV3.FilterHasNoFalsyEntries | src/paging-v3.ts:262 | the final filter has no falsy entry and no key from outside the caller's filter, the seek predicate and `$text` |
| SessionV3.SetupShape | src/paging-v3.ts:222-263 | a successful run is `Finish` of the merged filter and the aliased condition |
| SessionV3.FinishEffect | src/paging-v3.ts:255-262 | the sort for the direction, the text score with a search, pruning by truthiness |
| SessionV3.PruneSearched | src/paging-v3.ts:257-262 | after `$text` is added, pruning keeps it and keeps every other entry exactly when it is truthy |
| SessionV3.FinishKeepsEntry | src/paging-v3.ts:262 | a truthy entry other than `$text` survives the pruning unchanged |
| SessionV3.SeekSetup | src/paging-v3.ts:242-262 | with a seek predicate the state is `Finish` of the merged filter and the aliased condition |
| SessionV3.MergeNewKey | src/paging-v3.ts:253 | merging a key the filter lacks copies the seek value |
| SessionV3.SearchAddsTextAndScore | src/paging-v3.ts:257-260 | a truthy search adds `$text` to the filter and the score to the sort; otherwise neither |
| SessionV3.SeekAddsClauses | src/paging-v3.ts:248-252 | when the caller's filter has no seek keys, the filter is the caller's plus the seek clauses |
| SessionV3.DefaultNodeOfNull | src/paging-v3.ts:185-187 | a non-object payload rebuilds the default key as `undefined` |
| SessionV3.UndefinedBoundSelectsNothing | src/paging-v3.ts:41 | `{ $gt: undefined, $exists: true }` holds of no document |
| SessionV3.NoCursorsKeepsCallerKeys | src/paging-v3.ts:228-262 | without cursors, the filter keeps exactly the caller's truthy entries |
| SessionV3.UndecodableTokenSeek | src/paging-v3.ts:242-252 | an after token that does not verify seeks past `undefined` |
| SessionV3.UndecodableTokenFilter | src/paging-v3.ts:242-262 | such a token leaves `_id: { $gt: undefined, $exists: true }` in the filter |
| SessionV3.UndecodableTokenIsNotNoCursor | src/paging-v3.ts:238-253 | such a token adds an `_id` clause that selects nothing, unlike no token at all |
| SessionV3.DefaultAfterBound | src/paging-v3.ts:18-46 | the default key's after bound for ObjectId `h` is `{ _id: { $gt: h, $exists: true } }` |
| SessionV3.AliasedBound | src/paging-v3.ts:227-253 | merging that bound into a shared `{ $ne: x }` clause changes the count condition |
| SessionV3.ConditionTakesSeekBound | src/paging-v3.ts:227-252 | as written: a nested filter entry shared through the shallow clone receives the seek bound |
| SessionV3.CorrectedSetup | src/paging-v3.ts:199-202 | corrected: the count condition is the caller's filter; the rest is unchanged |
| SessionV3.BackwardPageBoundaries | src/paging-v3.ts:311-335 | on a backward page, the first fetched document bounds the next page and the last fetched one the previous page |
| SessionV3.NextFilterSelectsFollowing | src/paging-v3.ts:316-321 | `filterNext` selects exactly the filtered documents after the last one in sort order |
| SessionV3.PreviousFilterSelectsPreceding | src/paging-v3.ts:325-331 | `filterPrevious` selects exactly the filtered documents before the first one |
| SessionV3.DefaultNodeOfText | src/paging-v3.ts:185-187 | a payload with an ObjectId's text rebuilds that ObjectId |
| SessionV3.DefaultAfterSeek | src/paging-v3.ts:242-252 | an after token carrying an ObjectId's text makes the default key seek past that ObjectId |
| SessionV3.DefaultBeforeSeek | src/paging-v3.ts:242-252 | a before token carrying an ObjectId's text makes the default key seek backwards before it |
| SessionV3.EncryptDecrypt | src/paging-v3.ts:276-299 | `decrypt(encrypt(node))` under a codec that recovers what it signs carries every field of `plain(node)` |
| SessionV3.SeekDependsOnKeys | src/paging-v3.ts:84-126 | `afterOf` and `beforeOf` depend on a document only through its key fields |
| SessionV3.TokenRebuildsNode | src/paging-v3.ts:176-190 | when the key builders turn each key's text back into its value, the node rebuilt from a node's token has the same seek predicates |
| SessionV3.NextTokenResumesAfterLast | src/paging-v3.ts:316-334 | for any key configuration whose builders invert `plain` on the last document's keys, the next-link token, given as `after`, seeks with exactly the bound `filterNext` counted |
| SessionV3.PreviousTokenResumesBeforeFirst | src/paging-v3.ts:325-335 | for any key configuration whose builders invert `plain` on the first document's keys, the previous-link token, given as `before`, seeks backward with exactly the bound `filterPrevious` counted |
| SessionV3.DefaultKeyRebuildsPivot | src/paging-v3.ts:18-23 | the default key inverts `plain` on an ObjectId `_id`, so both round trips hold for it |
| SessionV3.EnvelopeFollowsCounts | src/paging-v3.ts:342-365 | a link is null iff its count is 0 and otherwise carries the count and token; `length` is the page length |
| SessionV3.EmptyPageLinksAsWritten | src/paging-v3.ts:305-306 | as written: an empty page gets links with token "undefined" whenever the store counts anything for `undefined` |
| SessionV1.ObjectIdFrom | src/paging.ts:58 | a 24-hex string or an ObjectId gives an ObjectId; `undefined` and `null` give a new one |
| SessionV1.Make | src/paging.ts:156-158 | a falsy `KeyType` uses the raw cursor; the default `KeyType` builds an ObjectId as `ObjectIdFrom`; a given constructor is applied |
| SessionV1.AfterOf | src/paging.ts:155-160 | `{ $gt }` for `ASC`, `{ $lt }` otherwise, on the constructed value; fails exactly when the constructor throws |
| SessionV1.BeforeOf | src/paging.ts:167-173 | the mirror of `AfterOf` |
| SessionV1.BeforeIsReversedAfter | src/paging.ts:155-173 | `beforeOf` is `afterOf` under the reversed direction |
| SessionV1.Parse | src/paging.ts:186-196 | throws "Pagination error." exactly when verifying fails; otherwise gives the verified payload |
| SessionV1.Stringify | src/paging.ts:198-205 | signs the payload `{ cursor }` |
| SessionV1.DecryptSide | src/paging.ts:175-180 | a missing token gives `undefined`; an empty token gives `''`; otherwise the token is parsed |
| SessionV1.KeptIsNotEmpty | src/paging.ts:145-149 | pruning drops exactly `undefined`, `null`, `''` and `[]`; it keeps `0`, `false` and `{}` |
| SessionV1.Paging.FromProps | src/paging.ts:86-103 | defaults: key `_id`, direction `ASC`, filter `{}`; the secret |
| SessionV1.Paging.ApplyCursors | src/paging.ts:108-130 | fails exactly as `CursorEntry` does; otherwise it sets the direction and the key's entry, in the condition too when it is the filter object |
| SessionV1.Paging.ApplySortAndSearch | src/paging.ts:132-149 | the new state is `FinishV1` of the old one |
| SessionV1.Paging.Create | src/paging.ts:82-150 | the object's state is `SetupV1` of the props, or the same error |
| SessionV1.Paging.Cursor | src/paging.ts:211-239 | a backward page is reversed in place; the result is `CursorOf` the page in forward order; the filter is unchanged |
| SessionV1.Paging.Build | src/paging.ts:241-262 | the envelope is `EnvelopeV1` of the `cursor` result, or the error `cursor` throws |
| SessionV1.SetupThrowsV1 | src/paging.ts:108-130 | throws "Pagination error." iff a token does not verify; then on two truthy payloads; then `TypeError` on a falsy `after` and a missing `before` |
| SessionV1.ReverseIffBeforeV1 | src/paging.ts:114 | backward iff a truthy `before` payload was decoded |
| SessionV1.PruneKeepsCallerEntriesV1 | src/paging.ts:145-149 | the caller's other entries survive exactly when `Kept`, unchanged |
| SessionV1.SortV1 | src/paging.ts:132-143 | the key with the traversal's direction, then the text score with a search; a key named `score` is replaced by it |
| SessionV1.BoundSelectsSuccessors | src/paging.ts:155-160 | the bound for `ASC`/`DESC` selects the documents after the value under the one-key sort |
| SessionV1.StrictSelects | src/paging.ts:155-160 | a `{ $gt }` or `{ $lt }` bound holds of a document iff its field compares strictly with the bound |
| SessionV1.EntrySetupV1 | src/paging.ts:108-149 | once the cursors give a key entry, the constructor succeeds: the direction is the decoded one, and the entry survives the pruning at the key of the filter |
| SessionV1.MirroredBoundSelectsPredecessors | src/paging.ts:162-167 | the mirrored bound selects the documents after the value under the reversed sort, that is those before it under the caller's |
| SessionV1.AfterTokenSeekV1 | src/paging.ts:108-138 | an after token gives a forward traversal, and the key's entry selects the documents after the cursor under the constructor's sort |
| SessionV1.BeforeTokenSeekV1 | src/paging.ts:108-138 | a before token gives a backward traversal, and the key's entry selects the documents before the cursor in the caller's direction |
| SessionV1.ConditionTakesSeekBoundV1 | src/paging.ts:101-129 | as written: the count condition is the filter object and receives the seek bound |
| SessionV1.CorrectedSetupV1 | src/paging.ts:64 | corrected: the count condition is the caller's filter; the rest is unchanged |
| SessionV1.NeighbourFiltersV1 | src/paging.ts:219-238 | `filterNext` and `filterPrevious` equal the filter except at the key, which holds the bounds past the last and before the first document |
| SessionV1.NeighbourFiltersSelectV1 | src/paging.ts:219-230 | those key entries select the documents after the last and before the first one |
| SessionV1.EmptyPageBoundsV1 | src/paging.ts:219-234 | on an empty page both tokens wrap `undefined` and both bounds use a newly generated ObjectId |
| SessionV1.NextTokenResumesAfterLastV1 | src/paging.ts:219-233 | for any `KeyType` that rebuilds the same value from the token's decoded `cursor` (extra claims such as `iat` allowed), the next-link token, given as `after`, makes the constructor seek forward with the bound `filterNext` counted, plus `$exists` |
| SessionV1.PreviousTokenResumesBeforeFirstV1 | src/paging.ts:226-234 | under the same hypothesis, the previous-link token, given as `before`, seeks backward with the bound `filterPrevious` counted, plus `$exists` |
| SessionV1.DefaultTypeRebuildsObjectId | src/paging.ts:58 | the default `KeyType` rebuilds an ObjectId from its JSON text, so both round trips hold for it |
| SessionV1.EnvelopeFollowsCountsV1 | src/paging.ts:241-262 | a link is null iff its count is 0 and otherwise carries the count and token; `length` is the page length |
| PageNumbers.SizeOf | src/paging.ts:272 | a missing or zero size is 10; the size is never 0 |
| PageNumbers.LimitOf | src/paging.ts:273 | a given non-zero limit is kept; a missing or zero limit is the size |
| PageNumbers.SkipOf | src/paging.ts:274 | a given offset is kept; a missing offset is 0 |
| PageNumbers.CeilDiv | src/paging.ts:282-283 | `Math.ceil(a / b)` is the least `r` with `a <= r * b` |
| PageNumbers.SliceBound | src/paging.ts:317 | a bound within the array is kept; a negative bound counts from the end, stopping at 0; a bound past the end is the end |
| PageNumbers.JsSlice | src/paging.ts:317 | `slice` takes the elements between the resolved bounds; every element comes from the array |
| PageNumbers.Window | src/paging.ts:299-316 | after the clamps the window never ends past the last page |
| PageNumbers.Find | src/paging.ts:322 | `find` reports whether some listed entry has the index |
| PageNumbers.PagingWithPage.constructor | src/paging.ts:271-277 | the defaults for size, limit, offset and filter |
| PageNumbers.Paginate | src/paging.ts:289-343 | building every page, clamping the window, slicing and adding the missing ends gives exactly `Pagination` |
| PageNumbers.PagingWithPage.Build | src/paging.ts:279-351 | `count` is `countDocuments` of the filter the constructor set; `from` is the offset and `to` the offset plus the page length; the pages are `Listed`, the pagination for `ceil(count/size)` pages at page `ceil(skip/size)+1` |
| PageNumbers.WindowEntriesDescribeTheirPage | src/paging.ts:289-317 | every page of any slice of the full list has offset `(index-1)*size` and limit `size`, and is `current` iff it is the current page |
| PageNumbers.PaginationEntriesDescribeTheirPage | src/paging.ts:289-343 | every listed entry, window page or fix-up, has offset `(index-1)*size` and limit `size`, and is `current` iff it is the current page |
| PageNumbers.PaginationHasEnds | src/paging.ts:322-343 | page 1 and the last page are always listed |
| PageNumbers.MoreMarksFixUps | src/paging.ts:322-343 | an entry is marked `more` exactly when it is a fix-up outside the sliced window, and then it is the first or the last page |
| PageNumbers.WindowSkipsPages | src/paging.ts:313-317 | as written: 40 documents in pages of 10 list pages 1, 3 and 4, not page 2 |
| PageNumbers.FortyDocumentsArePagesOneToFour | src/paging.ts:281-282 | 40 documents in pages of 10 from offset 0 make 4 pages with page 1 current |
| PageNumbers.ShiftedWindowOfFour | src/paging.ts:299-317 | for 4 pages at page 1 the window is `(-2, 4)`, and the slice holds only pages 3 and 4 |
| PageNumbers.ClampedWindow | src/paging.ts:299-317 | corrected: the window lies within the pages, has width `min(6, length)` and holds the current page |
| PageNumbers.ClampedWindowIsConsecutive | src/paging.ts:289-317 | under the corrected window the listed pages are consecutive and include the current one |
| PageNumbers.EmptyCollectionPages | src/paging.ts:289-343 | with no pages the listing is page 1 and a page 0 with a negative offset, both marked `more` |

## Left out

- Floating-point numbers. `Num` holds integers, so `NaN`, infinities and fractional sizes, offsets and counts are not modelled.
- Negative page sizes, limits and offsets for `PagingWithPage`. A negative `Number` is truthy in the source, and the model's inputs are naturals.
- The driver's ObjectId generation (clock and counter) is the `generated` parameter. One `generated` id stands for every `new ObjectId()` call, so on an empty page v1's `afterOf(undefined)` and `beforeOf(undefined)` share one id where the driver makes two. `new ObjectId(n)` for a number `n` (the number as timestamp) is modelled as the generated id too. The 12-byte binary form of `new ObjectId(s)` is not modelled.
- Nested (dotted) key paths. Keys are top-level field names, and property lookups on strings and arrays read as `undefined`.
- lodash `merge` of class instances, `Date`s and other non-plain objects. Only plain objects and arrays are merged. An object source merged onto an existing array, ObjectId or `Date` destination is built as a fresh object, where lodash writes into the destination in place.
- Put: appends a new key at the end, whereas JavaScript objects list integer-like keys (such as "1") first; the model keeps insertion order for every key.
- `async`/`await` and the store round trips. `countDocuments` is the `count` parameter, and the three counts are independent of their order.
- `jsonwebtoken` and `JSON` are abstract codecs. The signed tokens' own claims (such as `iat`) are not modelled; the token lemmas only ask that verification gives back the signed `cursor` (v1) or the signed key fields (v3), so extra claims are allowed.
- The JSON branch of `decrypt`/`parse` and `encrypt`/`stringify` is modelled, but it is unreachable, because the secret is never empty.
- `Date` rendering (`toISOString`, `toString`) is the abstract `DateText`.
- The caller's own `props.filter` being changed by v1's constructor is not modelled: the model keeps only the paging object's view of that object.
- A `null` or `undefined` page passed to `encryptAll` or `cursor`. The model takes an array.
- The TypeScript interfaces and DTO classes (src/paging.ts:5-53) and the `bind` calls, which carry no behaviour.
- The store's query language outside `$gt`, `$lt`, `$eq`, `$exists`, `$and`, `$or` and field equality. `$ne` and `$text` are not interpreted: in `Matches` a `$text` clause (not a field name) matches no document, so `SessionV3.NextFilterSelectsFollowing` and `SessionV3.PreviousFilterSelectsPreceding` hold only vacuously when a search term is set.

## Findings

| source | as written | input that shows it | evidently intended | confidence | as-written member | corrected member |
|---|---|---|---|---|---|---|
| src/paging-v3.ts:306 | `encryptAll` returns only `{ data }` for an empty page; `build` then counts with `undefined` filters and prints the token "undefined" | an empty page on a store whose `countDocuments(undefined)` counts the whole collection | an empty page has no next and no previous link | not executed | SessionV3.EmptyPageLinksAsWritten | SessionV3.CorrectedEnvelopeOf |
| src/paging.ts:313-317 | the right clamp moves `from` below 0, and `slice` then counts from the end | 40 documents, size 10, offset 0: pages 1, 3, 4 are listed | `from` stops at 0, so pages 1 to 4 are listed | not executed | PageNumbers.WindowSkipsPages | PageNumbers.ClampedWindow |
| src/paging-v3.ts:227-252 | `clone` is shallow, so `merge` writes the seek bound into a nested entry the count condition shares | filter `{ _id: { $ne: x } }` with an after token for ObjectId `h`: the condition becomes `{ _id: { $ne: x, $gt: h, $exists: true } }` | the count condition is the caller's filter | not executed | SessionV3.ConditionTakesSeekBound | SessionV3.CorrectedSetup |
| src/paging.ts:101-129 | `condition` and `filter` are one object, so the seek bound lands in the count condition | no filter, with an after token for ObjectId `h`: the condition becomes `{ _id: { $gt: h, $exists: true } }` | the count condition is the caller's filter | not executed | SessionV1.ConditionTakesSeekBoundV1 | SessionV1.CorrectedSetupV1 |
