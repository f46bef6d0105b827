/** The offset/limit pagination loop of src/utils/paginate.js. The callback is
    the caller's request to the service; it is modelled by the sequence of
    replies it gives, in call order. JavaScript numbers are represented as far
    as the loop needs: an offset is an integer or NaN, the bound it is compared
    with is Infinity, an integer, or `undefined`. */
module Paginate {

  import opened Wrappers

  const LIMIT: int := 100

  /** What the callback returns: `totalCount` and `itemCount`, either of which
      may be `undefined` (`None`). */
  datatype Reply = Reply(totalCount: Option<int>, itemCount: Option<int>)

  /** The argument of one callback invocation. */
  datatype Call = Call(offset: int, limit: int)

  datatype Offset = At(n: int) | NaN

  datatype Bound = Infinity | Finite(n: int) | Undefined

  /** What a run did with the given replies: the calls it made, and whether
      the loop ended (`false` when the replies ran out while it still wanted
      another page). */
  datatype Run = Run(calls: seq<Call>, finished: bool)

  /** `offset < totalCount`; any comparison with NaN or `undefined` is false. */
  predicate Below(offset: Offset, total: Bound) {
    match (offset, total)
    case (At(o), Infinity) => true
    case (At(o), Finite(t)) => o < t
    case _ => false
  }

  /** `offset += itemCount`: adding `undefined` gives NaN. */
  function Advance(offset: Offset, itemCount: Option<int>): Offset {
    match (offset, itemCount)
    case (At(o), Some(k)) => At(o + k)
    case _ => NaN
  }

  function BoundOf(totalCount: Option<int>): Bound {
    match totalCount
    case Some(t) => Finite(t)
    case None => Undefined
  }

  /** The loop from a given state. */
  function Loop(offset: Offset, total: Bound, replies: seq<Reply>): (r: Run)
    ensures |r.calls| <= |replies|
    ensures !r.finished ==> |r.calls| == |replies|
    ensures |r.calls| == 0 <==> !Below(offset, total) || |replies| == 0
    ensures |r.calls| > 0 ==> offset.At? && r.calls[0].offset == offset.n
    ensures forall i :: 0 <= i < |r.calls| ==> r.calls[i].limit == LIMIT
    ensures forall i :: 0 <= i < |r.calls| - 1 ==>
      replies[i].itemCount.Some? && r.calls[i + 1].offset == r.calls[i].offset + replies[i].itemCount.value
    ensures forall i :: 0 <= i < |r.calls| - 1 ==>
      Below(At(r.calls[i + 1].offset), BoundOf(replies[i].totalCount))
    ensures r.finished && |r.calls| > 0 ==>
      var last := |r.calls| - 1;
      !Below(Advance(At(r.calls[last].offset), replies[last].itemCount), BoundOf(replies[last].totalCount))
    decreases |replies|
  {
    if !Below(offset, total) then Run([], true)
    else if |replies| == 0 then Run([], false)
    else
      var next := Advance(offset, replies[0].itemCount);
      var rest := Loop(next, BoundOf(replies[0].totalCount), replies[1..]);
      Run([Call(offset.n, LIMIT)] + rest.calls, rest.finished)
  }

  /** `paginate`: offset 0 against an infinite total, so the callback is
      always called at least once. */
  function Paginate(replies: seq<Reply>): (r: Run)
    ensures |replies| > 0 ==> |r.calls| >= 1 && r.calls[0] == Call(0, LIMIT)
  {
    Loop(At(0), Infinity, replies)
  }

  /** A reply without `itemCount` makes the offset NaN and ends the loop after
      exactly one call, whatever `totalCount` says. */
  lemma MissingItemCountStopsAfterOneCall(replies: seq<Reply>)
    requires |replies| > 0 && replies[0].itemCount.None?
    ensures Paginate(replies) == Run([Call(0, LIMIT)], true)
  {
    assert Advance(At(0), replies[0].itemCount) == NaN;
    assert Loop(NaN, BoundOf(replies[0].totalCount), replies[1..]) == Run([], true);
  }

  /** When every reply reports a positive item count, the offsets strictly
      increase. */
  lemma {:induction false} OffsetsIncrease(replies: seq<Reply>, i: nat, j: nat)
    requires forall k :: 0 <= k < |replies| ==> replies[k].itemCount.Some? && replies[k].itemCount.value > 0
    requires i < j < |Paginate(replies).calls|
    ensures Paginate(replies).calls[i].offset < Paginate(replies).calls[j].offset
    decreases j - i
  {
    var calls := Paginate(replies).calls;
    if j == i + 1 {
      assert calls[j].offset == calls[i].offset + replies[i].itemCount.value;
    } else {
      OffsetsIncrease(replies, i, j - 1);
      assert calls[j].offset == calls[j - 1].offset + replies[j - 1].itemCount.value;
    }
  }

  /** The reply the listing commands build (src/commands/request/list.js,
      tune/list.js, file/list.js): the count is stored under `itemsCount`, so
      the `itemCount` that `paginate` reads is `undefined`. */
  function CallerReply(totalCount: Option<int>, resultsLength: nat): (r: Reply)
    ensures r.totalCount == totalCount && r.itemCount.None?
  {
    Reply(totalCount, None)
  }

  /** As written, a listing fetches only its first page: with 250 items on the
      service and full pages of 100, one call is made and the loop ends. */
  lemma ListingsFetchOnePage()
    ensures Paginate([CallerReply(Some(250), 100), CallerReply(Some(250), 100), CallerReply(Some(250), 50)])
      == Run([Call(0, LIMIT)], true)
  {
  }

  /** The reply the listing commands evidently meant to build. */
  function CorrectedCallerReply(totalCount: Option<int>, resultsLength: nat): (r: Reply)
    ensures r.totalCount == totalCount && r.itemCount == Some(resultsLength)
  {
    Reply(totalCount, Some(resultsLength))
  }

  /** The replies of a service holding `total` items: the page at offset
      `k * LIMIT` holds the remaining items, at most `LIMIT` of them. */
  function ServiceReplies(total: nat, pages: nat): (r: seq<Reply>)
    ensures |r| == pages
    ensures forall k :: 0 <= k < pages ==>
      r[k] == CorrectedCallerReply(Some(total), PageLength(total, k))
  {
    seq(pages, k requires 0 <= k < pages => CorrectedCallerReply(Some(total), PageLength(total, k)))
  }

  function PageLength(total: nat, k: nat): nat {
    if total <= k * LIMIT then 0
    else if total - k * LIMIT < LIMIT then total - k * LIMIT
    else LIMIT
  }

  /** With the corrected replies, listing `total > 0` items calls the service
      once per page, at offsets 0, 100, 200, ..., and then stops. */
  lemma CorrectedListingFetchesEveryPage(total: nat, pages: nat)
    requires total > 0 && pages == (total + LIMIT - 1) / LIMIT
    ensures Paginate(ServiceReplies(total, pages)).finished
    ensures |Paginate(ServiceReplies(total, pages)).calls| == pages
    ensures forall k :: 0 <= k < pages ==> Paginate(ServiceReplies(total, pages)).calls[k] == Call(k * LIMIT, LIMIT)
  {
    var replies := ServiceReplies(total, pages);
    PagesBound(total, pages);
    FromPage(total, pages, 0, Infinity);
    assert replies[0..] == replies;
  }

  /** The loop started at page `k` visits pages `k` to `pages - 1`. */
  lemma {:induction false} FromPage(total: nat, pages: nat, k: nat, bound: Bound)
    requires total > 0 && pages == (total + LIMIT - 1) / LIMIT
    requires k < pages
    requires bound == Infinity || bound == Finite(total)
    ensures var r := Loop(At(k * LIMIT), bound, ServiceReplies(total, pages)[k..]);
      && r.finished
      && |r.calls| == pages - k
      && PagesFrom(r.calls, k)
    decreases pages - k
  {
    var all := ServiceReplies(total, pages);
    var r := Loop(At(k * LIMIT), bound, all[k..]);
    PageStep(total, pages, k, bound);
    if k + 1 == pages {
      assert r == Run([Call(k * LIMIT, LIMIT)], true);
      ConsecutivePages(k, []);
    } else {
      var rest := Loop(At((k + 1) * LIMIT), Finite(total), all[k + 1..]);
      assert r == Run([Call(k * LIMIT, LIMIT)] + rest.calls, rest.finished);
      FromPage(total, pages, k + 1, Finite(total));
      ConsecutivePages(k, rest.calls);
    }
  }

  /** The call at page `k`, then the rest of the loop: nothing after the last
      page, otherwise the loop from page `k + 1` against the service's total. */
  lemma PageStep(total: nat, pages: nat, k: nat, bound: Bound)
    requires total > 0 && pages == (total + LIMIT - 1) / LIMIT
    requires k < pages
    requires bound == Infinity || bound == Finite(total)
    ensures var all := ServiceReplies(total, pages);
      var rest := if k + 1 == pages then Run([], true) else Loop(At((k + 1) * LIMIT), Finite(total), all[k + 1..]);
      Loop(At(k * LIMIT), bound, all[k..]) == Run([Call(k * LIMIT, LIMIT)] + rest.calls, rest.finished)
  {
    var all := ServiceReplies(total, pages);
    var replies := all[k..];
    PageFacts(total, pages, k);
    assert Below(At(k * LIMIT), bound);
    assert replies[0] == all[k];
    assert replies[1..] == all[k + 1..];
    LoopStep(At(k * LIMIT), bound, replies);
    if k + 1 == pages {
      assert Advance(At(k * LIMIT), replies[0].itemCount) == At(total);
      assert Loop(At(total), Finite(total), all[k + 1..]) == Run([], true);
    } else {
      assert Advance(At(k * LIMIT), replies[0].itemCount) == At((k + 1) * LIMIT);
    }
  }

  /** The calls are at consecutive pages from page `k`. */
  predicate PagesFrom(calls: seq<Call>, k: nat) {
    forall i :: 0 <= i < |calls| ==> calls[i] == Call((k + i) * LIMIT, LIMIT)
  }

  /** A call at page `k` followed by calls at consecutive pages from `k + 1`
      are calls at consecutive pages from `k`. */
  lemma ConsecutivePages(k: nat, rest: seq<Call>)
    requires PagesFrom(rest, k + 1)
    ensures PagesFrom([Call(k * LIMIT, LIMIT)] + rest, k)
  {
    var calls := [Call(k * LIMIT, LIMIT)] + rest;
    forall i | 0 <= i < |calls|
      ensures calls[i] == Call((k + i) * LIMIT, LIMIT)
    {
      if i == 0 {
        assert k + i == k;
      } else {
        assert calls[i] == rest[i - 1];
        assert k + 1 + (i - 1) == k + i;
      }
    }
  }

  /** One round of the loop when the offset is below the bound. */
  lemma LoopStep(offset: Offset, total: Bound, replies: seq<Reply>)
    requires Below(offset, total) && |replies| > 0
    ensures var rest := Loop(Advance(offset, replies[0].itemCount), BoundOf(replies[0].totalCount), replies[1..]);
      Loop(offset, total, replies) == Run([Call(offset.n, LIMIT)] + rest.calls, rest.finished)
  {
  }

  /** Page `k` starts below `total`; the last page holds the remainder and
      every other page is full. */
  lemma PageFacts(total: nat, pages: nat, k: nat)
    requires total > 0 && pages == (total + LIMIT - 1) / LIMIT
    requires k < pages
    ensures k * LIMIT < total
    ensures (k + 1) * LIMIT == k * LIMIT + LIMIT
    ensures k + 1 == pages ==> PageLength(total, k) == total - k * LIMIT
    ensures k + 1 < pages ==> (k + 1) * LIMIT < total && PageLength(total, k) == LIMIT
  {
    PagesBound(total, pages);
    assert k * LIMIT < total by { assert k <= pages - 1; }
    if k + 1 < pages {
      assert (k + 1) * LIMIT < total by { assert k + 1 <= pages - 1; }
    }
  }

  /** `pages` pages of `LIMIT` cover `total`, and one fewer does not. */
  lemma PagesBound(total: nat, pages: nat)
    requires total > 0 && pages == (total + LIMIT - 1) / LIMIT
    ensures pages >= 1
    ensures (pages - 1) * LIMIT < total <= pages * LIMIT
  {
  }
}
