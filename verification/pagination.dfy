/**
 * The generic "fetch every page" driver. A paged method is given by the
 * answers it gives to the calls for page 0, 1, 2, ...; past the last answer
 * it returns an empty page, as a listing API does once nothing is left.
 */
module Pagination {
  import opened Results
  import opened Domain

  /** What one call of the paged method settles to. */
  datatype PageResponse<T> = Page(items: seq<T>) | Rejected(msg: string)

  const DefaultPageSize := 100

  function PageAt<T>(responses: seq<PageResponse<T>>, k: nat): PageResponse<T> {
    if k < |responses| then responses[k] else Page([])
  }

  /** The call for page `k` returned exactly a page's worth of items. */
  predicate FullPage<T>(responses: seq<PageResponse<T>>, pageSize: nat, k: nat) {
    PageAt(responses, k).Page? && |PageAt(responses, k).items| == pageSize
  }

  /** The items of pages `from` up to (not including) `to`, in order. */
  function Fetched<T>(responses: seq<PageResponse<T>>, from: nat, to: nat): seq<T>
    decreases to - from
  {
    if to <= from then []
    else (if PageAt(responses, from).Page? then PageAt(responses, from).items else []) + Fetched(responses, from + 1, to)
  }

  /** `acc` in front of a settled result; a rejection passes through. */
  function Prepend<T>(acc: seq<T>, r: Result<seq<T>>): Result<seq<T>> {
    match r
    case Ok(rest) => Ok(acc + rest)
    case Err(msg) => Err(msg)
  }

  lemma PrependTwice<T>(a: seq<T>, b: seq<T>, r: Result<seq<T>>)
    ensures Prepend(a, Prepend(b, r)) == Prepend(a + b, r)
  {
    if r.Ok? {
      assert a + (b + r.value) == (a + b) + r.value;
    }
  }

  lemma PrependNothing<T>(r: Result<seq<T>>)
    ensures Prepend([], r) == r
  {
    if r.Ok? {
      assert [] + r.value == r.value;
    }
  }

  /** What paging from page `k` onwards settles to. */
  function Collect<T>(responses: seq<PageResponse<T>>, pageSize: nat, k: nat): Result<seq<T>>
    requires pageSize > 0
    decreases |responses| - k
  {
    match PageAt(responses, k)
    case Rejected(msg) => Err(msg)
    case Page(data) =>
      if |data| == pageSize then Prepend(data, Collect(responses, pageSize, k + 1))
      else if |data| < pageSize then Ok(data)
      else Ok([])
  }

  /** How many calls paging from page `k` onwards makes. */
  function FetchCount<T>(responses: seq<PageResponse<T>>, pageSize: nat, k: nat): nat
    requires pageSize > 0
    decreases |responses| - k
  {
    if FullPage(responses, pageSize, k) then 1 + FetchCount(responses, pageSize, k + 1) else 1
  }

  /**
   * paginateRequest: calls the paged method with `page` = 0, 1, 2, ... and
   * `per_page` = `pageSize`, keeping every full page and going on, keeping a
   * shorter page and stopping, dropping a longer page and stopping.
   */
  method Paginate<T>(responses: seq<PageResponse<T>>, pageSize: nat) returns (result: Result<seq<T>>, requests: seq<PageRequest>)
    requires pageSize > 0
    ensures result == Collect(responses, pageSize, 0)
    ensures |requests| == FetchCount(responses, pageSize, 0)
    ensures forall i :: 0 <= i < |requests| ==> requests[i] == PageRequest(i, pageSize)
  {
    var page: nat := 0;
    var cumulative: seq<T> := [];
    requests := [];
    PrependNothing(Collect(responses, pageSize, 0));
    while true
      invariant page <= |responses|
      invariant |requests| == page
      invariant forall i :: 0 <= i < page ==> requests[i] == PageRequest(i, pageSize)
      invariant Collect(responses, pageSize, 0) == Prepend(cumulative, Collect(responses, pageSize, page))
      invariant FetchCount(responses, pageSize, 0) == page + FetchCount(responses, pageSize, page)
      decreases |responses| - page
    {
      requests := requests + [PageRequest(page, pageSize)];
      match PageAt(responses, page)
      case Rejected(msg) =>
        return Err(msg), requests;
      case Page(data) =>
        if |data| == pageSize {
          PrependTwice(cumulative, data, Collect(responses, pageSize, page + 1));
          cumulative := cumulative + data;
          page := page + 1;
        } else if |data| < pageSize {
          return Ok(cumulative + data), requests;
        } else {
          assert cumulative + [] == cumulative;
          return Ok(cumulative), requests;
        }
    }
  }

  /** Paging across a run of full pages keeps all of them and makes one call per page. */
  lemma {:induction false} CollectAcrossFullPages<T>(responses: seq<PageResponse<T>>, pageSize: nat, s: nat, k: nat)
    requires pageSize > 0 && s <= k
    requires forall j :: s <= j < k ==> FullPage(responses, pageSize, j)
    ensures Collect(responses, pageSize, s) == Prepend(Fetched(responses, s, k), Collect(responses, pageSize, k))
    ensures FetchCount(responses, pageSize, s) == (k - s) + FetchCount(responses, pageSize, k)
    decreases k - s
  {
    if s == k {
      PrependNothing(Collect(responses, pageSize, k));
    } else {
      assert FullPage(responses, pageSize, s);
      var data := PageAt(responses, s).items;
      assert Collect(responses, pageSize, s) == Prepend(data, Collect(responses, pageSize, s + 1));
      assert Fetched(responses, s, k) == data + Fetched(responses, s + 1, k);
      assert FetchCount(responses, pageSize, s) == 1 + FetchCount(responses, pageSize, s + 1);
      CollectAcrossFullPages(responses, pageSize, s + 1, k);
      PrependTwice(data, Fetched(responses, s + 1, k), Collect(responses, pageSize, k));
    }
  }

  /** A shorter page after full ones ends paging; the result is every page fetched, that one included, in order. */
  lemma ShortPageEndsPaging<T>(responses: seq<PageResponse<T>>, pageSize: nat, k: nat, data: seq<T>)
    requires pageSize > 0
    requires forall j :: 0 <= j < k ==> FullPage(responses, pageSize, j)
    requires PageAt(responses, k) == Page(data) && |data| < pageSize
    ensures Collect(responses, pageSize, 0) == Ok(Fetched(responses, 0, k) + data)
    ensures FetchCount(responses, pageSize, 0) == k + 1
  {
    CollectAcrossFullPages(responses, pageSize, 0, k);
  }

  /** A longer page after full ones ends paging and is dropped; the result is the full pages before it. */
  lemma LongPageIsDropped<T>(responses: seq<PageResponse<T>>, pageSize: nat, k: nat, data: seq<T>)
    requires pageSize > 0
    requires forall j :: 0 <= j < k ==> FullPage(responses, pageSize, j)
    requires PageAt(responses, k) == Page(data) && |data| > pageSize
    ensures Collect(responses, pageSize, 0) == Ok(Fetched(responses, 0, k))
    ensures FetchCount(responses, pageSize, 0) == k + 1
  {
    CollectAcrossFullPages(responses, pageSize, 0, k);
    assert Fetched(responses, 0, k) + [] == Fetched(responses, 0, k);
  }

  /** A call that rejects after full pages ends paging with that rejection; nothing is returned. */
  lemma RejectionEndsPaging<T>(responses: seq<PageResponse<T>>, pageSize: nat, k: nat, msg: string)
    requires pageSize > 0
    requires forall j :: 0 <= j < k ==> FullPage(responses, pageSize, j)
    requires PageAt(responses, k) == Rejected(msg)
    ensures Collect(responses, pageSize, 0) == Err(msg)
    ensures FetchCount(responses, pageSize, 0) == k + 1
  {
    CollectAcrossFullPages(responses, pageSize, 0, k);
  }
}
