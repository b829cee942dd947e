/**
  The pagination cursor of cofactr/cursor.py: a pull-driven iterator over the
  entities of a paginated endpoint. It fetches one page when it is built and,
  afterwards, one page each time the current page is used up and the page's
  `next` link still carries parameters.

  The `request` callback (the HTTP call with its fixed positional and keyword
  arguments) is the function `fetch` from the keyword arguments that
  `request_batch` adds to a page.
 */
module Pagination {
  import opened Json
  import opened Query

  /** The keyword arguments `request_batch` passes to `request`. */
  datatype Request = Request(before: Option<string>, after: Option<string>, limit: int)

  /** A response body: the page's entities and its paging links. */
  datatype Page<T> = Page(data: seq<T>, paging: map<string, Option<string>>)

  /**
    What the paging links of a used-up page say to do: stop, fetch the page
    `req` names, or fail with `KeyError` because a paging link is missing.
   */
  datatype Link = End | Follow(req: Request) | Broken

  /** One answer of `__next__`: an entity, `StopIteration`, or an exception. */
  datatype Step<T> = Item(value: T) | Stop | Fail(error: Error)

  /** `params.get(key)`, as a keyword argument whose default is `None`. */
  function Param(params: map<string, string>, key: string): Option<string>
  {
    if key in params then Some(params[key]) else None
  }

  /**
    `request_batch(before, after)`: the page size is always `batch_size`; any other
    parameter of a next link lands in the unused `**kwargs`.
   */
  function BatchRequest(before: Option<string>, after: Option<string>, batchSize: int): Request
  {
    Request(before, after, batchSize)
  }

  /**
    The step `__next__` takes on a used-up page: stop, fail, or fetch the next page.
    Only the next link decides it; `NextLinkFromPagingData` shows this is what
    `parse_paging_data` followed by the test on `paging["next"]` gives.
   */
  function NextLink<T>(page: Page<T>, batchSize: int): Link
  {
    if "previous" !in page.paging || "next" !in page.paging then Broken
    else
      var next := ParseQueryParams(page.paging["next"]);
      if next == map[] then End
      else Follow(BatchRequest(Param(next, "before"), Param(next, "after"), batchSize))
  }

  /**
    A used-up page fails with `KeyError` when a paging link is missing, stops when
    the parsed next link is empty, and otherwise requests `before`/`after` of the
    parsed next link with a page size of `batchSize`.
   */
  lemma NextLinkFromPagingData<T>(page: Page<T>, batchSize: int)
    ensures NextLink(page, batchSize).Broken? <==> ParsePagingData(page.paging).Err?
    ensures NextLink(page, batchSize).Broken? ==> ParsePagingData(page.paging).error == KeyError
    ensures NextLink(page, batchSize).End? <==>
              ParsePagingData(page.paging).Ok? && ParsePagingData(page.paging).value.next == map[]
    ensures NextLink(page, batchSize).Follow? ==>
              var next := ParsePagingData(page.paging).value.next;
              && ParsePagingData(page.paging).Ok? && next != map[]
              && NextLink(page, batchSize).req == Request(Param(next, "before"), Param(next, "after"), batchSize)
  {}

  /** `if self.limit and self.i >= self.limit`: a limit of `None` or `0` never stops. */
  predicate LimitReached(limit: Option<int>, i: int)
  {
    limit.Some? && limit.value != 0 && i >= limit.value
  }

  /** A limit of `None` or `0` never stops the cursor, a positive one stops it after that many items, a negative one at once. */
  lemma LimitCases(n: int, i: nat)
    ensures !LimitReached(None, i) && !LimitReached(Some(0), i)
    ensures n > 0 ==> (LimitReached(Some(n), i) <==> i >= n)
    ensures n < 0 ==> LimitReached(Some(n), i)
  {
  }

  /**
    Only `before` and `after` of a next link matter: two used-up pages whose
    parsed next links agree on them lead to the same request.
   */
  lemma NextLinkOnlyBeforeAfter<T>(p: Page<T>, q: Page<T>, batchSize: int)
    requires ParsePagingData(p.paging).Ok? && ParsePagingData(q.paging).Ok?
    requires ParsePagingData(p.paging).value.next != map[] && ParsePagingData(q.paging).value.next != map[]
    requires Param(ParsePagingData(p.paging).value.next, "before") == Param(ParsePagingData(q.paging).value.next, "before")
    requires Param(ParsePagingData(p.paging).value.next, "after") == Param(ParsePagingData(q.paging).value.next, "after")
    ensures NextLink(p, batchSize).Follow? && NextLink(p, batchSize) == NextLink(q, batchSize)
  {
  }

  /** The entities of `pages`, page after page. */
  function Flatten<T>(pages: seq<Page<T>>): seq<T>
  {
    if pages == [] then [] else Flatten(pages[..|pages| - 1]) + pages[|pages| - 1].data
  }

  /** Every page from index `from` up to (not including) `to` holds at least one entity. */
  predicate Filled<T>(pages: seq<Page<T>>, from: nat, to: nat)
    requires to <= |pages|
  {
    forall k :: from <= k < to ==> pages[k].data != []
  }

  /** The step `__next__` takes on each used-up page, as a function of the page. */
  ghost function LinksOf<T>(batchSize: int): Page<T> -> Link
  {
    page => NextLink(page, batchSize)
  }

  /** Every page after the first was fetched with the request its predecessor's link gives. */
  ghost predicate Chained<T>(requests: seq<Request>, pages: seq<Page<T>>, follow: Page<T> -> Link)
    requires |requests| == |pages|
  {
    forall k {:trigger follow(pages[k])} ::
      0 <= k < |pages| - 1 ==> follow(pages[k]) == Follow(requests[k + 1])
  }

  /**
    The reference definition of a pagination run: the page `req` fetches, then
    the pages the links `follow` finds lead to, for at most `n` further fetches.
    The run grows at its end: one more fetch is allowed only while the last
    page's link is followed. The cursor's run is the one with `LinksOf(batchSize)`.
   */
  ghost function ChainFrom<T>(fetch: Request -> Page<T>, follow: Page<T> -> Link, req: Request, n: nat): (pages: seq<Page<T>>)
    ensures 1 <= |pages| <= n + 1 && pages[0] == fetch(req)
    decreases n
  {
    if n == 0 then [fetch(req)]
    else
      var run := ChainFrom(fetch, follow, req, n - 1);
      match follow(run[|run| - 1])
      case Follow(next) => run + [fetch(next)]
      case _ => run
  }

  /** Following next links from `page` stops (or fails) after at most `n` more fetches. */
  ghost predicate EndsWithin<T>(fetch: Request -> Page<T>, batchSize: int, page: Page<T>, n: nat)
    decreases n
  {
    match NextLink(page, batchSize)
    case Follow(req) => n > 0 && EndsWithin(fetch, batchSize, fetch(req), n - 1)
    case _ => true
  }

  /** Following one next link uses up one of the fetches the bound allows. */
  lemma EndsWithinFollow<T>(fetch: Request -> Page<T>, batchSize: int, page: Page<T>, n: nat, req: Request)
    requires EndsWithin(fetch, batchSize, page, n)
    requires NextLink(page, batchSize) == Follow(req)
    ensures n > 0 && EndsWithin(fetch, batchSize, fetch(req), n - 1)
  {}

  /**
    The history of a cursor: each request with the page it returned, chained by
    next links; every page but the last used up, the last one up to `batchI`.
   */
  ghost predicate Consistent<T>(fetch: Request -> Page<T>, batchSize: int, requests: seq<Request>,
                                pages: seq<Page<T>>, batchI: nat, yielded: seq<T>)
  {
    && |requests| == |pages| >= 1
    && (forall k :: 0 <= k < |pages| ==> pages[k] == fetch(requests[k]))
    && Chained(requests, pages, LinksOf(batchSize))
    && batchI <= |pages[|pages| - 1].data|
    && yielded == Flatten(pages[..|pages| - 1]) + pages[|pages| - 1].data[..batchI]
  }

  /** Returning the next entity of the current page keeps the history consistent. */
  lemma ConsistentAfterItem<T>(fetch: Request -> Page<T>, batchSize: int, requests: seq<Request>,
                               pages: seq<Page<T>>, batchI: nat, yielded: seq<T>)
    requires Consistent(fetch, batchSize, requests, pages, batchI, yielded)
    requires batchI < |pages[|pages| - 1].data|
    ensures Consistent(fetch, batchSize, requests, pages, batchI + 1,
                       yielded + [pages[|pages| - 1].data[batchI]])
  {
    var data := pages[|pages| - 1].data;
    assert data[..batchI + 1] == data[..batchI] + [data[batchI]];
  }

  /** Fetching the page a used-up page's next link names keeps the history consistent. */
  lemma ConsistentAfterFollow<T>(fetch: Request -> Page<T>, batchSize: int, requests: seq<Request>,
                                 pages: seq<Page<T>>, batchI: nat, yielded: seq<T>, req: Request)
    requires Consistent(fetch, batchSize, requests, pages, batchI, yielded)
    requires batchI >= |pages[|pages| - 1].data|
    requires NextLink(pages[|pages| - 1], batchSize) == Follow(req)
    ensures Consistent(fetch, batchSize, requests + [req], pages + [fetch(req)], 0, yielded)
  {
    var pages' := pages + [fetch(req)];
    assert pages'[..|pages|] == pages;
    assert pages[|pages| - 1].data[..batchI] == pages[|pages| - 1].data;
    assert fetch(req).data[..0] == [];
    assert Chained(requests + [req], pages', LinksOf(batchSize)) by {
      forall k | 0 <= k < |pages'| - 1
        ensures LinksOf(batchSize)(pages'[k]) == Follow((requests + [req])[k + 1])
      {
        if k < |pages| - 1 {
          assert LinksOf(batchSize)(pages[k]) == Follow(requests[k + 1]);
        }
      }
    }
  }

  class Cursor<T> {
    /** The `request` callback with the cursor's fixed `*args` and `**kwargs`. */
    const fetch: Request -> Page<T>
    const limit: Option<int>
    const batchSize: int

    var i: nat
    var batchI: nat
    var batch: Page<T>

    /** Every request made so far, and the page each one returned. */
    ghost var requests: seq<Request>
    ghost var pages: seq<Page<T>>
    /** Every entity `Next` has returned, in order. */
    ghost var yielded: seq<T>

    ghost predicate Valid()
      reads this
    {
      && Consistent(fetch, batchSize, requests, pages, batchI, yielded)
      && batch == pages[|pages| - 1]
      && i == |yielded|
      && (limit.Some? && limit.value > 0 ==> i <= limit.value)
      && (limit.Some? && limit.value < 0 ==> i == 0)
    }

    /** The iteration is over: the limit is reached, or the page is used up and its next link is empty. */
    ghost predicate Ended()
      reads this
    {
      LimitReached(limit, i) || (batchI >= |batch.data| && NextLink(batch, batchSize).End?)
    }

    /** `__init__`: exactly one fetch, with the caller's `before`/`after` and a page size of `batch_size`. */
    constructor (fetch: Request -> Page<T>, before: Option<string>, after: Option<string>,
                 limit: Option<int>, batchSize: int)
      ensures Valid()
      ensures this.fetch == fetch && this.limit == limit && this.batchSize == batchSize
      ensures requests == [Request(before, after, batchSize)]
      ensures batch == fetch(requests[0]) && pages == [batch]
      ensures i == 0 && batchI == 0 && yielded == []
    {
      this.fetch := fetch;
      this.limit := limit;
      this.batchSize := batchSize;
      i := 0;
      batchI := 0;
      var req := BatchRequest(before, after, batchSize);
      batch := fetch(req);
      requests := [req];
      pages := [fetch(req)];
      yielded := [];
    }

    /** Lines 67-68 of `__next__`: reset the page index and fetch the page the next link names. */
    method FetchNext(req: Request)
      requires Valid() && !LimitReached(limit, i)
      requires batchI >= |batch.data| && NextLink(batch, batchSize) == Follow(req)
      modifies this
      ensures Valid() && !LimitReached(limit, i)
      ensures requests == old(requests) + [req] && pages == old(pages) + [batch]
      ensures batch == fetch(req) && batchI == 0
      ensures i == old(i) && yielded == old(yielded)
    {
      ConsistentAfterFollow(fetch, batchSize, requests, pages, batchI, yielded, req);
      batchI := 0;
      batch := fetch(req);
      requests := requests + [req];
      pages := pages + [batch];
    }

    /** Lines 70-75 of `__next__`: return the current entity of the page and move past it. */
    method Advance() returns (x: T)
      requires Valid() && !LimitReached(limit, i) && batchI < |batch.data|
      modifies this
      ensures Valid()
      ensures x == old(batch.data[batchI])
      ensures batch == old(batch) && batchI == old(batchI) + 1 && i == old(i) + 1
      ensures requests == old(requests) && pages == old(pages) && yielded == old(yielded) + [x]
    {
      ConsistentAfterItem(fetch, batchSize, requests, pages, batchI, yielded);
      x := batch.data[batchI];
      i := i + 1;
      batchI := batchI + 1;
      yielded := yielded + [x];
    }

    /**
      `__next__`. Past the limit it stops without fetching. On a used-up page it
      stops when the next link has no parameters, and otherwise fetches exactly
      one page with that link's `before`/`after`; a fetched page without entities
      makes the indexing fail. Else it returns the next entity of the page.
     */
    method Next() returns (r: Step<T>)
      requires Valid()
      modifies this
      ensures Valid()
      ensures old(requests) <= requests && old(pages) <= pages
      ensures LimitReached(limit, old(i)) ==> r == Stop && unchanged(this)
      ensures !LimitReached(limit, old(i)) && old(batchI) < |old(batch).data| ==>
        && r == Item(old(batch).data[old(batchI)])
        && batch == old(batch) && batchI == old(batchI) + 1 && i == old(i) + 1
        && requests == old(requests) && pages == old(pages) && yielded == old(yielded) + [r.value]
      ensures !LimitReached(limit, old(i)) && old(batchI) >= |old(batch).data| ==>
        match NextLink(old(batch), batchSize)
        case End => r == Stop && unchanged(this)
        case Broken => r == Fail(KeyError) && unchanged(this)
        case Follow(req) =>
          && requests == old(requests) + [req] && batch == fetch(req) && pages == old(pages) + [batch]
          && (if batch.data == [] then
                r == Fail(IndexError) && batchI == 0 && i == old(i) && yielded == old(yielded)
              else
                r == Item(batch.data[0]) && batchI == 1 && i == old(i) + 1
                && yielded == old(yielded) + [batch.data[0]])
      ensures r.Stop? ==> Ended() && unchanged(this)
      ensures r.Fail? ==> r.error == KeyError || r.error == IndexError
      ensures r.Item? ==> !LimitReached(limit, old(i)) && i == old(i) + 1 && yielded == old(yielded) + [r.value]
      ensures r.Item? && |pages| == |old(pages)| ==> batch == old(batch) && batchI == old(batchI) + 1
      ensures r.Item? && |pages| != |old(pages)| ==>
        NextLink(old(batch), batchSize) == Follow(requests[|requests| - 1]) && batch == fetch(requests[|requests| - 1])
    {
      if LimitReached(limit, i) {
        return Stop;
      }
      if batchI >= |batch.data| {
        match NextLink(batch, batchSize)
        case End =>
          return Stop;
        case Broken =>
          return Fail(KeyError);
        case Follow(req) =>
          FetchNext(req);
      }
      if batchI >= |batch.data| {
        return Fail(IndexError);
      }
      var x := Advance();
      r := Item(x);
    }
  }

  /** Once the next link of the last page is empty, every fetched entity has been returned. */
  lemma EndedDeliversEverything<T>(c: Cursor<T>)
    requires c.Valid() && c.Ended() && !LimitReached(c.limit, c.i)
    ensures c.yielded == Flatten(c.pages)
  {
    assert c.batch.data[..c.batchI] == c.batch.data;
  }

  /**
    The pages a cursor has fetched are exactly the run of pages that starts at its
    first request and follows next links, one fetch per page.
   */
  lemma {:induction false} ChainedIsChain<T>(fetch: Request -> Page<T>, follow: Page<T> -> Link,
                                              requests: seq<Request>, pages: seq<Page<T>>)
    requires |requests| == |pages| >= 1
    requires forall k :: 0 <= k < |pages| ==> pages[k] == fetch(requests[k])
    requires Chained(requests, pages, follow)
    ensures pages == ChainFrom(fetch, follow, requests[0], |pages| - 1)
  {
    var m := |pages| - 1;
    if m > 0 {
      var init, reqs := pages[..m], requests[..m];
      ChainedPrefix(requests, pages, follow, m);
      ChainedIsChain(fetch, follow, reqs, init);
      var run := ChainFrom(fetch, follow, requests[0], m - 1);
      assert run == init;
      assert follow(run[|run| - 1]) == Follow(requests[m]);
      assert pages == run + [fetch(requests[m])];
    }
  }

  /** A prefix of a chained history is chained. */
  lemma ChainedPrefix<T>(requests: seq<Request>, pages: seq<Page<T>>, follow: Page<T> -> Link, m: nat)
    requires |requests| == |pages| && m <= |pages|
    requires Chained(requests, pages, follow)
    ensures Chained(requests[..m], pages[..m], follow)
  {
    forall k | 0 <= k < m - 1
      ensures follow(pages[..m][k]) == Follow(requests[..m][k + 1])
    {
      assert follow(pages[k]) == Follow(requests[k + 1]);
    }
  }

  /**
    `first(cursor, stop)`, that is `list(islice(cursor, None, stop))`: `islice`
    refuses a stop that is negative or above `sys.maxsize` before it pulls
    anything; otherwise the entities are pulled as `Drain` pulls them.
   */
  method Take<T>(c: Cursor<T>, stop: Option<int>, ghost fetches: nat) returns (r: Result<seq<T>>)
    requires c.Valid()
    requires stop.Some? || (c.limit.Some? && c.limit.value != 0)
             || EndsWithin(c.fetch, c.batchSize, c.batch, fetches)
    modifies c
    ensures c.Valid()
    ensures old(c.requests) <= c.requests && old(c.pages) <= c.pages
    ensures BadStop(stop) ==> r == Err(ValueError) && unchanged(c)
    ensures !BadStop(stop) && r.Err? ==> r.error == KeyError || r.error == IndexError
    ensures !BadStop(stop) && r == Err(KeyError) ==> FailedOnLink(c, |old(c.pages)|)
    ensures !BadStop(stop) && r == Err(IndexError) ==> FailedOnEmptyPage(c, |old(c.pages)|)
    ensures r.Ok? ==> Fed(c, |old(c.pages)|)
    ensures r.Ok? ==> old(c.yielded) + r.value == c.yielded
    ensures r.Ok? && stop.Some? ==> |r.value| <= stop.value
    ensures r.Ok? && (stop.None? || |r.value| < stop.value) ==> c.Ended()
    ensures r.Ok? && (stop.None? || |r.value| < stop.value) && !LimitReached(c.limit, c.i) ==>
              c.yielded == Flatten(c.pages) && NextLink(c.batch, c.batchSize).End?
  {
    if BadStop(stop) {
      return Err(ValueError);
    }
    r := Drain(c, stop, fetches);
  }

  /**
    The state a cursor is left in when `__next__` raised `KeyError`: the page is
    used up and one of its paging links is missing; the pages fetched since the
    history had `from` pages all hold entities.
   */
  ghost predicate FailedOnLink<T>(c: Cursor<T>, from: nat)
    reads c
  {
    && from <= |c.pages|
    && !LimitReached(c.limit, c.i) && c.batchI >= |c.batch.data| && NextLink(c.batch, c.batchSize).Broken?
    && Filled(c.pages, from, |c.pages|)
  }

  /**
    The state a cursor is left in when `__next__` raised `IndexError`: it has just
    fetched, since the history had `from` pages, a page without entities, and the
    pages it fetched before that one hold entities.
   */
  ghost predicate FailedOnEmptyPage<T>(c: Cursor<T>, from: nat)
    reads c
  {
    && from < |c.pages|
    && !LimitReached(c.limit, c.i) && c.batchI == 0 && c.batch.data == []
    && Filled(c.pages, from, |c.pages| - 1)
  }

  /**
    No page was fetched in vain since the history had `from` pages: each page
    fetched since then holds entities, and the cursor has returned one from the
    page it is on when that page is one of them.
   */
  ghost predicate Fed<T>(c: Cursor<T>, from: nat)
    reads c
  {
    && from <= |c.pages|
    && Filled(c.pages, from, |c.pages|)
    && (from < |c.pages| ==> c.batchI > 0)
  }

  /**
    One `next(cursor)` as the loop that drains the cursor sees it: the history
    only grows, a page it fetches and returns from holds entities, and a failure
    leaves the cursor in the state that explains it.
   */
  method Pull<T>(c: Cursor<T>, ghost from: nat) returns (step: Step<T>)
    requires c.Valid() && Fed(c, from)
    modifies c
    ensures c.Valid()
    ensures old(c.requests) <= c.requests && old(c.pages) <= c.pages
    ensures step.Fail? ==> step.error == KeyError || step.error == IndexError
    ensures step == Fail(KeyError) ==> FailedOnLink(c, from)
    ensures step == Fail(IndexError) ==> FailedOnEmptyPage(c, from)
    ensures step.Stop? ==> c.Ended() && unchanged(c)
    ensures step.Item? ==> Fed(c, from)
    ensures step.Item? ==> c.i == old(c.i) + 1 && c.yielded == old(c.yielded) + [step.value]
    ensures step.Item? && |c.pages| == |old(c.pages)| ==> c.batch == old(c.batch) && c.batchI == old(c.batchI) + 1
    ensures step.Item? && |c.pages| != |old(c.pages)| ==>
              NextLink(old(c.batch), c.batchSize) == Follow(c.requests[|c.requests| - 1])
              && c.batch == c.fetch(c.requests[|c.requests| - 1])
  {
    ghost var batch0, batchI0 := c.batch, c.batchI;
    step := c.Next();
    if !LimitReached(c.limit, old(c.i)) && batchI0 >= |batch0.data| {
      match NextLink(batch0, c.batchSize)
      case End =>
      case Broken =>
      case Follow(req) =>
        FilledAppend(old(c.pages), from, c.batch);
    }
  }

  /** Appending a page keeps the pages before it filled, and the whole list when the page holds entities. */
  lemma FilledAppend<T>(pages: seq<Page<T>>, from: nat, page: Page<T>)
    requires from <= |pages| && Filled(pages, from, |pages|)
    ensures Filled(pages + [page], from, |pages|)
    ensures page.data != [] ==> Filled(pages + [page], from, |pages| + 1)
  {
    assert forall k :: 0 <= k < |pages| ==> (pages + [page])[k] == pages[k];
  }

  /**
    `list(...)` over `islice(cursor, None, stop)` for an accepted stop: pull at
    most `stop` entities (all of them for `None`), stopping early when the cursor
    does; an exception from the cursor propagates and the items are lost.

    Termination needs a bound: `stop`, a non-zero limit, or a finite chain of next
    links from the current page (nothing in the source rules out a cycle).
   */
  method Drain<T>(c: Cursor<T>, stop: Option<int>, ghost fetches: nat) returns (r: Result<seq<T>>)
    requires c.Valid() && !BadStop(stop)
    requires stop.Some? || (c.limit.Some? && c.limit.value != 0)
             || EndsWithin(c.fetch, c.batchSize, c.batch, fetches)
    modifies c
    ensures c.Valid()
    ensures old(c.requests) <= c.requests && old(c.pages) <= c.pages
    ensures r.Err? ==> r.error == KeyError || r.error == IndexError
    ensures r == Err(KeyError) ==> FailedOnLink(c, |old(c.pages)|)
    ensures r == Err(IndexError) ==> FailedOnEmptyPage(c, |old(c.pages)|)
    ensures r.Ok? ==> Fed(c, |old(c.pages)|)
    ensures r.Ok? ==> old(c.yielded) + r.value == c.yielded
    ensures r.Ok? && stop.Some? ==> |r.value| <= stop.value
    ensures r.Ok? && (stop.None? || |r.value| < stop.value) ==> c.Ended()
    ensures r.Ok? && (stop.None? || |r.value| < stop.value) && !LimitReached(c.limit, c.i) ==>
              c.yielded == Flatten(c.pages) && NextLink(c.batch, c.batchSize).End?
  {
    ghost var requests0, pages0, yielded0 := c.requests, c.pages, c.yielded;
    var bounded := stop.Some? || (c.limit.Some? && c.limit.value != 0);
    ghost var n: nat := fetches;
    var items: seq<T> := [];
    while stop.None? || |items| < stop.value
      invariant c.Valid()
      invariant requests0 <= c.requests && pages0 <= c.pages
      invariant Fed(c, |pages0|)
      invariant yielded0 + items == c.yielded
      invariant stop.Some? ==> |items| <= stop.value
      invariant !bounded ==> EndsWithin(c.fetch, c.batchSize, c.batch, n)
      decreases if stop.Some? then stop.value - |items|
                else if bounded && c.limit.value > 0 then c.limit.value - c.i
                else 0,
                n, |c.batch.data| - c.batchI
    {
      ghost var before := |c.pages|;
      ghost var batch0 := c.batch;
      var step := Pull(c, |pages0|);
      if step.Fail? {
        return Err(step.error);
      }
      if step.Stop? {
        break;
      }
      assert yielded0 + (items + [step.value]) == (yielded0 + items) + [step.value];
      items := items + [step.value];
      if !bounded && |c.pages| > before {
        EndsWithinFollow(c.fetch, c.batchSize, batch0, n, c.requests[|c.requests| - 1]);
        n := n - 1;
      }
    }
    if (stop.None? || |items| < stop.value) && !LimitReached(c.limit, c.i) {
      EndedDeliversEverything(c);
    }
    r := Ok(items);
  }

  /** A run whose last link is not followed stays as it is when one more fetch is allowed. */
  lemma ChainFromStops<T>(fetch: Request -> Page<T>, follow: Page<T> -> Link, req: Request, m: nat, n: nat)
    requires m < n
    requires ChainFrom(fetch, follow, req, n - 1) == ChainFrom(fetch, follow, req, m)
    requires !follow(Last(ChainFrom(fetch, follow, req, m))).Follow?
    ensures ChainFrom(fetch, follow, req, n) == ChainFrom(fetch, follow, req, m)
  {
  }

  /** A run whose last link is not followed stays as it is for any number of further fetches. */
  lemma {:induction false} ChainFromStays<T>(fetch: Request -> Page<T>, follow: Page<T> -> Link, req: Request, m: nat, n: nat)
    requires m <= n
    requires !follow(Last(ChainFrom(fetch, follow, req, m))).Follow?
    ensures ChainFrom(fetch, follow, req, n) == ChainFrom(fetch, follow, req, m)
    decreases n
  {
    if m < n {
      ChainFromStays(fetch, follow, req, m, n - 1);
      ChainFromStops(fetch, follow, req, m, n);
    }
  }

  function Last<X>(s: seq<X>): X
    requires s != []
  {
    s[|s| - 1]
  }

  /** A history that starts at a page whose links end within `n` fetches holds at most `n + 1` pages. */
  lemma {:induction false} ChainedWithin<T>(fetch: Request -> Page<T>, batchSize: int,
                                             requests: seq<Request>, pages: seq<Page<T>>, n: nat)
    requires |requests| == |pages| >= 1
    requires forall k :: 0 <= k < |pages| ==> pages[k] == fetch(requests[k])
    requires Chained(requests, pages, LinksOf(batchSize))
    requires EndsWithin(fetch, batchSize, pages[0], n)
    ensures |pages| - 1 <= n
  {
    if |pages| > 1 {
      assert LinksOf(batchSize)(pages[0]) == Follow(requests[1]);
      EndsWithinFollow(fetch, batchSize, pages[0], n, requests[1]);
      ChainedWithin(fetch, batchSize, requests[1..], pages[1..], n - 1);
    }
  }

  /**
    `list(Cursor(request, before, after, None, batch_size))` (what `first(cursor,
    None)` gives for a cursor without a limit), when the chain of links from the
    first page ends within `fetches` fetches. With `run` the pages the first
    request and the next links lead to: the entities of `run`, page after page,
    exactly when its last next link is empty and every page after the first holds
    entities; `IndexError` exactly when one of those pages is empty; `KeyError`
    exactly when they are not, and a paging link of the last page is missing.
   */
  method Collect<T>(fetch: Request -> Page<T>, before: Option<string>, after: Option<string>,
                    batchSize: int, ghost fetches: nat) returns (r: Result<seq<T>>)
    requires EndsWithin(fetch, batchSize, fetch(Request(before, after, batchSize)), fetches)
    ensures var run := ChainFrom(fetch, LinksOf(batchSize), Request(before, after, batchSize), fetches);
            r.Ok? <==> NextLink(Last(run), batchSize).End? && Filled(run, 1, |run|)
    ensures var run := ChainFrom(fetch, LinksOf(batchSize), Request(before, after, batchSize), fetches);
            r == Err(KeyError) <==> NextLink(Last(run), batchSize).Broken? && Filled(run, 1, |run|)
    ensures var run := ChainFrom(fetch, LinksOf(batchSize), Request(before, after, batchSize), fetches);
            r == Err(IndexError) <==> !Filled(run, 1, |run|)
    ensures r.Ok? ==> r.value == Flatten(ChainFrom(fetch, LinksOf(batchSize), Request(before, after, batchSize), fetches))
    ensures r.Err? ==> r.error == KeyError || r.error == IndexError
  {
    var c := new Cursor(fetch, before, after, None, batchSize);
    r := Take(c, None, fetches);
    HistoryInRun(fetch, batchSize, c.requests, c.pages, fetches);
    assert c.batch == Last(c.pages);
    RunOutcome(ChainFrom(fetch, LinksOf(batchSize), Request(before, after, batchSize), fetches),
               c.pages, batchSize, r);
  }

  /**
    How a drained history settles the outcome of the run it is a prefix of: a
    result or a `KeyError` ends the run, an `IndexError` stops on an empty page.
   */
  lemma RunOutcome<T>(run: seq<Page<T>>, pages: seq<Page<T>>, batchSize: int, r: Result<seq<T>>)
    requires 1 <= |pages| && pages <= run
    requires !NextLink(Last(pages), batchSize).Follow? ==> pages == run
    requires r.Err? ==> r.error == KeyError || r.error == IndexError
    requires r.Ok? ==> NextLink(Last(pages), batchSize).End? && Filled(pages, 1, |pages|)
    requires r == Err(KeyError) ==> NextLink(Last(pages), batchSize).Broken? && Filled(pages, 1, |pages|)
    requires r == Err(IndexError) ==> 1 < |pages| && Last(pages).data == []
    ensures r.Ok? <==> NextLink(Last(run), batchSize).End? && Filled(run, 1, |run|)
    ensures r == Err(KeyError) <==> NextLink(Last(run), batchSize).Broken? && Filled(run, 1, |run|)
    ensures r == Err(IndexError) <==> !Filled(run, 1, |run|)
  {
    if r == Err(IndexError) {
      assert run[|pages| - 1] == Last(pages);
    }
  }

  /**
    The pages of a history that starts at a page whose links end within `n`
    fetches are a prefix of the run of `n` fetches, and all of it once the last
    page's link is not followed.
   */
  lemma HistoryInRun<T>(fetch: Request -> Page<T>, batchSize: int, requests: seq<Request>,
                        pages: seq<Page<T>>, n: nat)
    requires |requests| == |pages| >= 1
    requires forall k :: 0 <= k < |pages| ==> pages[k] == fetch(requests[k])
    requires Chained(requests, pages, LinksOf(batchSize))
    requires EndsWithin(fetch, batchSize, pages[0], n)
    ensures pages <= ChainFrom(fetch, LinksOf(batchSize), requests[0], n)
    ensures !NextLink(pages[|pages| - 1], batchSize).Follow? ==>
              pages == ChainFrom(fetch, LinksOf(batchSize), requests[0], n)
  {
    ChainedWithin(fetch, batchSize, requests, pages, n);
    assert LinksOf(batchSize)(Last(pages)) == NextLink(pages[|pages| - 1], batchSize);
    ChainedInRun(fetch, LinksOf(batchSize), requests, pages, n);
  }

  /**
    A history within the allowance of fetches is a prefix of the run, and all of
    it once its last link is not followed.
   */
  lemma ChainedInRun<T>(fetch: Request -> Page<T>, follow: Page<T> -> Link, requests: seq<Request>,
                        pages: seq<Page<T>>, n: nat)
    requires |requests| == |pages| >= 1 && |pages| - 1 <= n
    requires forall k :: 0 <= k < |pages| ==> pages[k] == fetch(requests[k])
    requires Chained(requests, pages, follow)
    ensures pages <= ChainFrom(fetch, follow, requests[0], n)
    ensures !follow(Last(pages)).Follow? ==> pages == ChainFrom(fetch, follow, requests[0], n)
  {
    ChainedIsChain(fetch, follow, requests, pages);
    ChainFromGrows(fetch, follow, requests[0], |pages| - 1, n);
    if !follow(Last(pages)).Follow? {
      ChainedRun(fetch, follow, requests, pages, n);
    }
  }

  /** A run with a smaller allowance of fetches is a prefix of one with a larger allowance. */
  lemma {:induction false} ChainFromGrows<T>(fetch: Request -> Page<T>, follow: Page<T> -> Link, req: Request, m: nat, n: nat)
    requires m <= n
    ensures ChainFrom(fetch, follow, req, m) <= ChainFrom(fetch, follow, req, n)
    decreases n
  {
    if m < n {
      ChainFromGrows(fetch, follow, req, m, n - 1);
      var shorter := ChainFrom(fetch, follow, req, n - 1);
      assert shorter <= ChainFrom(fetch, follow, req, n);
    }
  }

  /** A history that stops on a link it does not follow is the run of any longer allowance. */
  lemma ChainedRun<T>(fetch: Request -> Page<T>, follow: Page<T> -> Link, requests: seq<Request>,
                      pages: seq<Page<T>>, n: nat)
    requires |requests| == |pages| >= 1 && |pages| - 1 <= n
    requires forall k :: 0 <= k < |pages| ==> pages[k] == fetch(requests[k])
    requires Chained(requests, pages, follow)
    requires !follow(Last(pages)).Follow?
    ensures pages == ChainFrom(fetch, follow, requests[0], n)
  {
    ChainedIsChain(fetch, follow, requests, pages);
    ChainFromStays(fetch, follow, requests[0], |pages| - 1, n);
  }
}
