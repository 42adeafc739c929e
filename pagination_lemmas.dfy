/** What a browse fetch (fetch_products, fetch_bids_asks) returns, proved
    about the Pagination function its loop is verified against: the pages
    are requested in order, the products are the edges of the pages before
    the last in page order, and the flag says how the last page ended. */
module PaginationLemmas {
  import opened Transport
  import opened Parser

  /** The requests for pages page, page + 1, ..., page + n - 1 of `q`. */
  function Requests(q: Query, page: int, n: nat): (r: seq<Request>)
    ensures |r| == n
    ensures forall i :: 0 <= i < n ==> r[i] == Browse(q, page + i)
    decreases n
  {
    if n == 0 then [] else [Browse(q, page)] + Requests(q, page + 1, n - 1)
  }

  /** The decoded edges of one page's reply (none for a failed one). */
  function EdgesOf(b: Backend, q: Query, page: int): seq<Edge>
  {
    var reply := b.answer(Browse(q, page));
    if reply.Resp? then reply.response.edges else []
  }

  /** The edges of pages page .. page + k - 1, concatenated in page order. */
  function Collected(b: Backend, q: Query, page: int, k: nat): seq<Edge>
    decreases k
  {
    if k == 0 then [] else EdgesOf(b, q, page) + Collected(b, q, page + 1, k - 1)
  }

  /** Page `page` lets the fetch go on: the rotation before it does not
      raise and it answers 200 with items. */
  predicate GoesOn(s: Rotation, b: Backend, d: Draws, pool: seq<Proxies>, q: Query, page: int)
  {
    !RandomRotationRaises(s, pool, d.chance(page), d.index(page)) && b.HasItems(q, page)
  }

  /** The proxy state after the randomized rotations before pages page .. page + k - 1. */
  function Advance(s: Rotation, d: Draws, page: int, k: nat, st: Proxying): (r: Proxying)
    ensures r.stored == st.stored && r.pool == st.pool
    ensures r.active == st.active || r.active in st.pool
    decreases k
  {
    if k == 0 then st
    else Advance(s, d, page + 1, k - 1, Rotate(s, st, map[], [], true, d.chance(page), d.index(page)).state)
  }

  /** Every fetch sends the requests for consecutive pages from its first page
      on, and never changes the stored proxies or the pool; the client ends up
      where it was or on an entry of the pool. */
  lemma {:induction false} PaginationRequests(s: Rotation, b: Backend, d: Draws, q: Query, page: int,
                                              products: seq<Edge>, st: Proxying)
    requires b.Finite()
    decreases b.horizon - page
    ensures var r := Pagination(s, b, d, q, page, products, st);
            r.sent == Requests(q, page, |r.sent|) &&
            r.state.stored == st.stored && r.state.pool == st.pool &&
            (r.state.active == st.active || r.state.active in st.pool)
  {
    var a := Attempt(s, b, d, q, page, st);
    if a.step.Got? && |a.step.edges| > 0 {
      assert b.HasItems(q, page);
      PaginationRequests(s, b, d, q, page + 1, products + a.step.edges, a.state);
      var rest := Pagination(s, b, d, q, page + 1, products + a.step.edges, a.state);
      assert Requests(q, page, |rest.sent| + 1) == [Browse(q, page)] + rest.sent;
    }
  }

  /** Whatever the replies, a fetch that returns stops at or after its first
      page, and its products are the edges of every page before that one, in
      page order; each of those pages answered 200 with items. */
  lemma {:induction false} PaginationProducts(s: Rotation, b: Backend, d: Draws, q: Query, page: int,
                                              products: seq<Edge>, st: Proxying)
    requires b.Finite()
    decreases b.horizon - page
    ensures var r := Pagination(s, b, d, q, page, products, st);
            r.outcome.Return? ==>
              var p := r.outcome.value.page;
              page <= p &&
              r.outcome.value.products == products + Collected(b, q, page, p - page) &&
              forall j :: page <= j < p ==> b.HasItems(q, j)
  {
    if GoesOn(s, b, d, st.pool, q, page) {
      var st1 := Rotate(s, st, map[], [], true, d.chance(page), d.index(page)).state;
      var more := products + EdgesOf(b, q, page);
      PaginationGoesOn(s, b, d, q, page, products, st);
      PaginationProducts(s, b, d, q, page + 1, more, st1);
      var rest := Pagination(s, b, d, q, page + 1, more, st1);
      if rest.outcome.Return? {
        var p := rest.outcome.value.page;
        assert Collected(b, q, page, p - page) == EdgesOf(b, q, page) + Collected(b, q, page + 1, p - (page + 1));
      }
    } else {
      PaginationEnds(s, b, d, q, page, products, st);
      assert products + [] == products;
    }
  }

  /** Whatever the replies, the flag says how the last page ended, and fixes
      how many requests were sent: True after a 200 with no edges, a response
      after a non-200 status (that very response), False after a transport
      exception on the page or an IndexError in the rotation before it (the
      page then never requested); an escaping exception is the IndexError of
      the rotation after a 403. */
  lemma {:induction false} PaginationFlag(s: Rotation, b: Backend, d: Draws, q: Query, page: int,
                                          products: seq<Edge>, st: Proxying)
    requires b.Finite()
    decreases b.horizon - page
    ensures var r := Pagination(s, b, d, q, page, products, st);
            r.outcome.Return? ==>
              var p := r.outcome.value.page;
              (r.outcome.value.flag == Succeeded ==>
                 b.answer(Browse(q, p)) == Resp(Response(200, [])) && |r.sent| == p - page + 1) &&
              (r.outcome.value.flag.Halted? ==>
                 b.answer(Browse(q, p)) == Resp(r.outcome.value.flag.response) &&
                 r.outcome.value.flag.response.status != 200 && |r.sent| == p - page + 1) &&
              (r.outcome.value.flag == Failed ==>
                 (b.answer(Browse(q, p)).Exc? && |r.sent| == p - page + 1) ||
                 (RandomRotationRaises(s, st.pool, d.chance(p), d.index(p)) && |r.sent| == p - page))
    ensures var r := Pagination(s, b, d, q, page, products, st);
            r.outcome.Raise? ==>
              r.outcome.error == IndexError && |r.sent| > 0 &&
              b.answer(Browse(q, page + |r.sent| - 1)).Resp? &&
              b.answer(Browse(q, page + |r.sent| - 1)).response.status == 403 &&
              d.index403(page + |r.sent| - 1) >= |st.pool|
  {
    if GoesOn(s, b, d, st.pool, q, page) {
      var st1 := Rotate(s, st, map[], [], true, d.chance(page), d.index(page)).state;
      PaginationGoesOn(s, b, d, q, page, products, st);
      PaginationFlag(s, b, d, q, page + 1, products + EdgesOf(b, q, page), st1);
    } else {
      PaginationEnds(s, b, d, q, page, products, st);
    }
  }

  /** One page that goes on: its request, then the fetch from the next page
      with its edges gathered and the proxy state its rotation left. */
  lemma PaginationGoesOn(s: Rotation, b: Backend, d: Draws, q: Query, page: int,
                         products: seq<Edge>, st: Proxying)
    requires b.Finite()
    requires GoesOn(s, b, d, st.pool, q, page)
    ensures Pagination(s, b, d, q, page, products, st) ==
            Prepend([Browse(q, page)],
                    Pagination(s, b, d, q, page + 1, products + EdgesOf(b, q, page),
                               Rotate(s, st, map[], [], true, d.chance(page), d.index(page)).state))
  {
  }

  /** A page that does not go on ends the fetch there. */
  lemma PaginationEnds(s: Rotation, b: Backend, d: Draws, q: Query, page: int,
                       products: seq<Edge>, st: Proxying)
    requires b.Finite()
    requires !GoesOn(s, b, d, st.pool, q, page)
    ensures var a := Attempt(s, b, d, q, page, st);
            Pagination(s, b, d, q, page, products, st) == Run(Finish(a.step, products, page), a.state, a.sent)
  {
  }

  /** The first k pages go on, so the fetch is those k requests followed by
      the fetch from page page + k with their edges gathered. */
  lemma {:induction false} PaginationPrefix(s: Rotation, b: Backend, d: Draws, q: Query, page: int,
                                            products: seq<Edge>, st: Proxying, k: nat)
    requires b.Finite()
    requires forall j :: page <= j < page + k ==> GoesOn(s, b, d, st.pool, q, j)
    ensures Pagination(s, b, d, q, page, products, st) ==
            Prepend(Requests(q, page, k),
                    Pagination(s, b, d, q, page + k, products + Collected(b, q, page, k), Advance(s, d, page, k, st)))
    decreases k
  {
    if k == 0 {
      assert products + [] == products;
    } else {
      assert GoesOn(s, b, d, st.pool, q, page);
      var st1 := Rotate(s, st, map[], [], true, d.chance(page), d.index(page)).state;
      var more := products + EdgesOf(b, q, page);
      var tail := Pagination(s, b, d, q, page + k, more + Collected(b, q, page + 1, k - 1), Advance(s, d, page + 1, k - 1, st1));
      calc {
        Pagination(s, b, d, q, page, products, st);
        { PaginationGoesOn(s, b, d, q, page, products, st); }
        Prepend([Browse(q, page)], Pagination(s, b, d, q, page + 1, more, st1));
        { PaginationPrefix(s, b, d, q, page + 1, more, st1, k - 1); }
        Prepend([Browse(q, page)], Prepend(Requests(q, page + 1, k - 1), tail));
        { PrependTwice([Browse(q, page)], Requests(q, page + 1, k - 1), tail); }
        Prepend(Requests(q, page, k), tail);
        { assert more + Collected(b, q, page + 1, k - 1) == products + Collected(b, q, page, k); }
        Prepend(Requests(q, page, k),
                Pagination(s, b, d, q, page + k, products + Collected(b, q, page, k), Advance(s, d, page, k, st)));
      }
    }
  }

  /** When every response is a 200, the fetch stops at the first page with no
      edges: k pages with items before it give their edges in order, the page
      counter start + k, True, and exactly k + 1 requests. With k = 0 an empty
      first page is a success with no products. */
  lemma StopsAtFirstEmptyPage(s: Rotation, b: Backend, d: Draws, q: Query, page: int,
                              products: seq<Edge>, st: Proxying, k: nat)
    requires b.Finite()
    requires forall j :: page <= j < page + k ==> GoesOn(s, b, d, st.pool, q, j)
    requires !RandomRotationRaises(s, st.pool, d.chance(page + k), d.index(page + k))
    requires b.answer(Browse(q, page + k)) == Resp(Response(200, []))
    ensures var r := Pagination(s, b, d, q, page, products, st);
            r.outcome == Return(Batch(products + Collected(b, q, page, k), page + k, Succeeded)) &&
            r.sent == Requests(q, page, k + 1)
  {
    PaginationPrefix(s, b, d, q, page, products, st, k);
    var st1 := Advance(s, d, page, k, st);
    PaginationEnds(s, b, d, q, page + k, products + Collected(b, q, page, k), st1);
    assert Requests(q, page, k) + [Browse(q, page + k)] == Requests(q, page, k + 1);
  }

  /** A transport exception on page page + k returns the edges of the pages
      before it, that page, and False; nothing of that page is appended. */
  lemma StopsOnTransportError(s: Rotation, b: Backend, d: Draws, q: Query, page: int,
                              products: seq<Edge>, st: Proxying, k: nat)
    requires b.Finite()
    requires forall j :: page <= j < page + k ==> GoesOn(s, b, d, st.pool, q, j)
    requires !RandomRotationRaises(s, st.pool, d.chance(page + k), d.index(page + k))
    requires b.answer(Browse(q, page + k)) == Exc
    ensures var r := Pagination(s, b, d, q, page, products, st);
            r.outcome == Return(Batch(products + Collected(b, q, page, k), page + k, Failed)) &&
            r.sent == Requests(q, page, k + 1)
  {
    PaginationPrefix(s, b, d, q, page, products, st, k);
    var st1 := Advance(s, d, page, k, st);
    PaginationEnds(s, b, d, q, page + k, products + Collected(b, q, page, k), st1);
    assert Requests(q, page, k) + [Browse(q, page + k)] == Requests(q, page, k + 1);
  }

  /** An IndexError of the randomized rotation before page page + k is caught
      like a transport exception: False at that page, which is never requested. */
  lemma StopsOnRotationError(s: Rotation, b: Backend, d: Draws, q: Query, page: int,
                             products: seq<Edge>, st: Proxying, k: nat)
    requires b.Finite()
    requires forall j :: page <= j < page + k ==> GoesOn(s, b, d, st.pool, q, j)
    requires RandomRotationRaises(s, st.pool, d.chance(page + k), d.index(page + k))
    ensures var r := Pagination(s, b, d, q, page, products, st);
            r.outcome == Return(Batch(products + Collected(b, q, page, k), page + k, Failed)) &&
            r.sent == Requests(q, page, k)
  {
    PaginationPrefix(s, b, d, q, page, products, st, k);
    var st1 := Advance(s, d, page, k, st);
    PaginationEnds(s, b, d, q, page + k, products + Collected(b, q, page, k), st1);
    assert Requests(q, page, k) + [] == Requests(q, page, k);
  }

  /** A non-200 status on page page + k returns the edges before it, that
      page and the response itself; a 403 first rotates (not randomized), and
      if that rotation's index misses the pool the IndexError escapes. Other
      statuses leave the proxy state as the earlier rotations left it. */
  lemma StopsOnErrorStatus(s: Rotation, b: Backend, d: Draws, q: Query, page: int,
                           products: seq<Edge>, st: Proxying, k: nat, res: Response)
    requires b.Finite()
    requires forall j :: page <= j < page + k ==> GoesOn(s, b, d, st.pool, q, j)
    requires !RandomRotationRaises(s, st.pool, d.chance(page + k), d.index(page + k))
    requires b.answer(Browse(q, page + k)) == Resp(res) && res.status != 200
    ensures var r := Pagination(s, b, d, q, page, products, st);
            r.sent == Requests(q, page, k + 1) &&
            r.outcome == if res.status == 403 && d.index403(page + k) >= |st.pool| then Raise(IndexError)
                         else Return(Batch(products + Collected(b, q, page, k), page + k, Halted(res)))
    ensures var r := Pagination(s, b, d, q, page, products, st);
            var before := Rotate(s, Advance(s, d, page, k, st), map[], [], true,
                                 d.chance(page + k), d.index(page + k)).state;
            r.state == if res.status == 403 then Rotate(s, before, map[], [], false, 0.0, d.index403(page + k)).state
                       else before
  {
    PaginationPrefix(s, b, d, q, page, products, st, k);
    var st1 := Advance(s, d, page, k, st);
    PaginationEnds(s, b, d, q, page + k, products + Collected(b, q, page, k), st1);
    assert Requests(q, page, k) + [Browse(q, page + k)] == Requests(q, page, k + 1);
  }

  /** With rotation disabled the client's proxies move only through the
      rotation a 403 triggers: any fetch that changes the proxy state ends on
      a 403 response. */
  lemma {:induction false} DisabledRotationMovesOnlyOn403(s: Rotation, b: Backend, d: Draws, q: Query,
                                                          page: int, products: seq<Edge>, st: Proxying)
    requires b.Finite()
    requires !s.enabled
    decreases b.horizon - page
    ensures var r := Pagination(s, b, d, q, page, products, st);
            r.state != st ==>
              r.outcome.Return? && r.outcome.value.flag.Halted? && r.outcome.value.flag.response.status == 403
  {
    var a := Attempt(s, b, d, q, page, st);
    if a.step.Got? && |a.step.edges| > 0 {
      assert b.HasItems(q, page);
      assert a.state == st;
      DisabledRotationMovesOnlyOn403(s, b, d, q, page + 1, products + a.step.edges, a.state);
    }
  }
}
