/** The control logic of StockxParser: proxy rotation, the pagination loop
    shared by the product and order-book browses, and the status handling
    of the sales lookup.

    Every random draw is an input: `random.random()` becomes a real number
    compared against the rotation rate, and `random.randint(0, n)` an index
    the caller supplies. For a fetch the draws are given per page (Draws).
 */
module Parser {
  import opened Transport

  /** The rotation settings fixed at construction: `rotation` and `rotation_rand_rate`. */
  datatype Rotation = Rotation(enabled: bool, rate: real)

  /** The proxy state rotation touches: the stored `_proxies`, the stored
      `_proxies_list` (the pool), and the proxies the client is set to. */
  datatype Proxying = Proxying(stored: Proxies, pool: seq<Proxies>, active: Proxies)

  /** What one rotate_proxies call did: returned early, pushed a proxy
      configuration to the client, or raised IndexError indexing the pool. */
  datatype Event = Skipped | Applied(proxies: Proxies) | OutOfRange

  datatype Rotated = Rotated(event: Event, state: Proxying)

  /** The exceptions a caller of the parser can see. */
  datatype Error = TransportError | IndexError

  /** A Python call either returns a value or raises. */
  datatype Outcome<T> = Return(value: T) | Raise(error: Error)

  /** The third element of a fetch's result: True, False, or the failing response. */
  datatype Flag = Succeeded | Failed | Halted(response: Response)

  /** The (products, page, flag) triple a fetch returns. */
  datatype Batch = Batch(products: seq<Edge>, page: int, flag: Flag)

  /** The random draws of one fetch, by page: `chance` is random.random() in the
      randomized rotation before page p, `index` its randint, and `index403`
      the randint of the rotation after a 403 on page p. */
  datatype Draws = Draws(chance: int -> real, index: int -> nat, index403: int -> nat)

  /** How one page request ends: with the page's edges (maybe none), with a
      flag that ends the fetch, or with an exception that escapes it. */
  datatype Step = Got(edges: seq<Edge>) | Ends(flag: Flag) | Raises(error: Error)

  datatype Attempted = Attempted(step: Step, state: Proxying, sent: seq<Request>)

  /** A whole fetch: its outcome, the final proxy state, the requests sent. */
  datatype Run = Run(outcome: Outcome<Batch>, state: Proxying, sent: seq<Request>)

  datatype SalesRun = SalesRun(outcome: Outcome<Response>, state: Proxying)

  /** The randomized rotation would go ahead and its index misses the pool:
      `proxies` is None there, so the pool is indexed, and raises. */
  predicate RandomRotationRaises(s: Rotation, pool: seq<Proxies>, chance: real, index: nat)
  {
    s.enabled && chance <= s.rate && index >= |pool|
  }

  /** rotate_proxies(proxies, proxies_list, randomize) with the draws made explicit:
      `chance` stands for random.random() and `index` for randint(0, len(pool)). */
  function Rotate(s: Rotation, st: Proxying, proxies: Proxies, proxiesList: seq<Proxies>,
                  randomize: bool, chance: real, index: nat): (r: Rotated)
    // a randomized call is a no-op when rotation is off or the draw exceeds the rate
    ensures randomize && (chance > s.rate || !s.enabled) ==> r == Rotated(Skipped, st)
    ensures randomize && chance <= s.rate && s.enabled ==> !r.event.Skipped?
    // a call that is not randomized always runs, whatever the enable flag says
    ensures !randomize ==> !r.event.Skipped?
    // a non-empty list replaces the pool before anything is picked; an empty one keeps it
    ensures !r.event.Skipped? && |proxiesList| > 0 ==> r.state.pool == proxiesList
    ensures |proxiesList| == 0 ==> r.state.pool == st.pool
    // explicit proxies are stored and are exactly what the client is set to
    ensures !r.event.Skipped? && |proxies| > 0 ==>
              r.event == Applied(proxies) && r.state.stored == proxies && r.state.active == proxies
    // otherwise the stored proxies stay, and the client gets the pool entry at the index
    ensures |proxies| == 0 ==> r.state.stored == st.stored
    ensures !r.event.Skipped? && |proxies| == 0 && index < |r.state.pool| ==>
              r.event == Applied(r.state.pool[index]) && r.state.active == r.state.pool[index]
    // an index at or past the end of the pool raises, and the client is left as it was
    ensures r.event.OutOfRange? <==> !r.event.Skipped? && |proxies| == 0 && index >= |r.state.pool|
    ensures !r.event.Applied? ==> r.state.active == st.active
  {
    if randomize && (chance > s.rate || !s.enabled) then
      Rotated(Skipped, st)
    else
      var pool := if |proxiesList| > 0 then proxiesList else st.pool;
      if |proxies| > 0 then
        Rotated(Applied(proxies), Proxying(proxies, pool, proxies))
      else if index < |pool| then
        Rotated(Applied(pool[index]), Proxying(st.stored, pool, pool[index]))
      else
        Rotated(OutOfRange, Proxying(st.stored, pool, st.active))
  }

  /** One page request of a browse and the status check after it: the
      randomized rotation of _fetch_products_batch / _fetch_bids_asks_batch,
      the query, and the early returns of the loop. An IndexError of the
      randomized rotation happens inside the `try` and reads as False; one of
      the rotation after a 403 is outside it and escapes. */
  function Attempt(s: Rotation, b: Backend, d: Draws, q: Query, page: int, st: Proxying): (a: Attempted)
    ensures a.state.stored == st.stored && a.state.pool == st.pool
    ensures a.state.active == st.active || a.state.active in st.pool
    // the page is requested unless the rotation before it raised
    ensures a.sent == if RandomRotationRaises(s, st.pool, d.chance(page), d.index(page)) then [] else [Browse(q, page)]
    // the page goes on only on a 200, and then with that response's edges
    ensures a.step.Got? <==>
              !RandomRotationRaises(s, st.pool, d.chance(page), d.index(page)) &&
              b.answer(Browse(q, page)).Resp? && b.answer(Browse(q, page)).response.status == 200
    ensures a.step.Got? ==> b.answer(Browse(q, page)) == Resp(Response(200, a.step.edges))
    // False: an exception in the batch, from the rotation or from the transport
    ensures a.step == Ends(Failed) <==>
              RandomRotationRaises(s, st.pool, d.chance(page), d.index(page)) || b.answer(Browse(q, page)).Exc?
    ensures a.step.Ends? ==> a.step.flag != Succeeded
    // a response flag is the non-200 response itself
    ensures a.step.Ends? && a.step.flag.Halted? ==>
              b.answer(Browse(q, page)) == Resp(a.step.flag.response) && a.step.flag.response.status != 200
    // an escaping exception is the IndexError of the rotation after a 403
    ensures a.step.Raises? ==>
              a.step.error == IndexError && b.answer(Browse(q, page)).Resp? &&
              b.answer(Browse(q, page)).response.status == 403 && d.index403(page) >= |st.pool|
    // a 403 that reaches the rotation after it escapes exactly when that rotation raises
    ensures !RandomRotationRaises(s, st.pool, d.chance(page), d.index(page)) &&
            b.answer(Browse(q, page)).Resp? && b.answer(Browse(q, page)).response.status == 403 ==>
              (a.step.Raises? <==> d.index403(page) >= |st.pool|)
    // with rotation off, only the rotation after a 403 moves the client's proxies
    ensures !s.enabled && a.state != st ==>
              a.step.Ends? && a.step.flag.Halted? && a.step.flag.response.status == 403
  {
    var first := Rotate(s, st, map[], [], true, d.chance(page), d.index(page));
    if first.event.OutOfRange? then
      Attempted(Ends(Failed), first.state, [])
    else
      var request := Browse(q, page);
      match b.answer(request)
      case Exc => Attempted(Ends(Failed), first.state, [request])
      case Resp(res) =>
        if res.status == 200 then
          Attempted(Got(res.edges), first.state, [request])
        else if res.status == 403 then
          // the chance argument is not consulted when randomize is false
          var again := Rotate(s, first.state, map[], [], false, 0.0, d.index403(page));
          if again.event.OutOfRange? then Attempted(Raises(IndexError), again.state, [request])
          else Attempted(Ends(Halted(res)), again.state, [request])
        else
          Attempted(Ends(Halted(res)), first.state, [request])
  }

  /** How a fetch that stops at `page` after gathering `products` ends:
      the exception that escapes, or the triple with its flag (True for a
      200 with no edges). */
  function Finish(step: Step, products: seq<Edge>, page: int): Outcome<Batch>
  {
    match step
    case Raises(e) => Raise(e)
    case Ends(flag) => Return(Batch(products, page, flag))
    case Got(_) => Return(Batch(products, page, Succeeded))
  }

  /** Puts the requests of earlier pages in front of a run. */
  function Prepend(sent: seq<Request>, r: Run): Run
  {
    Run(r.outcome, r.state, sent + r.sent)
  }

  /** The fetch from page `page` on, with `products` gathered so far: the
      specification the pagination loop is proved against. */
  function Pagination(s: Rotation, b: Backend, d: Draws, q: Query, page: int,
                      products: seq<Edge>, st: Proxying): Run
    requires b.Finite()
    decreases b.horizon - page
  {
    var a := Attempt(s, b, d, q, page, st);
    if a.step.Got? && |a.step.edges| > 0 then
      assert b.HasItems(q, page);
      Prepend(a.sent, Pagination(s, b, d, q, page + 1, products + a.step.edges, a.state))
    else
      Run(Finish(a.step, products, page), a.state, a.sent)
  }

  /** What is left of a fetch once page `page` has answered 200 with `edges`. */
  function Continue(s: Rotation, b: Backend, d: Draws, q: Query, page: int,
                    products: seq<Edge>, edges: seq<Edge>, st: Proxying): Run
    requires b.Finite()
  {
    if |edges| == 0 then Run(Return(Batch(products, page, Succeeded)), st, [])
    else Pagination(s, b, d, q, page + 1, products + edges, st)
  }

  /** A page that answers 200 hands the rest of the fetch to Continue. */
  lemma PaginationThenContinue(s: Rotation, b: Backend, d: Draws, q: Query, page: int,
                               products: seq<Edge>, st: Proxying)
    requires b.Finite()
    requires Attempt(s, b, d, q, page, st).step.Got?
    ensures var a := Attempt(s, b, d, q, page, st);
            Pagination(s, b, d, q, page, products, st) ==
            Prepend(a.sent, Continue(s, b, d, q, page, products, a.step.edges, a.state))
  {
  }

  lemma PrependTwice(x: seq<Request>, y: seq<Request>, r: Run)
    ensures Prepend(x, Prepend(y, r)) == Prepend(x + y, r)
  {
  }

  /** fetch_product_sales after its request: the response goes back as it
      came, after one rotation if it is a 403; a transport exception and an
      IndexError of that rotation escape. */
  function Sales(s: Rotation, reply: Reply, index: nat, st: Proxying): (r: SalesRun)
    ensures r.outcome.Return? ==> reply == Resp(r.outcome.value)
    ensures reply.Exc? ==> r == SalesRun(Raise(TransportError), st)
    ensures reply.Resp? && reply.response.status != 403 ==> r == SalesRun(Return(reply.response), st)
    ensures reply.Resp? && reply.response.status == 403 ==>
              r.state == Rotate(s, st, map[], [], false, 0.0, index).state &&
              r.outcome == if index >= |st.pool| then Raise(IndexError) else Return(reply.response)
    ensures r.outcome.Raise? && r.outcome.error == IndexError ==> r.state == st
  {
    match reply
    case Exc => SalesRun(Raise(TransportError), st)
    case Resp(res) =>
      if res.status == 403 then
        var again := Rotate(s, st, map[], [], false, 0.0, index);
        SalesRun(if again.event.OutOfRange? then Raise(IndexError) else Return(res), again.state)
      else
        SalesRun(Return(res), st)
  }

  /** The product page every sales lookup names as its Referer. */
  const RefererBase: string := "https://stockx.com/fr-fr/"

  /** The Referer header of a sales lookup: the product page of `urlKey`. */
  function Referer(urlKey: string): (r: string)
    ensures |r| == |RefererBase| + |urlKey|
    ensures r[..|RefererBase|] == RefererBase && r[|RefererBase|..] == urlKey
  {
    RefererBase + urlKey
  }

  class StockxParser {
    var proxies: Proxies
    var proxiesList: seq<Proxies>
    const rotation: bool
    const rotationRandRate: real
    const client: Client

    function State(): Proxying
      reads this, client
    {
      Proxying(proxies, proxiesList, client.proxies)
    }

    function Settings(): Rotation
    {
      Rotation(rotation, rotationRandRate)
    }

    /** __init__: stores the settings and makes a client set to `proxies`. */
    constructor (proxies: Proxies, proxiesList: seq<Proxies>, rotation: bool,
                 rotationRandRate: real, backend: Backend)
      ensures State() == Proxying(proxies, proxiesList, proxies)
      ensures Settings() == Rotation(rotation, rotationRandRate)
      ensures fresh(client) && client.backend == backend && client.sent == []
    {
      this.proxies := proxies;
      this.proxiesList := proxiesList;
      this.rotation := rotation;
      this.rotationRandRate := rotationRandRate;
      this.client := new Client(proxies, backend);
    }

    /** rotate_proxies; `chance` and `index` are what random.random() and
        randint(0, len(_proxies_list)) would return. */
    method RotateProxies(proxies: Proxies, proxiesList: seq<Proxies>, randomize: bool,
                         chance: real, index: nat) returns (event: Event)
      modifies this, client
      ensures var r := Rotate(Settings(), old(State()), proxies, proxiesList, randomize, chance, index);
              event == r.event && State() == r.state
      ensures client.sent == old(client.sent)
    {
      if randomize {
        if chance > rotationRandRate || !rotation {
          return Skipped;
        }
      }
      var newProxies := proxies;
      if |proxiesList| > 0 {
        this.proxiesList := proxiesList;
      }
      if |proxies| > 0 {
        this.proxies := proxies;
      } else {
        if index >= |this.proxiesList| {
          return OutOfRange;
        }
        newProxies := this.proxiesList[index];
      }
      client.SetProxies(newProxies);
      event := Applied(newProxies);
    }

    /** One turn of the loop: the batch (a randomized rotation, then the
        query for `page`) and the checks on what came back. */
    method FetchPage(q: Query, page: int, draws: Draws) returns (step: Step)
      modifies this, client
      ensures var a := Attempt(Settings(), client.backend, draws, q, page, old(State()));
              step == a.step && State() == a.state && client.sent == old(client.sent) + a.sent
    {
      var event := RotateProxies(map[], [], true, draws.chance(page), draws.index(page));
      if event.OutOfRange? {
        return Ends(Failed);
      }
      var reply := client.Send(Browse(q, page));
      match reply
      case Exc =>
        step := Ends(Failed);
      case Resp(res) =>
        if res.status != 200 {
          if res.status == 403 {
            var again := RotateProxies(map[], [], false, 0.0, draws.index403(page));
            if again.OutOfRange? {
              return Raises(IndexError);
            }
          }
          step := Ends(Halted(res));
        } else {
          step := Got(res.edges);
        }
    }

    /** The loop fetch_products and fetch_bids_asks share: request pages from
        `startPage` on, appending their edges, until one comes back empty or fails. */
    method Paginate(q: Query, startPage: int, draws: Draws) returns (out: Outcome<Batch>)
      requires client.backend.Finite()
      modifies this, client
      ensures var r := Pagination(Settings(), client.backend, draws, q, startPage, [], old(State()));
              out == r.outcome && State() == r.state && client.sent == old(client.sent) + r.sent
    {
      ghost var s, b := Settings(), client.backend;
      ghost var whole := Pagination(s, b, draws, q, startPage, [], State());
      ghost var sent0 := client.sent;
      var products: seq<Edge>, page := [], startPage;
      ghost var before := State();
      var step := FetchPage(q, page, draws);
      if step.Raises? {
        return Raise(step.error);
      } else if step.Ends? {
        return Return(Batch(products, page, step.flag));
      }
      ghost var done := Attempt(s, b, draws, q, page, before).sent;
      PaginationThenContinue(s, b, draws, q, page, products, before);
      var edges := step.edges;
      while |edges| > 0
        invariant b.answer(Browse(q, page)) == Resp(Response(200, edges))
        invariant client.sent == sent0 + done
        invariant whole == Prepend(done, Continue(s, b, draws, q, page, products, edges, State()))
        decreases b.horizon - page
      {
        assert b.HasItems(q, page);
        before := State();
        products := products + edges;
        page := page + 1;
        step := FetchPage(q, page, draws);
        if step.Raises? {
          return Raise(step.error);
        } else if step.Ends? {
          return Return(Batch(products, page, step.flag));
        }
        ghost var a := Attempt(s, b, draws, q, page, before);
        PaginationThenContinue(s, b, draws, q, page, products, before);
        PrependTwice(done, a.sent, Continue(s, b, draws, q, page, products, step.edges, State()));
        done := done + a.sent;
        edges := step.edges;
      }
      return Return(Batch(products, page, Succeeded));
    }

    /** fetch_products(limit, start_page). */
    method FetchProducts(limit: int, startPage: int, draws: Draws) returns (out: Outcome<Batch>)
      requires client.backend.Finite()
      modifies this, client
      ensures var r := Pagination(Settings(), client.backend, draws, Products(limit), startPage, [], old(State()));
              out == r.outcome && State() == r.state && client.sent == old(client.sent) + r.sent
    {
      out := Paginate(Products(limit), startPage, draws);
    }

    /** fetch_bids_asks(transaction_type, limit, transaction_type_limit, start_page):
        a type other than BID or ASK returns ([], start_page, False) at once. */
    method FetchBidsAsks(transactionType: string, limit: int, transactionTypeLimit: int,
                         startPage: int, draws: Draws) returns (out: Outcome<Batch>)
      requires client.backend.Finite()
      modifies this, client
      ensures transactionType != "BID" && transactionType != "ASK" ==>
                out == Return(Batch([], startPage, Failed)) &&
                State() == old(State()) && client.sent == old(client.sent)
      ensures transactionType == "BID" || transactionType == "ASK" ==>
                var r := Pagination(Settings(), client.backend, draws,
                                    BidsAsks(transactionType, limit, transactionTypeLimit), startPage, [], old(State()));
                out == r.outcome && State() == r.state && client.sent == old(client.sent) + r.sent
    {
      if transactionType != "BID" && transactionType != "ASK" {
        return Return(Batch([], startPage, Failed));
      }
      out := Paginate(BidsAsks(transactionType, limit, transactionTypeLimit), startPage, draws);
    }

    /** fetch_product_sales(url_key, product_id, limit): one request, no retry;
        `index` is the draw of the rotation a 403 triggers. */
    method FetchProductSales(urlKey: string, productId: string, limit: int, index: nat)
      returns (out: Outcome<Response>)
      modifies this, client
      ensures var request := Activity(productId, limit, Referer(urlKey));
              var r := Sales(Settings(), client.backend.answer(request), index, old(State()));
              out == r.outcome && State() == r.state && client.sent == old(client.sent) + [request]
    {
      var reply := client.Send(Activity(productId, limit, Referer(urlKey)));
      match reply
      case Exc =>
        return Raise(TransportError);
      case Resp(res) =>
        if res.status != 200 {
          if res.status == 403 {
            var event := RotateProxies(map[], [], false, 0.0, index);
            if event.OutOfRange? {
              return Raise(IndexError);
            }
          }
        }
        out := Return(res);
    }
  }
}
