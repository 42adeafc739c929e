/** The transport side of the scraper, as the parser sees it.

    The real client library (HTTP, GraphQL, cookies, headers, JSON decoding)
    is not part of this model. What is kept is what the parser relies on:
    a setter for the active proxy configuration, and a call that sends one
    request and either raises or returns a response whose decoded body is a
    sequence of edges. The remote side is an oracle, a function from requests
    to replies, so a fetch is deterministic once the oracle is fixed.
 */
module Transport {

  /** A proxy configuration, an opaque mapping such as {"https": "..."}.
      Python treats an empty mapping (and None) as false. */
  type Proxies = map<string, string>

  /** One result item of a browse query (the decoded JSON object). */
  datatype Edge = Edge(node: map<string, string>)

  /** A response: its status code and the decoded
      data.browse.results.edges list of its body. */
  datatype Response = Response(status: int, edges: seq<Edge>)

  /** What a request yields: the transport raised (Exc), or a response came back. */
  datatype Reply = Exc | Resp(response: Response)

  /** The two browse queries. Only what varies between requests is kept:
      the page size, and for the order book the transaction type and its limit. */
  datatype Query =
    | Products(limit: int)
    | BidsAsks(transactionType: string, limit: int, transactionTypeLimit: int)

  /** A request sent to the remote side. */
  datatype Request =
    | Browse(query: Query, page: int)
    | Activity(productId: string, limit: int, referer: string)

  /** The remote side: the reply to every request, and a page horizon
      from which on no browse page carries items any more. */
  datatype Backend = Backend(answer: Request -> Reply, horizon: int)
  {
    /** Page `page` of `q` is answered with status 200 and at least one edge. */
    predicate HasItems(q: Query, page: int)
    {
      var reply := answer(Browse(q, page));
      reply.Resp? && reply.response.status == 200 && |reply.response.edges| > 0
    }

    /** Every query runs out of items at the horizon. */
    ghost predicate Finite()
    {
      forall q: Query, page: int :: horizon <= page ==> !HasItems(q, page)
    }
  }

  /** The transport client: its active proxy setting and the log of the
      requests it has sent, in order. */
  class Client {
    var proxies: Proxies
    var sent: seq<Request>
    const backend: Backend

    constructor (proxies: Proxies, backend: Backend)
      ensures this.proxies == proxies && sent == []
      ensures this.backend == backend
    {
      this.proxies := proxies;
      this.sent := [];
      this.backend := backend;
    }

    /** set_proxies: replaces the active proxy configuration. */
    method SetProxies(proxies: Proxies)
      modifies this
      ensures this.proxies == proxies && sent == old(sent)
    {
      this.proxies := proxies;
    }

    /** Sends one request and hands back what the remote side replies. */
    method Send(request: Request) returns (reply: Reply)
      modifies this
      ensures reply == backend.answer(request)
      ensures sent == old(sent) + [request] && proxies == old(proxies)
    {
      sent := sent + [request];
      reply := backend.answer(request);
    }
  }
}
