# stockx-parser control logic in Dafny

This project models the decision logic of `StockxParser`, a small scraper for
a marketplace's browse and activity endpoints. Three pieces are modelled:

- **Proxy rotation** (`rotate_proxies`). A randomized call goes ahead only when
  rotation is enabled and a random draw does not exceed the configured rate.
  A non-empty `proxies_list` replaces the stored pool. Non-empty `proxies`
  are stored and pushed to the client. Otherwise the client gets the pool
  entry at `randint(0, len(pool))`. That bound is inclusive, so the last
  draw indexes past the end and raises `IndexError`. The model keeps that
  case as the `OutOfRange` event.
- **The browse loop** shared by `fetch_products` and `fetch_bids_asks`. Each
  page request first makes a randomized rotation and then queries. The loop
  stops on an exception (flag `False`), on a non-200 status (the response
  itself is the flag, and a 403 first makes a non-randomized rotation) or
  on a 200 whose `edges` list is empty (flag `True`). Otherwise it appends
  the edges, moves to the next page and repeats.
  An `IndexError` from the randomized rotation is raised inside the `try`,
  so it reads as `False`. One from the rotation after a 403 is outside the
  `try` and escapes to the caller. `fetch_bids_asks` first rejects a
  transaction type other than `BID` or `ASK` with `([], start_page, False)`.
- **`fetch_product_sales`**: one request, the response returned as it
  came, one rotation on a 403, no retry.

Files:

- `transport.dfy`, module `Transport`: the external client reduced to what
  the parser uses. A `Backend` is an oracle from requests to replies
  (`Exc` or `Resp(status, edges)`). A `Client` holds the active proxy
  setting and the log of the requests it has sent.
- `parser.dfy`, module `Parser`: the pure specification functions and the
  class `StockxParser`. `Rotate` is one rotation, `Attempt` one page
  request, `Pagination` a whole browse fetch and `Sales` the sales status
  handling. The class has the fields `proxies` and `proxiesList`, and its
  methods are verified against those functions. The loop in
  `StockxParser.Paginate` is proved by an invariant that ties the pages
  seen so far to `Pagination`.
- `pagination_lemmas.dfy`, module `PaginationLemmas`: what a fetch returns,
  proved by induction over the pages.

The random draws are inputs. `random.random()` is a real number per page
(`Draws.chance`). Each `randint` result is a natural number, one per page
for the randomized rotation (`Draws.index`) and one for the rotation after
a 403 (`Draws.index403`).

The code has only random rotation, no page ceiling, no price-levels
lookup and no retry. The model follows it:

- The code has no sequential or fixed rotation policy, only the random draw.
- It has no `stop_page` ceiling.
- It has no `fetch_product_price_levels`.
- It does not retry after a 403 in `fetch_product_sales`.
- A non-randomized rotation runs even when rotation is disabled.

## Model

| member | source | states |
|---|---|---|
| Parser.Rotate | stockx_parser/parser.py:25-41 | A randomized call with rotation off or a draw above the rate changes nothing. A non-randomized call always runs. A non-empty list replaces the pool and an empty one keeps it. Explicit proxies are stored and are exactly what the client is set to. Otherwise the stored proxies stay and the client gets `pool[index]`. An index at or past the end of the pool raises, with the client left as it was. |
| Parser.StockxParser.RotateProxies | stockx_parser/parser.py:25-41 | The method's event and the new stored proxies, pool and client proxies are those of `Rotate` on the old state. No request is sent. |
| Parser.Attempt | stockx_parser/parser.py:100-111 | One page request leaves the stored proxies and the pool unchanged. The page is requested unless the rotation before it raised. The loop goes on exactly on a 200, with that response's edges. `False` means the randomized rotation raised or the transport raised. A response flag is the non-200 response the page got. An escaping exception is the `IndexError` of the rotation after a 403, and a 403 that reaches that rotation escapes exactly when its index is at or past the end of the pool. With rotation off, the proxy state changes only on a 403. |
| Parser.StockxParser.FetchPage | stockx_parser/parser.py:100-111 | The step returned, the new proxy state and the requests sent are those of `Attempt`. |
| Parser.StockxParser.Paginate | stockx_parser/parser.py:82-113 | The loop's result, final proxy state and requests sent equal `Pagination` from the start page with no products. |
| Parser.StockxParser.FetchProducts | stockx_parser/parser.py:82-113 | `fetch_products` is `Pagination` of the products query from `start_page`. |
| Parser.StockxParser.FetchBidsAsks | stockx_parser/parser.py:158-191 | A transaction type other than BID or ASK returns `([], start_page, False)`, sends no request and changes no proxy state. Otherwise the result is `Pagination` of the order-book query. |
| Parser.Pagination | stockx_parser/parser.py:82-113 | No ensures of its own. It is the recursive definition of a whole browse fetch: one `Attempt` per page, going on to the next page while a page answers 200 with edges. It terminates because `Backend.Finite` runs out of items at the horizon. Its properties are the `PaginationLemmas` rows below. |
| Parser.Referer | stockx_parser/parser.py:194 | The Referer is the product page base `https://stockx.com/fr-fr/` followed by exactly the url key. |
| Parser.Sales | stockx_parser/parser.py:205-210 | A returned response is exactly the one received. A transport exception escapes and changes nothing. A status other than 403 leaves the proxy state unchanged. A 403 makes one non-randomized rotation. Its result is `IndexError` exactly when the drawn index is at or past the end of the pool, and otherwise the 403 response itself. |
| Parser.StockxParser.FetchProductSales | stockx_parser/parser.py:193-210 | Exactly one request is sent, so there is no retry. The result and the new proxy state are those of `Sales` on its reply. |
| Parser.StockxParser.constructor | stockx_parser/parser.py:8-23 | The stored proxies, pool and settings are the arguments. A fresh client is set to `proxies` and has sent nothing. |
| Transport.Client.SetProxies | stockx_parser/parser.py:41 | The client's active proxies become the argument. |
| Transport.Client.Send | stockx_parser/parser.py:80 | The reply is the oracle's answer. The request is appended to the log. |
| PaginationLemmas.PaginationRequests | stockx_parser/parser.py:82-113 | A fetch requests consecutive pages from its start page, in order. It never changes the stored proxies or the pool. The client ends on its old proxies or on a pool entry. |
| PaginationLemmas.PaginationProducts | stockx_parser/parser.py:96-113 | Whatever the replies, a returned page is at least the start page. The products are the start products followed by the edges of the earlier pages in page order. Each of those earlier pages answered 200 with items. |
| PaginationLemmas.PaginationFlag | stockx_parser/parser.py:97-113 | Whatever the replies, the flag tells how the last page ended, and each case fixes the number of requests. `True` means the last page answered 200 with no edges. A response flag is that page's non-200 response. `False` means the transport raised on that page, or the rotation before it raised and the page was never requested. An escaping exception is the `IndexError` of the rotation after a 403. |
| PaginationLemmas.PaginationPrefix | stockx_parser/parser.py:97-111 | When the first k pages answer 200 with items and their rotations do not raise, the fetch is those k requests followed by the fetch from page start+k with their edges appended. |
| PaginationLemmas.StopsAtFirstEmptyPage | stockx_parser/parser.py:96-113 | With k pages of items and then a 200 with no edges, the result is (start products plus the k pages' edges in order, start+k, `True`) after exactly k+1 requests. For k = 0 an empty first page is a success with nothing gathered. |
| PaginationLemmas.StopsOnTransportError | stockx_parser/parser.py:100-104 | A transport exception on page start+k returns the earlier pages' edges, page start+k and `False`. Nothing of that page is appended, after k+1 requests. |
| PaginationLemmas.StopsOnRotationError | stockx_parser/parser.py:43-45 | An out-of-range randomized rotation before page start+k returns the earlier pages' edges, page start+k and `False`, and that page is never requested. |
| PaginationLemmas.StopsOnErrorStatus | stockx_parser/parser.py:106-110 | A non-200 status on page start+k returns the earlier pages' edges, that page and the response itself, after k+1 requests. On a 403 a non-randomized rotation follows, and its `IndexError` escapes instead. Other statuses do not rotate. |
| PaginationLemmas.DisabledRotationMovesOnlyOn403 | stockx_parser/parser.py:26-28 | With rotation disabled, a fetch that changes any proxy state ends on a 403 response. |

## Left out

- `StockxClient` and everything behind it: HTTP, GraphQL, cookies, headers and the gateway. The transport is an oracle (`Backend.answer`) and the client keeps only its proxy setting and a request log.
- The query payloads. They are constant data, and only the page index, the limits and the transaction type are kept in `Query` and `Request`.
- The sales request's constant parameters. The limit is kept as an integer rather than `str(limit)`.
- The `light` query selection and the unused `multi_threaded` parameter.
- `print` logging.
- JSON decoding of `data.browse.results.edges`. A response carries its decoded edges instead, so a malformed body, which would raise outside the `try`, is not modelled.
- `stockx_parser/queries.py`, which holds static GraphQL text, and `setup.py`, which is packaging metadata.
- Randomness. `random.random()` and `randint` become inputs, given per page for a fetch. The float comparison is done on `real`, so float rounding is not captured.
- Possible `randint` results. The model accepts any natural number as an index, not only `0..len(pool)`, and every index from `len(pool)` on raises.
- `None` arguments to `rotate_proxies` are modelled as an empty map or list. Python treats both as false.
- Default arguments, since every operation takes each value explicitly. These are the defaults of `__init__` (`proxies={}`, `proxies_list=[{}]`, `rotation_rand_rate=0.15`), of `fetch_products` (`limit=15`, `start_page=1`), of `fetch_bids_asks` (`limit=50`, `transaction_type_limit=50`, `start_page=1`) and of `fetch_product_sales` (`limit=50`).
- The effect of the active proxies on the server's answer. An oracle reply depends only on the request, so in the model a rotation cannot change what a later call receives.
- Aliasing of the stored list with the caller's list, including the shared mutable default `[{}]`. Proxy state is modelled as values.
- The two copies of the browse loop in the source. They differ only in the query, so they are modelled as one method, `Paginate`, that both fetches call.
- Pagination that never ends. A `Backend` has a horizon from which no page answers 200 with items (`Backend.Finite`), which gives the loop its termination measure. A fetch against a server that never runs out of pages is not modelled.
