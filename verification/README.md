# fastapi_test core in Dafny

This repository is a set of annotated FastAPI example endpoints. Almost everything in it is
a one-line call into the framework. Three pieces of `main.py` hold decision logic of the
application's own, and this project models them as pure functions with full contracts:

- **`get_data`**, the `/postgres/{schema}/v1/{table}` endpoint (module `Query`). It assembles
  `select <select> from <schema>.<table>`. It then appends ` where …`, ` limit …` and
  ` offset …`, each only when its parameter is truthy in Python's sense. `None`, `""` and
  `0` all drop the clause. Integers are written as Python's `str(int)` writes them
  (module `Decimal`).
- **`middleware`**, the HTTP middleware (module `Middleware`). A request without the
  header `ping: pong` is answered at once with a fixed 404 JSON response. Any other request
  goes down the chain, and the response that comes back gets the header `status: success`.
  The rest of the chain (`call_next`) is a function parameter. The gate also records the
  requests it forwarded, but that record is written by the gate itself. The statement
  that a rejected request never depends on the chain is `Middleware.RejectionIgnoresChain`:
  the answer is the same whatever the rest of the chain is.
- **the two `read_item` handlers and `ascii_exception_handler`** (module `Items`). A raised
  exception is an `Err` outcome.

Shared types are in `Values` (`Option`, `Result` and a small `Json` value type) and in
`Http` (`Request`, `Response` and header lookup).

The clause properties of `get_data` are stated against an independent reader, `Query.ParseTail`.
It reads the text after the where clause as an optional ` limit <n>` followed by an optional
` offset <m>`. The round trip through this reader shows four things. A clause is present iff
its parameter is truthy. The clause carries the parameter's value. Limit comes before offset.
Neither clause repeats.

## Model

| member | source | states |
|---|---|---|
| Query.GetData | main.py:66-82 | The query starts with `select <select or *> from <schema>.<table>`. The text after it starts with ` where ` iff `where` is present and non-empty, and then carries `where` verbatim. The remaining text reads back as exactly the non-zero limit and offset, in that order. With every optional falsy, the query is the head alone. |
| Query.QueryAfterHead | main.py:75-81 | For any head, the appended text starts with ` where ` iff `where` is truthy. The rest reads back as the truthy limit and offset. With no truthy optional, nothing is appended. |
| Query.TailRoundTrip | main.py:78-81 | The limit/offset text reads back as `(limit, offset)` with `None` and `0` both mapped to "absent". So a ` limit`/` offset` clause appears iff its value is present and non-zero, at most once, with limit first. |
| Query.TailIsNotWhere | main.py:76-81 | When `where` is falsy, nothing after the head can be mistaken for a where clause. |
| Decimal.IntToString | main.py:79-81 | The f-string rendering of an integer is non-empty. It starts with `-` iff the value is negative, and the rest is digits with no leading zero (only `0` itself starts with `0`, and there is no `-0`). |
| Decimal.IntRoundTrip | main.py:79-81 | The rendering of every integer reads back as the same integer through a reader that accepts only the canonical form, so the numbers in the query are fixed exactly. |
| Decimal.IntToStringInjective | main.py:79-81 | Distinct limit/offset values are rendered as distinct strings. |
| Http.HeaderOr | main.py:439 | `headers.get(key, default)` gives the stored value when the key is present and the default otherwise. |
| Middleware.Gate | main.py:433-453 | When header `ping` is missing or not `pong`, the result is status 404 with media type `application/json`, body `{"error": …}` and no headers of its own (in particular no `status`), and nothing is forwarded. Otherwise exactly the request is forwarded. The chain's status, media type and body are kept. Header `status` is `success`, and every other header is unchanged. |
| Middleware.RejectionIgnoresChain | main.py:439-445 | A rejected request gets the fixed rejection whatever the rest of the chain would do. |
| Middleware.ForwardsIffAdmitted | main.py:439-450 | The gate's own record of forwarded requests is non-empty iff `ping == "pong"`. An admitted request never receives the rejection response. The record is written by `Gate` itself. That the chain is not consulted for a rejected request is shown by `RejectionIgnoresChain`. That it is consulted for an admitted one is shown by `Gate` passing on the chain's status and body. |
| Middleware.GateIdempotent | main.py:450-453 | Stacking the gate twice answers exactly as one gate does, because setting `status: success` again changes nothing. |
| Items.ReadItem | main.py:356-361 | Returns `{"item": "bar"}` iff the id is `foo`. Otherwise it raises `HTTPException` with status 404 and detail `item 没有发现`. |
| Items.ReadAsciiItem | main.py:379-383 | Returns `{"item": "get " + id}` iff every character of the id is below 128. Otherwise it raises `ASCIIException`. |
| Items.AsciiExceptionHandler | main.py:373-377 | `ASCIIException` maps to a 404 JSON response with body `{"code": 404, "message": "你必须传递 ascii 字符串"}`. |
| Items.ServeAsciiItem | main.py:373-383 | The second handler with its registered exception handler answers 200 `{"item": "get " + id}` iff the id is ASCII. Otherwise it answers 404 `{"code": 404, "message": "你必须传递 ascii 字符串"}`. Both answers are JSON with no headers of the handler's own. |
| Items.AsciiItemBehindGate | main.py:433-453 | The ASCII handler with its exception handler (main.py:373-383), run as the `ping` middleware's `call_next`. As the answer leaves `middleware`, it is 200 iff the request carries `ping: pong` and the id is ASCII. A request without the header gets the rejection whatever the id. An admitted request gets the echo or the ASCII error, with only the header `status: success`. |
| Items.FooBehindGate | main.py:433-453 | Run as the `ping` middleware's `call_next` and seen as the answer leaves `middleware`, the item `foo` of the first handler (main.py:356-361) is served as 200 `{"item": "bar"}` with `status: success` iff the request carries `ping: pong`. Otherwise the request gets the rejection. |
| Items.AsciiItemEchoInjective | main.py:383 | The echoed body determines the item id: two ids with the same answer are equal. |

## Left out

- Route registration and shadowing. Several handlers share a path (`/items/{item_id}`, `/user`, `/girl`, `/index`), and FastAPI serves a request with the first registered route that matches. Of the two `read_item` handlers, the one at main.py:356 is registered first and serves every `GET /items/{item_id}` that reaches them. So the ASCII handler at main.py:379-383 never runs in the application. Each handler is modelled on its own, and Items.AsciiItemBehindGate describes the ASCII handler as if it were reached.
- Parameter parsing and validation (`Query`, `Path`, `Form`, pydantic models). These are framework calls. The model takes the already-parsed values: strings, and `Option` for the `Optional` ones.
- JSON serialisation (`orjson.dumps`, `ORJSONResponse`), templates, static files, redirects and file responses. Bodies are the `Json` value before serialisation.
- The `content-length` and `content-type` headers that the framework adds to a response. The media type is a separate field instead.
- Items.ReadItem: only the raise of `HTTPException(404, …)` is modelled, not the response it becomes. main.py:388-390 routes every `StarletteHTTPException` to `not_found`. That handler builds an `ORJSONResponse` without a status code, and the class defaults to 200. So, as the answer leaves `middleware`, an admitted request (`ping: pong`) for any id other than `foo` gets a 200 with `{"code": 404, "message": "您要找的页面去火星了。。。"}`, stamped `status: success`. A request without the header gets the middleware's 404 rejection whatever the id. The CORS layer outside `middleware` (see below) can add to or replace that answer. That library default is not modelled, so neither is this answer. Items.FooBehindGate covers only the success path for this reason.
- Items.ServeAsciiItem: sending a returned dict as a 200 JSON response is the framework's default for a GET route. The model assumes that default; main.py does not state it.
- ASCII test: characters are Unicode scalar values, as in Dafny, so lone surrogates (which a Python `str` can hold) cannot be written.
- Middleware.Gate: the rest of the chain is modelled as always returning a response. In main.py:450 an exception raised by `call_next` (a view error no handler catches) propagates out of `middleware` before main.py:452 runs. Such an admitted request never gets `status: success`, and the model does not cover that path.
- The built-in middleware (main.py:458-493). HTTPS-redirect, TrustedHost and GZip are commented out (main.py:459, main.py:465, main.py:470). CORSMiddleware (main.py:478-493) is installed, and it is added after `middleware`, so it wraps it on the outside. It is library code and is not modelled. With the configuration at main.py:478-493, a request carrying an `Origin` header also gets `access-control-allow-origin: *` on whatever `middleware` answers, the rejection included. A CORS preflight (OPTIONS with `Access-Control-Request-Method`) is answered by CORSMiddleware itself with a 200 and never reaches `middleware`. Middleware.Gate and the Items.*BehindGate lemmas describe the answer as it leaves `middleware`, before CORS.
- HTTP Basic auth, the websocket echo loop and background tasks. These are I/O, concurrency and sleeping.
- `uvicorn.run` and the `TestClient` tests (main.py:577-597). These launch a process and make network requests.
- app/app01.py and app/app02.py. They only declare router prefixes and a constant handler.
- Header names are matched exactly. The framework's case-insensitive header lookup is not modelled.
