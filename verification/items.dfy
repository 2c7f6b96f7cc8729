/** The two `/items/{item_id}` handlers and the exception handler registered
    for the custom ASCII exception. A handler either returns a JSON body or
    raises; raising is modelled as an `Err` outcome. */
module Items {
  import opened Values
  import opened Http
  import opened Middleware

  /** The exceptions the handlers raise: FastAPI's `HTTPException(status_code,
      detail)` and the application's own `ASCIIException`. */
  datatype Raised = HttpError(status: int, detail: string) | AsciiError

  const ItemNotFound: string := "item 没有发现"
  const AsciiRequired: string := "你必须传递 ascii 字符串"

  /** First `read_item`: only the item `foo` exists. */
  function ReadItem(itemId: string): (r: Result<Json, Raised>)
    ensures r.Ok? <==> itemId == "foo"
    ensures r.Ok? ==> r.value == JObject([("item", JString("bar"))])
    ensures r.Err? ==> r.error.HttpError? && r.error.status == 404 && r.error.detail == "item 没有发现"
  {
    if itemId != "foo" then Err(HttpError(404, ItemNotFound))
    else Ok(JObject([("item", JString("bar"))]))
  }

  /** Python's `str.isascii()`: every code point is below 128 (true of ""). */
  predicate IsAscii(s: string)
  {
    forall i :: 0 <= i < |s| ==> s[i] as int < 128
  }

  /** Second `read_item`: any ASCII item id is echoed back, anything else
      raises `ASCIIException`. */
  function ReadAsciiItem(itemId: string): (r: Result<Json, Raised>)
    ensures r.Ok? <==> forall i :: 0 <= i < |itemId| ==> itemId[i] as int < 128
    ensures r.Ok? ==> r.value == JObject([("item", JString("get " + itemId))])
    ensures r.Err? ==> r.error == AsciiError
  {
    if !IsAscii(itemId) then Err(AsciiError)
    else Ok(JObject([("item", JString("get " + itemId))]))
  }

  /** `ascii_exception_handler`: the response that `ASCIIException` is mapped to. */
  function AsciiExceptionHandler(req: Request, exc: Raised): (r: Response)
    requires exc == AsciiError
    ensures r.status == 404 && r.mediaType == "application/json"
    ensures r.headers == map[]
    ensures r.body == JObject([("code", JInt(404)), ("message", JString("你必须传递 ascii 字符串"))])
  {
    Response(404, JsonMediaType, map[], JObject([("code", JInt(404)), ("message", JString(AsciiRequired))]))
  }

  /** A body returned by a handler, sent as a 200 JSON response. */
  function Returned(body: Json): (r: Response)
    ensures r.status == 200 && r.mediaType == "application/json" && r.body == body
    ensures r.headers == map[]
  {
    Response(200, JsonMediaType, map[], body)
  }

  /** The second `/items/{item_id}` handler together with its registered
      exception handler: a returned body goes out as a 200 JSON response,
      `ASCIIException` through `ascii_exception_handler`. */
  function ServeAsciiItem(req: Request, itemId: string): (r: Response)
    ensures r.status == 200 <==> IsAscii(itemId)
    ensures r.status == 404 <==> !IsAscii(itemId)
    ensures r.mediaType == "application/json"
    ensures r.headers == map[]
    ensures IsAscii(itemId) ==> r.body == JObject([("item", JString("get " + itemId))])
    ensures !IsAscii(itemId) ==>
              r.body == JObject([("code", JInt(404)), ("message", JString("你必须传递 ascii 字符串"))])
  {
    match ReadAsciiItem(itemId)
    case Ok(body) => Returned(body)
    case Err(exc) => AsciiExceptionHandler(req, exc)
  }

  /** The second handler and its exception handler, run as the `ping`
      middleware's `call_next`; the answer is the one leaving the middleware: a 200 iff the request carries `ping: pong` and the id is
      ASCII; a request without the header gets the middleware's rejection
      whatever the id; an admitted request gets the handler's answer (echo or
      ASCII error) stamped with `status: success`. */
  lemma AsciiItemBehindGate(req: Request, itemId: string)
    ensures var r := Gate(req, q => ServeAsciiItem(q, itemId)).response;
      && (r.status == 200 <==> Admits(req) && IsAscii(itemId))
      && (!Admits(req) ==> r == MissingHeader)
      && (Admits(req) && IsAscii(itemId) ==>
            r.body == JObject([("item", JString("get " + itemId))])
            && r.headers == map["status" := "success"])
      && (Admits(req) && !IsAscii(itemId) ==>
            r.status == 404
            && r.body == JObject([("code", JInt(404)), ("message", JString(AsciiRequired))])
            && r.headers == map["status" := "success"])
  {
  }

  /** The first `/items/{item_id}` handler run as the `ping` middleware's
      `call_next`, on its success path; the answer is the one leaving the
      middleware: the item `foo` is served as a 200 `{"item": "bar"}`
      stamped `status: success` iff the request carries `ping: pong`, and
      otherwise the request gets the middleware's rejection. */
  lemma FooBehindGate(req: Request)
    ensures ReadItem("foo").Ok?
    ensures var r := Gate(req, q => Returned(ReadItem("foo").value)).response;
      && (r.status == 200 <==> Admits(req))
      && (Admits(req) ==>
            r.body == JObject([("item", JString("bar"))]) && r.headers == map["status" := "success"])
      && (!Admits(req) ==> r == MissingHeader)
  {
  }

  /** The echoed body determines the item id: different ASCII ids get
      different answers. */
  lemma AsciiItemEchoInjective(a: string, b: string)
    requires ReadAsciiItem(a).Ok? && ReadAsciiItem(b).Ok?
    requires ReadAsciiItem(a) == ReadAsciiItem(b)
    ensures a == b
  {
    var sa := "get " + a;
    var sb := "get " + b;
    assert sa == sb;
    assert a == sa[4..] && b == sb[4..];
  }
}
