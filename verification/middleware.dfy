/** The application's own HTTP middleware (`middleware`): a gate that lets a
    request down the chain only when it carries the header `ping: pong`, and
    stamps `status: success` on every response that comes back. */
module Middleware {
  import opened Values
  import opened Http

  /** The fixed answer to a request without `ping: pong`. */
  const MissingHeader: Response :=
    Response(404, JsonMediaType, map[], JObject([("error", JString("请求头中缺少指定字段"))]))

  /** One pass through the gate: the response it returns and a record of the
      requests it handed to the rest of the chain (`call_next`). The record is
      kept by `Gate` itself; that the rest of the chain cannot affect a
      rejected request is shown independently of it by `RejectionIgnoresChain`,
      whose answer is the same whatever `next` is. */
  datatype Exchange = Exchange(response: Response, forwarded: seq<Request>)

  /** Whether the gate lets `req` through: `request.headers.get("ping", "") == "pong"`. */
  predicate Admits(req: Request)
  {
    HeaderOr(req.headers, "ping", "") == "pong"
  }

  /** `middleware(request, call_next)`, with the rest of the chain passed as `next`. */
  function Gate(req: Request, next: Request -> Response): (x: Exchange)
    ensures !("ping" in req.headers && req.headers["ping"] == "pong") ==>
              && x.forwarded == []
              && x.response.status == 404
              && x.response.headers == map[]
              && x.response.mediaType == "application/json"
              && x.response.body == JObject([("error", JString("请求头中缺少指定字段"))])
    ensures "ping" in req.headers && req.headers["ping"] == "pong" ==>
              && x.forwarded == [req]
              && x.response.status == next(req).status
              && x.response.mediaType == next(req).mediaType
              && x.response.body == next(req).body
              && "status" in x.response.headers
              && x.response.headers["status"] == "success"
              && (forall k :: k in x.response.headers && k != "status" ==>
                    k in next(req).headers && x.response.headers[k] == next(req).headers[k])
              && (forall k :: k in next(req).headers && k != "status" ==> k in x.response.headers)
  {
    if !Admits(req) then
      Exchange(MissingHeader, [])
    else
      var response := next(req);
      Exchange(response.(headers := response.headers["status" := "success"]), [req])
  }

  /** A rejected request gets the same answer whatever the rest of the chain
      would have done: the rest of the chain is never consulted. */
  lemma RejectionIgnoresChain(req: Request, next1: Request -> Response, next2: Request -> Response)
    requires !Admits(req)
    ensures Gate(req, next1) == Gate(req, next2)
    ensures Gate(req, next1).response == MissingHeader
  {
  }

  /** The chain is consulted iff the request carries `ping: pong`, and an
      admitted request never receives the rejection, whatever the chain answers
      (its response always carries the `status` header, the rejection does not). */
  lemma ForwardsIffAdmitted(req: Request, next: Request -> Response)
    ensures Gate(req, next).forwarded != [] <==> Admits(req)
    ensures Admits(req) ==> Gate(req, next).response != MissingHeader
  {
  }

  /** Installing the gate twice behaves as installing it once: the inner gate
      admits exactly what the outer one admits and re-stamping `status` changes
      nothing. */
  lemma GateIdempotent(req: Request, next: Request -> Response)
    ensures Gate(req, r => Gate(r, next).response).response == Gate(req, next).response
  {
  }
}
