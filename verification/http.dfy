/** The slice of an Express request and response that an endpoint touches:
    the verb, the query and body objects, the headers it writes and whether
    the response has been ended. */
module Http {
  import opened Wrappers
  import opened Values

  /** An inbound request. `verb` is `request.method` exactly as Express reports it
      (upper case); `query` and `body` are the parsed query string and body. */
  datatype Request = Request(verb: string, query: Obj, body: Obj)

  /** One `response.set(name, value)` call. */
  datatype Header = Header(name: string, value: string)

  /** The outbound response: the header writes in the order they happened, and
      whether the response has been ended (`writableEnded`). */
  datatype Response = Response(headers: seq<Header>, ended: bool)

  /** `response.set(name, value)`. */
  function SetHeader(resp: Response, name: string, value: string): (r: Response)
    ensures r.headers == resp.headers + [Header(name, value)]
    ensures r.ended == resp.ended
  {
    resp.(headers := resp.headers + [Header(name, value)])
  }

  /** The three CORS headers every request receives, in this order. */
  function SetCorsHeaders(resp: Response): (r: Response)
    ensures r.headers == resp.headers + [
      Header("Access-Control-Allow-Origin", "*"),
      Header("Access-Control-Allow-Methods", "GET, POST, PUT, DELETE, PATCH, OPTIONS"),
      Header("Access-Control-Allow-Headers", "content-type")]
    ensures r.ended == resp.ended
  {
    var r1 := SetHeader(resp, "Access-Control-Allow-Origin", "*");
    var r2 := SetHeader(r1, "Access-Control-Allow-Methods", "GET, POST, PUT, DELETE, PATCH, OPTIONS");
    SetHeader(r2, "Access-Control-Allow-Headers", "content-type")
  }

  /** `response.end()`. */
  function End(resp: Response): (r: Response)
    ensures r.ended && r.headers == resp.headers
  {
    resp.(ended := true)
  }

  /** The verbs whose request carries the input in its body. */
  const BodyVerbs: seq<string> := ["POST", "PUT", "PATCH"]

  /** The raw input of a request, chosen by verb; `None` is the `null` that
      the variable keeps for any verb the three tests do not match. The three
      tests run one after another, as in `execute`; at most one matches. */
  function InitialInput(req: Request): (r: Option<Obj>)
    ensures req.verb in BodyVerbs ==> r == Some(req.body)
    ensures req.verb == "GET" ==> r == Some(req.query)
    ensures req.verb == "DELETE" ==>
              && r.Some?
              && r.value.Keys == req.query.Keys + req.body.Keys
              && (forall k :: k in req.body ==> r.value[k] == req.body[k])
              && (forall k :: k in req.query && k !in req.body ==> r.value[k] == req.query[k])
    ensures r.None? <==> req.verb !in BodyVerbs + ["GET", "DELETE"]
  {
    var afterBodyVerbs := if req.verb in BodyVerbs then Some(req.body) else None;
    var afterGet := if req.verb == "GET" then Some(req.query) else afterBodyVerbs;
    if req.verb == "DELETE" then Some(Merge(req.query, req.body)) else afterGet
  }

  /** `{...initialInput}`: a copy of the raw input, or `{}` when it is `null`. */
  function SpreadInput(initial: Option<Obj>): (r: Obj)
    ensures initial.None? ==> r == map[]
    ensures initial.Some? ==> r == initial.value
  {
    match initial
    case None => map[]
    case Some(o) => o
  }
}
