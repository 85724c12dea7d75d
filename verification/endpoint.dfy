/** An endpoint binds a chain of middlewares, an input schema, a handler and a
    result handler; `Execute` drives one request through them. Every
    collaborator is an opaque total function whose exceptions are `Fail`
    values, and one run is recorded as the ordered list of the callbacks it
    invoked, with the arguments each received. */
module Endpoints {
  import opened Wrappers
  import opened Values
  import opened Http

  /** The verb an endpoint is registered for (used by routing, not by `Execute`). */
  datatype Method = Get | Post | Put | Delete | Patch

  /** A schema's `parse`: the validated (possibly transformed) object, or the
      validation error it throws. */
  type Schema = Obj -> Result<Obj, Exception>

  /** What a middleware returns: the options it contributes, and whether it
      ended the response itself while running. */
  datatype Contribution = Contribution(options: Obj, endsResponse: bool)

  /** A middleware's function of the accumulated input and options. */
  type Middleware = (Obj, Obj) -> Result<Contribution, Exception>

  /** A middleware together with the schema its input must satisfy. */
  datatype MiddlewareDefinition = MiddlewareDefinition(input: Schema, middleware: Middleware)

  /** The business handler: validated input and options to output. */
  type Handler = (Obj, Obj) -> Result<Obj, Exception>

  /** What the result handler is given (besides request and response):
      the captured error, the raw initial input and the handler's output. */
  datatype ResultPayload = ResultPayload(error: Option<Exception>, input: Option<Obj>, output: Option<Obj>)

  /** The result handler, which writes the response for success and failure alike. */
  type ResultHandler = ResultPayload -> Result<(), Exception>

  datatype Endpoint = Endpoint(
    routeMethod: Method,
    middlewares: seq<MiddlewareDefinition>,
    inputSchema: Schema,
    outputSchema: Schema,
    handler: Handler,
    resultHandler: ResultHandler)

  /** The constructor: every part is stored as given, except that a missing
      (`null`) result handler is replaced by the library's default one. */
  function NewEndpoint(routeMethod: Method, middlewares: seq<MiddlewareDefinition>,
                       inputSchema: Schema, outputSchema: Schema, handler: Handler,
                       resultHandler: Option<ResultHandler>,
                       defaultResultHandler: ResultHandler): (e: Endpoint)
    ensures resultHandler.None? ==> e.resultHandler == defaultResultHandler
    ensures resultHandler.Some? ==> e.resultHandler == resultHandler.value
    ensures e.routeMethod == routeMethod && e.middlewares == middlewares && e.handler == handler
    ensures e.inputSchema == inputSchema && e.outputSchema == outputSchema
  {
    var chosen := match resultHandler
      case Some(h) => h
      case None => defaultResultHandler;
    Endpoint(routeMethod, middlewares, inputSchema, outputSchema, handler, chosen)
  }

  /** One callback invocation together with the arguments it received.
      `stage` is the middleware's position in the endpoint's chain. */
  datatype Call =
    | ParseStageInput(stage: nat, input: Obj)
    | RunMiddleware(stage: nat, input: Obj, options: Obj)
    | ParseFinalInput(input: Obj)
    | RunHandler(input: Obj, options: Obj)
    | RunResultHandler(payload: ResultPayload)
  {
    predicate IsStage() {
      ParseStageInput? || RunMiddleware?
    }
  }

  /** The error the callback named by `c` raises on the arguments recorded in
      `c`, if it raises one. */
  function ErrorOf(e: Endpoint, c: Call): (r: Option<Exception>) {
    match c
    case ParseStageInput(i, input) =>
      if i < |e.middlewares| then e.middlewares[i].input(input).ErrorOrNone() else None
    case RunMiddleware(i, input, options) =>
      if i < |e.middlewares| then e.middlewares[i].middleware(input, options).ErrorOrNone() else None
    case ParseFinalInput(input) => e.inputSchema(input).ErrorOrNone()
    case RunHandler(input, options) => e.handler(input, options).ErrorOrNone()
    case RunResultHandler(payload) => e.resultHandler(payload).ErrorOrNone()
  }

  /** Whether `c` is a middleware call that returned normally and after which
      the response counts as ended (`alreadyEnded` is the flag before it ran). */
  predicate EndsResponse(e: Endpoint, c: Call, alreadyEnded: bool) {
    && c.RunMiddleware?
    && c.stage < |e.middlewares|
    && match e.middlewares[c.stage].middleware(c.input, c.options)
       case Ok(k) => alreadyEnded || k.endsResponse
       case Fail(_) => false
  }

  /** One request: the response as `Execute` leaves it, the callbacks it
      invoked in order, and the error lines it logged. */
  datatype Execution = Execution(response: Response, calls: seq<Call>, log: seq<string>)

  /** How the middleware loop stopped. */
  datatype ChainOutcome =
    | Completed(input: Obj, options: Obj)
    | Bypassed
    | Failed(error: Exception)

  /** The loop's outcome, the calls it made and the response's ended flag after it. */
  datatype Chain = Chain(outcome: ChainOutcome, calls: seq<Call>, ended: bool)

  /** The middleware loop from position `stage` on, starting from the
      accumulated `input` and `options`. Each stage merges its schema's parse
      of the input into the input, calls the middleware, merges the options it
      returns, and stops the loop if the response is now ended. */
  function RunChain(e: Endpoint, stage: nat, input: Obj, options: Obj, ended: bool): (c: Chain)
    requires stage <= |e.middlewares|
    ensures c.outcome.Bypassed? ==> c.ended && |c.calls| > 0
    ensures !c.outcome.Bypassed? ==> c.ended == ended
    decreases |e.middlewares| - stage
  {
    if stage == |e.middlewares| then Chain(Completed(input, options), [], ended)
    else
      var def := e.middlewares[stage];
      var parse := ParseStageInput(stage, input);
      match def.input(input)
      case Fail(err) => Chain(Failed(err), [parse], ended)
      case Ok(parsed) =>
        var input' := Merge(input, parsed);
        var run := RunMiddleware(stage, input', options);
        match def.middleware(input', options)
        case Fail(err) => Chain(Failed(err), [parse, run], ended)
        case Ok(k) =>
          var options' := Merge(options, k.options);
          var ended' := ended || k.endsResponse;
          if ended' then Chain(Bypassed, [parse, run], true)
          else
            var rest := RunChain(e, stage + 1, input', options', ended');
            rest.(calls := [parse, run] + rest.calls)
  }

  /** Each middleware costs the loop at most two calls, its schema parse and
      the middleware itself, and a loop that runs to the end made exactly
      both calls for every middleware. */
  lemma {:induction false} ChainLength(e: Endpoint, stage: nat, input: Obj, options: Obj, ended: bool)
    requires stage <= |e.middlewares|
    ensures |RunChain(e, stage, input, options, ended).calls| <= 2 * (|e.middlewares| - stage)
    ensures RunChain(e, stage, input, options, ended).outcome.Completed? ==>
      |RunChain(e, stage, input, options, ended).calls| == 2 * (|e.middlewares| - stage)
    decreases |e.middlewares| - stage
  {
    if stage < |e.middlewares| {
      var def := e.middlewares[stage];
      match def.input(input) {
      case Fail(_) =>
      case Ok(parsed) =>
        var input' := Merge(input, parsed);
        match def.middleware(input', options) {
        case Fail(_) =>
        case Ok(k) =>
          if !(ended || k.endsResponse) {
            ChainLength(e, stage + 1, input', Merge(options, k.options), false);
          }
        }
      }
    }
  }

  /** The line logged when the result handler throws. */
  function FailureLine(err: Exception): (r: string) {
    "Result handler failure: " + err.message + "."
  }

  /** The closing step: the result handler is called once with `payload`;
      if it throws, one error line is logged and nothing is rethrown. */
  function Report(e: Endpoint, resp: Response, calls: seq<Call>, payload: ResultPayload): (x: Execution)
    ensures x.response == resp
    ensures x.calls == calls + [RunResultHandler(payload)]
    ensures e.resultHandler(payload).Ok? ==> x.log == []
    ensures e.resultHandler(payload).Fail? ==> x.log == [FailureLine(e.resultHandler(payload).error)]
  {
    var calls' := calls + [RunResultHandler(payload)];
    match e.resultHandler(payload)
    case Ok(_) => Execution(resp, calls', [])
    case Fail(err) => Execution(resp, calls', [FailureLine(err)])
  }

  /** What follows the middleware loop inside `execute`: unless a middleware
      bypassed the rest, the final parse of the accumulated input and the
      handler run (both skipped once an error is captured), and the result
      handler receives the first error or the output, with the raw input. */
  function Finish(e: Endpoint, resp: Response, initial: Option<Obj>, chain: Chain): (x: Execution)
    ensures x.response == resp.(ended := chain.ended)
    ensures chain.outcome.Bypassed? <==> x.calls == chain.calls
    ensures |chain.calls| <= |x.calls| && x.calls[..|chain.calls|] == chain.calls
  {
    var resp' := resp.(ended := chain.ended);
    match chain.outcome
    case Bypassed => Execution(resp', chain.calls, [])
    case Failed(err) => Report(e, resp', chain.calls, ResultPayload(Some(err), initial, None))
    case Completed(input, options) =>
      var parse := ParseFinalInput(input);
      match e.inputSchema(input)
      case Fail(err) => Report(e, resp', chain.calls + [parse], ResultPayload(Some(err), initial, None))
      case Ok(validated) =>
        var run := RunHandler(validated, options);
        match e.handler(validated, options)
        case Fail(err) => Report(e, resp', chain.calls + [parse, run], ResultPayload(Some(err), initial, None))
        case Ok(output) => Report(e, resp', chain.calls + [parse, run], ResultPayload(None, initial, Some(output)))
  }

  /** `Endpoint.execute`: CORS headers first; OPTIONS ends the response at
      once; otherwise the raw input by verb, the middleware loop, and what
      `Finish` describes. */
  function Execute(e: Endpoint, req: Request, resp: Response): (x: Execution)
    ensures x.response.headers == resp.headers + [
      Header("Access-Control-Allow-Origin", "*"),
      Header("Access-Control-Allow-Methods", "GET, POST, PUT, DELETE, PATCH, OPTIONS"),
      Header("Access-Control-Allow-Headers", "content-type")]
    ensures req.verb == "OPTIONS" ==> x.response.ended && x.calls == [] && x.log == []
    ensures req.verb != "OPTIONS" ==> |x.calls| > 0
    ensures |x.log| <= 1
  {
    var cors := SetCorsHeaders(resp);
    if req.verb == "OPTIONS" then Execution(End(cors), [], [])
    else
      var initial := InitialInput(req);
      Finish(e, cors, initial, RunChain(e, 0, SpreadInput(initial), map[], cors.ended))
  }
}
