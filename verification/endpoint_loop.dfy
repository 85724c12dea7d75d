/** `Endpoint.execute` statement by statement: the `for ... of` loop over the
    middlewares with its early `return`, and the `try`/`catch` that keeps the
    first error. Proved to produce exactly the execution of the functional
    model `Endpoints.Execute`. */
module EndpointLoop {
  import opened Wrappers
  import opened Values
  import opened Http
  import opened Endpoints

  /** A stage whose schema rejects the input ends the chain with that error. */
  lemma StageParseFails(e: Endpoint, stage: nat, input: Obj, options: Obj, ended: bool, err: Exception)
    requires stage < |e.middlewares|
    requires e.middlewares[stage].input(input) == Fail(err)
    ensures RunChain(e, stage, input, options, ended) == Chain(Failed(err), [ParseStageInput(stage, input)], ended)
  {
  }

  /** A stage whose middleware throws ends the chain with that error. */
  lemma StageMiddlewareFails(e: Endpoint, stage: nat, input: Obj, parsed: Obj, options: Obj, ended: bool, err: Exception)
    requires stage < |e.middlewares|
    requires e.middlewares[stage].input(input) == Ok(parsed)
    requires e.middlewares[stage].middleware(Merge(input, parsed), options) == Fail(err)
    ensures RunChain(e, stage, input, options, ended)
         == Chain(Failed(err), [ParseStageInput(stage, input), RunMiddleware(stage, Merge(input, parsed), options)], ended)
  {
  }

  /** A stage after which the response is ended stops the chain as a bypass. */
  lemma StageEndsResponse(e: Endpoint, stage: nat, input: Obj, parsed: Obj, options: Obj, ended: bool, k: Contribution)
    requires stage < |e.middlewares|
    requires e.middlewares[stage].input(input) == Ok(parsed)
    requires e.middlewares[stage].middleware(Merge(input, parsed), options) == Ok(k)
    requires ended || k.endsResponse
    ensures RunChain(e, stage, input, options, ended)
         == Chain(Bypassed, [ParseStageInput(stage, input), RunMiddleware(stage, Merge(input, parsed), options)], true)
  {
  }

  /** A stage that succeeds and leaves the response open hands over to the
      next stage, with its two calls in front. */
  lemma StageContinues(e: Endpoint, stage: nat, input: Obj, parsed: Obj, options: Obj, ended: bool, k: Contribution)
    requires stage < |e.middlewares|
    requires e.middlewares[stage].input(input) == Ok(parsed)
    requires e.middlewares[stage].middleware(Merge(input, parsed), options) == Ok(k)
    requires !ended && !k.endsResponse
    ensures
      var rest := RunChain(e, stage + 1, Merge(input, parsed), Merge(options, k.options), false);
      RunChain(e, stage, input, options, ended)
        == rest.(calls := [ParseStageInput(stage, input), RunMiddleware(stage, Merge(input, parsed), options)] + rest.calls)
  {
  }

  /** Past the last middleware the loop completes with no further call. */
  lemma ChainAtEnd(e: Endpoint, input: Obj, options: Obj, ended: bool)
    ensures RunChain(e, |e.middlewares|, input, options, ended) == Chain(Completed(input, options), [], ended)
  {
  }

  /** `c` with `calls` recorded in front of its own calls. */
  function Prepend(calls: seq<Call>, c: Chain): (r: Chain) {
    c.(calls := calls + c.calls)
  }

  /** The loop invariant survives a stage that completes: its calls move
      from the rest of the chain to the calls already made. */
  lemma PrependStage(e: Endpoint, i: nat, calls: seq<Call>, input: Obj, options: Obj, ended: bool, step: Chain)
    requires i < |e.middlewares| && step.outcome.Completed?
    requires RunChain(e, i, input, options, ended)
          == Prepend(step.calls, RunChain(e, i + 1, step.outcome.input, step.outcome.options, step.ended))
    ensures Prepend(calls, RunChain(e, i, input, options, ended))
         == Prepend(calls + step.calls, RunChain(e, i + 1, step.outcome.input, step.outcome.options, step.ended))
  {
    var rest := RunChain(e, i + 1, step.outcome.input, step.outcome.options, step.ended);
    assert calls + (step.calls + rest.calls) == (calls + step.calls) + rest.calls;
  }

  /** The body of the `for` loop for the middleware at position `i`: parse
      and merge the input, call the middleware and merge its options, then
      check whether the response was ended. A `Completed` result means the
      loop goes on with the returned input, options and flag. */
  method RunStage(e: Endpoint, i: nat, input: Obj, options: Obj, ended: bool) returns (c: Chain)
    requires i < |e.middlewares|
    ensures c.outcome.Completed? ==>
      RunChain(e, i, input, options, ended)
        == Prepend(c.calls, RunChain(e, i + 1, c.outcome.input, c.outcome.options, c.ended))
    ensures !c.outcome.Completed? ==> c == RunChain(e, i, input, options, ended)
  {
    var def := e.middlewares[i];
    var calls := [ParseStageInput(i, input)];
    match def.input(input) {
      case Fail(err) =>
        StageParseFails(e, i, input, options, ended, err);
        return Chain(Failed(err), calls, ended);
      case Ok(parsed) =>
        var input' := Merge(input, parsed);
        calls := calls + [RunMiddleware(i, input', options)];
        match def.middleware(input', options) {
          case Fail(err) =>
            StageMiddlewareFails(e, i, input, parsed, options, ended, err);
            return Chain(Failed(err), calls, ended);
          case Ok(k) =>
            var options' := Merge(options, k.options);
            var ended' := ended || k.endsResponse;
            if ended' {
              StageEndsResponse(e, i, input, parsed, options, ended, k);
              return Chain(Bypassed, calls, true);
            }
            StageContinues(e, i, input, parsed, options, ended, k);
            return Chain(Completed(input', options'), calls, ended');
        }
    }
  }

  /** The `for (let def of this.middlewares)` loop inside the `try` block:
      an exception leaves the loop for the `catch` with the error, and the
      loop returns early as soon as a middleware has left the response ended. */
  method RunMiddlewares(e: Endpoint, start: Obj, alreadyEnded: bool) returns (c: Chain)
    ensures c == RunChain(e, 0, start, map[], alreadyEnded)
  {
    var input := start;
    var options: Obj := map[];
    var ended := alreadyEnded;
    var calls: seq<Call> := [];
    assert [] + RunChain(e, 0, input, options, ended).calls == RunChain(e, 0, input, options, ended).calls;

    var i := 0;
    while i < |e.middlewares|
      invariant 0 <= i <= |e.middlewares|
      invariant Prepend(calls, RunChain(e, i, input, options, ended)) == RunChain(e, 0, start, map[], alreadyEnded)
      decreases |e.middlewares| - i
    {
      var step := RunStage(e, i, input, options, ended);
      if !step.outcome.Completed? {
        c := Prepend(calls, step);
        return;
      }
      PrependStage(e, i, calls, input, options, ended, step);
      calls := calls + step.calls;
      input, options, ended := step.outcome.input, step.outcome.options, step.ended;
      i := i + 1;
    }
    ChainAtEnd(e, input, options, ended);
    c := Prepend(calls, Chain(Completed(input, options), [], ended));
  }

  /** `execute`: CORS headers, the OPTIONS short-circuit, input by verb, the
      middleware loop, the final parse and the handler inside the `try`, then
      the result handler inside a second `try` whose `catch` only logs. */
  method ExecuteRequest(e: Endpoint, req: Request, resp: Response) returns (x: Execution)
    ensures x == Execute(e, req, resp)
  {
    var response := SetHeader(resp, "Access-Control-Allow-Origin", "*");
    response := SetHeader(response, "Access-Control-Allow-Methods", "GET, POST, PUT, DELETE, PATCH, OPTIONS");
    response := SetHeader(response, "Access-Control-Allow-Headers", "content-type");
    if req.verb == "OPTIONS" {
      response := End(response);
      return Execution(response, [], []);
    }
    assert response == SetCorsHeaders(resp);

    var initialInput: Option<Obj> := None;
    if req.verb in BodyVerbs {
      initialInput := Some(req.body);
    }
    if req.verb == "GET" {
      initialInput := Some(req.query);
    }
    if req.verb == "DELETE" {
      initialInput := Some(Merge(req.query, req.body));
    }
    assert initialInput == InitialInput(req);
    var chain := RunMiddlewares(e, SpreadInput(initialInput), response.ended);
    x := FinishRequest(e, response, initialInput, chain);
  }

  /** The rest of the `try` block after the loop (unless the loop returned),
      its `catch`, and the second `try` around the result handler. */
  method FinishRequest(e: Endpoint, resp: Response, initialInput: Option<Obj>, chain: Chain) returns (x: Execution)
    ensures x == Finish(e, resp, initialInput, chain)
  {
    var response := resp.(ended := chain.ended);
    var error: Option<Exception> := None;
    var output: Option<Obj> := None;
    var calls := chain.calls;
    match chain.outcome {
      case Bypassed =>
        return Execution(response, calls, []);
      case Failed(err) =>
        error := Some(err);
      case Completed(input, options) =>
        calls := calls + [ParseFinalInput(input)];
        match e.inputSchema(input) {
          case Fail(err) =>
            error := Some(err);
          case Ok(validated) =>
            calls := calls + [RunHandler(validated, options)];
            match e.handler(validated, options) {
              case Fail(err) => error := Some(err);
              case Ok(o) => output := Some(o);
            }
        }
    }

    var payload := ResultPayload(error, initialInput, output);
    calls := calls + [RunResultHandler(payload)];
    var log: seq<string> := [];
    match e.resultHandler(payload) {
      case Ok(_) =>
      case Fail(err) => log := log + [FailureLine(err)];
    }
    x := Execution(response, calls, log);
  }
}
