# Endpoint request pipeline of express-zod-api, modelled in Dafny

This project models `Endpoint.execute` from express-zod-api (`src/endpoint.ts`).
It is the method that drives one HTTP request through an endpoint:

- it writes three CORS headers;
- an OPTIONS request is ended at once;
- otherwise it picks the raw input by HTTP verb;
- it threads an accumulated input object and an options object through the
  endpoint's middlewares, in declared order;
- it validates the final input and calls the handler;
- unless a middleware has ended the response (the loop then returns at
  once), it hands the first captured error, or the handler's output, to the
  result handler, exactly once.

Every collaborator is an opaque total function:

- a schema's `parse` is `Obj -> Result<Obj, Exception>`;
- a middleware returns the options it contributes and whether it ended the response;
- the handler and the result handler return `Result` values.

A thrown exception is a `Fail` value. JavaScript object spread and
`Object.assign` are `Values.Merge`, a right-biased map union.

One run is an `Execution` with three parts:

- the response (the header writes in order, and the `writableEnded` flag);
- the ordered list of callbacks invoked, each with the arguments it received;
- the error lines logged.

Modules:

- `Wrappers`: `Option` and `Result`.
- `Values`: JavaScript values, plain objects (`Obj`), exceptions, `Merge`.
- `Http`: the request (verb, query, body), the response, the CORS header writes, and the raw input by verb.
- `Endpoints`: the endpoint configuration, the constructor, the middleware loop `RunChain`, and `Execute`.
- `EndpointLoop`: `execute` written statement by statement, with the `for` loop, its early returns and the `try`/`catch`. It is proved to produce exactly `Endpoints.Execute`.
- `EndpointProperties`: what `execute` promises, proved for every endpoint, request and response.

Behaviour of `execute` that is easy to miss:

- The final `inputSchema.parse` REPLACES the accumulated input (line 85). Only the middleware stages merge into it (line 74). So keys the final schema drops do not reach the handler.
- `execute` compares `request.method` with upper-case verbs, case-sensitively. The endpoint's own lower-case `method` field (`Endpoint.routeMethod` in the model) plays no part in it (see `OutputSchemaNeverApplied`).
- For a verb other than GET, POST, PUT, PATCH, DELETE and OPTIONS, nothing is rejected. The raw input stays `null` (`None`), and the working input starts as `{}`.
- The `writableEnded` check (line 81) sits inside the loop body and runs only after a middleware returns. As the code is written, nothing checks `writableEnded` before the loop or between the loop and the handler. In the model, an endpoint with no middlewares is therefore never bypassed: it always reaches the final parse and the result handler, whatever the incoming flag says. The handler runs too unless the final parse throws.

## Model

| member | source | states |
|---|---|---|
| Http.SetCorsHeaders | src/endpoint.ts:49-51 | the three CORS headers are written in the fixed order Allow-Origin `*`, Allow-Methods `GET, POST, PUT, DELETE, PATCH, OPTIONS`, Allow-Headers `content-type`; the ended flag is untouched |
| Http.SetHeader | src/endpoint.ts:49-51 | one `response.set(name, value)` call appends exactly that header write after the earlier ones and leaves the ended flag unchanged |
| Http.End | src/endpoint.ts:54 | `response.end()` marks the response ended and writes no header |
| Http.SpreadInput | src/endpoint.ts:71 | the working input starts as `{}` when the raw input is `null`, and otherwise holds exactly the raw input's keys and values |
| Http.InitialInput | src/endpoint.ts:60-70 | POST, PUT and PATCH take the body; GET takes the query; DELETE takes every key of query and body, with the body's value on a collision; the raw input is null exactly for every other verb |
| Values.Merge | src/endpoint.ts:74-80 | spread (and `Object.assign`, for every key but `__proto__`) keeps every key of both objects, take the later object's value on a collision, and keep the earlier value otherwise |
| Endpoints.NewEndpoint | src/endpoint.ts:31-46 | a null result handler is replaced by the default one, a given one is kept, and all other configuration is stored as given |
| Endpoints.RunChain | src/endpoint.ts:73-84 | the loop stops early by a bypass only after at least one call and with the response ended; when it completes or fails, the ended flag is the one it started with |
| Endpoints.ChainLength | src/endpoint.ts:73-84 | the loop makes at most two calls per remaining middleware (its schema parse and the middleware), and exactly two per middleware when it runs to the end |
| Endpoints.Report | src/endpoint.ts:93-98 | the result handler is called once, with the payload, as the last call; it logs nothing on success, and exactly the line `Result handler failure: <message>.` when it throws; the response is unchanged |
| Endpoints.Finish | src/endpoint.ts:81-98 | after the loop the response keeps the loop's ended flag; no call is added exactly when the loop was bypassed; the loop's calls stay in front |
| Endpoints.Execute | src/endpoint.ts:48-99 | on every path the response gains the three CORS headers; OPTIONS ends the response with no callback and no log line; every other verb invokes at least one callback; at most one line is logged |
| EndpointLoop.RunStage | src/endpoint.ts:74-83 | one iteration of the loop body either stops the loop exactly as the middleware loop does, or continues with its two calls in front of the rest of the loop |
| EndpointLoop.RunMiddlewares | src/endpoint.ts:73-84 | the imperative `for` loop, with early returns for an exception and for an ended response, yields exactly the functional middleware loop |
| EndpointLoop.FinishRequest | src/endpoint.ts:85-98 | the imperative final parse, handler call, `catch` and result-handler `try`/`catch` yield exactly `Endpoints.Finish` |
| EndpointLoop.ExecuteRequest | src/endpoint.ts:48-99 | the statement-by-statement `execute` yields exactly the functional `Endpoints.Execute` for every endpoint, request and response |
| EndpointProperties.ChainOrder | src/endpoint.ts:73-80 | within the loop, each middleware's schema parse comes before its middleware call, and the stages run in declared order |
| EndpointProperties.CallOrder | src/endpoint.ts:73-94 | every call sits at its own pipeline position, so none is repeated or skipped: the stage parses and middlewares in declared order, then the final parse, then the handler; the result handler can only be last |
| EndpointProperties.ChainThreading | src/endpoint.ts:71-84 | inside the loop, every call receives the input and options replayed from the calls before it; a completed loop ends with exactly the replayed input and options |
| EndpointProperties.StateThreading | src/endpoint.ts:71-89 | starting from the raw input (or `{}`) and empty options, each callback gets exactly the accumulated state: each middleware sees its schema's parse merged over the earlier input; the handler gets the final schema's parse and the left-to-right merge of all middleware options |
| EndpointProperties.ChainOutcomes | src/endpoint.ts:73-92 | inside the loop only the last call may throw or end the response; a failed loop ends with the call that raised its error; a bypassed loop ends with a middleware after which the response was ended |
| EndpointProperties.FirstFailureWins | src/endpoint.ts:61-94 | when the result handler runs, every call before the last pipeline call succeeded; its error is the one that call raised, if any; the output is present exactly when there is no error, and is then the handler's unchanged result; the input is the raw initial input |
| EndpointProperties.ResultHandlerUnlessShortCircuited | src/endpoint.ts:53-94 | the result handler runs unless the verb is OPTIONS or the last call is a middleware after which the response was ended; in those cases the response is ended and no final parse, handler or result handler ran |
| EndpointProperties.BypassIsLast | src/endpoint.ts:73-94 | once a middleware has left the response ended, it is the last call of the request: no later middleware, no final parse, no handler and no result handler runs, and the response stays ended |
| EndpointProperties.ResultHandlerFailureLogged | src/endpoint.ts:93-98 | a line is logged exactly when the result handler ran and threw; that line carries its message; nothing else is ever logged |
| EndpointProperties.NoMiddlewaresNoBypass | src/endpoint.ts:73-94 | the only `writableEnded` test is inside the loop body, so with no middlewares nothing short-circuits: a non-OPTIONS request always reaches the result handler, and `execute` itself leaves the ended flag as it was |
| EndpointProperties.OutputSchemaNeverApplied | src/endpoint.ts:85-94 | replacing the output schema or the registered method changes nothing about a request, so the handler's output reaches the result handler unvalidated |

## Left out

- Schema validation (zod): each schema is an opaque total function returning a `Result`.
- Express request and response internals: only the verb, query, body, header writes and the ended flag are modelled. Header writes are kept as an ordered list of `set` calls; that a later `set` of the same name overwrites an earlier one is not modelled.
- The collaborators' access to the request and response objects: middlewares, the handler and the result handler are functions of their recorded arguments. A middleware's effect on the response is reduced to whether it ended it.
- In-place mutation through shared references: lines 75-79 pass the live `input` and `options` objects. A middleware that writes into them changes what later stages and the handler receive. The model passes values, so every callback sees exactly the recorded arguments and nothing else changes them.
- Aliasing of the raw input: for POST, PUT, PATCH and GET, `initialInput` is `request.body` or `request.query` itself. A callback that mutates that object changes the `input` the result handler receives. The model hands the result handler the raw input as it was before the loop.
- Failing header writes: in the model a header write never fails. With Express, `response.set` on a response whose headers were already sent throws (`ERR_HTTP_HEADERS_SENT`). That would happen at line 49, before the `try`, so `execute` would reject without calling anything. Runs that start with the ended flag set therefore do not happen in practice. The model still accepts such a response and runs the pipeline on it; only the middleware loop's `writableEnded` test at line 81 is modelled. This also covers the `alreadyEnded` half of `Endpoints.EndsResponse` and `RunChain`'s incoming `ended`.
- A middleware that ends the response and then throws: a throwing middleware is modelled as leaving the ended flag unchanged.
- What the result handler writes to the response: it is one more opaque function; the status and body policy of `defaultResultHandler` is not part of this model.
- Thrown values that are not `Error` objects: an exception is modelled as a message. With a thrown `undefined`, `e.message` in the logging `catch` would itself throw.
- The logger's formatting: a log is the list of error-level lines.
- async/await scheduling and concurrent requests: all state is request-local, so one sequential run is modelled.
- Request bodies that are not plain objects: the model takes `request.body` to be a plain object (`Http.Request.body` is an `Obj`). Express types the body as `any`, so an `undefined`, array or string body can reach line 63. Such bodies are not represented. For an array, line 71's `{...initialInput}` would yield index-keyed properties, while line 94 hands the array itself to the result handler.
- `undefined` values: the model has no `undefined`. Middlewares are `MiddlewareDefinition<any, any, any>`, so one can return an option whose value is `undefined`, and `Object.assign` at line 75 would then store that key with `undefined`. That is not represented. A handler that resolves to `undefined` is ruled out by the handler's declared output type; otherwise the result handler would get neither an error nor an output.
- Values.Merge: does not model `Object.assign` on an own `__proto__` key (for example from an object built by `JSON.parse`). At line 75 such a key runs the inherited setter: `options` gets no own `__proto__` key, and its prototype changes instead. `Merge` keeps the key, as the spreads at lines 69, 71 and 74 do.
- JavaScript numbers in values: `Values.Value` carries integers, because no value is ever inspected.
- The type-level machinery (`JoinUnshaped`, `Unshape`, the generic parameters): it has no run-time effect.
- `getMethod` and `AbstractEndpoint`: these are trivial accessors.
