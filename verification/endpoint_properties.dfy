/** What `Endpoint.execute` promises, stated over the recorded calls of one
    request and proved for every endpoint, request and response. */
module EndpointProperties {
  import opened Wrappers
  import opened Values
  import opened Http
  import opened Endpoints

  function Last(calls: seq<Call>): (r: Call)
    requires |calls| > 0
  {
    calls[|calls| - 1]
  }

  /** Whether the run ended with the result handler call. */
  predicate ResultHandlerCalled(x: Execution) {
    |x.calls| > 0 && Last(x.calls).RunResultHandler?
  }

  // ---------------------------------------------------------------------------
  // Order: each stage's parse then its middleware, in declared order, then the
  // final parse, the handler and the result handler, none twice, none skipped.
  // ---------------------------------------------------------------------------

  /** Past the OPTIONS check, a request is the middleware loop followed by `Finish`. */
  lemma ExecuteIsFinish(e: Endpoint, req: Request, resp: Response)
    requires req.verb != "OPTIONS"
    ensures Execute(e, req, resp)
         == Finish(e, SetCorsHeaders(resp), InitialInput(req),
                   RunChain(e, 0, SpreadInput(InitialInput(req)), map[], SetCorsHeaders(resp).ended))
  {
  }

  /** Position of a call in the full pipeline of an endpoint with `n` middlewares. */
  function Rank(c: Call, n: nat): (r: nat) {
    match c
    case ParseStageInput(i, _) => 2 * i
    case RunMiddleware(i, _, _) => 2 * i + 1
    case ParseFinalInput(_) => 2 * n
    case RunHandler(_, _) => 2 * n + 1
    case RunResultHandler(_) => 2 * n + 2
  }

  /** `calls` are stage calls from position `stage` on, alternating a parse
      and a middleware call for each stage. */
  predicate Alternates(calls: seq<Call>, stage: nat) {
    forall j | 0 <= j < |calls| ::
      && calls[j].IsStage()
      && calls[j].stage == stage + j / 2
      && (calls[j].ParseStageInput? <==> j % 2 == 0)
  }

  /** The middleware loop alternates parse and middleware calls, stage by stage. */
  lemma {:induction false} ChainOrder(e: Endpoint, stage: nat, input: Obj, options: Obj, ended: bool)
    requires stage <= |e.middlewares|
    ensures Alternates(RunChain(e, stage, input, options, ended).calls, stage)
    decreases |e.middlewares| - stage
  {
    if stage < |e.middlewares| {
      var def := e.middlewares[stage];
      match def.input(input) {
      case Fail(_) =>
      case Ok(parsed) =>
        var input' := Merge(input, parsed);
        match def.middleware(input', options) {
        case Fail(_) =>
        case Ok(k) =>
          if !(ended || k.endsResponse) {
            var options' := Merge(options, k.options);
            ChainOrder(e, stage + 1, input', options', false);
            var rest := RunChain(e, stage + 1, input', options', false);
            var c := RunChain(e, stage, input, options, ended);
            assert c.calls == [ParseStageInput(stage, input), RunMiddleware(stage, input', options)] + rest.calls;
            forall j | 2 <= j < |c.calls|
              ensures c.calls[j].IsStage() && c.calls[j].stage == stage + j / 2
              ensures c.calls[j].ParseStageInput? <==> j % 2 == 0
            {
              var k := j - 2;
              assert c.calls[j] == rest.calls[k];
              assert rest.calls[k].IsStage() && rest.calls[k].stage == stage + 1 + k / 2;
              assert rest.calls[k].ParseStageInput? <==> k % 2 == 0;
              assert j / 2 == k / 2 + 1 && j % 2 == k % 2;
            }
          }
        }
      }
    }
  }

  /** The calls of a request with `n` middlewares each sit at their own
      pipeline position (so they come in pipeline order, none repeated or
      skipped), except the result handler call, which can only be last. */
  predicate InPipelineOrder(calls: seq<Call>, n: nat) {
    && (forall j | 0 <= j < |calls| && calls[j].IsStage() :: calls[j].stage < n)
    && (forall j | 0 <= j < |calls| && !calls[j].RunResultHandler? :: Rank(calls[j], n) == j)
    && (forall j | 0 <= j < |calls| && calls[j].RunResultHandler? :: j == |calls| - 1)
  }

  lemma FinishOrder(e: Endpoint, resp: Response, initial: Option<Obj>, chain: Chain)
    requires Alternates(chain.calls, 0)
    requires |chain.calls| <= 2 * |e.middlewares|
    requires chain.outcome.Completed? ==> |chain.calls| == 2 * |e.middlewares|
    ensures InPipelineOrder(Finish(e, resp, initial, chain).calls, |e.middlewares|)
  {
    var x := Finish(e, resp, initial, chain);
    var m := |chain.calls|;
    var n := |e.middlewares|;
    forall j | 0 <= j < m
      ensures x.calls[j] == chain.calls[j]
    {
      assert x.calls[..m][j] == x.calls[j];
    }
    forall j | 0 <= j < |x.calls|
      ensures x.calls[j].IsStage() ==> x.calls[j].stage < n
      ensures !x.calls[j].RunResultHandler? ==> Rank(x.calls[j], n) == j
      ensures x.calls[j].RunResultHandler? ==> j == |x.calls| - 1
    {
      if j < m {
        assert chain.calls[j].IsStage() && chain.calls[j].stage == j / 2;
      }
    }
  }

  /** Every call of a request sits at its own pipeline position: the stages'
      parse and middleware calls in declared order, then the final parse,
      then the handler, none twice and none skipped; the result handler call
      can only be the last one. */
  lemma CallOrder(e: Endpoint, req: Request, resp: Response)
    ensures InPipelineOrder(Execute(e, req, resp).calls, |e.middlewares|)
  {
    if req.verb != "OPTIONS" {
      var cors := SetCorsHeaders(resp);
      var initial := InitialInput(req);
      var chain := RunChain(e, 0, SpreadInput(initial), map[], cors.ended);
      ExecuteIsFinish(e, req, resp);
      ChainOrder(e, 0, SpreadInput(initial), map[], cors.ended);
      ChainLength(e, 0, SpreadInput(initial), map[], cors.ended);
      FinishOrder(e, cors, initial, chain);
    }
  }

  // ---------------------------------------------------------------------------
  // Threading: every callback receives the input and options accumulated by
  // the calls before it, as a replay of the recorded calls computes them.
  // ---------------------------------------------------------------------------

  /** The request-local `input` and `options` variables. */
  datatype Accumulated = Accumulated(input: Obj, options: Obj)

  /** How one call changes the variables: a stage parse merges its result
      into the input, a middleware merges its options into the options, the
      final parse replaces the input; everything else leaves them alone. */
  function Advance(e: Endpoint, acc: Accumulated, c: Call): (r: Accumulated) {
    match c
    case ParseStageInput(i, _) =>
      if i < |e.middlewares| then
        (match e.middlewares[i].input(acc.input)
         case Ok(parsed) => acc.(input := Merge(acc.input, parsed))
         case Fail(_) => acc)
      else acc
    case RunMiddleware(i, _, _) =>
      if i < |e.middlewares| then
        (match e.middlewares[i].middleware(acc.input, acc.options)
         case Ok(k) => acc.(options := Merge(acc.options, k.options))
         case Fail(_) => acc)
      else acc
    case ParseFinalInput(_) =>
      (match e.inputSchema(acc.input)
       case Ok(validated) => acc.(input := validated)
       case Fail(_) => acc)
    case RunHandler(_, _) => acc
    case RunResultHandler(_) => acc
  }

  /** The variables after replaying `calls` from `acc`, left to right. */
  function Replay(e: Endpoint, acc: Accumulated, calls: seq<Call>): (r: Accumulated)
    decreases |calls|
  {
    if calls == [] then acc else Replay(e, Advance(e, acc, calls[0]), calls[1..])
  }

  /** Whether `c` was given the current values of the variables. */
  predicate Receives(c: Call, acc: Accumulated) {
    match c
    case ParseStageInput(_, input) => input == acc.input
    case RunMiddleware(_, input, options) => input == acc.input && options == acc.options
    case ParseFinalInput(input) => input == acc.input
    case RunHandler(input, options) => input == acc.input && options == acc.options
    case RunResultHandler(_) => true
  }

  /** Replaying two runs of calls is replaying the first, then the second. */
  lemma {:induction false} ReplayAppend(e: Endpoint, acc: Accumulated, s: seq<Call>, t: seq<Call>)
    ensures Replay(e, acc, s + t) == Replay(e, Replay(e, acc, s), t)
    decreases |s|
  {
    if s != [] {
      assert (s + t)[0] == s[0];
      assert (s + t)[1..] == s[1..] + t;
      ReplayAppend(e, Advance(e, acc, s[0]), s[1..], t);
    } else {
      assert s + t == t;
    }
  }

  /** Each of `calls` received the variables replayed from `start` over the calls before it. */
  predicate ThreadedFrom(e: Endpoint, start: Accumulated, calls: seq<Call>) {
    forall j | 0 <= j < |calls| :: Receives(calls[j], Replay(e, start, calls[..j]))
  }

  /** Threading composes: `s` then `t` is threaded when `t` is threaded from
      where `s` leaves the variables. */
  lemma {:induction false} ThreadedConcat(e: Endpoint, start: Accumulated, s: seq<Call>, t: seq<Call>)
    requires ThreadedFrom(e, start, s)
    requires ThreadedFrom(e, Replay(e, start, s), t)
    ensures ThreadedFrom(e, start, s + t)
  {
    forall j | 0 <= j < |s + t|
      ensures Receives((s + t)[j], Replay(e, start, (s + t)[..j]))
    {
      if j < |s| {
        assert (s + t)[..j] == s[..j];
      } else {
        assert (s + t)[..j] == s + t[..j - |s|];
        ReplayAppend(e, start, s, t[..j - |s|]);
      }
    }
  }

  /** A call given the replayed variables extends a threaded run. */
  lemma {:induction false} ThreadedSnoc(e: Endpoint, start: Accumulated, s: seq<Call>, c: Call)
    requires ThreadedFrom(e, start, s)
    requires Receives(c, Replay(e, start, s))
    ensures ThreadedFrom(e, start, s + [c])
  {
    assert [c][..0] == [];
    ThreadedConcat(e, start, s, [c]);
  }

  /** Replaying one more call advances the replayed variables by that call. */
  lemma ReplaySnoc(e: Endpoint, acc: Accumulated, s: seq<Call>, c: Call)
    ensures Replay(e, acc, s + [c]) == Advance(e, Replay(e, acc, s), c)
  {
    ReplayAppend(e, acc, s, [c]);
    assert [c][1..] == [];
  }

  /** Threading a prefix that leaves the variables at `mid`, then a run
      threaded from `mid`, threads the whole and replays to where the run
      leaves them. */
  lemma ThreadedThrough(e: Endpoint, start: Accumulated, s: seq<Call>, mid: Accumulated, t: seq<Call>)
    requires ThreadedFrom(e, start, s)
    requires Replay(e, start, s) == mid
    requires ThreadedFrom(e, mid, t)
    ensures ThreadedFrom(e, start, s + t)
    ensures Replay(e, start, s + t) == Replay(e, mid, t)
  {
    ThreadedConcat(e, start, s, t);
    ReplayAppend(e, start, s, t);
  }

  /** The two calls of one stage receive the variables as they stand before
      the stage. */
  lemma StageThreaded(e: Endpoint, stage: nat, input: Obj, parsed: Obj, options: Obj)
    requires stage < |e.middlewares|
    requires e.middlewares[stage].input(input) == Ok(parsed)
    ensures ThreadedFrom(e, Accumulated(input, options),
      [ParseStageInput(stage, input), RunMiddleware(stage, Merge(input, parsed), options)])
  {
    var start := Accumulated(input, options);
    var calls := [ParseStageInput(stage, input), RunMiddleware(stage, Merge(input, parsed), options)];
    forall j | 0 <= j < |calls|
      ensures Receives(calls[j], Replay(e, start, calls[..j]))
    {
      if j == 0 {
        assert calls[..j] == [];
      } else {
        assert calls[..j] == [calls[0]];
        assert Advance(e, start, calls[0]) == Accumulated(Merge(input, parsed), options);
        assert Replay(e, start, [calls[0]]) == Replay(e, Advance(e, start, calls[0]), []);
      }
    }
  }

  /** After a stage whose middleware contributed `k`, the input holds the
      merged parse and the options hold the merged contribution. */
  lemma StageReplayed(e: Endpoint, stage: nat, input: Obj, parsed: Obj, options: Obj, k: Contribution)
    requires stage < |e.middlewares|
    requires e.middlewares[stage].input(input) == Ok(parsed)
    requires e.middlewares[stage].middleware(Merge(input, parsed), options) == Ok(k)
    ensures Replay(e, Accumulated(input, options),
        [ParseStageInput(stage, input), RunMiddleware(stage, Merge(input, parsed), options)])
      == Accumulated(Merge(input, parsed), Merge(options, k.options))
  {
    var start := Accumulated(input, options);
    var parse := ParseStageInput(stage, input);
    var run := RunMiddleware(stage, Merge(input, parsed), options);
    ReplaySnoc(e, start, [], parse);
    assert [] + [parse] == [parse];
    ReplaySnoc(e, start, [parse], run);
    assert [parse] + [run] == [parse, run];
  }

  /** Within the middleware loop every call receives the replayed variables,
      and a completed loop ends with exactly the replayed variables. */
  lemma {:induction false} ChainThreading(e: Endpoint, stage: nat, input: Obj, options: Obj, ended: bool)
    requires stage <= |e.middlewares|
    ensures ThreadedFrom(e, Accumulated(input, options), RunChain(e, stage, input, options, ended).calls)
    ensures RunChain(e, stage, input, options, ended).outcome.Completed? ==>
      Replay(e, Accumulated(input, options), RunChain(e, stage, input, options, ended).calls)
        == Accumulated(RunChain(e, stage, input, options, ended).outcome.input,
                       RunChain(e, stage, input, options, ended).outcome.options)
    decreases |e.middlewares| - stage
  {
    if stage < |e.middlewares| {
      var def := e.middlewares[stage];
      match def.input(input) {
      case Fail(_) =>
        var parse := ParseStageInput(stage, input);
        ThreadedSnoc(e, Accumulated(input, options), [], parse);
        assert [] + [parse] == [parse];
      case Ok(parsed) =>
        StageThreaded(e, stage, input, parsed, options);
        var input' := Merge(input, parsed);
        match def.middleware(input', options) {
        case Fail(_) =>
        case Ok(k) =>
          if !(ended || k.endsResponse) {
            var options' := Merge(options, k.options);
            var pre := [ParseStageInput(stage, input), RunMiddleware(stage, input', options)];
            var rest := RunChain(e, stage + 1, input', options', false);
            ChainThreading(e, stage + 1, input', options', false);
            StageReplayed(e, stage, input, parsed, options, k);
            ThreadedThrough(e, Accumulated(input, options), pre, Accumulated(input', options'), rest.calls);
            assert RunChain(e, stage, input, options, ended) == rest.(calls := pre + rest.calls);
          }
        }
      }
    }
  }

  lemma FinishThreading(e: Endpoint, resp: Response, initial: Option<Obj>, chain: Chain, start: Accumulated)
    requires ThreadedFrom(e, start, chain.calls)
    requires chain.outcome.Completed? ==>
      Replay(e, start, chain.calls) == Accumulated(chain.outcome.input, chain.outcome.options)
    ensures ThreadedFrom(e, start, Finish(e, resp, initial, chain).calls)
  {
    var x := Finish(e, resp, initial, chain);
    match chain.outcome {
    case Bypassed =>
    case Failed(_) =>
      ThreadedSnoc(e, start, chain.calls, Last(x.calls));
    case Completed(input, options) =>
      var parse := ParseFinalInput(input);
      ThreadedSnoc(e, start, chain.calls, parse);
      match e.inputSchema(input) {
      case Fail(_) =>
        ThreadedSnoc(e, start, chain.calls + [parse], Last(x.calls));
      case Ok(validated) =>
        var run := RunHandler(validated, options);
        ReplaySnoc(e, start, chain.calls, parse);
        ThreadedSnoc(e, start, chain.calls + [parse], run);
        ThreadedSnoc(e, start, chain.calls + [parse] + [run], Last(x.calls));
        assert chain.calls + [parse, run] == chain.calls + [parse] + [run];
      }
    }
  }

  /** The state every call of a request receives: starting from the raw
      input (or `{}` when it is `null`) and no options, each callback is given
      exactly the input and options that the calls before it accumulated. In
      particular each middleware sees its schema's parse merged over the
      previous input, and the handler gets the final schema's parse of the
      accumulated input and the left-to-right merge of every middleware's
      options. */
  lemma StateThreading(e: Endpoint, req: Request, resp: Response)
    ensures ThreadedFrom(e, Accumulated(SpreadInput(InitialInput(req)), map[]), Execute(e, req, resp).calls)
  {
    if req.verb != "OPTIONS" {
      var cors := SetCorsHeaders(resp);
      var initial := InitialInput(req);
      var chain := RunChain(e, 0, SpreadInput(initial), map[], cors.ended);
      ExecuteIsFinish(e, req, resp);
      ChainThreading(e, 0, SpreadInput(initial), map[], cors.ended);
      FinishThreading(e, cors, initial, chain, Accumulated(SpreadInput(initial), map[]));
    }
  }

  // ---------------------------------------------------------------------------
  // Failures, bypass and the result handler.
  // ---------------------------------------------------------------------------

  /** No call of `calls` but the last raised an error or ended the response. */
  predicate OnlyLastMayStop(e: Endpoint, calls: seq<Call>, ended: bool) {
    forall j | 0 <= j < |calls| - 1 :: ErrorOf(e, calls[j]).None? && !EndsResponse(e, calls[j], ended)
  }

  /** How the loop's last call explains its outcome: a failed loop ends with
      the call that raised its error, a bypassed one with a middleware after
      which the response was ended, a completed one with neither. */
  predicate StopsAsReported(e: Endpoint, c: Chain, ended: bool) {
    && (c.outcome.Failed? ==> |c.calls| > 0 && ErrorOf(e, Last(c.calls)) == Some(c.outcome.error))
    && (c.outcome.Bypassed? ==>
          |c.calls| > 0 && ErrorOf(e, Last(c.calls)).None? && EndsResponse(e, Last(c.calls), ended))
    && (c.outcome.Completed? && |c.calls| > 0 ==>
          ErrorOf(e, Last(c.calls)).None? && !EndsResponse(e, Last(c.calls), ended))
  }

  /** Calls that neither fail nor end the response can be put in front of a
      run in which only the last call may stop. */
  lemma OnlyLastMayStopPrepend(e: Endpoint, s: seq<Call>, t: seq<Call>, ended: bool)
    requires forall j | 0 <= j < |s| :: ErrorOf(e, s[j]).None? && !EndsResponse(e, s[j], ended)
    requires OnlyLastMayStop(e, t, ended)
    ensures OnlyLastMayStop(e, s + t, ended)
  {
    forall j | 0 <= j < |s + t| - 1
      ensures ErrorOf(e, (s + t)[j]).None? && !EndsResponse(e, (s + t)[j], ended)
    {
      if j >= |s| {
        assert (s + t)[j] == t[j - |s|];
      }
    }
  }

  lemma {:induction false} ChainOutcomes(e: Endpoint, stage: nat, input: Obj, options: Obj, ended: bool)
    requires stage <= |e.middlewares|
    ensures OnlyLastMayStop(e, RunChain(e, stage, input, options, ended).calls, ended)
    ensures StopsAsReported(e, RunChain(e, stage, input, options, ended), ended)
    decreases |e.middlewares| - stage
  {
    if stage < |e.middlewares| {
      var def := e.middlewares[stage];
      match def.input(input) {
      case Fail(_) =>
      case Ok(parsed) =>
        var input' := Merge(input, parsed);
        match def.middleware(input', options) {
        case Fail(_) =>
        case Ok(k) =>
          if !(ended || k.endsResponse) {
            var options' := Merge(options, k.options);
            var stageCalls := [ParseStageInput(stage, input), RunMiddleware(stage, input', options)];
            ChainOutcomes(e, stage + 1, input', options', false);
            var rest := RunChain(e, stage + 1, input', options', false);
            OnlyLastMayStopPrepend(e, stageCalls, rest.calls, ended);
            if |rest.calls| > 0 {
              assert Last(stageCalls + rest.calls) == Last(rest.calls);
            }
          }
        }
      }
    }
  }

  /** What the result handler is told, when it is the last of `calls`: every
      call before the one just ahead of it succeeded, the error is the one
      that call raised (none if it succeeded), the output is present exactly
      when there is no error and is then the handler's result unchanged, and
      the input is `initial`. */
  predicate FirstFailureReported(e: Endpoint, calls: seq<Call>, initial: Option<Obj>)
    requires |calls| > 0 && Last(calls).RunResultHandler?
  {
    var n := |calls|;
    var p := Last(calls).payload;
    && n >= 2
    && (forall j | 0 <= j < n - 2 :: ErrorOf(e, calls[j]).None?)
    && p.error == ErrorOf(e, calls[n - 2])
    && (p.output.Some? <==> p.error.None?)
    && (p.output.Some? ==>
          calls[n - 2].RunHandler? && e.handler(calls[n - 2].input, calls[n - 2].options) == Ok(p.output.value))
    && p.input == initial
  }

  /** The result handler call after `calls` reports the first failure when
      no earlier call failed and the payload matches the last of `calls`. */
  lemma ReportedAfter(e: Endpoint, calls: seq<Call>, p: ResultPayload, initial: Option<Obj>)
    requires |calls| > 0
    requires forall j | 0 <= j < |calls| - 1 :: ErrorOf(e, calls[j]).None?
    requires p.error == ErrorOf(e, Last(calls)) && p.input == initial
    requires p.output.Some? <==> p.error.None?
    requires p.output.Some? ==>
      Last(calls).RunHandler? && e.handler(Last(calls).input, Last(calls).options) == Ok(p.output.value)
    ensures FirstFailureReported(e, calls + [RunResultHandler(p)], initial)
  {
    var all := calls + [RunResultHandler(p)];
    assert all[|all| - 2] == Last(calls);
    forall j | 0 <= j < |all| - 2
      ensures ErrorOf(e, all[j]).None?
    {
      assert all[j] == calls[j];
    }
  }

  lemma FinishFirstFailure(e: Endpoint, resp: Response, initial: Option<Obj>, chain: Chain, ended: bool)
    requires OnlyLastMayStop(e, chain.calls, ended) && StopsAsReported(e, chain, ended)
    ensures ResultHandlerCalled(Finish(e, resp, initial, chain)) ==>
      FirstFailureReported(e, Finish(e, resp, initial, chain).calls, initial)
  {
    var x := Finish(e, resp, initial, chain);
    match chain.outcome {
    case Bypassed =>
    case Failed(err) =>
      ReportedAfter(e, chain.calls, Last(x.calls).payload, initial);
    case Completed(input, options) =>
      var parse := ParseFinalInput(input);
      assert forall j | 0 <= j < |chain.calls| :: ErrorOf(e, chain.calls[j]).None?;
      var upToParse := chain.calls + [parse];
      assert forall j | 0 <= j < |upToParse| - 1 :: upToParse[j] == chain.calls[j];
      match e.inputSchema(input) {
      case Fail(_) =>
        ReportedAfter(e, upToParse, Last(x.calls).payload, initial);
      case Ok(validated) =>
        var upToRun := upToParse + [RunHandler(validated, options)];
        assert forall j | 0 <= j < |upToRun| - 1 :: upToRun[j] == upToParse[j];
        assert chain.calls + [parse, RunHandler(validated, options)] == upToRun;
        ReportedAfter(e, upToRun, Last(x.calls).payload, initial);
      }
    }
  }

  /** First failure wins: the first exception among the stage parses, the
      middlewares, the final parse and the handler is the error the result
      handler receives, nothing after it ran, and otherwise the result handler
      receives the handler's output; it is always given the raw input. */
  lemma FirstFailureWins(e: Endpoint, req: Request, resp: Response)
    ensures ResultHandlerCalled(Execute(e, req, resp)) ==>
      FirstFailureReported(e, Execute(e, req, resp).calls, InitialInput(req))
  {
    if req.verb != "OPTIONS" {
      var cors := SetCorsHeaders(resp);
      var initial := InitialInput(req);
      var chain := RunChain(e, 0, SpreadInput(initial), map[], cors.ended);
      ExecuteIsFinish(e, req, resp);
      ChainOutcomes(e, 0, SpreadInput(initial), map[], cors.ended);
      FinishFirstFailure(e, cors, initial, chain, cors.ended);
    }
  }

  lemma FinishShortCircuit(e: Endpoint, resp: Response, initial: Option<Obj>, chain: Chain, ended: bool)
    requires StopsAsReported(e, chain, ended) && Alternates(chain.calls, 0)
    requires chain.outcome.Bypassed? ==> chain.ended
    ensures var x := Finish(e, resp, initial, chain);
      && (ResultHandlerCalled(x) <==> !(|x.calls| > 0 && EndsResponse(e, Last(x.calls), ended)))
      && (!ResultHandlerCalled(x) ==> x.response.ended && forall j | 0 <= j < |x.calls| :: x.calls[j].IsStage())
  {
    var x := Finish(e, resp, initial, chain);
    if chain.outcome.Bypassed? {
      assert x.calls == chain.calls;
    }
  }

  /** The result handler runs, once and last, unless the method is OPTIONS
      or the last call is a middleware after which the response was ended;
      in those two cases the response is ended and neither the final parse,
      the handler nor the result handler ran. */
  lemma ResultHandlerUnlessShortCircuited(e: Endpoint, req: Request, resp: Response)
    ensures var x := Execute(e, req, resp);
      && (ResultHandlerCalled(x) <==>
            req.verb != "OPTIONS" && !(|x.calls| > 0 && EndsResponse(e, Last(x.calls), resp.ended)))
      && (!ResultHandlerCalled(x) ==> x.response.ended && forall j | 0 <= j < |x.calls| :: x.calls[j].IsStage())
  {
    if req.verb != "OPTIONS" {
      var cors := SetCorsHeaders(resp);
      var initial := InitialInput(req);
      var chain := RunChain(e, 0, SpreadInput(initial), map[], cors.ended);
      ExecuteIsFinish(e, req, resp);
      ChainOutcomes(e, 0, SpreadInput(initial), map[], cors.ended);
      ChainOrder(e, 0, SpreadInput(initial), map[], cors.ended);
      FinishShortCircuit(e, cors, initial, chain, cors.ended);
    }
  }

  /** `Finish` only appends the final parse, the handler and the result
      handler, so every middleware call it returns was made by the loop. */
  lemma FinishAddsNoMiddleware(e: Endpoint, resp: Response, initial: Option<Obj>, chain: Chain, j: nat)
    requires j < |Finish(e, resp, initial, chain).calls|
    requires Finish(e, resp, initial, chain).calls[j].RunMiddleware?
    ensures j < |chain.calls| && Finish(e, resp, initial, chain).calls[j] == chain.calls[j]
  {
    var x := Finish(e, resp, initial, chain);
    var m := |chain.calls|;
    if j < m {
      assert x.calls[..m][j] == x.calls[j];
    }
  }

  /** Once a middleware has left the response ended, nothing runs after it:
      that call is the last one of the request, and neither the final parse,
      the handler nor the result handler runs. */
  lemma BypassIsLast(e: Endpoint, req: Request, resp: Response, j: nat)
    requires j < |Execute(e, req, resp).calls|
    requires EndsResponse(e, Execute(e, req, resp).calls[j], resp.ended)
    ensures j == |Execute(e, req, resp).calls| - 1
    ensures !ResultHandlerCalled(Execute(e, req, resp))
    ensures Execute(e, req, resp).response.ended
  {
    if req.verb != "OPTIONS" {
      var cors := SetCorsHeaders(resp);
      var initial := InitialInput(req);
      var chain := RunChain(e, 0, SpreadInput(initial), map[], cors.ended);
      ExecuteIsFinish(e, req, resp);
      ChainOutcomes(e, 0, SpreadInput(initial), map[], cors.ended);
      FinishAddsNoMiddleware(e, cors, initial, chain, j);
      assert j == |chain.calls| - 1;
      assert chain.outcome.Bypassed?;
    }
  }

  lemma FinishLogged(e: Endpoint, resp: Response, initial: Option<Obj>, chain: Chain)
    requires chain.outcome.Bypassed? && |chain.calls| > 0 ==> Last(chain.calls).IsStage()
    ensures var x := Finish(e, resp, initial, chain);
      && (x.log != [] <==> ResultHandlerCalled(x) && ErrorOf(e, Last(x.calls)).Some?)
      && (x.log != [] ==> x.log == [FailureLine(ErrorOf(e, Last(x.calls)).value)])
  {
    var x := Finish(e, resp, initial, chain);
    if !chain.outcome.Bypassed? {
      assert Last(x.calls).RunResultHandler?;
    }
  }

  /** The result handler's failure is swallowed: it produces exactly one
      logged line carrying its message, and nothing else is ever logged. */
  lemma ResultHandlerFailureLogged(e: Endpoint, req: Request, resp: Response)
    ensures var x := Execute(e, req, resp);
      && (x.log != [] <==> ResultHandlerCalled(x) && ErrorOf(e, Last(x.calls)).Some?)
      && (x.log != [] ==> x.log == [FailureLine(ErrorOf(e, Last(x.calls)).value)])
  {
    if req.verb != "OPTIONS" {
      var cors := SetCorsHeaders(resp);
      var initial := InitialInput(req);
      var chain := RunChain(e, 0, SpreadInput(initial), map[], cors.ended);
      ExecuteIsFinish(e, req, resp);
      ChainOrder(e, 0, SpreadInput(initial), map[], cors.ended);
      if chain.outcome.Bypassed? && |chain.calls| > 0 {
        assert Last(chain.calls).IsStage();
      }
      FinishLogged(e, cors, initial, chain);
    }
  }

  /** The only `writableEnded` test of `execute` follows a middleware call,
      so with no middlewares nothing short-circuits a non-OPTIONS request. */
  lemma NoMiddlewaresNoBypass(e: Endpoint, req: Request, resp: Response)
    requires |e.middlewares| == 0 && req.verb != "OPTIONS"
    ensures ResultHandlerCalled(Execute(e, req, resp))
    ensures Execute(e, req, resp).response.ended == resp.ended
  {
    ResultHandlerUnlessShortCircuited(e, req, resp);
  }

  // ---------------------------------------------------------------------------
  // The output schema and the registered method play no part in `execute`.
  // ---------------------------------------------------------------------------

  lemma {:induction false} ChainIgnoresOutputSchema(e: Endpoint, s: Schema, v: Method,
                                                     stage: nat, input: Obj, options: Obj, ended: bool)
    requires stage <= |e.middlewares|
    ensures RunChain(e.(outputSchema := s, routeMethod := v), stage, input, options, ended)
         == RunChain(e, stage, input, options, ended)
    decreases |e.middlewares| - stage
  {
    if stage < |e.middlewares| {
      var def := e.middlewares[stage];
      match def.input(input) {
      case Fail(_) =>
      case Ok(parsed) =>
        var input' := Merge(input, parsed);
        match def.middleware(input', options) {
        case Fail(_) =>
        case Ok(k) =>
          if !(ended || k.endsResponse) {
            ChainIgnoresOutputSchema(e, s, v, stage + 1, input', Merge(options, k.options), false);
          }
        }
      }
    }
  }

  lemma FinishIgnoresOutputSchema(e: Endpoint, s: Schema, v: Method, resp: Response, initial: Option<Obj>, chain: Chain)
    ensures Finish(e.(outputSchema := s, routeMethod := v), resp, initial, chain) == Finish(e, resp, initial, chain)
  {
  }

  /** Replacing the output schema or the registered method changes nothing
      about a request: the handler's output reaches the result handler
      without being validated against the output schema. */
  lemma OutputSchemaNeverApplied(e: Endpoint, s: Schema, v: Method, req: Request, resp: Response)
    ensures Execute(e.(outputSchema := s, routeMethod := v), req, resp) == Execute(e, req, resp)
  {
    if req.verb != "OPTIONS" {
      var e' := e.(outputSchema := s, routeMethod := v);
      var cors := SetCorsHeaders(resp);
      var initial := InitialInput(req);
      ExecuteIsFinish(e, req, resp);
      ExecuteIsFinish(e', req, resp);
      ChainIgnoresOutputSchema(e, s, v, 0, SpreadInput(initial), map[], cors.ended);
      FinishIgnoresOutputSchema(e, s, v, cors, initial, RunChain(e, 0, SpreadInput(initial), map[], cors.ended));
    }
  }
}
