/**
 * The declarative call path of lib/client.js (`exec`, installed by createExec):
 * validates the request's method against the stub, merges the request's
 * metadata and options over the defaults, then drives the unary wrapper under
 * async.retry (filling one Response across attempts) or the client-streaming
 * wrapper once.
 *
 * `ExecSpec` states the whole outcome of one `exec` as a value; the `Exec`
 * method, which allocates the Response and overwrites its fields in place, is
 * proved to produce it.
 */
module Exec {
  import opened JsValues
  import opened Merging
  import opened Shapes
  import opened Transport
  import opened Adapter
  import opened Responses

  /** The fields of a Request that `exec` reads. */
  datatype RequestFields = RequestFields(
    methodName: string,
    param: Value,
    metadata: Value,
    options: Value,
    retry: Value,
    responseMetadata: Value,
    responseStatus: Value)

  /** The TypeError raised when something that is not a function is called, or `.on` is read off `undefined`. */
  const NotAFunction := Error("TypeError")

  /** How the promise (or the callback) of an `exec` settles. */
  datatype Completion = Resolved | Rejected(error: Value)

  function Settle(o: Outcome): (c: Completion)
    ensures c.Resolved? <==> o.Done?
    ensures o.Failed? ==> c == Rejected(o.error)
  {
    if o.Done? then Resolved else Rejected(o.error)
  }

  /**
   * Everything one `exec` produces: what it returns synchronously, how it
   * settles, the fields of its Response when it settles, and the stub calls it
   * makes, in order.
   */
  datatype ExecView = ExecView(returned: Returned, completion: Completion, response: ResponseFields, calls: seq<Invocation>)

  /**
   * The two synchronous checks on the method: it must be a function on the stub
   * client, and it must not stream responses. What passes is unary or
   * client-streaming.
   */
  function CheckMethod(c: Caller, name: string): (r: Result<Shape>)
    ensures r.Ok? <==> c.ClientMember(name).Some? && c.ClientMember(name).value.IsFunction()
                       && !c.ClientMember(name).value.ResponseFlag()
    ensures r.Ok? ==> !r.value.ResponseStream() && r.value.RequestStream() == c.ClientMember(name).value.RequestFlag()
    ensures (c.ClientMember(name).None? || !c.ClientMember(name).value.IsFunction()) ==>
      r == Thrown(Error("Invalid method: " + name))
    ensures c.ClientMember(name).Some? && c.ClientMember(name).value.IsFunction() && c.ClientMember(name).value.ResponseFlag() ==>
      r == Thrown(Error("Invalid call: " + name + " cannot be called using Request API"))
  {
    match c.ClientMember(name)
    case None => Thrown(Error("Invalid method: " + name))
    case Some(p) =>
      if !p.IsFunction() then Thrown(Error("Invalid method: " + name))
      else if p.ResponseFlag() then Thrown(Error("Invalid call: " + name + " cannot be called using Request API"))
      else Ok(ShapeOf(p.RequestFlag(), false))
  }

  /** The value handed to async.retry: the request's retry setting when truthy, else 0. */
  function RetrySetting(retry: Value): (r: Value)
    ensures Truthy(r) <==> Truthy(retry)
    ensures Truthy(retry) ==> r == retry
    ensures r == retry || r == Num(0)
  {
    if Truthy(retry) then retry else Num(0)
  }

  /**
   * What one attempt of the unary path sends: `this[name](param, metadata,
   * options, rCb)` reaches the stub with the compacted list, or, when the
   * merged options hold `retry`, through the wrapper's own retry with that
   * option omitted.
   */
  function AttemptInvocation(name: string, param: Value, md: Value, o: map<string, Value>): Invocation {
    if "retry" in o then Invocation(name, [param, md, Plain(o - {"retry"}), Continuation])
    else Invocation(name, Compact([param, md, Plain(o), Continuation]))
  }

  /** How many stub calls one attempt may make: one, or the wrapper's own retry budget. */
  function InnerBudget(o: map<string, Value>, budgetOf: Value -> nat): nat {
    if "retry" in o then budgetOf(o["retry"]) else 1
  }

  /**
   * Stub calls made by an outer retry of budget `outer` whose every attempt is
   * itself a retry of budget `inner`: each attempt stops at its first success,
   * and the outer retry stops after an attempt that succeeded or when its
   * budget is spent.
   */
  function NestedCalls(replies: nat -> CallResult, start: nat, inner: nat, outer: nat): (total: nat)
    ensures AttemptsUsed(replies, start, inner) <= total
    decreases outer
  {
    var m := AttemptsUsed(replies, start, inner);
    if outer <= 1 || replies(start + m - 1).outcome.Done? then m
    else m + NestedCalls(replies, start + m, inner, outer - 1)
  }

  /**
   * The stub calls an outer retry still has to make after `n` attempts that
   * made `total` calls and ended with `outcome`.
   */
  function NestedRest(replies: nat -> CallResult, start: nat, inner: nat, outer: nat, n: nat, total: nat, outcome: Outcome): nat {
    if n > 0 && (outcome.Done? || n >= outer) then 0 else NestedCalls(replies, start + total, inner, outer - n)
  }

  /** One more attempt, of `m` calls, takes `m` calls off what remains. */
  lemma NestedRestStep(replies: nat -> CallResult, start: nat, inner: nat, outer: nat, n: nat, total: nat,
                       outcome: Outcome, m: nat, next: Outcome)
    requires n == 0 || (outcome.Failed? && n < outer)
    requires m == AttemptsUsed(replies, start + total, inner) && next == replies(start + total + m - 1).outcome
    ensures NestedRest(replies, start, inner, outer, n, total, outcome) == m + NestedRest(replies, start, inner, outer, n + 1, total + m, next)
  {
  }

  /** An inner retry of a single attempt leaves the outer retry as it is. */
  lemma {:induction false} NestedWithSingleInnerIsFlat(replies: nat -> CallResult, start: nat, outer: nat)
    ensures NestedCalls(replies, start, 1, outer) == AttemptsUsed(replies, start, outer)
    decreases outer
  {
    if outer > 1 && replies(start).outcome.Failed? {
      NestedWithSingleInnerIsFlat(replies, start + 1, outer - 1);
    }
  }

  /** What a listener for event `e` has left on the Response after `total` stub calls, when it was asked for. */
  function Watched(flag: Value, replies: nat -> CallResult, start: nat, total: nat, e: Event): Value {
    if Truthy(flag) then LastEmitted(replies, start, total, e) else Undefined
  }

  /**
   * The Response between attempts of the unary path, after `total` stub calls:
   * the handle of the last one (none when the wrapper ran its own retry), and
   * whatever the listeners that were asked for have written.
   */
  function Attempted(req: RequestFields, o: map<string, Value>, replies: nat -> CallResult, start: nat, total: nat): ResponseFields
    requires total > 0
  {
    ResponseFields(
      if "retry" in o then Undefined else Call(replies(start + total - 1).handle),
      Undefined,
      Watched(req.responseMetadata, replies, start, total, MetadataEvent),
      Watched(req.responseStatus, replies, start, total, StatusEvent))
  }

  /** The unary path of `exec`, once the checks have passed. */
  function UnaryExecSpec(c: Caller, req: RequestFields, fn: Value, replies: nat -> CallResult, start: nat,
                         budgetOf: Value -> nat, md: Value, o: map<string, Value>): ExecView
  {
    var returned := if Truthy(fn) then NothingReturned else PromiseReturned;
    var inv := AttemptInvocation(req.methodName, req.param, md, o);
    var inner := InnerBudget(o, budgetOf);
    var listening := Truthy(req.responseMetadata) || Truthy(req.responseStatus);
    if c.CallerMember(req.methodName) != Some(Wrapper(Unary)) then
      ExecView(returned, Rejected(NotAFunction), NoResponse, [])
    else if "retry" in o && listening then
      ExecView(returned, Rejected(NotAFunction), NoResponse, Repeat(inv, AttemptsUsed(replies, start, inner)))
    else
      var total := NestedCalls(replies, start, inner, budgetOf(RetrySetting(req.retry)));
      var last := replies(start + total - 1);
      ExecView(returned, Settle(last.outcome),
        Attempted(req, o, replies, start, total).(response := PayloadOf(last.outcome)),
        Repeat(inv, total))
  }

  /** The client-streaming path of `exec`, once the checks have passed. */
  function ClientStreamExecSpec(c: Caller, req: RequestFields, fn: Value, replies: nat -> CallResult, start: nat,
                                md: Value, o: map<string, Value>): (r: Result<ExecView>)
    ensures r.Thrown? ==> r == Thrown(NotAFunction)
    ensures r.Ok? ==> |r.value.calls| == 1
  {
    if c.CallerMember(req.methodName) != Some(Wrapper(ClientStream)) then Thrown(NotAFunction)
    else
      var reply := replies(start);
      var h := Call(reply.handle);
      Ok(ExecView(
        if Truthy(fn) then HandleReturned(h) else DualReturned(h),
        Settle(reply.outcome),
        ResponseFields(h, PayloadOf(reply.outcome),
          Watched(req.responseMetadata, replies, start, 1, MetadataEvent),
          Watched(req.responseStatus, replies, start, 1, StatusEvent)),
        [Invocation(req.methodName, [md, Plain(o), Continuation])]))
  }

  /**
   * The whole of one `exec` on caller `c`, when the stub's replies are
   * `replies` and the channel has served `start` calls before. `budgetOf` is
   * how async.retry reads a retry setting as a number of attempts.
   */
  function ExecSpec(c: Caller, req: RequestFields, fn: Value, replies: nat -> CallResult, start: nat,
                    budgetOf: Value -> nat): (r: Result<ExecView>)
    ensures CheckMethod(c, req.methodName).Thrown? ==> r == Thrown(CheckMethod(c, req.methodName).error)
    ensures r.Ok? ==> CheckMethod(c, req.methodName).Ok?
  {
    match CheckMethod(c, req.methodName)
    case Thrown(e) => Thrown(e)
    case Ok(shape) =>
      var o := MergeOver(c.defaultOptions, req.options);
      var md := MergedMetadata(c.defaultMetadata, req.metadata);
      if shape == Unary then Ok(UnaryExecSpec(c, req, fn, replies, start, budgetOf, md, o))
      else ClientStreamExecSpec(c, req, fn, replies, start, md, o)
  }

  /** The compacted unary argument list keeps the trailing retry callback. */
  lemma CompactKeepsCallback(param: Value, md: Value, o: map<string, Value>)
    ensures HasCallback(Compact([param, md, Plain(o), Continuation]))
  {
    assert [param, md, Plain(o), Continuation] == [param, md, Plain(o)] + [Continuation];
    CompactAppend([param, md, Plain(o)], [Continuation]);
    CompactAllTruthy([Continuation]);
  }

  /**
   * One attempt of the unary path: calls the unary wrapper with the merged
   * metadata and options and the retry callback. The handle is what the
   * wrapper returns: the live call, or undefined when the wrapper ran its own
   * retry.
   */
  method RunAttempt(c: Caller, ch: Channel, name: string, param: Value, md: Value, o: map<string, Value>,
                    budgetOf: Value -> nat, ghost metadata: Value, ghost options: Value)
    returns (call: Value, outcome: Outcome, ghost m: nat)
    requires md == MergedMetadata(c.defaultMetadata, metadata) && o == MergeOver(c.defaultOptions, options)
    modifies ch
    ensures m == AttemptsUsed(ch.replies, |old(ch.log)|, InnerBudget(o, budgetOf))
    ensures ch.log == old(ch.log) + Repeat(AttemptInvocation(name, param, md, o), m)
    ensures outcome == ch.replies(|old(ch.log)| + m - 1).outcome
    ensures call == if "retry" in o then Undefined else Call(ch.replies(|old(ch.log)|).handle)
  {
    UnaryReMergeIsNoop(c, param, metadata, options);
    ghost var start := |ch.log|;
    ghost var plan := PlanUnary(c, param, md, Plain(o), Continuation);
    var ret;
    ret, outcome := UnaryCall(c, ch, name, param, md, Plain(o), Continuation, budgetOf);
    call := if ret.HandleReturned? then ret.call else Undefined;
    if "retry" in o {
      assert plan == Retrying(o["retry"], [param, md, Plain(o - {"retry"}), Continuation], Continuation);
      m := AttemptsUsed(ch.replies, start, budgetOf(o["retry"]));
    } else {
      assert plan == Direct(Compact([param, md, Plain(o), Continuation]));
      CompactKeepsCallback(param, md, o);
      m := 1;
      assert Repeat(AttemptInvocation(name, param, md, o), 1) == [AttemptInvocation(name, param, md, o)];
    }
  }

  /** The Response once an attempt's handle `call` is written and the listeners asked for have run. */
  function Listened(prev: ResponseFields, call: Value, wantMetadata: bool, wantStatus: bool): ResponseFields {
    ResponseFields(call, prev.response,
      if wantMetadata && call.Call? && call.handle.header.Some? then call.handle.header.value else prev.metadata,
      if wantStatus && call.Call? && call.handle.status.Some? then call.handle.status.value else prev.status)
  }

  /**
   * `response.call = call`, then `call.on('metadata', …)` and
   * `call.on('status', …)`, each only when asked for; the handle's events reach
   * the listeners before the attempt completes. Reading `.on` off something
   * that is not a handle throws.
   */
  method Attach(response: Response, call: Value, wantMetadata: bool, wantStatus: bool) returns (thrown: bool)
    modifies response
    ensures thrown <==> (wantMetadata || wantStatus) && !call.Call?
    ensures response.Fields() == Listened(old(response.Fields()), call, wantMetadata, wantStatus)
  {
    response.call := call;
    thrown := false;
    if wantMetadata {
      if call.Call? {
        if call.handle.header.Some? {
          response.metadata := call.handle.header.value;
        }
      } else {
        thrown := true;
      }
    }
    if !thrown && wantStatus {
      if call.Call? {
        if call.handle.status.Some? {
          response.status := call.handle.status.value;
        }
      } else {
        thrown := true;
      }
    }
  }

  /** One more attempt that did not throw moves the Response from `total` stub calls to `total + m`. */
  lemma AttemptedStep(req: RequestFields, o: map<string, Value>, replies: nat -> CallResult, start: nat, total: nat,
                      m: nat, prev: ResponseFields, call: Value)
    requires m >= 1
    requires "retry" !in o ==> m == 1 && call == Call(replies(start + total).handle)
    requires "retry" in o ==> call == Undefined && !Truthy(req.responseMetadata) && !Truthy(req.responseStatus)
    requires total == 0 ==> prev == NoResponse
    requires total > 0 ==> prev == Attempted(req, o, replies, start, total)
    ensures Attempted(req, o, replies, start, total + m)
         == Listened(prev, call, Truthy(req.responseMetadata), Truthy(req.responseStatus)).(response := Undefined)
  {
  }

  /** What `exec` returns. */
  datatype ExecOutcome = ExecOutcome(returned: Returned, completion: Completion, response: Response)

  /**
   * Where the unary path stands between attempts: `n` attempts made `total`
   * stub calls, the last ending with `outcome`; `thrown` when reading `.on` off
   * a missing handle aborted the run; `fields` is the Response so far.
   */
  datatype Round = Round(n: nat, total: nat, outcome: Outcome, thrown: bool, fields: ResponseFields)

  const Unstarted := Round(0, 0, Failed(Undefined), false, NoResponse)

  /**
   * Whether async.retry runs another attempt: always a first one, then another
   * after a failure while the budget lasts; none after the task threw.
   */
  predicate Continues(outer: nat, r: Round) {
    !r.thrown && (r.n == 0 || (r.outcome.Failed? && r.n < outer))
  }

  /**
   * One run of the task async.retry drives: the wrapper's stub calls, the handle
   * it returns written to the Response, then the listeners asked for.
   */
  function NextRound(req: RequestFields, o: map<string, Value>, replies: nat -> CallResult, start: nat, inner: nat,
                     r: Round): Round
  {
    var m := AttemptsUsed(replies, start + r.total, inner);
    var call := if "retry" in o then Undefined else Call(replies(start + r.total).handle);
    var wantMetadata, wantStatus := Truthy(req.responseMetadata), Truthy(req.responseStatus);
    Round(r.n + 1, r.total + m, replies(start + r.total + m - 1).outcome,
          (wantMetadata || wantStatus) && !call.Call?, Listened(r.fields, call, wantMetadata, wantStatus))
  }

  /** The round at which async.retry, with budget `outer`, stops when it is at `r`. */
  function Rounds(req: RequestFields, o: map<string, Value>, replies: nat -> CallResult, start: nat, inner: nat,
                  outer: nat, r: Round): Round
    requires r.n <= Max1(outer)
    decreases Max1(outer) - r.n
  {
    if Continues(outer, r) then Rounds(req, o, replies, start, inner, outer, NextRound(req, o, replies, start, inner, r))
    else r
  }

  /** Taking one more attempt does not change where async.retry stops. */
  lemma RoundsStep(req: RequestFields, o: map<string, Value>, replies: nat -> CallResult, start: nat, inner: nat,
                   outer: nat, r: Round, next: Round)
    requires r.n <= Max1(outer) && Continues(outer, r)
    requires next == NextRound(req, o, replies, start, inner, r)
    ensures next.n <= Max1(outer)
    ensures Rounds(req, o, replies, start, inner, outer, next) == Rounds(req, o, replies, start, inner, outer, r)
  {
  }

  /** Attempts and stub calls start together, and the payload is written only once the retry is over. */
  predicate Bounded(outer: nat, r: Round) {
    && r.n <= Max1(outer)
    && (r.n == 0 <==> r.total == 0)
    && r.fields.response == Undefined
    && (r.n == 0 ==> r.fields == NoResponse)
  }

  /**
   * Only the first attempt can throw: it does exactly when the wrapper ran its
   * own retry, so there is no handle, and a listener was asked for.
   */
  ghost predicate ThrowsAtFirst(req: RequestFields, o: map<string, Value>, replies: nat -> CallResult, start: nat,
                                inner: nat, r: Round)
  {
    var listening := Truthy(req.responseMetadata) || Truthy(req.responseStatus);
    && (r.thrown ==> "retry" in o && listening && r.n == 1 && r.total == AttemptsUsed(replies, start, inner) && r.fields == NoResponse)
    && ("retry" in o && listening && r.n > 0 ==> r.thrown)
  }

  /** Every attempt that ran to the end left its outcome, its handle and its events behind. */
  ghost predicate Recorded(req: RequestFields, o: map<string, Value>, replies: nat -> CallResult, start: nat, r: Round) {
    !r.thrown && r.total > 0 ==> r.outcome == replies(start + r.total - 1).outcome
                                 && r.fields == Attempted(req, o, replies, start, r.total)
  }

  /** The stub calls made so far and those still to come add up to the nested retry's. */
  ghost predicate Counted(replies: nat -> CallResult, start: nat, inner: nat, outer: nat, r: Round) {
    !r.thrown ==> NestedCalls(replies, start, inner, outer) == r.total + NestedRest(replies, start, inner, outer, r.n, r.total, r.outcome)
  }

  /** What holds of every round the unary path reaches, in terms of the stub calls made so far. */
  ghost predicate Progress(req: RequestFields, o: map<string, Value>, replies: nat -> CallResult, start: nat,
                           inner: nat, outer: nat, r: Round)
  {
    && Bounded(outer, r)
    && ThrowsAtFirst(req, o, replies, start, inner, r)
    && Recorded(req, o, replies, start, r)
    && Counted(replies, start, inner, outer, r)
  }

  lemma ThrowsAtFirstStep(req: RequestFields, o: map<string, Value>, replies: nat -> CallResult, start: nat,
                          inner: nat, outer: nat, r: Round)
    requires Bounded(outer, r) && ThrowsAtFirst(req, o, replies, start, inner, r) && Continues(outer, r)
    ensures ThrowsAtFirst(req, o, replies, start, inner, NextRound(req, o, replies, start, inner, r))
  {
  }

  lemma RecordedStep(req: RequestFields, o: map<string, Value>, replies: nat -> CallResult, start: nat,
                     inner: nat, outer: nat, r: Round)
    requires Progress(req, o, replies, start, inner, outer, r) && Continues(outer, r)
    requires "retry" !in o ==> inner == 1
    ensures Recorded(req, o, replies, start, NextRound(req, o, replies, start, inner, r))
  {
    var m := AttemptsUsed(replies, start + r.total, inner);
    var call := if "retry" in o then Undefined else Call(replies(start + r.total).handle);
    if !NextRound(req, o, replies, start, inner, r).thrown {
      AttemptedStep(req, o, replies, start, r.total, m, r.fields, call);
    }
  }

  lemma CountedStep(replies: nat -> CallResult, start: nat, inner: nat, outer: nat, r: Round, next: Round)
    requires Counted(replies, start, inner, outer, r) && Continues(outer, r)
    requires next.total == r.total + AttemptsUsed(replies, start + r.total, inner)
    requires next.n == r.n + 1 && next.outcome == replies(next.total - 1 + start).outcome
    ensures Counted(replies, start, inner, outer, next)
  {
    NestedRestStep(replies, start, inner, outer, r.n, r.total, r.outcome, next.total - r.total, next.outcome);
  }

  /** Each attempt keeps Progress. */
  lemma ProgressStep(req: RequestFields, o: map<string, Value>, replies: nat -> CallResult, start: nat,
                     inner: nat, outer: nat, r: Round)
    requires Progress(req, o, replies, start, inner, outer, r) && Continues(outer, r)
    requires "retry" !in o ==> inner == 1
    ensures Progress(req, o, replies, start, inner, outer, NextRound(req, o, replies, start, inner, r))
  {
    var next := NextRound(req, o, replies, start, inner, r);
    ThrowsAtFirstStep(req, o, replies, start, inner, outer, r);
    RecordedStep(req, o, replies, start, inner, outer, r);
    CountedStep(replies, start, inner, outer, r, next);
  }

  /** From any round that keeps Progress, async.retry stops at a round that keeps it too. */
  lemma {:induction false} RoundsKeepProgress(req: RequestFields, o: map<string, Value>, replies: nat -> CallResult,
                                              start: nat, inner: nat, outer: nat, r: Round)
    requires Progress(req, o, replies, start, inner, outer, r)
    requires "retry" !in o ==> inner == 1
    ensures var f := Rounds(req, o, replies, start, inner, outer, r);
      Progress(req, o, replies, start, inner, outer, f) && !Continues(outer, f)
    decreases Max1(outer) - r.n
  {
    if Continues(outer, r) {
      ProgressStep(req, o, replies, start, inner, outer, r);
      RoundsKeepProgress(req, o, replies, start, inner, outer, NextRound(req, o, replies, start, inner, r));
    }
  }

  /** A round where async.retry stopped, and that keeps Progress, is what UnaryExecSpec states. */
  lemma ProgressFinal(c: Caller, req: RequestFields, fn: Value, replies: nat -> CallResult, start: nat,
                      budgetOf: Value -> nat, md: Value, o: map<string, Value>, f: Round)
    requires c.CallerMember(req.methodName) == Some(Wrapper(Unary))
    requires Progress(req, o, replies, start, InnerBudget(o, budgetOf), budgetOf(RetrySetting(req.retry)), f)
    requires !Continues(budgetOf(RetrySetting(req.retry)), f)
    ensures var s := UnaryExecSpec(c, req, fn, replies, start, budgetOf, md, o);
      && s.calls == Repeat(AttemptInvocation(req.methodName, req.param, md, o), f.total)
      && (f.thrown ==> s.completion == Rejected(NotAFunction) && s.response == f.fields)
      && (!f.thrown ==> s.completion == Settle(f.outcome) && s.response == f.fields.(response := PayloadOf(f.outcome)))
  {
  }

  /**
   * Where async.retry stops, the Response and the stub calls are those
   * UnaryExecSpec states: the nested retry's calls, or the calls of the one
   * attempt whose missing handle made `.on` throw.
   */
  lemma UnaryRoundsMeetSpec(c: Caller, req: RequestFields, fn: Value, replies: nat -> CallResult, start: nat,
                            budgetOf: Value -> nat, md: Value, o: map<string, Value>)
    requires c.CallerMember(req.methodName) == Some(Wrapper(Unary))
    ensures var f := Rounds(req, o, replies, start, InnerBudget(o, budgetOf), budgetOf(RetrySetting(req.retry)), Unstarted);
      var s := UnaryExecSpec(c, req, fn, replies, start, budgetOf, md, o);
      && s.calls == Repeat(AttemptInvocation(req.methodName, req.param, md, o), f.total)
      && (f.thrown ==> s.completion == Rejected(NotAFunction) && s.response == f.fields)
      && (!f.thrown ==> s.completion == Settle(f.outcome) && s.response == f.fields.(response := PayloadOf(f.outcome)))
  {
    var inner, outer := InnerBudget(o, budgetOf), budgetOf(RetrySetting(req.retry));
    assert Progress(req, o, replies, start, inner, outer, Unstarted);
    RoundsKeepProgress(req, o, replies, start, inner, outer, Unstarted);
    ProgressFinal(c, req, fn, replies, start, budgetOf, md, o, Rounds(req, o, replies, start, inner, outer, Unstarted));
  }

  /**
   * One attempt of the unary path, on the Response the attempts share: the
   * wrapper call, then `response.call` and the listeners. It takes the run
   * from round `r` to the next one, which leads to the same final round.
   */
  method ExecAttempt(c: Caller, ch: Channel, response: Response, req: RequestFields, md: Value, o: map<string, Value>,
                     budgetOf: Value -> nat, ghost replies: nat -> CallResult, ghost inner: nat, ghost outer: nat,
                     ghost start: nat, ghost log: seq<Invocation>, ghost r: Round)
    returns (thrown: bool, outcome: Outcome, ghost next: Round)
    requires md == MergedMetadata(c.defaultMetadata, req.metadata) && o == MergeOver(c.defaultOptions, req.options)
    requires replies == ch.replies && inner == InnerBudget(o, budgetOf)
    requires r.n <= Max1(outer) && Continues(outer, r)
    requires ch.log == log + Repeat(AttemptInvocation(req.methodName, req.param, md, o), r.total)
    requires |ch.log| == start + r.total && response.Fields() == r.fields
    modifies ch, response
    ensures next.n == r.n + 1 && next.outcome == outcome && next.thrown == thrown && next.fields == response.Fields()
    ensures next.n <= Max1(outer)
    ensures Rounds(req, o, replies, start, inner, outer, next) == Rounds(req, o, replies, start, inner, outer, r)
    ensures ch.log == log + Repeat(AttemptInvocation(req.methodName, req.param, md, o), next.total)
    ensures |ch.log| == start + next.total
  {
    var call;
    ghost var m;
    call, outcome, m := RunAttempt(c, ch, req.methodName, req.param, md, o, budgetOf, req.metadata, req.options);
    thrown := Attach(response, call, Truthy(req.responseMetadata), Truthy(req.responseStatus));
    next := Round(r.n + 1, r.total + m, outcome, thrown, response.Fields());
    RoundsStep(req, o, replies, start, inner, outer, r, next);
    RepeatExtend(log, AttemptInvocation(req.methodName, req.param, md, o), r.total, m);
  }

  /**
   * The unary path: one Response, async.retry over attempts; every attempt
   * overwrites `call` and, when asked for, installs the metadata and status
   * listeners on the handle it got; the final callback writes the payload.
   */
  method ExecUnary(c: Caller, req: RequestFields, fn: Value, ch: Channel, budgetOf: Value -> nat,
                   md: Value, o: map<string, Value>)
    returns (v: ExecOutcome)
    requires md == MergedMetadata(c.defaultMetadata, req.metadata) && o == MergeOver(c.defaultOptions, req.options)
    modifies ch
    ensures fresh(v.response)
    ensures var s := UnaryExecSpec(c, req, fn, ch.replies, |old(ch.log)|, budgetOf, md, o);
      && v.returned == s.returned && v.completion == s.completion
      && v.response.Fields() == s.response && ch.log == old(ch.log) + s.calls
  {
    var response := new Response(Undefined, Undefined, Undefined, Undefined);
    var returned := if Truthy(fn) then NothingReturned else PromiseReturned;
    if c.CallerMember(req.methodName) != Some(Wrapper(Unary)) {
      return ExecOutcome(returned, Rejected(NotAFunction), response);
    }
    var outer := budgetOf(RetrySetting(req.retry));
    ghost var replies := ch.replies;
    ghost var start := |ch.log|;
    ghost var inv := AttemptInvocation(req.methodName, req.param, md, o);
    ghost var inner := InnerBudget(o, budgetOf);
    ghost var final := Rounds(req, o, replies, start, inner, outer, Unstarted);
    var n: nat := 0;
    var outcome := Failed(Undefined);
    var thrown := false;
    ghost var r := Unstarted;
    while !thrown && (n == 0 || (outcome.Failed? && n < outer))
      invariant r.n == n && r.outcome == outcome && r.thrown == thrown && r.fields == response.Fields()
      invariant r.n <= Max1(outer) && Rounds(req, o, replies, start, inner, outer, r) == final
      invariant ch.log == old(ch.log) + Repeat(inv, r.total) && |ch.log| == start + r.total
      decreases Max1(outer) - n
    {
      thrown, outcome, r := ExecAttempt(c, ch, response, req, md, o, budgetOf, replies, inner, outer, start, old(ch.log), r);
      n := n + 1;
    }
    UnaryRoundsMeetSpec(c, req, fn, replies, start, budgetOf, md, o);
    if thrown {
      return ExecOutcome(returned, Rejected(NotAFunction), response);
    }
    response.response := PayloadOf(outcome);
    return ExecOutcome(returned, Settle(outcome), response);
  }

  /**
   * `exec` calls the client-streaming wrapper with merged metadata and options
   * and no callback: the wrapper's own merge changes nothing and it appends its
   * own callback.
   */
  lemma ClientStreamExecArgs(c: Caller, metadata: Value, options: Value)
    ensures var md := MergedMetadata(c.defaultMetadata, metadata);
      var o := MergeOver(c.defaultOptions, options);
      var s := SlotsKeeping(md, Plain(o), Undefined);
      && !Truthy(s.callback)
      && Compact([MergedMetadata(c.defaultMetadata, s.metadata), Plain(MergeOver(c.defaultOptions, s.options)), s.callback])
           + [Continuation] == [md, Plain(o), Continuation]
  {
    var md := MergedMetadata(c.defaultMetadata, metadata);
    var o := MergeOver(c.defaultOptions, options);
    assert SlotsKeeping(md, Plain(o), Undefined) == Slots(md, Plain(o), Undefined);
    MergedMetadataIdempotent(c.defaultMetadata, metadata);
    MergeOverIdempotent(c.defaultOptions, options);
    CompactAllTruthy([md, Plain(o)]);
    CompactAppend([md, Plain(o)], [Undefined]);
    assert [md, Plain(o), Undefined] == [md, Plain(o)] + [Undefined];
  }

  /** A Response that saw one call's handle holds what the listeners asked for caught from it. */
  lemma ListenedOnce(req: RequestFields, replies: nat -> CallResult, start: nat)
    ensures Listened(NoResponse, Call(replies(start).handle), Truthy(req.responseMetadata), Truthy(req.responseStatus))
         == ResponseFields(Call(replies(start).handle), Undefined,
              Watched(req.responseMetadata, replies, start, 1, MetadataEvent),
              Watched(req.responseStatus, replies, start, 1, StatusEvent))
  {
    assert LastEmitted(replies, start, 0, MetadataEvent) == Undefined == LastEmitted(replies, start, 0, StatusEvent);
  }

  /**
   * The client-streaming path: one call of the wrapper without a callback,
   * which yields the live handle and a promise of the completion; the Response
   * gets the handle, the listeners when asked for, and the payload on success.
   */
  method ExecClientStream(c: Caller, req: RequestFields, fn: Value, ch: Channel, md: Value, o: map<string, Value>)
    returns (r: Result<ExecOutcome>)
    requires md == MergedMetadata(c.defaultMetadata, req.metadata) && o == MergeOver(c.defaultOptions, req.options)
    modifies ch
    ensures match ClientStreamExecSpec(c, req, fn, ch.replies, |old(ch.log)|, md, o)
      case Thrown(e) => r == Thrown(e) && ch.log == old(ch.log)
      case Ok(s) =>
        && r.Ok? && fresh(r.value.response) && r.value.returned == s.returned && r.value.completion == s.completion
        && r.value.response.Fields() == s.response && ch.log == old(ch.log) + s.calls
  {
    var name := req.methodName;
    var response := new Response(Undefined, Undefined, Undefined, Undefined);
    if c.CallerMember(name) != Some(Wrapper(ClientStream)) {
      return Thrown(NotAFunction);
    }
    ghost var start := |ch.log|;
    ClientStreamExecArgs(c, req.metadata, req.options);
    var ret, outcome := ClientStreamCall(c, ch, name, md, Plain(o), Undefined);
    assert ch.log == old(ch.log) + [Invocation(name, [md, Plain(o), Continuation])];
    assert ret == DualReturned(Call(ch.replies(start).handle)) && outcome == ch.replies(start).outcome;
    var call := ret.call;
    var thrown := Attach(response, call, Truthy(req.responseMetadata), Truthy(req.responseStatus));
    if outcome.Done? {
      response.response := outcome.payload;
    }
    ListenedOnce(req, ch.replies, start);
    var returned := if Truthy(fn) then HandleReturned(call) else DualReturned(call);
    r := Ok(ExecOutcome(returned, Settle(outcome), response));
  }

  /**
   * `exec(request, fn)`: the method checks throw before any stub call; then the
   * metadata and options are merged and the unary or client-streaming path
   * runs.
   */
  method Exec(c: Caller, req: RequestFields, fn: Value, ch: Channel, budgetOf: Value -> nat)
    returns (r: Result<ExecOutcome>)
    modifies ch
    ensures match ExecSpec(c, req, fn, ch.replies, |old(ch.log)|, budgetOf)
      case Thrown(e) => r == Thrown(e) && ch.log == old(ch.log)
      case Ok(s) =>
        && r.Ok? && fresh(r.value.response) && r.value.returned == s.returned && r.value.completion == s.completion
        && r.value.response.Fields() == s.response && ch.log == old(ch.log) + s.calls
  {
    var checked := CheckMethod(c, req.methodName);
    if checked.Thrown? {
      return Thrown(checked.error);
    }
    var options := MergeOver(c.defaultOptions, req.options);
    var metadata := CreateMetadata(c.defaultMetadata, req.metadata);
    if checked.value == Unary {
      var v := ExecUnary(c, req, fn, ch, budgetOf, metadata, options);
      r := Ok(v);
    } else {
      r := ExecClientStream(c, req, fn, ch, metadata, options);
    }
  }
}
