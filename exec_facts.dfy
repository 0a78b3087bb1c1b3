/**
 * What `exec` promises its callers, stated over ExecSpec: which requests it
 * refuses before any stub call, what the unary path's Response and calls are
 * in the usual case, when the listeners write anything, and that the
 * client-streaming path never retries.
 */
module ExecFacts {
  import opened JsValues
  import opened Merging
  import opened Shapes
  import opened Transport
  import opened Adapter
  import opened Responses
  import opened Exec

  /**
   * A name the stub client does not have is refused with `Invalid method`,
   * whatever else the request holds; nothing checks the name earlier.
   */
  lemma UnknownMethodThrows(c: Caller, req: RequestFields, fn: Value, replies: nat -> CallResult, start: nat,
                            budgetOf: Value -> nat)
    requires req.methodName !in c.clientProto && req.methodName !in c.inherited
    ensures ExecSpec(c, req, fn, replies, start, budgetOf) == Thrown(Error("Invalid method: " + req.methodName))
  {
    assert c.ClientMember(req.methodName).None?;
  }

  /** Any response-streaming method is refused with `Invalid call`, bidirectional ones included. */
  lemma ResponseStreamThrows(c: Caller, req: RequestFields, fn: Value, replies: nat -> CallResult, start: nat,
                             budgetOf: Value -> nat, requestStream: bool)
    requires c.ClientMember(req.methodName) == Some(Rpc(requestStream, true))
    ensures ExecSpec(c, req, fn, replies, start, budgetOf)
         == Thrown(Error("Invalid call: " + req.methodName + " cannot be called using Request API"))
  {
    assert CheckMethod(c, req.methodName).Thrown?;
  }

  /**
   * `exec` throws exactly when the method check fails or the client-streaming
   * wrapper is missing from the caller; a unary call that cannot run settles
   * as a rejection instead.
   */
  lemma ExecThrowsOnlyOnChecks(c: Caller, req: RequestFields, fn: Value, replies: nat -> CallResult, start: nat,
                               budgetOf: Value -> nat)
    ensures ExecSpec(c, req, fn, replies, start, budgetOf).Thrown?
        <==> CheckMethod(c, req.methodName).Thrown?
             || (CheckMethod(c, req.methodName) == Ok(ClientStream)
                 && c.CallerMember(req.methodName) != Some(Wrapper(ClientStream)))
    ensures CheckMethod(c, req.methodName).Thrown? ==>
      ExecSpec(c, req, fn, replies, start, budgetOf) == Thrown(CheckMethod(c, req.methodName).error)
  {
    match CheckMethod(c, req.methodName)
    case Thrown(e) =>
    case Ok(shape) =>
      assert shape == Unary || shape == ClientStream;
  }

  /**
   * A method the stub's own prototype defines (other than `constructor` and
   * `exec`) passes the check, and the wrapper `exec` then calls is the one for
   * its shape: the rejection for a missing wrapper never applies to it.
   */
  lemma ExecWrapperPresent(c: Caller, name: string)
    requires name in c.clientProto && name != "constructor" && name != "exec"
    requires CheckMethod(c, name).Ok?
    ensures c.CallerMember(name) == Some(Wrapper(CheckMethod(c, name).value))
  {
    CallerPropsWrapsEveryMethod(c.clientProto, name);
    ShapeOfInjective(CheckMethod(c, name).value, ShapeOf(c.clientProto[name].RequestFlag(), c.clientProto[name].ResponseFlag()));
  }

  /** The unary path with no `retry` option: the outer retry alone decides the calls. */
  lemma UnaryDirectSpec(c: Caller, req: RequestFields, fn: Value, replies: nat -> CallResult, start: nat,
                        budgetOf: Value -> nat, md: Value, o: map<string, Value>)
    requires c.CallerMember(req.methodName) == Some(Wrapper(Unary))
    requires "retry" !in o
    ensures var n := AttemptsUsed(replies, start, budgetOf(RetrySetting(req.retry)));
      var last := replies(start + n - 1);
      UnaryExecSpec(c, req, fn, replies, start, budgetOf, md, o)
        == ExecView(if Truthy(fn) then NothingReturned else PromiseReturned, Settle(last.outcome),
                    ResponseFields(Call(last.handle), PayloadOf(last.outcome),
                      Watched(req.responseMetadata, replies, start, n, MetadataEvent),
                      Watched(req.responseStatus, replies, start, n, StatusEvent)),
                    Repeat(Invocation(req.methodName, Compact([req.param, md, Plain(o), Continuation])), n))
  {
    NestedWithSingleInnerIsFlat(replies, start, budgetOf(RetrySetting(req.retry)));
  }

  /**
   * The usual unary case, with no `retry` among the merged options: async.retry
   * calls the stub with the compacted `[param, metadata, options, callback]`
   * until an attempt succeeds or the request's budget is spent; the Response
   * holds the last attempt's handle and payload, and the call settles with
   * that attempt's outcome. Every earlier attempt failed.
   */
  lemma UnaryExecDirect(c: Caller, req: RequestFields, fn: Value, replies: nat -> CallResult, start: nat,
                        budgetOf: Value -> nat)
    requires CheckMethod(c, req.methodName) == Ok(Unary)
    requires c.CallerMember(req.methodName) == Some(Wrapper(Unary))
    requires "retry" !in MergeOver(c.defaultOptions, req.options)
    ensures var o := MergeOver(c.defaultOptions, req.options);
      var md := MergedMetadata(c.defaultMetadata, req.metadata);
      var n := AttemptsUsed(replies, start, budgetOf(RetrySetting(req.retry)));
      var last := replies(start + n - 1);
      var s := ExecSpec(c, req, fn, replies, start, budgetOf);
      && s.Ok?
      && s.value.calls == Repeat(Invocation(req.methodName, Compact([req.param, md, Plain(o), Continuation])), n)
      && s.value.completion == Settle(last.outcome)
      && s.value.response.call == Call(last.handle)
      && s.value.response.response == PayloadOf(last.outcome)
      && (forall i :: start <= i < start + n - 1 ==> replies(i).outcome.Failed?)
  {
    var o := MergeOver(c.defaultOptions, req.options);
    var md := MergedMetadata(c.defaultMetadata, req.metadata);
    assert ExecSpec(c, req, fn, replies, start, budgetOf) == Ok(UnaryExecSpec(c, req, fn, replies, start, budgetOf, md, o));
    UnaryDirectSpec(c, req, fn, replies, start, budgetOf, md, o);
    AttemptsUsedStops(replies, start, budgetOf(RetrySetting(req.retry)));
  }

  /** The metadata and status fields stay undefined unless the request asked for them. */
  lemma ListenersOnlyWhenAsked(c: Caller, req: RequestFields, fn: Value, replies: nat -> CallResult, start: nat,
                               budgetOf: Value -> nat)
    requires ExecSpec(c, req, fn, replies, start, budgetOf).Ok?
    ensures !Truthy(req.responseMetadata) ==> ExecSpec(c, req, fn, replies, start, budgetOf).value.response.metadata == Undefined
    ensures !Truthy(req.responseStatus) ==> ExecSpec(c, req, fn, replies, start, budgetOf).value.response.status == Undefined
  {
    var o := MergeOver(c.defaultOptions, req.options);
    var md := MergedMetadata(c.defaultMetadata, req.metadata);
    if CheckMethod(c, req.methodName) == Ok(Unary) {
      var s := UnaryExecSpec(c, req, fn, replies, start, budgetOf, md, o);
      assert ExecSpec(c, req, fn, replies, start, budgetOf) == Ok(s);
    } else {
      assert ExecSpec(c, req, fn, replies, start, budgetOf) == ClientStreamExecSpec(c, req, fn, replies, start, md, o);
    }
  }

  /**
   * A `retry` among the merged options, defaults included, sends every attempt
   * through the unary wrapper's own retry, which hands back no handle. Asking
   * for response metadata or status then makes `.on` throw as soon as the
   * wrapper returns, right after its first stub call, and the call is rejected
   * with the Response still empty. The calls recorded are those of the first
   * attempt's inner retry; all but the first of them come after the rejection.
   */
  lemma RetryOptionBreaksListeners(c: Caller, req: RequestFields, fn: Value, replies: nat -> CallResult, start: nat,
                                   budgetOf: Value -> nat)
    requires CheckMethod(c, req.methodName) == Ok(Unary)
    requires c.CallerMember(req.methodName) == Some(Wrapper(Unary))
    requires "retry" in MergeOver(c.defaultOptions, req.options)
    requires Truthy(req.responseMetadata) || Truthy(req.responseStatus)
    ensures var o := MergeOver(c.defaultOptions, req.options);
      var s := ExecSpec(c, req, fn, replies, start, budgetOf);
      && s.Ok? && s.value.completion == Rejected(NotAFunction) && s.value.response == NoResponse
      && |s.value.calls| == AttemptsUsed(replies, start, budgetOf(o["retry"]))
  {
    var o := MergeOver(c.defaultOptions, req.options);
    assert InnerBudget(o, budgetOf) == budgetOf(o["retry"]);
  }

  /**
   * Without listeners, a `retry` among the merged options leaves the call
   * running, nested: every outer attempt is a whole inner retry of the
   * wrapper. The wrapper hands back no handle, so the Response resolved or
   * rejected at the end has no `call`.
   */
  lemma RetryOptionLosesHandle(c: Caller, req: RequestFields, fn: Value, replies: nat -> CallResult, start: nat,
                               budgetOf: Value -> nat, md: Value, o: map<string, Value>)
    requires c.CallerMember(req.methodName) == Some(Wrapper(Unary)) && "retry" in o
    requires !Truthy(req.responseMetadata) && !Truthy(req.responseStatus)
    ensures var s := UnaryExecSpec(c, req, fn, replies, start, budgetOf, md, o);
      var n := NestedCalls(replies, start, budgetOf(o["retry"]), budgetOf(RetrySetting(req.retry)));
      && s.response.call == Undefined && s.response.metadata == Undefined && s.response.status == Undefined
      && |s.calls| == n && s.completion == Settle(replies(start + n - 1).outcome)
  {
    assert InnerBudget(o, budgetOf) == budgetOf(o["retry"]);
  }

  /**
   * Whatever the path and the retries, a call that settles rejected leaves no
   * payload on the Response, every call that gets past the checks reaches the
   * stub at least once, and a call that resolves without a `retry` option
   * carries the live handle of its last stub call.
   */
  lemma PayloadOnlyOnSuccess(c: Caller, req: RequestFields, fn: Value, replies: nat -> CallResult, start: nat,
                             budgetOf: Value -> nat)
    requires ExecSpec(c, req, fn, replies, start, budgetOf).Ok?
    ensures var s := ExecSpec(c, req, fn, replies, start, budgetOf).value;
      && (s.completion.Rejected? ==> s.response.response == Undefined)
      && (c.CallerMember(req.methodName).Some? && c.CallerMember(req.methodName).value.Wrapper? ==> |s.calls| >= 1)
      && (s.completion.Resolved? && "retry" !in MergeOver(c.defaultOptions, req.options) ==> s.response.call.Call?)
  {
    var o := MergeOver(c.defaultOptions, req.options);
    var md := MergedMetadata(c.defaultMetadata, req.metadata);
    if CheckMethod(c, req.methodName) == Ok(Unary) {
      var s := UnaryExecSpec(c, req, fn, replies, start, budgetOf, md, o);
      assert ExecSpec(c, req, fn, replies, start, budgetOf) == Ok(s);
    } else {
      assert ExecSpec(c, req, fn, replies, start, budgetOf) == ClientStreamExecSpec(c, req, fn, replies, start, md, o);
    }
  }

  /**
   * The unary path of `exec` under retry: with `retry` set to five on the
   * request, no retry option, and a stub whose first two replies fail and
   * third succeeds, `exec` makes three calls and resolves with the third
   * reply's handle and payload; the metadata and status fields hold what the
   * three handles last emitted when asked for, and stay undefined otherwise.
   */
  lemma RequestRetryThirdAttempt(c: Caller, req: RequestFields, fn: Value, replies: nat -> CallResult, start: nat,
                                 budgetOf: Value -> nat, md: Value, o: map<string, Value>)
    requires c.CallerMember(req.methodName) == Some(Wrapper(Unary)) && "retry" !in o
    requires req.retry == Num(5) && budgetOf(Num(5)) == 5
    requires replies(start).outcome.Failed? && replies(start + 1).outcome.Failed? && replies(start + 2).outcome.Done?
    ensures var s := UnaryExecSpec(c, req, fn, replies, start, budgetOf, md, o);
      && |s.calls| == 3 && s.completion == Resolved
      && s.response == ResponseFields(Call(replies(start + 2).handle), replies(start + 2).outcome.payload,
                                      Watched(req.responseMetadata, replies, start, 3, MetadataEvent),
                                      Watched(req.responseStatus, replies, start, 3, StatusEvent))
  {
    ThirdAttemptSucceeds(replies, start);
    NestedWithSingleInnerIsFlat(replies, start, 5);
  }

  /**
   * The client-streaming path makes one call whatever the request's retry
   * setting, and the Response holds the live handle; a callback turns the
   * `{ call, res }` pair into the handle alone.
   */
  lemma ClientStreamIgnoresRetry(c: Caller, req: RequestFields, fn: Value, replies: nat -> CallResult, start: nat,
                                 budgetOf: Value -> nat, retry: Value)
    requires CheckMethod(c, req.methodName) == Ok(ClientStream)
    requires c.CallerMember(req.methodName) == Some(Wrapper(ClientStream))
    ensures ExecSpec(c, req.(retry := retry), fn, replies, start, budgetOf) == ExecSpec(c, req, fn, replies, start, budgetOf)
    ensures var s := ExecSpec(c, req, fn, replies, start, budgetOf);
      && s.Ok? && |s.value.calls| == 1 && s.value.response.call == Call(replies(start).handle)
      && s.value.returned == (if Truthy(fn) then HandleReturned(Call(replies(start).handle))
                              else DualReturned(Call(replies(start).handle)))
  {
    var md := MergedMetadata(c.defaultMetadata, req.metadata);
    var o := MergeOver(c.defaultOptions, req.options);
    assert ExecSpec(c, req, fn, replies, start, budgetOf) == ClientStreamExecSpec(c, req, fn, replies, start, md, o);
    assert ExecSpec(c, req.(retry := retry), fn, replies, start, budgetOf)
        == ClientStreamExecSpec(c, req.(retry := retry), fn, replies, start, md, o);
  }
}
