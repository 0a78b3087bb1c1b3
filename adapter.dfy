/**
 * The call adapter of lib/client.js: the four wrappers promisifyClientProto
 * installs, one per call shape. Each normalises its positional arguments,
 * merges the per-call metadata and options over the client's defaults, and
 * forwards a compacted argument list to the stub; the unary wrapper also
 * consumes a `retry` option.
 */
module Adapter {
  import opened JsValues
  import opened Merging
  import opened Shapes
  import opened Transport

  /**
   * A wrapped client, an instance of the class createClient builds: the stub
   * client's prototype (`clientProto`), the functions the stub inherits from
   * its base class (`inherited`), and the defaults fixed at construction.
   */
  datatype Caller = Caller(
    clientProto: map<string, Prop>,
    inherited: map<string, Prop>,
    defaultMetadata: map<string, Value>,
    defaultOptions: map<string, Value>)
  {
    /** `this.client[name]`: the stub's prototype first, then its base class. */
    function ClientMember(name: string): Option<Prop> {
      if name in clientProto then Some(clientProto[name])
      else if name in inherited then Some(inherited[name])
      else None
    }

    /** `this[name]`: the caller prototype createClient built for the stub's prototype. */
    function CallerMember(name: string): Option<Prop> {
      var props := CallerProps(clientProto);
      if name in props then Some(props[name]) else None
    }
  }

  /**
   * The callback an argument list designates: the first function among the
   * optional trailing slots, or else whatever the callback slot holds.
   */
  function FirstFunction(slots: seq<Value>, fn: Value): Value
    decreases |slots|
  {
    if slots == [] then fn
    else if IsFunction(slots[0]) then slots[0]
    else FirstFunction(slots[1..], fn)
  }

  /** The first function wins: a function in slot `i` with none before it is the callback. */
  lemma {:induction false} FirstFunctionIsFirst(slots: seq<Value>, fn: Value, i: nat)
    requires i < |slots| && IsFunction(slots[i])
    requires forall j :: 0 <= j < i ==> !IsFunction(slots[j])
    ensures FirstFunction(slots, fn) == slots[i]
  {
    if i > 0 {
      FirstFunctionIsFirst(slots[1..], fn, i - 1);
    }
  }

  /** The (metadata, options, callback) slots after normalisation. */
  datatype Slots = Slots(metadata: Value, options: Value, callback: Value)

  /**
   * The unary normalisation: a function in the options slot is the callback and
   * options is cleared; a function in the metadata slot is the callback and both
   * metadata and options are cleared.
   */
  function SlotsClearing(metadata: Value, options: Value, fn: Value): (r: Slots)
    ensures !IsFunction(r.metadata) && !IsFunction(r.options)
    ensures IsFunction(r.callback) || r.callback == fn
  {
    if IsFunction(metadata) then Slots(Null, Null, metadata)
    else if IsFunction(options) then Slots(metadata, Null, options)
    else Slots(metadata, options, fn)
  }

  /**
   * The client-streaming (and legacy) normalisation: as above, but a function
   * in the metadata slot leaves the options slot as it was.
   */
  function SlotsKeeping(metadata: Value, options: Value, fn: Value): (r: Slots)
    ensures !IsFunction(r.metadata) && !IsFunction(r.options)
    ensures IsFunction(r.callback) || r.callback == fn
  {
    Slots(if IsFunction(metadata) then Undefined else metadata,
          if IsFunction(options) then Undefined else options,
          if IsFunction(metadata) then metadata else if IsFunction(options) then options else fn)
  }

  /**
   * Both normalisations pick the callback by the first-function rule, and clear
   * exactly the slots the callback was found in (the unary one also clears
   * options when the callback was in the metadata slot).
   */
  lemma SlotsFollowFirstFunction(metadata: Value, options: Value, fn: Value)
    ensures SlotsClearing(metadata, options, fn).callback == FirstFunction([metadata, options], fn)
    ensures SlotsKeeping(metadata, options, fn).callback == FirstFunction([metadata, options], fn)
    ensures SlotsClearing(metadata, options, fn).metadata == if IsFunction(metadata) then Null else metadata
    ensures SlotsClearing(metadata, options, fn).options
         == if IsFunction(metadata) || IsFunction(options) then Null else options
    ensures SlotsKeeping(metadata, options, fn).metadata == if IsFunction(metadata) then Undefined else metadata
    ensures SlotsKeeping(metadata, options, fn).options == if IsFunction(options) then Undefined else options
  {
    assert [metadata, options][1..] == [options] && [options][1..] == [];
    assert FirstFunction([options], fn) == if IsFunction(options) then options else FirstFunction([], fn);
  }

  /** The parameter reassignments at the head of the unary wrapper. */
  method ShiftCallbackClearing(metadata: Value, options: Value, fn: Value) returns (md: Value, opts: Value, cb: Value)
    ensures Slots(md, opts, cb) == SlotsClearing(metadata, options, fn)
  {
    md, opts, cb := metadata, options, fn;
    if IsFunction(opts) {
      cb := opts;
      opts := Null;
    }
    if IsFunction(md) {
      cb := md;
      md := Null;
      opts := Null;
    }
    assert md == SlotsClearing(metadata, options, fn).metadata && opts == SlotsClearing(metadata, options, fn).options;
  }

  /** The parameter reassignments at the head of the client-streaming wrapper. */
  method ShiftCallbackKeeping(metadata: Value, options: Value, fn: Value) returns (md: Value, opts: Value, cb: Value)
    ensures Slots(md, opts, cb) == SlotsKeeping(metadata, options, fn)
  {
    md, opts, cb := metadata, options, fn;
    if IsFunction(opts) {
      cb := opts;
      opts := Undefined;
    }
    if IsFunction(md) {
      cb := md;
      md := Undefined;
    }
    assert md == SlotsKeeping(metadata, options, fn).metadata && opts == SlotsKeeping(metadata, options, fn).options;
  }

  /** What the unary wrapper does with its arguments. */
  datatype UnaryPlan =
    | Direct(args: seq<Value>)                                  // one promisified stub call with these arguments
    | Retrying(spec: Value, args: seq<Value>, callback: Value)  // async.retry(spec) over stub calls with these arguments

  /**
   * The unary wrapper's plan: with a retry option, four arguments ending in the
   * retry's own callback and options without `retry`; otherwise the compacted
   * list, which holds only truthy values.
   */
  function PlanUnary(c: Caller, arg: Value, metadata: Value, options: Value, fn: Value): (r: UnaryPlan)
    ensures r.Retrying? ==> |r.args| == 4 && r.args[2].Plain? && "retry" !in r.args[2].fields && r.args[3] == Continuation
    ensures r.Retrying? ==> r.callback == FirstFunction([metadata, options], fn)
    ensures r.Direct? ==> |r.args| <= 4 && forall i :: 0 <= i < |r.args| ==> Truthy(r.args[i])
  {
    SlotsFollowFirstFunction(metadata, options, fn);
    PlanFromSlots(c, arg, SlotsClearing(metadata, options, fn))
  }

  /** The plan for normalised slots. */
  function PlanFromSlots(c: Caller, arg: Value, s: Slots): UnaryPlan {
    var opts := MergeOver(c.defaultOptions, s.options);
    var md := MergedMetadata(c.defaultMetadata, s.metadata);
    if "retry" in opts then Retrying(opts["retry"], [arg, md, Plain(opts - {"retry"}), Continuation], s.callback)
    else Direct(Compact([arg, md, Plain(opts), s.callback]))
  }

  /**
   * The retry option is read from the merged options, defaults included: a
   * default `retry` sends every unary call down the retry path.
   */
  lemma UnaryRetryConsumed(c: Caller, arg: Value, metadata: Value, options: Value, fn: Value)
    ensures var o := MergeOver(c.defaultOptions, SlotsClearing(metadata, options, fn).options);
      PlanUnary(c, arg, metadata, options, fn).Retrying? <==> "retry" in o
    ensures "retry" in c.defaultOptions ==> PlanUnary(c, arg, metadata, options, fn).Retrying?
  {
  }

  /**
   * Without a retry option, a truthy argument and a callback are forwarded as
   * `[arg, metadata, options, callback]`, with the metadata and options merged.
   */
  lemma UnaryDirectArgs(c: Caller, arg: Value, metadata: Value, options: Value, fn: Value)
    requires Truthy(arg) && PlanUnary(c, arg, metadata, options, fn).Direct?
    ensures var s := SlotsClearing(metadata, options, fn);
      var md := MergedMetadata(c.defaultMetadata, s.metadata);
      var o := Plain(MergeOver(c.defaultOptions, s.options));
      PlanUnary(c, arg, metadata, options, fn).args
        == if Truthy(s.callback) then [arg, md, o, s.callback] else [arg, md, o]
  {
    var s := SlotsClearing(metadata, options, fn);
    var md := MergedMetadata(c.defaultMetadata, s.metadata);
    var o := Plain(MergeOver(c.defaultOptions, s.options));
    assert [arg, md, o, s.callback] == [arg, md, o] + [s.callback];
    CompactTruthyThen([arg, md, o], s.callback);
  }

  /**
   * A falsy argument (a request built without one, `0`, `''`) is dropped by
   * the compaction, so without a retry option the merged metadata lands in the
   * stub's first slot: `[metadata, options, callback]`.
   */
  lemma UnaryFalsyArgDropped(c: Caller, arg: Value, metadata: Value, options: Value, fn: Value)
    requires !Truthy(arg) && PlanUnary(c, arg, metadata, options, fn).Direct?
    ensures var s := SlotsClearing(metadata, options, fn);
      var md := MergedMetadata(c.defaultMetadata, s.metadata);
      var o := Plain(MergeOver(c.defaultOptions, s.options));
      PlanUnary(c, arg, metadata, options, fn).args
        == if Truthy(s.callback) then [md, o, s.callback] else [md, o]
  {
    var s := SlotsClearing(metadata, options, fn);
    var md := MergedMetadata(c.defaultMetadata, s.metadata);
    var o := Plain(MergeOver(c.defaultOptions, s.options));
    assert [arg, md, o, s.callback] == [arg] + ([md, o] + [s.callback]);
    CompactAppend([arg], [md, o] + [s.callback]);
    assert Compact([arg]) == [] + Compact([]);
    CompactTruthyThen([md, o], s.callback);
  }

  /**
   * Omitted trailing arguments: a callback given in the metadata slot, the
   * options slot or its own slot, or after empty metadata and options, makes
   * the same call.
   */
  lemma UnaryOmittedSlotsEquivalent(c: Caller, arg: Value, f: Value)
    requires IsFunction(f)
    ensures PlanUnary(c, arg, f, Undefined, Undefined) == PlanUnary(c, arg, Undefined, Undefined, f)
    ensures PlanUnary(c, arg, Undefined, f, Undefined) == PlanUnary(c, arg, Undefined, Undefined, f)
    ensures PlanUnary(c, arg, Plain(map[]), Plain(map[]), f) == PlanUnary(c, arg, Undefined, Undefined, f)
  {
    var u := Slots(Undefined, Undefined, f);
    assert SlotsClearing(f, Undefined, Undefined) == Slots(Null, Null, f);
    assert SlotsClearing(Undefined, f, Undefined) == Slots(Undefined, Null, f);
    assert SlotsClearing(Plain(map[]), Plain(map[]), f) == Slots(Plain(map[]), Plain(map[]), f);
    assert SlotsClearing(Undefined, Undefined, f) == u;
    PlanIgnoresEmptySlots(c, arg, Slots(Null, Null, f), u);
    PlanIgnoresEmptySlots(c, arg, Slots(Undefined, Null, f), u);
    PlanIgnoresEmptySlots(c, arg, Slots(Plain(map[]), Plain(map[]), f), u);
  }

  /** Slots that contribute the same fields, and no metadata object, give the same plan. */
  lemma PlanIgnoresEmptySlots(c: Caller, arg: Value, s: Slots, t: Slots)
    requires !s.metadata.Meta? && !t.metadata.Meta?
    requires OwnFields(s.metadata) == OwnFields(t.metadata) && OwnFields(s.options) == OwnFields(t.options)
    requires s.callback == t.callback
    ensures PlanFromSlots(c, arg, s) == PlanFromSlots(c, arg, t)
  {
    assert MergedMetadata(c.defaultMetadata, s.metadata) == MergedMetadata(c.defaultMetadata, t.metadata);
  }

  /**
   * `exec` calls the unary wrapper with metadata and options it has already
   * merged and a retry callback; the wrapper merges them again without effect,
   * so the stub receives exactly what `exec` merged.
   */
  lemma UnaryReMergeIsNoop(c: Caller, arg: Value, metadata: Value, options: Value)
    ensures var md := MergedMetadata(c.defaultMetadata, metadata);
      var o := MergeOver(c.defaultOptions, options);
      PlanUnary(c, arg, md, Plain(o), Continuation)
        == if "retry" in o then Retrying(o["retry"], [arg, md, Plain(o - {"retry"}), Continuation], Continuation)
           else Direct(Compact([arg, md, Plain(o), Continuation]))
  {
    MergedMetadataIdempotent(c.defaultMetadata, metadata);
    MergeOverIdempotent(c.defaultOptions, options);
  }

  /**
   * The unary wrapper. Without a retry option it forwards the compacted
   * `[arg, metadata, options, callback]` through promisify-call. With one, it
   * runs async.retry with the option's value, calling the stub with
   * `[arg, metadata, options without retry, retry callback]` on every attempt;
   * the completion goes to the callback when there is one and nothing is
   * returned, otherwise a promise is.
   */
  method UnaryCall(c: Caller, ch: Channel, name: string, arg: Value, metadata: Value, options: Value, fn: Value,
               budgetOf: Value -> nat)
    returns (ret: Returned, outcome: Outcome)
    modifies ch
    ensures match PlanUnary(c, arg, metadata, options, fn)
      case Direct(args) =>
        && ch.log == old(ch.log) + [Invocation(name, PromisifiedArgs(args))]
        && outcome == ch.replies(|old(ch.log)|).outcome
        && ret == if HasCallback(args) then HandleReturned(Call(ch.replies(|old(ch.log)|).handle)) else PromiseReturned
      case Retrying(spec, args, cb) =>
        var n := AttemptsUsed(ch.replies, |old(ch.log)|, budgetOf(spec));
        && ch.log == old(ch.log) + Repeat(Invocation(name, args), n)
        && outcome == ch.replies(|old(ch.log)| + n - 1).outcome
        && ret == if IsFunction(cb) then NothingReturned else PromiseReturned
  {
    var md, opts, cb := ShiftCallbackClearing(metadata, options, fn);
    var mergedOpts := MergeOver(c.defaultOptions, opts);
    var mergedMd := CreateMetadata(c.defaultMetadata, md);
    ghost var start := |ch.log|;
    if "retry" in mergedOpts {
      var inv := Invocation(name, [arg, mergedMd, Plain(mergedOpts - {"retry"}), Continuation]);
      var n;
      outcome, n := Retry(ch, inv, budgetOf(mergedOpts["retry"]));
      ret := if IsFunction(cb) then NothingReturned else PromiseReturned;
      assert PlanUnary(c, arg, metadata, options, fn) == Retrying(mergedOpts["retry"], inv.args, cb);
    } else {
      var args := Compact([arg, mergedMd, Plain(mergedOpts), cb]);
      ret, outcome := PromisifyCall(ch, name, args);
      assert PlanUnary(c, arg, metadata, options, fn) == Direct(args);
    }
  }

  /**
   * The server-streaming wrapper: merges metadata and options (a retry option
   * included, unread) and forwards the compacted `[arg, metadata, options]`,
   * returning the live call handle.
   */
  method ServerStreamCall(c: Caller, ch: Channel, name: string, arg: Value, metadata: Value, options: Value)
    returns (ret: Returned)
    modifies ch
    ensures ch.log == old(ch.log) + [Invocation(name, Compact([arg, MergedMetadata(c.defaultMetadata, metadata),
                                                               Plain(MergeOver(c.defaultOptions, options))]))]
    ensures ret == HandleReturned(Call(ch.replies(|old(ch.log)|).handle))
  {
    var opts := MergeOver(c.defaultOptions, options);
    var md := CreateMetadata(c.defaultMetadata, metadata);
    var r := ch.Invoke(Invocation(name, Compact([arg, md, Plain(opts)])));
    ret := HandleReturned(Call(r.handle));
  }

  /**
   * The client-streaming wrapper. With a callback it forwards the compacted
   * `[metadata, options, callback]` and returns the live handle; without one it
   * appends its own callback and returns `{ call, res }`. A retry option is
   * forwarded unread.
   */
  method ClientStreamCall(c: Caller, ch: Channel, name: string, metadata: Value, options: Value, fn: Value)
    returns (ret: Returned, outcome: Outcome)
    modifies ch
    ensures var s := SlotsKeeping(metadata, options, fn);
      var args := Compact([MergedMetadata(c.defaultMetadata, s.metadata), Plain(MergeOver(c.defaultOptions, s.options)), s.callback]);
      var h := Call(ch.replies(|old(ch.log)|).handle);
      if Truthy(s.callback) then ch.log == old(ch.log) + [Invocation(name, args)] && ret == HandleReturned(h)
      else ch.log == old(ch.log) + [Invocation(name, args + [Continuation])] && ret == DualReturned(h)
    ensures outcome == ch.replies(|old(ch.log)|).outcome
  {
    var md, opts, cb := ShiftCallbackKeeping(metadata, options, fn);
    var mergedOpts := MergeOver(c.defaultOptions, opts);
    var mergedMd := CreateMetadata(c.defaultMetadata, md);
    var args := Compact([mergedMd, Plain(mergedOpts), cb]);
    if Truthy(cb) {
      var r := ch.Invoke(Invocation(name, args));
      ret, outcome := HandleReturned(Call(r.handle)), r.outcome;
    } else {
      var r := ch.Invoke(Invocation(name, args + [Continuation]));
      ret, outcome := DualReturned(Call(r.handle)), r.outcome;
    }
  }

  /**
   * The bidirectional wrapper: merges metadata and options and forwards the
   * compacted `[metadata, options]`, returning the live call handle.
   */
  method BidiCall(c: Caller, ch: Channel, name: string, metadata: Value, options: Value) returns (ret: Returned)
    modifies ch
    ensures ch.log == old(ch.log) + [Invocation(name, Compact([MergedMetadata(c.defaultMetadata, metadata),
                                                               Plain(MergeOver(c.defaultOptions, options))]))]
    ensures ret == HandleReturned(Call(ch.replies(|old(ch.log)|).handle))
  {
    var opts := MergeOver(c.defaultOptions, options);
    var md := CreateMetadata(c.defaultMetadata, metadata);
    var r := ch.Invoke(Invocation(name, Compact([md, Plain(opts)])));
    ret := HandleReturned(Call(r.handle));
  }

  /**
   * The streaming wrappers forward the merged options whole: with metadata and
   * options both objects, the list is exactly `[metadata, options]`, so a retry
   * option reaches the stub untouched.
   */
  lemma StreamingForwardsOptionsWhole(c: Caller, metadata: Value, options: Value)
    ensures var o := MergeOver(c.defaultOptions, options);
      Compact([MergedMetadata(c.defaultMetadata, metadata), Plain(o)]) == [MergedMetadata(c.defaultMetadata, metadata), Plain(o)]
  {
    CompactAllTruthy([MergedMetadata(c.defaultMetadata, metadata), Plain(MergeOver(c.defaultOptions, options))]);
  }
}
