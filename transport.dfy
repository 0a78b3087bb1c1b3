/**
 * The transport the layer wraps, reduced to what the layer observes, and the
 * bounded retry of a single-completion call.
 *
 * A stub method call is an `Invocation` recorded on a `Channel`; the reply to
 * the i-th invocation on the channel is fixed in advance by `replies(i)`: the
 * live call handle it returns and the outcome its completion callback
 * receives. The callback-or-promise plumbing of promisify-call and the attempt
 * loop of async.retry are modelled here on top of that.
 */
module Transport {
  import opened JsValues

  /**
   * A completion as the source reads it: every `if (err)` of the wrappers and
   * of `exec`, and async.retry's `err && ...`, tell a failure by a truthy
   * `err`. `Failed` carries that truthy error; anything else is `Done`.
   */
  datatype Outcome = Done(payload: Value) | Failed(error: Value)

  /** How a callback's `(err, res)` is read: failed exactly when `err` is truthy. */
  function CallbackOutcome(err: Value, res: Value): (o: Outcome)
    ensures o.Failed? <==> Truthy(err)
    ensures o.Failed? ==> Truthy(o.error) && o.error == err
    ensures o.Done? ==> o.payload == res
  {
    if Truthy(err) then Failed(err) else Done(res)
  }

  /** The reply to one stub call: its live handle and its completion. */
  datatype CallResult = CallResult(handle: CallHandle, outcome: Outcome)

  /** One call of stub method `stub` with positional arguments `args`. */
  datatype Invocation = Invocation(stub: string, args: seq<Value>)

  /** The `res` a completion callback receives: the payload, or nothing after an error. */
  function PayloadOf(o: Outcome): Value {
    if o.Done? then o.payload else Undefined
  }

  /** The events a live call handle can emit to listeners. */
  datatype Event = MetadataEvent | StatusEvent

  function Emitted(h: CallHandle, e: Event): Option<Value> {
    if e == MetadataEvent then h.header else h.status
  }

  /** The transport: an append-only log of stub calls and the replies they get. */
  class Channel {
    var log: seq<Invocation>
    const replies: nat -> CallResult

    constructor (replies: nat -> CallResult)
      ensures log == [] && this.replies == replies
    {
      log := [];
      this.replies := replies;
    }

    /** `v.call(client, ...args)`: records the call and returns its reply. */
    method Invoke(inv: Invocation) returns (r: CallResult)
      modifies this
      ensures log == old(log) + [inv]
      ensures r == replies(|old(log)|)
    {
      r := replies(|log|);
      log := log + [inv];
    }
  }

  /** What a wrapper hands back synchronously. */
  datatype Returned =
    | NothingReturned            // undefined; the completion goes to the caller's callback
    | PromiseReturned            // a promise settled by the completion
    | HandleReturned(call: Value)  // the live call handle
    | DualReturned(call: Value)    // `{ call, res }`: the live handle and a promise of the completion

  /** promisify-call: a trailing function is the callback; otherwise one is appended and a promise returned. */
  predicate HasCallback(args: seq<Value>) {
    |args| > 0 && IsFunction(args[|args| - 1])
  }

  function PromisifiedArgs(args: seq<Value>): (r: seq<Value>)
    ensures HasCallback(r)
    ensures |r| >= |args| && r[..|args|] == args
  {
    if HasCallback(args) then args else args + [Continuation]
  }

  /**
   * `pc(client, v, ...args)`: forwards the arguments (plus its own callback when
   * the caller gave none) and returns the handle when the caller's callback was
   * passed, a promise of the completion otherwise.
   */
  method PromisifyCall(ch: Channel, name: string, args: seq<Value>) returns (ret: Returned, outcome: Outcome)
    modifies ch
    ensures ch.log == old(ch.log) + [Invocation(name, PromisifiedArgs(args))]
    ensures outcome == ch.replies(|old(ch.log)|).outcome
    ensures ret == if HasCallback(args) then HandleReturned(Call(ch.replies(|old(ch.log)|).handle)) else PromiseReturned
  {
    var r := ch.Invoke(Invocation(name, PromisifiedArgs(args)));
    outcome := r.outcome;
    if HasCallback(args) {
      ret := HandleReturned(Call(r.handle));
    } else {
      ret := PromiseReturned;
    }
  }

  function Max1(budget: nat): nat {
    if budget == 0 then 1 else budget
  }

  /**
   * How many attempts a retry with budget `budget` makes when the first one is
   * the channel's `start`-th call: it stops at the first success or when the
   * budget is spent, and always makes at least one attempt.
   */
  function AttemptsUsed(replies: nat -> CallResult, start: nat, budget: nat): (n: nat)
    ensures 1 <= n <= Max1(budget)
    decreases budget
  {
    if budget <= 1 || replies(start).outcome.Done? then 1
    else 1 + AttemptsUsed(replies, start + 1, budget - 1)
  }

  /**
   * A first reply whose callback got a falsy `err` ends the retry at once,
   * whatever the budget: the attempt counts as a success.
   */
  lemma FalsyErrorStopsRetry(replies: nat -> CallResult, start: nat, budget: nat, err: Value, res: Value)
    requires !Truthy(err) && replies(start).outcome == CallbackOutcome(err, res)
    ensures AttemptsUsed(replies, start, budget) == 1
    ensures PayloadOf(replies(start).outcome) == res
  {
  }

  /** Every attempt before the last failed, and the last succeeded unless the budget ran out. */
  lemma {:induction false} AttemptsUsedStops(replies: nat -> CallResult, start: nat, budget: nat)
    ensures var n := AttemptsUsed(replies, start, budget);
      && (forall i :: start <= i < start + n - 1 ==> replies(i).outcome.Failed?)
      && (replies(start + n - 1).outcome.Done? || n == Max1(budget))
    decreases budget
  {
    if !(budget <= 1 || replies(start).outcome.Done?) {
      AttemptsUsedStops(replies, start + 1, budget - 1);
    }
  }

  /**
   * The three properties of AttemptsUsed determine it: any count that stops at
   * the first success, or spends the whole budget on failures, is that count.
   */
  lemma {:induction false} AttemptsUsedUnique(replies: nat -> CallResult, start: nat, budget: nat, n: nat)
    requires 1 <= n <= Max1(budget)
    requires forall i :: start <= i < start + n - 1 ==> replies(i).outcome.Failed?
    requires replies(start + n - 1).outcome.Done? || n == Max1(budget)
    ensures n == AttemptsUsed(replies, start, budget)
  {
    var m := AttemptsUsed(replies, start, budget);
    AttemptsUsedStops(replies, start, budget);
    var lastN: nat, lastM: nat := start + n - 1, start + m - 1;
    assert n < m ==> replies(lastN).outcome.Failed?;
    assert m < n ==> replies(lastM).outcome.Failed?;
  }

  /**
   * A retry whose first two attempts fail and whose third succeeds, under a
   * budget of five, makes exactly three attempts and settles with the third
   * attempt's reply.
   */
  lemma ThirdAttemptSucceeds(replies: nat -> CallResult, start: nat)
    requires replies(start).outcome.Failed? && replies(start + 1).outcome.Failed?
    requires replies(start + 2).outcome.Done?
    ensures AttemptsUsed(replies, start, 5) == 3
  {
    AttemptsUsedUnique(replies, start, 5, 3);
  }

  /** `n` copies of an invocation. */
  function Repeat(inv: Invocation, n: nat): (r: seq<Invocation>)
    ensures |r| == n
  {
    if n == 0 then [] else Repeat(inv, n - 1) + [inv]
  }

  /** Runs of the same invocation concatenate. */
  lemma {:induction false} RepeatAdd(inv: Invocation, a: nat, b: nat)
    ensures Repeat(inv, a) + Repeat(inv, b) == Repeat(inv, a + b)
    decreases b
  {
    if b == 0 {
      assert Repeat(inv, a) + [] == Repeat(inv, a);
    } else {
      RepeatAdd(inv, a, b - 1);
      assert Repeat(inv, a) + (Repeat(inv, b - 1) + [inv]) == (Repeat(inv, a) + Repeat(inv, b - 1)) + [inv];
    }
  }

  /** A log that grew by `a` copies and then `b` more grew by `a + b`. */
  lemma RepeatExtend(log: seq<Invocation>, inv: Invocation, a: nat, b: nat)
    ensures (log + Repeat(inv, a)) + Repeat(inv, b) == log + Repeat(inv, a + b)
  {
    RepeatAdd(inv, a, b);
    assert (log + Repeat(inv, a)) + Repeat(inv, b) == log + (Repeat(inv, a) + Repeat(inv, b));
  }

  /**
   * async.retry with the same task each time: calls the stub with the same
   * arguments until one attempt succeeds or the budget is spent, and settles
   * with the last attempt's outcome.
   */
  method Retry(ch: Channel, inv: Invocation, budget: nat) returns (outcome: Outcome, n: nat)
    modifies ch
    ensures n == AttemptsUsed(ch.replies, |old(ch.log)|, budget)
    ensures ch.log == old(ch.log) + Repeat(inv, n)
    ensures outcome == ch.replies(|old(ch.log)| + n - 1).outcome
  {
    ghost var start := |ch.log|;
    n := 0;
    outcome := Failed(Undefined);
    while n == 0 || (outcome.Failed? && n < budget)
      invariant 0 <= n <= Max1(budget)
      invariant ch.log == old(ch.log) + Repeat(inv, n)
      invariant n > 0 ==> outcome == ch.replies(start + n - 1).outcome
      invariant forall i :: start <= i < start + n - 1 ==> ch.replies(i).outcome.Failed?
      decreases Max1(budget) - n
    {
      var r := ch.Invoke(inv);
      outcome := r.outcome;
      n := n + 1;
    }
    AttemptsUsedUnique(ch.replies, start, budget, n);
  }

  /**
   * The value the last listener for event `e` wrote across attempts
   * `start .. start + n - 1`: the latest attempt that emitted the event wins;
   * undefined when none did.
   */
  function LastEmitted(replies: nat -> CallResult, start: nat, n: nat, e: Event): (v: Value)
    ensures v == Undefined || exists i :: start <= i < start + n && Emitted(replies(i).handle, e) == Some(v)
    decreases n
  {
    if n == 0 then Undefined
    else match Emitted(replies(start + n - 1).handle, e)
      case Some(v) => v
      case None => LastEmitted(replies, start, n - 1, e)
  }
}
