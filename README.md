# grpc-caller, modelled in Dafny

grpc-caller wraps a generated gRPC stub client so that its methods can be
called with promises or callbacks. The wrapper has four parts, and this
project models each of them:

- **The caller class** (`lib/client.js`). `createClient` builds a class whose
  prototype holds one wrapper per stub method. The wrapper is chosen from the
  method's `requestStream`/`responseStream` flags.
- **What each wrapper does with its arguments.**
  - It moves a trailing callback out of the metadata or options slot.
  - It merges the per-call metadata and options over the defaults the caller
    was constructed with. Metadata follows two different rules: a pre-built
    metadata object only gains the default keys it lacks, and a plain object is
    merged with its own values winning.
  - It forwards a compacted argument list to the stub.
  - The unary wrapper also takes a `retry` option through async.retry.
- **The Request API.**
  - A `Request` (`lib/request.js`) collects a method name, an argument,
    metadata, options, a retry setting and two listener flags.
  - The caller's `exec` checks the method.
  - For a unary method, `exec` runs the unary wrapper under async.retry and
    fills one `Response` (`lib/response.js`) across the attempts.
  - For a client-streaming method, `exec` runs the client-streaming wrapper
    once.
- **The older adapter of the root `index.js`.** Its `caller` does three things:
  - it finds the client constructor, loaded from a definition or given directly;
  - it rewrites that constructor's prototype in place;
  - it uses wrappers that coerce plain metadata but merge no defaults and know
    no retry.

Modules:

- `JsValues`: JavaScript values, truthiness and `_.compact`.
- `Merging`: `createOptions` and `createMetadata`.
- `Shapes`: the classifier, and the prototypes built or rewritten in place.
- `Transport`: a channel that logs stub calls and returns replies fixed in
  advance. It also holds promisify-call and async.retry.
- `Adapter`: the four wrappers.
- `Responses`: the Response object.
- `Exec`: the `exec` method, proved against the value-level `ExecSpec`.
- `ExecFacts`: what `exec` promises, stated over `ExecSpec`.
- `Requests`: the Request object.
- `Legacy`: the root `index.js`.

How things are represented:

- The stub's replies are a function from the channel's call count to a handle
  and an outcome.
- How async.retry reads a retry setting as a number of attempts is a parameter,
  `budgetOf`.
- Loading a definition is a parameter too, `load`.

## Model

| member | source | states |
|---|---|---|
| `JsValues.Compact` | lib/client.js:86 | the compacted list is never longer than the input and holds only truthy values |
| `JsValues.CompactKeepsExactlyTruthy` | lib/client.js:86 | a value is in the compacted list exactly when it is in the input and truthy |
| `JsValues.CompactAppend` | lib/client.js:86 | compaction distributes over concatenation, so entries keep their order |
| `JsValues.CompactAllTruthy` | lib/client.js:96 | a list of truthy values is forwarded unchanged |
| `JsValues.CompactTruthyThen` | lib/client.js:86 | after truthy entries, a trailing callback slot is kept exactly when it is truthy |
| `Merging.MergeOver` | lib/client.js:17-19 | merged options hold the keys of both sides; the per-call value wins on every key it has, and the defaults fill in the rest |
| `Merging.MergeOverIdempotent` | lib/client.js:17-19 | merging the defaults over already merged options changes nothing |
| `Merging.Create` | lib/client.js:33 | coercing a plain mapping gives a metadata object with the same keys, each holding its one value |
| `Merging.FillMissing` | lib/client.js:22-31 | a pre-built metadata object keeps every key that holds a value; a default key is set to its default exactly where the object holds none |
| `Merging.IsGRPCMetadata` | lib/client.js:243-252 | only a metadata object passes the capability check; a plain object, a function or a falsy value never does, and is merged as a plain mapping instead |
| `Merging.MergedMetadata` | lib/client.js:21-34 | createMetadata always yields a metadata object |
| `Merging.CreateMetadata` | lib/client.js:21-34 | the key-by-key fill loop over the clone computes MergedMetadata |
| `Merging.MergedMetadataCoversDefaults` | lib/client.js:21-34 | after either branch, every default key holds at least one value |
| `Merging.FillMissingNoop` | lib/client.js:24-29 | filling an object that already has every default key changes nothing |
| `Merging.MergedMetadataIdempotent` | lib/client.js:21-34 | re-merging merged metadata changes nothing, so a second merge by the wrapper that `exec` calls has no effect |
| `Merging.PlainOverrideExample` | test/defaults.test.js:62-72 | a plain `{foo: 'bar2000'}` over defaults `{foo, ping}` gives `foo = bar2000`, `ping = pong` |
| `Merging.PrebuiltKeepsExplicitKeys` | lib/client.js:22-31 | for any pre-built object and any defaults, a key the object holds a value for, even the empty string, keeps its own values, and the result has exactly the object's keys and the default keys |
| `Merging.PrebuiltGainsMissingKeys` | test/defaults.test.js:74-87 | a pre-built object holding only `ping` gains the default `foo` and keeps its `ping` |
| `Shapes.ShapeOf` | lib/client.js:51-138 | the four branches select a shape whose stream flags are exactly the method's flags |
| `Shapes.ShapeOfInjective` | lib/client.js:51-138 | different shapes come from different flag pairs |
| `Shapes.Classify` | lib/client.js:45-51 | exactly the function-valued properties other than `constructor` are wrapped, each by the shape its flags select |
| `Shapes.Installed` | lib/client.js:52-137 | one wrapper of the classified shape is installed per classified name |
| `Shapes.PromisifyClientProto` | lib/client.js:43-141 | the loop leaves the target prototype as before, plus one wrapper per classified method; the client prototype is only read |
| `Shapes.CallerProps` | lib/client.js:10-41 | whatever the stub defines, the caller prototype has the class's own keys, and `exec` as the class defines it |
| `Shapes.CreateClient` | lib/client.js:10-41 | the new caller prototype holds the class's own functions, the wrappers over them, then `exec` |
| `Shapes.CallerPropsWrapsEveryMethod` | lib/client.js:37-38 | every stub method other than `constructor` and `exec` is reachable on the caller as the wrapper its flags select |
| `Shapes.LegacyRewritten` | index.js:51-118 | the legacy rewrite is the prototype with the wrappers lib/client.js would install assigned over it: every function-valued property but `constructor`, which lodash's own-key walk skips on a prototype, is wrapped by its flags' shape; other properties and the set of keys stay |
| `Shapes.LegacyRewrite` | index.js:51-118 | the in-place loop replaces each function-valued property other than `constructor` by its wrapper and leaves the rest alone |
| `Shapes.LegacyAgreesWithClassify` | index.js:51-53 | the legacy rewrite and the classifier wrap the same properties with the same shapes; only a function-valued property other than `constructor` is changed |
| `Shapes.LegacyRewriteTwice` | index.js:51-53 | wrappers carry no flags, so rewriting a prototype twice turns every method but `constructor` into a unary wrapper |
| `Transport.Channel.Invoke` | lib/client.js:97 | a stub call is appended to the log and gets the reply fixed for its position |
| `Transport.PromisifiedArgs` | lib/client.js:88 | promisify-call forwards the arguments unchanged and ends them with a callback |
| `Transport.PromisifyCall` | lib/client.js:88 | one stub call; the handle is returned when the caller gave a callback, a promise otherwise |
| `Transport.CallbackOutcome` | lib/client.js:79-81 | a callback's `(err, res)` is a failure exactly when `err` is truthy, carrying that error; otherwise it is a success with `res` |
| `Transport.FalsyErrorStopsRetry` | lib/client.js:192-198 | a first reply with a falsy `err` ends async.retry after one attempt, whatever the budget, and its `res` is the result |
| `Transport.AttemptsUsed` | lib/client.js:176 | async.retry makes at least one attempt and at most its budget, and one attempt when the budget is 0 |
| `Transport.AttemptsUsedStops` | lib/client.js:176 | every attempt before the last failed, and the last succeeded unless the budget ran out |
| `Transport.AttemptsUsedUnique` | lib/client.js:176 | any count that stops at the first success, or spends the budget on failures, is AttemptsUsed |
| `Transport.ThirdAttemptSucceeds` | test/retry.test.js:69-83 | with a budget of five, two failures and then a success make exactly three attempts |
| `Transport.Retry` | lib/client.js:72-84 | the retry loop makes AttemptsUsed identical stub calls and settles with the last one's outcome |
| `Transport.LastEmitted` | lib/client.js:181-191 | a listener's value is undefined, or what one of the attempts' handles emitted |
| `Adapter.FirstFunctionIsFirst` | lib/client.js:53-62 | the first function among the trailing slots is the callback |
| `Adapter.SlotsFollowFirstFunction` | lib/client.js:100-108 | both normalisations pick the callback by the first-function rule; the unary one clears options as well when the callback was in the metadata slot |
| `Adapter.SlotsClearing` | lib/client.js:53-62 | after the unary wrapper's shift no function is left in the metadata or options slot, and the callback is a function found there or the one given |
| `Adapter.SlotsKeeping` | lib/client.js:101-108 | after the client-streaming wrapper's shift no function is left in the metadata or options slot, and the callback is a function found there or the one given |
| `Adapter.ShiftCallbackClearing` | lib/client.js:53-62 | the unary wrapper's reassignments yield SlotsClearing |
| `Adapter.ShiftCallbackKeeping` | lib/client.js:101-108 | the client-streaming wrapper's reassignments yield SlotsKeeping |
| `Adapter.PlanUnary` | lib/client.js:52-89 | with a retry option every attempt gets four arguments ending in the retry's own callback, with options lacking `retry`, and the caller's callback is the first function among the slots; otherwise the stub gets at most four arguments, all truthy |
| `Adapter.UnaryRetryConsumed` | lib/client.js:64-69 | the retry path is taken exactly when the merged options, defaults included, hold `retry` |
| `Adapter.UnaryDirectArgs` | lib/client.js:86-88 | without retry, a truthy argument and the callback are forwarded as `[arg, metadata, options, callback]`, the callback only when truthy |
| `Adapter.UnaryFalsyArgDropped` | lib/client.js:86-88 | without retry, a falsy argument is dropped by the compaction, so the stub gets `[metadata, options, callback]` with the metadata first, the callback only when truthy |
| `Adapter.UnaryOmittedSlotsEquivalent` | lib/client.js:53-62 | a callback in the metadata slot, in the options slot or in its own slot after empty objects makes the same call |
| `Adapter.PlanIgnoresEmptySlots` | lib/client.js:64-65 | slots contributing the same fields and no metadata object give the same call |
| `Adapter.UnaryReMergeIsNoop` | lib/client.js:165-177 | the wrapper that `exec` calls passes `exec`'s merged metadata and options to the stub unchanged |
| `Adapter.UnaryCall` | lib/client.js:52-90 | the stub calls, outcome and return value of the unary wrapper, on the direct path and on the retry path |
| `Adapter.ServerStreamCall` | lib/client.js:92-98 | one stub call with compacted `[arg, metadata, options]`; the live handle is returned |
| `Adapter.ClientStreamCall` | lib/client.js:100-129 | with a callback: one stub call, and the handle is returned; without one: the wrapper's own callback is appended and `{call, res}` is returned |
| `Adapter.BidiCall` | lib/client.js:131-137 | one stub call with compacted `[metadata, options]`; the live handle is returned |
| `Adapter.StreamingForwardsOptionsWhole` | lib/client.js:135-136 | the streaming wrappers forward merged metadata and options whole, so a retry option reaches the stub |
| `Responses.Response.constructor` | lib/response.js:5-10 | the four fields hold the constructor's arguments |
| `Exec.Settle` | lib/client.js:192-198 | the call resolves exactly when the last outcome succeeded, and otherwise rejects with its error |
| `Exec.CheckMethod` | lib/client.js:145-156 | a missing or non-function method throws `Invalid method`; a response-streaming method throws `Invalid call`; what passes is unary or client-streaming, by the method's flag |
| `Exec.RetrySetting` | lib/client.js:171-174 | a truthy retry setting reaches async.retry as it is; a falsy one becomes `0`, still falsy |
| `Exec.NestedCalls` | lib/client.js:176-177 | nested retries make at least the first inner retry's calls |
| `Exec.NestedWithSingleInnerIsFlat` | lib/client.js:176-177 | with one call per attempt, the nested count is the plain retry count |
| `Exec.CompactKeepsCallback` | lib/client.js:177 | the retry callback always survives compaction |
| `Exec.RunAttempt` | lib/client.js:176-177 | one attempt makes the wrapper's calls; the handle is undefined exactly when the merged options hold `retry` |
| `Exec.Attach` | lib/client.js:179-191 | `response.call` is written; the listeners write what the handle emitted; reading `.on` throws exactly when a listener is asked for and there is no handle |
| `Exec.UnaryExecSpec` | lib/client.js:168-200 | the closed form of the unary path: no return value with a callback and a promise without; a rejection with an empty Response when a retry option meets a listener; otherwise the nested retries' calls, settled by the last reply; its properties are the ExecFacts lemmas |
| `Exec.ClientStreamExecSpec` | lib/client.js:201-236 | a missing client-streaming wrapper throws its TypeError; otherwise exactly one stub call is made |
| `Exec.ExecSpec` | lib/client.js:144-240 | a failed method check throws its error; a result comes only from a method that passed both checks |
| `Exec.UnaryRoundsMeetSpec` | lib/client.js:168-199 | where async.retry stops, the calls, completion and Response are those of UnaryExecSpec |
| `Exec.ExecAttempt` | lib/client.js:176-191 | one attempt takes the run to the next round without changing where it stops |
| `Exec.ExecUnary` | lib/client.js:168-200 | the unary path yields UnaryExecSpec's return value, completion, Response and stub calls |
| `Exec.ClientStreamExecArgs` | lib/client.js:201-205 | `exec` makes the client-streaming wrapper send `[metadata, options, callback]` and return `{call, res}` |
| `Exec.ExecClientStream` | lib/client.js:201-236 | the client-streaming path yields ClientStreamExecSpec |
| `Exec.Exec` | lib/client.js:144-240 | `exec` throws, returns, settles, fills the Response and calls the stub as ExecSpec states |
| `ExecFacts.UnknownMethodThrows` | lib/client.js:147-149 | a name the stub lacks throws `Invalid method: <name>` |
| `ExecFacts.ResponseStreamThrows` | lib/client.js:153-156 | server-streaming and bidirectional methods throw `Invalid call: <name> cannot be called using Request API` |
| `ExecFacts.ExecThrowsOnlyOnChecks` | lib/client.js:145-240 | `exec` throws exactly when a check fails or the client-streaming wrapper is missing |
| `ExecFacts.ExecWrapperPresent` | lib/client.js:37-38 | a method of the stub's own prototype that passes the checks has the wrapper `exec` calls |
| `ExecFacts.UnaryDirectSpec` | lib/client.js:168-199 | without a retry option, the unary path makes AttemptsUsed identical calls and settles with the last reply |
| `ExecFacts.UnaryExecDirect` | lib/client.js:165-199 | the same, over the whole of `exec`: the calls carry the compacted `[param, metadata, options, callback]`, so a falsy param is dropped, and every earlier attempt failed |
| `ExecFacts.ListenersOnlyWhenAsked` | lib/client.js:181-191 | the Response's metadata and status stay undefined unless they were asked for |
| `ExecFacts.RetryOptionBreaksListeners` | lib/client.js:176-191 | a retry option combined with a listener rejects the call as soon as the wrapper returns, with the Response empty; the calls recorded are those of the first attempt's inner retry |
| `ExecFacts.RetryOptionLosesHandle` | lib/client.js:67-84 | without listeners, a retry option makes every outer attempt a whole inner retry, and the settled Response has no `call`, metadata or status |
| `ExecFacts.PayloadOnlyOnSuccess` | lib/client.js:168-236 | a rejected call leaves no payload on the Response, a call past the checks reaches the stub at least once, and one that resolves without a retry option carries a live handle |
| `ExecFacts.RequestRetryThirdAttempt` | test/retry.test.js:98-186 | with `withRetry(5)`, two failures and then a success make three calls and resolve with the third reply's handle and payload; metadata and status hold what the handles last emitted when asked for, and stay undefined otherwise |
| `ExecFacts.ClientStreamIgnoresRetry` | lib/client.js:201-236 | the client-streaming path ignores retry, makes one call, and returns the handle or `{call, res}` depending on the callback |
| `Requests.Request.constructor` | lib/request.js:10-20 | a new request holds its name and argument, null retry, and both flags false |
| `Requests.Request.WithGrpcOptions` | lib/request.js:27-30 | sets only the options and returns the same request |
| `Requests.Request.WithMetadata` | lib/request.js:38-41 | sets only the metadata and returns the same request |
| `Requests.Request.WithRetry` | lib/request.js:48-51 | sets only the retry setting and returns the same request |
| `Requests.Request.WithResponseMetadata` | lib/request.js:58-61 | sets only the metadata flag and returns the same request |
| `Requests.Request.WithResponseStatus` | lib/request.js:68-71 | sets only the status flag and returns the same request |
| `Requests.Request.Exec` | lib/request.js:81-83 | delegates to the caller's `exec` with this request; without a caller it throws; the request is not changed |
| `Requests.NewRequest` | lib/request.js:10-20 | throws `Request method name required` exactly for an empty name; otherwise returns a fresh request |
| `Requests.ChainedRequest` | lib/request.js:27-71 | chained setters each write their own field, and later ones leave earlier ones alone |
| `Legacy.CoerceMetadata` | index.js:63-65 | plain metadata becomes a metadata object holding its keys; anything else passes unchanged |
| `Legacy.LegacyUnary` | index.js:54-69 | one promisified stub call with the compacted `[arg, metadata, options, callback]`, after the callback shift and coercion, with no defaults and no retry |
| `Legacy.LegacyServerStream` | index.js:71-77 | one stub call with compacted `[arg, metadata, options]`; the handle is returned |
| `Legacy.LegacyClientStream` | index.js:79-107 | with a callback: the handle is returned; without one: the wrapper's own callback is appended and `{call, res}` is returned |
| `Legacy.LegacyBidi` | index.js:109-115 | one stub call with compacted `[metadata, options]`; the handle is returned |
| `Legacy.LegacyUnaryForwardsAll` | index.js:63-68 | full arguments are forwarded as `[arg, create(metadata), options, fn]` in order |
| `Legacy.LegacyUnaryKeepsOptions` | index.js:55-62 | a callback in the metadata slot leaves the legacy options in place, where the newer unary wrapper clears them |
| `Legacy.LegacyDispatchCovers` | index.js:52-116 | each function-valued method but `constructor` gets the legacy wrapper whose flags match its own; `constructor` is left as it is |
| `Legacy.IsDefinition` | index.js:33 | a string is always taken for a definition to load; anything else taken for one is an object |
| `Legacy.ResolveClient` | index.js:31-47 | the errors for an unloadable definition and an unknown service; a static constructor takes `name` as its options; a value that is neither throws |
| `Legacy.LegacyCaller` | index.js:31-121 | resolution as ResolveClient states; on success the prototype is rewritten in place, and on a throw it is left untouched |

## Left out

- I/O, promises and timing: the stub's replies are fixed in advance, and a
  call's events are delivered before its completion. Work that happens
  asynchronously after a rejection is not modelled.
- The internals of async.retry's options object (intervals, error filters): a
  retry setting is read as a number of attempts by the `budgetOf` parameter.
  This includes the `0` that `exec` passes when the request has no retry
  setting. The model makes at least one attempt whatever the budget.
  async.retry throws on a setting it cannot read (`undefined`, `null`, a
  boolean, a function); the model has no such case, since `budgetOf` reads
  every setting as a number.
- Transport.AttemptsUsed, Transport.Retry, Exec.Settle and Exec.NestedCalls
  tell success from failure by the reply's `Outcome`. A reply stands for the
  callback's `(err, res)` as Transport.CallbackOutcome reads it, so `Failed`
  stands for a truthy `err` only. A `Failed` reply whose error is falsy
  matches no callback: the model would retry it and reject with it, where the
  source stops and resolves.
- The grpc `Metadata` class: keys are not lower-cased and values are not
  converted to strings. A metadata object is any value recognised by its
  `getMap`, modelled as the `Meta` case.
- lodash `_.merge`: its deep merge of nested objects and arrays, and its
  skipping of `undefined` values. The merge is modelled one level deep, with
  the per-call value winning.
- Merging.MergeOver: `_.merge` copies the enumerable keys of any truthy
  source, so a string or an array passed as options or metadata contributes
  its indices (`'0'`, `'1'`, ...) and another object its own properties. The
  model copies only a plain object's fields and treats every other source as
  having none (JsValues.OwnFields).
- The glue in lib/index.js: how a `Request` subclass is bound to its caller is
  modelled as the request's `client`.
- Method names that are not strings.
- Stub methods whose names collide with `createOptions`, `createMetadata`,
  `exec` or `Object.prototype` members: CallerProps shows which definition
  ends up on the prototype, but what a call through the replaced member then
  does is not modelled.
- NaN, which is falsy in JavaScript.
- ExecFacts.RetryOptionBreaksListeners: in the source `.on` throws right after
  the first stub call, and the first attempt's inner retry carries on after
  the rejection; the model records all of that inner retry's calls. When that
  inner retry fails, the outer retry runs further attempts, each ending in an
  uncaught TypeError. Those later calls are not modelled.
- Legacy.ResolveClient: the loading and inspection of a definition (grpc.load
  and grpc-inspect) is the `load` parameter. A non-function static
  constructor, which `new` would reject, is not modelled. A thrown TypeError
  is modelled as an error value.
- Legacy.Rendered: functions, errors and metadata objects used as service
  names are all rendered as `[object Object]`.
- Legacy.LegacyCaller: the construction of the client at index.js:120 is
  modelled only by the options it receives. `None` stands for insecure
  credentials.
