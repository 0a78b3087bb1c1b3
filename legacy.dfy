/**
 * The older adapter of the root index.js: `caller` resolves a client
 * constructor (from a loaded protocol buffer definition or given directly),
 * rewrites every method of its prototype in place into one of four wrappers,
 * and constructs the client. Its wrappers merge no defaults and know no retry;
 * they only coerce plain metadata, move a trailing callback and compact the
 * argument list.
 */
module Legacy {
  import opened JsValues
  import opened Merging
  import opened Shapes
  import opened Transport
  import opened Adapter

  /**
   * The legacy metadata coercion: a plain object becomes a metadata object
   * holding its keys; anything else, a metadata object included, is passed on
   * as it is. No defaults are involved.
   */
  function CoerceMetadata(metadata: Value): (r: Value)
    ensures metadata.Plain? ==> r == Meta(Create(metadata.fields))
    ensures !metadata.Plain? ==> r == metadata
    ensures !r.Plain?
  {
    if metadata.Plain? then Meta(Create(metadata.fields)) else metadata
  }

  /** The argument list the legacy unary wrapper hands to promisify-call. */
  function LegacyUnaryArgs(arg: Value, metadata: Value, options: Value, fn: Value): seq<Value> {
    var s := SlotsKeeping(metadata, options, fn);
    Compact([arg, CoerceMetadata(s.metadata), s.options, s.callback])
  }

  /**
   * The legacy unary wrapper: the callback moves out of the options or the
   * metadata slot (leaving `undefined` there), plain metadata is coerced, and
   * the compacted list goes through promisify-call.
   */
  method LegacyUnary(ch: Channel, name: string, arg: Value, metadata: Value, options: Value, fn: Value)
    returns (ret: Returned, outcome: Outcome)
    modifies ch
    ensures ch.log == old(ch.log) + [Invocation(name, PromisifiedArgs(LegacyUnaryArgs(arg, metadata, options, fn)))]
    ensures outcome == ch.replies(|old(ch.log)|).outcome
    ensures ret == if HasCallback(LegacyUnaryArgs(arg, metadata, options, fn))
                   then HandleReturned(Call(ch.replies(|old(ch.log)|).handle)) else PromiseReturned
  {
    var md, opts, cb := ShiftCallbackKeeping(metadata, options, fn);
    if md.Plain? {
      md := Meta(Create(md.fields));
    }
    var args := Compact([arg, md, opts, cb]);
    ret, outcome := PromisifyCall(ch, name, args);
  }

  /** The legacy server-streaming wrapper: coerced metadata, compacted `[arg, metadata, options]`, the live handle back. */
  method LegacyServerStream(ch: Channel, name: string, arg: Value, metadata: Value, options: Value)
    returns (ret: Returned)
    modifies ch
    ensures ch.log == old(ch.log) + [Invocation(name, Compact([arg, CoerceMetadata(metadata), options]))]
    ensures ret == HandleReturned(Call(ch.replies(|old(ch.log)|).handle))
  {
    var md := metadata;
    if md.Plain? {
      md := Meta(Create(md.fields));
    }
    var r := ch.Invoke(Invocation(name, Compact([arg, md, options])));
    ret := HandleReturned(Call(r.handle));
  }

  /** The argument list the legacy client-streaming wrapper forwards before any callback of its own. */
  function LegacyClientStreamArgs(metadata: Value, options: Value, fn: Value): seq<Value> {
    var s := SlotsKeeping(metadata, options, fn);
    Compact([CoerceMetadata(s.metadata), s.options, s.callback])
  }

  /**
   * The legacy client-streaming wrapper: with a callback it forwards the
   * compacted list and returns the live handle; without one it appends its
   * own callback and returns `{ call, res }`.
   */
  method LegacyClientStream(ch: Channel, name: string, metadata: Value, options: Value, fn: Value)
    returns (ret: Returned, outcome: Outcome)
    modifies ch
    ensures var args := LegacyClientStreamArgs(metadata, options, fn);
      var h := Call(ch.replies(|old(ch.log)|).handle);
      if Truthy(SlotsKeeping(metadata, options, fn).callback)
      then ch.log == old(ch.log) + [Invocation(name, args)] && ret == HandleReturned(h)
      else ch.log == old(ch.log) + [Invocation(name, args + [Continuation])] && ret == DualReturned(h)
    ensures outcome == ch.replies(|old(ch.log)|).outcome
  {
    var md, opts, cb := ShiftCallbackKeeping(metadata, options, fn);
    if md.Plain? {
      md := Meta(Create(md.fields));
    }
    var args := Compact([md, opts, cb]);
    if Truthy(cb) {
      var r := ch.Invoke(Invocation(name, args));
      ret, outcome := HandleReturned(Call(r.handle)), r.outcome;
    } else {
      var r := ch.Invoke(Invocation(name, args + [Continuation]));
      ret, outcome := DualReturned(Call(r.handle)), r.outcome;
    }
  }

  /** The legacy bidirectional wrapper: coerced metadata, compacted `[metadata, options]`, the live handle back. */
  method LegacyBidi(ch: Channel, name: string, metadata: Value, options: Value) returns (ret: Returned)
    modifies ch
    ensures ch.log == old(ch.log) + [Invocation(name, Compact([CoerceMetadata(metadata), options]))]
    ensures ret == HandleReturned(Call(ch.replies(|old(ch.log)|).handle))
  {
    var md := metadata;
    if md.Plain? {
      md := Meta(Create(md.fields));
    }
    var r := ch.Invoke(Invocation(name, Compact([md, options])));
    ret := HandleReturned(Call(r.handle));
  }

  /**
   * With a truthy argument, plain metadata, truthy options and a function in
   * the callback slot, the legacy unary wrapper forwards all four, in order,
   * with the metadata coerced, and hands back the live handle.
   */
  lemma LegacyUnaryForwardsAll(arg: Value, fields: map<string, Value>, options: Value, fn: Value)
    requires Truthy(arg) && Truthy(options) && !IsFunction(options) && IsFunction(fn)
    ensures LegacyUnaryArgs(arg, Plain(fields), options, fn) == [arg, Meta(Create(fields)), options, fn]
    ensures HasCallback(LegacyUnaryArgs(arg, Plain(fields), options, fn))
  {
    var md := Meta(Create(fields));
    assert SlotsKeeping(Plain(fields), options, fn) == Slots(Plain(fields), options, fn);
    assert [arg, md, options, fn] == [arg, md, options] + [fn];
    CompactTruthyThen([arg, md, options], fn);
  }

  /**
   * A callback in the metadata slot leaves the options slot as it was: the
   * legacy wrapper forwards `[arg, options, callback]`, where the unary
   * wrapper of lib/client.js would have cleared the options.
   */
  lemma LegacyUnaryKeepsOptions(arg: Value, options: Value, f: Value)
    requires Truthy(arg) && Truthy(options) && !IsFunction(options) && IsFunction(f)
    ensures LegacyUnaryArgs(arg, f, options, Undefined) == [arg, options, f]
    ensures SlotsClearing(f, options, Undefined).options == Null
  {
    assert SlotsKeeping(f, options, Undefined) == Slots(Undefined, options, f);
    assert [arg, Undefined, options, f] == [arg] + [Undefined] + [options, f];
    CompactAppend([arg] + [Undefined], [options, f]);
    CompactAppend([arg], [Undefined]);
    CompactAllTruthy([arg]);
    CompactAllTruthy([options, f]);
  }

  /**
   * The four legacy wrappers cover every method: each flag pair selects one,
   * and a given method other than `constructor` is rewritten into exactly the
   * wrapper its flags select.
   */
  lemma LegacyDispatchCovers(props: map<string, Prop>, k: string)
    requires k in props && props[k].IsFunction()
    ensures k == "constructor" ==> LegacyRewritten(props)[k] == props[k]
    ensures k != "constructor" ==>
      LegacyRewritten(props)[k] == Wrapper(ShapeOf(props[k].RequestFlag(), props[k].ResponseFlag()))
    ensures k != "constructor" ==> LegacyRewritten(props)[k].shape.ResponseStream() == props[k].ResponseFlag()
    ensures k != "constructor" ==> LegacyRewritten(props)[k].shape.RequestStream() == props[k].RequestFlag()
  {
  }

  /** How the legacy `caller` is told where its client constructor comes from. */
  predicate IsObject(v: Value) {
    !(v.Undefined? || v.Null? || v.Bool? || v.Num? || v.Str?)
  }

  /** A definition to load: a path, or an object with truthy `root` and `file`. */
  predicate IsDefinition(proto: Value): (b: bool)
    ensures proto.Str? ==> b
    ensures b ==> proto.Str? || IsObject(proto)
  {
    proto.Str? || (proto.Plain? && "root" in proto.fields && "file" in proto.fields
                   && Truthy(proto.fields["root"]) && Truthy(proto.fields["file"]))
  }

  /** What `caller` constructs: the client constructor, and its options (None: insecure credentials). */
  datatype Construction = Construction(ctor: Value, options: Option<Value>)

  /** The decimal digits of a natural number. */
  function Digits(n: nat): (s: string)
    ensures |s| > 0
    decreases n
  {
    var d := "0123456789"[n % 10];
    if n < 10 then [d] else Digits(n / 10) + [d]
  }

  /**
   * A name as a template literal renders it: strings as they are, the
   * primitives by their JavaScript spelling, and a plain object as
   * `[object Object]`.
   */
  function Rendered(name: Value): string {
    match name
    case Str(s) => s
    case Undefined => "undefined"
    case Null => "null"
    case Bool(b) => if b then "true" else "false"
    case Num(n) => if n < 0 then "-" + Digits(-n) else Digits(n)
    case _ => "[object Object]"
  }

  /**
   * The first half of `caller`. A definition is loaded (`load` stands for
   * loading it and inspecting the result: None when nothing usable came back,
   * otherwise the service constructors by name) and the named service's
   * constructor is taken; any other object is itself the constructor, and the
   * `name` argument is then the options. Anything else leaves no constructor,
   * and reading its prototype throws. Falsy options select insecure
   * credentials.
   */
  function ResolveClient(proto: Value, name: Value, options: Value, load: Value -> Option<map<string, Value>>)
    : (r: Result<Construction>)
    ensures IsDefinition(proto) && load(proto).None? ==> r == Thrown(Error("Error parsing protocol buffer"))
    ensures IsDefinition(proto) && load(proto).Some? && !(name.Str? && name.s in load(proto).value) ==>
      r == Thrown(Error("Service name " + Rendered(name) + " not found in protocol buffer definition"))
    ensures IsDefinition(proto) && load(proto).Some? && name.Str? && name.s in load(proto).value
            && Truthy(load(proto).value[name.s]) ==>
      r == Ok(Construction(load(proto).value[name.s], if Truthy(options) then Some(options) else None))
    ensures !IsDefinition(proto) && IsObject(proto) ==>
      r == Ok(Construction(proto, if Truthy(name) then Some(name) else None))
    ensures !IsDefinition(proto) && !IsObject(proto) ==> r.Thrown?
  {
    if IsDefinition(proto) then
      match load(proto)
      case None => Thrown(Error("Error parsing protocol buffer"))
      case Some(services) =>
        if name.Str? && name.s in services && Truthy(services[name.s]) then
          Ok(Construction(services[name.s], if Truthy(options) then Some(options) else None))
        else Thrown(Error("Service name " + Rendered(name) + " not found in protocol buffer definition"))
    else if IsObject(proto) then Ok(Construction(proto, if Truthy(name) then Some(name) else None))
    else Thrown(Error("TypeError"))
  }

  /**
   * `caller(host, proto, name, options)`: resolves the constructor, rewrites
   * every method of its prototype in place, and constructs the client with the
   * resolved options. `prototype` is the prototype object of the constructor
   * that resolution finds; when resolution throws it is left alone.
   */
  method LegacyCaller(proto: Value, name: Value, options: Value, load: Value -> Option<map<string, Value>>,
                      prototype: Prototype)
    returns (r: Result<Construction>)
    modifies prototype
    ensures r == ResolveClient(proto, name, options, load)
    ensures r.Ok? ==> prototype.props == LegacyRewritten(old(prototype.props))
    ensures r.Thrown? ==> prototype.props == old(prototype.props)
  {
    r := ResolveClient(proto, name, options, load);
    if r.Ok? {
      LegacyRewrite(prototype);
    }
  }
}
