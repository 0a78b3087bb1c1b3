/**
 * The method classifier: the two streaming flags a stub method carries select
 * one of four call shapes, and the wrapping layer installs one wrapper per
 * method (lib/client.js, promisifyClientProto and createClient; index.js, the
 * in-place rewrite inside `caller`).
 */
module Shapes {

  /** The four call shapes, one per pair of (requestStream, responseStream) flags. */
  datatype Shape = Unary | ServerStream | ClientStream | Bidi {
    predicate RequestStream() {
      this == ClientStream || this == Bidi
    }
    predicate ResponseStream() {
      this == ServerStream || this == Bidi
    }
  }

  /** The dispatch over the flags; the four branches cover all four pairs. */
  function ShapeOf(requestStream: bool, responseStream: bool): (s: Shape)
    ensures s.RequestStream() == requestStream && s.ResponseStream() == responseStream
  {
    if !requestStream && !responseStream then Unary
    else if !requestStream && responseStream then ServerStream
    else if requestStream && !responseStream then ClientStream
    else Bidi
  }

  /** Distinct shapes come from distinct flag pairs, so the dispatch loses nothing. */
  lemma ShapeOfInjective(s: Shape, t: Shape)
    requires s.RequestStream() == t.RequestStream() && s.ResponseStream() == t.ResponseStream()
    ensures s == t
  {
  }

  /**
   * A property of a prototype. `Rpc` is a function value carrying the two flags
   * (a function without them reads both as false); `Wrapper` is a function this
   * layer installed, which carries no flags; `Member` is a function the caller
   * class defines itself (its constructor, createOptions, createMetadata, exec);
   * `Field` is a property that is not a function.
   */
  datatype Prop =
    | Rpc(requestStream: bool, responseStream: bool)
    | Wrapper(shape: Shape)
    | Member(tag: string)
    | Field
  {
    predicate IsFunction() {
      !Field?
    }
    /** `v.requestStream`, read as a boolean. */
    predicate RequestFlag() {
      Rpc? && requestStream
    }
    /** `v.responseStream`, read as a boolean. */
    predicate ResponseFlag() {
      Rpc? && responseStream
    }
  }

  /**
   * Which wrapper each property of a client prototype gets: every function-valued
   * property except `constructor`, by the shape its flags select.
   */
  function Classify(clientProto: map<string, Prop>): (r: map<string, Shape>)
    ensures forall k :: k in r <==> k in clientProto && k != "constructor" && clientProto[k].IsFunction()
    ensures forall k :: k in r ==>
      r[k].RequestStream() == clientProto[k].RequestFlag() && r[k].ResponseStream() == clientProto[k].ResponseFlag()
  {
    map k | k in clientProto && k != "constructor" && clientProto[k].IsFunction() ::
      ShapeOf(clientProto[k].RequestFlag(), clientProto[k].ResponseFlag())
  }

  /** The wrapper functions for a classification. */
  function Installed(shapes: map<string, Shape>): (r: map<string, Prop>)
    ensures r.Keys == shapes.Keys
    ensures forall k :: k in r ==> r[k] == Wrapper(shapes[k])
  {
    map k | k in shapes :: Wrapper(shapes[k])
  }

  /** A prototype object whose properties are assigned in place. */
  class Prototype {
    var props: map<string, Prop>

    constructor (props: map<string, Prop>)
      ensures this.props == props
    {
      this.props := props;
    }
  }

  /**
   * promisifyClientProto: walks the own properties of the client prototype and
   * assigns one wrapper per classified method onto the target prototype. The
   * client prototype is only read.
   */
  method PromisifyClientProto(target: Prototype, clientProto: map<string, Prop>)
    modifies target
    ensures target.props == old(target.props) + Installed(Classify(clientProto))
  {
    var shapes := Classify(clientProto);
    var keys := clientProto.Keys;
    while keys != {}
      invariant keys <= clientProto.Keys
      invariant forall k :: k in target.props <==> k in old(target.props) || (k in shapes && k !in keys)
      invariant forall k :: k in target.props ==>
        target.props[k] == if k in shapes && k !in keys then Wrapper(shapes[k]) else old(target.props)[k]
      decreases keys
    {
      var k :| k in keys;
      if k != "constructor" && clientProto[k].IsFunction() {
        var v := clientProto[k];
        if !v.RequestFlag() && !v.ResponseFlag() {
          target.props := target.props[k := Wrapper(Unary)];
        } else if !v.RequestFlag() && v.ResponseFlag() {
          target.props := target.props[k := Wrapper(ServerStream)];
        } else if v.RequestFlag() && !v.ResponseFlag() {
          target.props := target.props[k := Wrapper(ClientStream)];
        } else {
          target.props := target.props[k := Wrapper(Bidi)];
        }
      }
      keys := keys - {k};
    }
    assert target.props == old(target.props) + Installed(shapes);
  }

  /** The functions the caller class defines on its prototype before any wrapper is installed. */
  const CallerClassProps: map<string, Prop> :=
    map["constructor" := Member("constructor"),
        "createOptions" := Member("createOptions"),
        "createMetadata" := Member("createMetadata")]

  /**
   * The caller prototype createClient builds: the class's own functions, then
   * one wrapper per classified method (a method with one of their names
   * replaces it), then `exec`, which replaces a method named `exec`.
   */
  function CallerProps(clientProto: map<string, Prop>): (r: map<string, Prop>)
    ensures "exec" in r && r["exec"] == Member("exec")
    ensures CallerClassProps.Keys <= r.Keys
  {
    (CallerClassProps + Installed(Classify(clientProto)))["exec" := Member("exec")]
  }

  /** createClient: a fresh caller prototype with the wrappers and `exec` installed. */
  method CreateClient(clientProto: map<string, Prop>) returns (target: Prototype)
    ensures fresh(target)
    ensures target.props == CallerProps(clientProto)
  {
    target := new Prototype(CallerClassProps);
    PromisifyClientProto(target, clientProto);
    target.props := target.props["exec" := Member("exec")];
  }

  /**
   * Every method of the client other than `constructor` and `exec` is reachable
   * on the caller prototype as the wrapper its flags select.
   */
  lemma CallerPropsWrapsEveryMethod(clientProto: map<string, Prop>, k: string)
    requires k in clientProto && clientProto[k].IsFunction()
    requires k != "constructor" && k != "exec"
    ensures k in CallerProps(clientProto)
    ensures CallerProps(clientProto)[k] == Wrapper(ShapeOf(clientProto[k].RequestFlag(), clientProto[k].ResponseFlag()))
  {
    var shapes := Classify(clientProto);
    assert k in shapes;
    assert Installed(shapes)[k] == Wrapper(shapes[k]);
  }

  /**
   * What the legacy in-place rewrite leaves on a prototype: every function-valued
   * own property is replaced by the wrapper its flags select; `constructor`,
   * which lodash's own-key walk skips on a prototype object, and the other
   * properties stay.
   */
  function LegacyRewritten(props: map<string, Prop>): (r: map<string, Prop>)
    ensures r.Keys == props.Keys
    ensures r == props + Installed(Classify(props))
  {
    map k | k in props ::
      if k != "constructor" && props[k].IsFunction() then Wrapper(ShapeOf(props[k].RequestFlag(), props[k].ResponseFlag()))
      else props[k]
  }

  /**
   * The legacy `_.forOwn` loop of index.js: replaces each function-valued
   * property of the constructor's prototype, `constructor` aside, in place.
   */
  method LegacyRewrite(proto: Prototype)
    modifies proto
    ensures proto.props == LegacyRewritten(old(proto.props))
  {
    var keys := proto.props.Keys;
    ghost var before := proto.props;
    while keys != {}
      invariant keys <= before.Keys
      invariant proto.props.Keys == before.Keys
      invariant forall k :: k in proto.props ==>
        proto.props[k] == if k in keys then before[k] else LegacyRewritten(before)[k]
      decreases keys
    {
      var k :| k in keys;
      var v := proto.props[k];
      if k != "constructor" && v.IsFunction() {
        if !v.ResponseFlag() && !v.RequestFlag() {
          proto.props := proto.props[k := Wrapper(Unary)];
        } else if v.ResponseFlag() && !v.RequestFlag() {
          proto.props := proto.props[k := Wrapper(ServerStream)];
        } else if !v.ResponseFlag() && v.RequestFlag() {
          proto.props := proto.props[k := Wrapper(ClientStream)];
        } else {
          proto.props := proto.props[k := Wrapper(Bidi)];
        }
      }
      keys := keys - {k};
    }
    assert proto.props == LegacyRewritten(before);
  }

  /**
   * The legacy rewrite and the classifier of lib/client.js wrap the same
   * properties with the same shapes, and both leave `constructor` alone.
   */
  lemma LegacyAgreesWithClassify(props: map<string, Prop>, k: string)
    requires k in props
    ensures k != "constructor" ==> (k in Classify(props) <==> LegacyRewritten(props)[k].Wrapper?)
    ensures k in Classify(props) ==> LegacyRewritten(props)[k] == Wrapper(Classify(props)[k])
    ensures k !in Classify(props) ==> LegacyRewritten(props)[k] == props[k]
    ensures LegacyRewritten(props)[k] != props[k] ==> k != "constructor" && props[k].IsFunction()
  {
  }

  /**
   * A wrapper carries no flags, so rewriting the same prototype a second time
   * (a static client constructor passed to `caller` twice) turns every method,
   * streaming or not, into a unary wrapper; `constructor` stays as it was.
   */
  lemma LegacyRewriteTwice(props: map<string, Prop>, k: string)
    requires k in props && props[k].IsFunction()
    ensures LegacyRewritten(LegacyRewritten(props))[k] == if k == "constructor" then props[k] else Wrapper(Unary)
  {
    if k != "constructor" {
      assert LegacyRewritten(props)[k].Wrapper?;
    }
  }
}
