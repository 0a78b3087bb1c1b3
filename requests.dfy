/**
 * The request builder of lib/request.js: a mutable object naming the method,
 * holding its argument, and collecting metadata, options, a retry setting and
 * the two listener flags through chained setters; `exec` hands the request to
 * the caller it belongs to.
 */
module Requests {
  import opened JsValues
  import opened Transport
  import opened Adapter
  import opened Responses
  import opened E = Exec

  /**
   * A new request: the method name and argument as given, metadata and options
   * unset, retry null, and neither listener asked for.
   */
  function FreshFields(methodName: string, param: Value): RequestFields {
    RequestFields(methodName, param, Undefined, Undefined, Null, Bool(false), Bool(false))
  }

  class Request {
    /**
     * The caller `exec` is sent to. lib/index.js binds one per caller on a
     * subclass; a bare request has none.
     */
    const client: Option<Caller>
    var methodName: string
    var param: Value
    var metadata: Value
    var options: Value
    var retry: Value
    var responseMetadata: Value
    var responseStatus: Value

    /** The fields `exec` reads. */
    function Fields(): RequestFields
      reads this
    {
      RequestFields(methodName, param, metadata, options, retry, responseMetadata, responseStatus)
    }

    /** The constructor once the name check has passed; NewRequest performs that check. */
    constructor (client: Option<Caller>, methodName: string, param: Value)
      requires methodName != ""
      ensures this.client == client
      ensures Fields() == FreshFields(methodName, param)
    {
      this.client := client;
      this.methodName := methodName;
      this.param := param;
      this.metadata := Undefined;
      this.options := Undefined;
      this.responseMetadata := Bool(false);
      this.responseStatus := Bool(false);
      this.retry := Null;
    }

    /** `withGrpcOptions(opts)`: sets the call options only, and returns the same request. */
    method WithGrpcOptions(opts: Value) returns (r: Request)
      modifies this
      ensures r == this
      ensures Fields() == old(Fields()).(options := opts)
    {
      options := opts;
      r := this;
    }

    /** `withMetadata(metadata)`: sets the call metadata only, and returns the same request. */
    method WithMetadata(md: Value) returns (r: Request)
      modifies this
      ensures r == this
      ensures Fields() == old(Fields()).(metadata := md)
    {
      metadata := md;
      r := this;
    }

    /** `withRetry(retry)`: sets the retry setting only, and returns the same request. */
    method WithRetry(setting: Value) returns (r: Request)
      modifies this
      ensures r == this
      ensures Fields() == old(Fields()).(retry := setting)
    {
      retry := setting;
      r := this;
    }

    /** `withResponseMetadata(value)`: sets the metadata flag only, and returns the same request. */
    method WithResponseMetadata(value: Value) returns (r: Request)
      modifies this
      ensures r == this
      ensures Fields() == old(Fields()).(responseMetadata := value)
    {
      responseMetadata := value;
      r := this;
    }

    /** `withResponseStatus(value)`: sets the status flag only, and returns the same request. */
    method WithResponseStatus(value: Value) returns (r: Request)
      modifies this
      ensures r == this
      ensures Fields() == old(Fields()).(responseStatus := value)
    {
      responseStatus := value;
      r := this;
    }

    /**
     * `exec(fn)`: the caller's `exec` on this request and the callback, its
     * result returned as it is. Without a caller, reading `exec` off nothing
     * throws. The request itself is left as it was.
     */
    method Exec(fn: Value, ch: Channel, budgetOf: Value -> nat) returns (r: Result<ExecOutcome>)
      modifies ch
      ensures Fields() == old(Fields())
      ensures client.None? ==> r == Thrown(NotAFunction) && ch.log == old(ch.log)
      ensures client.Some? ==>
        match ExecSpec(client.value, Fields(), fn, ch.replies, |old(ch.log)|, budgetOf)
        case Thrown(e) => r == Thrown(e) && ch.log == old(ch.log)
        case Ok(s) =>
          && r.Ok? && fresh(r.value.response) && r.value.returned == s.returned && r.value.completion == s.completion
          && r.value.response.Fields() == s.response && ch.log == old(ch.log) + s.calls
    {
      if client.None? {
        return Thrown(NotAFunction);
      }
      r := E.Exec(client.value, Fields(), fn, ch, budgetOf);
    }
  }

  /**
   * `new Request(methodName, param)`: a falsy name throws; any other name is
   * accepted, whether or not the client has such a method.
   */
  method NewRequest(client: Option<Caller>, methodName: string, param: Value) returns (r: Result<Request>)
    ensures r.Thrown? <==> methodName == ""
    ensures r.Thrown? ==> r.error == Error("Request method name required")
    ensures r.Ok? ==> fresh(r.value) && r.value.client == client && r.value.Fields() == FreshFields(methodName, param)
  {
    if methodName == "" {
      return Thrown(Error("Request method name required"));
    }
    var req := new Request(client, methodName, param);
    return Ok(req);
  }

  /**
   * The chained form the request API is used in: each setter writes its own
   * field, later ones leave earlier ones alone, and `exec` sees all of them.
   */
  method ChainedRequest(client: Option<Caller>, methodName: string, param: Value, md: Value, setting: Value)
    returns (r: Result<Request>)
    ensures methodName == "" ==> r == Thrown(Error("Request method name required"))
    ensures methodName != "" ==>
      r.Ok? && r.value.Fields() == RequestFields(methodName, param, md, Undefined, setting, Bool(true), Bool(true))
  {
    r := NewRequest(client, methodName, param);
    if r.Ok? {
      var req := r.value;
      req := req.WithMetadata(md);
      req := req.WithResponseMetadata(Bool(true));
      req := req.WithResponseStatus(Bool(true));
      req := req.WithRetry(setting);
    }
  }
}
