/**
 * The Response record of lib/response.js: what a Request API call settles with.
 * It is created empty by `exec` and its fields are overwritten in place as the
 * call proceeds.
 */
module Responses {
  import opened JsValues

  /** A snapshot of a Response's four fields. */
  datatype ResponseFields = ResponseFields(call: Value, response: Value, metadata: Value, status: Value)

  /** The fields of a Response constructed without arguments. */
  const NoResponse := ResponseFields(Undefined, Undefined, Undefined, Undefined)

  class Response {
    /** The live call handle of the (last) attempt. */
    var call: Value
    /** The payload the call completed with. */
    var response: Value
    /** The response header metadata, when it was asked for. */
    var metadata: Value
    /** The final status, when it was asked for. */
    var status: Value

    /** Stores its four arguments as they are. */
    constructor (call: Value, response: Value, metadata: Value, status: Value)
      ensures Fields() == ResponseFields(call, response, metadata, status)
    {
      this.call := call;
      this.response := response;
      this.metadata := metadata;
      this.status := status;
    }

    function Fields(): ResponseFields
      reads this
    {
      ResponseFields(call, response, metadata, status)
    }
  }
}
