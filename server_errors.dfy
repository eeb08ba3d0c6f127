/**
 * The JSON replies of the API server and `handleError`, which turns a failed
 * upstream call into one.
 */
module ServerErrors {
  import opened Wrappers
  import opened JsValues

  /** The body of a reply: upstream data relayed as is, or `{ error: { code, message } }`. */
  datatype Body = Payload(data: Json) | ErrorBody(code: Json, message: Json)

  /** A reply: status, body and the `Cache-Control` header when one is set. */
  datatype Reply = Reply(status: int, body: Body, cacheControl: Option<string>)

  /** A reply with one of the server's own error codes. */
  function ErrorReply(status: int, code: string, message: string): Reply {
    Reply(status, ErrorBody(JStr(code), JStr(message)), None)
  }

  /** The response an upstream call failed with, as axios reports it. */
  datatype UpstreamResponse = UpstreamResponse(status: int, data: Option<Json>)

  /** An axios error: its own `code` and the upstream response, when there was one. */
  datatype UpstreamError = UpstreamError(code: Option<Json>, response: Option<UpstreamResponse>)

  /** `error?.response?.data`. */
  function ResponseData(e: UpstreamError): Option<Json> {
    if e.response.Some? then e.response.value.data else None
  }

  /** `error?.response?.data?.cod`, the provider's own error code. */
  function UpstreamCod(e: UpstreamError): Option<Json> {
    Get(ResponseData(e), "cod")
  }

  /** `error?.response?.data?.message`. */
  function UpstreamMessage(e: UpstreamError): Option<Json> {
    Get(ResponseData(e), "message")
  }

  /**
   * `handleError`: the status is the upstream status unless there is none (or it
   * is 0), then 500; the code is the error's own code, else the provider's
   * `cod`, else "SERVER_ERROR"; the message is the provider's message, else the
   * fallback. A falsy value never wins a place in these chains.
   */
  function HandleError(e: UpstreamError, fallback: string): (r: Reply)
    ensures r.body.ErrorBody? && r.cacheControl == None
    ensures r.status != 0
    ensures e.response.Some? && e.response.value.status != 0 ==> r.status == e.response.value.status
    ensures (e.response.None? || e.response.value.status == 0) ==> r.status == 500
    ensures Truthy(Some(r.body.code))
    ensures Truthy(e.code) ==> r.body.code == e.code.value
    ensures !Truthy(e.code) && Truthy(UpstreamCod(e)) ==> r.body.code == UpstreamCod(e).value
    ensures !Truthy(e.code) && !Truthy(UpstreamCod(e)) ==> r.body.code == JStr("SERVER_ERROR")
    ensures Truthy(UpstreamMessage(e)) ==> r.body.message == UpstreamMessage(e).value
    ensures !Truthy(UpstreamMessage(e)) ==> r.body.message == JStr(fallback)
    ensures fallback != "" ==> Truthy(Some(r.body.message))
  {
    var status := if e.response.Some? && e.response.value.status != 0 then e.response.value.status else 500;
    var code :=
      if Truthy(e.code) then e.code.value
      else if Truthy(UpstreamCod(e)) then UpstreamCod(e).value
      else JStr("SERVER_ERROR");
    var message := if Truthy(UpstreamMessage(e)) then UpstreamMessage(e).value else JStr(fallback);
    Reply(status, ErrorBody(code, message), None)
  }
}
