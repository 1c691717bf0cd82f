/**
 * What every async thunk of the two slices does when its API call fails: it raises an
 * `Error` whose message is `error.response?.data?.message || <fallback>`.
 */
module Thunks {
  import opened JsValues

  /** The body of a failed HTTP response, as far as the thunks look into it. */
  datatype ResponseBody = ResponseBody(message: Option<string>)

  /** A failed HTTP response; its body may be missing. */
  datatype Response = Response(data: Option<ResponseBody>)

  /** The error an API call rejects with; there is no response when the request never got one. */
  datatype ApiError = ApiError(response: Option<Response>)

  /** `error.response?.data?.message`: the server's message, or `undefined` if any link is missing. */
  function ServerMessage(e: ApiError): (m: Option<string>)
    ensures m.Some? <==>
      e.response.Some? && e.response.value.data.Some? && e.response.value.data.value.message.Some?
    ensures m.Some? ==> Some(m.value) == e.response.value.data.value.message
  {
    match e.response
    case None => None
    case Some(response) =>
      match response.data
      case None => None
      case Some(body) => body.message
  }

  /** JavaScript truthiness of an optional string: present and not the empty string. */
  predicate Truthy(m: Option<string>)
  {
    m.Some? && m.value != ""
  }

  /** The message of the `Error` a thunk throws: the server's message when truthy, else the fallback. */
  function ErrorMessage(e: ApiError, fallback: string): (m: string)
    ensures m == fallback || Some(m) == ServerMessage(e)
    ensures Truthy(ServerMessage(e)) ==> m == ServerMessage(e).value
    ensures !Truthy(ServerMessage(e)) ==> m == fallback
    ensures fallback != "" ==> m != ""
  {
    var server := ServerMessage(e);
    if Truthy(server) then server.value else fallback
  }
}
