/** The request-logging unit (class RequestLoggingModule). Both phases only write a log
    line and return the payload as it is; building the request line takes
    `len(request_data.get('messages', []))`, which raises TypeError for a value that has
    no length. */
module RequestLogging {
  import opened Values

  /** The values `len()` accepts. */
  predicate Sized(j: Json)
  {
    j.Str? || j.Arr? || j.Obj?
  }

  /** `_process_request`: the payload is returned unless "messages" holds None, a bool or
      a number. */
  function LogRequest(req: Dict): (r: Result<Dict>)
    ensures r.Ok? <==> Sized(Get(req, "messages", Arr([])))
    ensures r.Ok? ==> r.value == req
    ensures r.Raised? ==> r.error == TypeError
  {
    if Sized(Get(req, "messages", Arr([]))) then Ok(req) else Raised(TypeError)
  }

  /** `_process_response`: reads "model" and "usage" with defaults, which cannot raise. */
  function LogResponse(resp: Dict): (r: Result<Dict>)
    ensures r == Ok(resp)
  {
    var _ := (Get(resp, "model", Str("unknown")), Get(resp, "usage", Obj(map[])));
    Ok(resp)
  }
}
