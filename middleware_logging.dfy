/** The request-logging middleware: it tags each request with an id and echoes it on the
    response, and resolves the client address for its log lines. The log lines themselves,
    the timing and the id generator are not modelled; the id is a parameter. */
module LoggingMiddleware {
  import opened Wrappers
  import opened PyText
  import opened PyValue
  import opened Http
  import opened Exceptions
  import AuthMiddleware

  /** `get_client_ip`: the first element of a non-empty X-Forwarded-For, stripped; else a
      non-empty X-Real-IP exactly as sent; else the peer address; else "unknown". */
  function GetClientIp(r: Request): (ip: string)
    ensures TruthyStr(Header(r, "X-Forwarded-For")) ==> ip == Strip(Split(Header(r, "X-Forwarded-For").value, ',')[0])
    ensures !TruthyStr(Header(r, "X-Forwarded-For")) && TruthyStr(Header(r, "X-Real-IP")) ==> ip == Header(r, "X-Real-IP").value
    ensures !TruthyStr(Header(r, "X-Forwarded-For")) && !TruthyStr(Header(r, "X-Real-IP")) ==> ip == r.clientHost.GetOr("unknown")
  {
    var forwardedFor := Header(r, "X-Forwarded-For");
    if TruthyStr(forwardedFor) then Strip(Split(forwardedFor.value, ',')[0])
    else
      var realIp := Header(r, "X-Real-IP");
      if TruthyStr(realIp) then realIp.value else r.clientHost.GetOr("unknown")
  }

  /** The two middlewares resolve every request to the same client address. */
  lemma AgreesWithAuthMiddleware(r: Request)
    ensures GetClientIp(r) == AuthMiddleware.GetClientIp(r)
  {
  }

  /** A value of X-Forwarded-For without a comma is stripped whole. */
  lemma SingleForwardedAddress(r: Request)
    requires TruthyStr(Header(r, "X-Forwarded-For")) && ',' !in Header(r, "X-Forwarded-For").value
    ensures GetClientIp(r) == Strip(Header(r, "X-Forwarded-For").value)
  {
    var v := Header(r, "X-Forwarded-For").value;
    assert Split(v, ',') == [v];
  }

  /** `dispatch`: the id is on the request state before the handler runs, so the handler
      sees it; a response from the handler goes out with the id as X-Request-ID; an
      exception from the handler propagates unchanged, with no header set. */
  method Dispatch<A>(state: RequestState<A>, requestId: string, handler: Option<string> -> Result<Response, Raised>)
    returns (res: Result<Response, Raised>)
    modifies state`requestId
    ensures state.requestId == Some(requestId)
    ensures match handler(Some(requestId))
            case Ok(response) => res == Ok(response.(headers := response.headers["X-Request-ID" := requestId]))
            case Err(e) => res == Err(e)
  {
    state.requestId := Some(requestId);
    var outcome := handler(state.requestId);
    match outcome
    case Ok(response) =>
      res := Ok(response.(headers := response.headers["X-Request-ID" := requestId]));
    case Err(e) =>
      res := Err(e);
  }

  /** The echoed header is the request id, and the handler's other headers and status are
      kept. */
  lemma EchoKeepsResponse(response: Response, requestId: string)
    ensures var out := response.(headers := response.headers["X-Request-ID" := requestId]);
            out.statusCode == response.statusCode && out.headers["X-Request-ID"] == requestId
            && forall h :: h in response.headers && h != "X-Request-ID" ==> h in out.headers && out.headers[h] == response.headers[h]
  {
  }
}
