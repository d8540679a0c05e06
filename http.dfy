/** The parts of a Starlette request and response that the middleware and handlers read
    and write. Header and cookie names are matched exactly as the code spells them. */
module Http {
  import opened Wrappers

  datatype Request = Request(
    path: string,
    headers: map<string, string>,
    cookies: map<string, string>,
    clientHost: Option<string>)

  datatype Response = Response(statusCode: int, headers: map<string, string>)

  /** `request.headers.get(name)`. */
  function Header(r: Request, name: string): Option<string> {
    if name in r.headers then Some(r.headers[name]) else None
  }

  /** `request.cookies.get(name)`. */
  function Cookie(r: Request, name: string): Option<string> {
    if name in r.cookies then Some(r.cookies[name]) else None
  }

  /** `request.state`: the per-request attributes the middleware sets, which later
      handlers read back. An attribute that was never set is None. */
  class RequestState<Auth> {
    var requestId: Option<string>
    var auth: Option<Auth>

    constructor ()
      ensures requestId == None && auth == None
    {
      requestId := None;
      auth := None;
    }
  }
}
