/*
 * The part of a servlet request a security filter sees and changes: the
 * request headers, the security context's authentication, the error
 * response it may write, and whether it passed the request down the chain.
 */
module Servlet {
  import opened Common
  import opened BackendDomain

  /** An authentication placed in the security context: principal and granted authorities. */
  datatype Authentication = Authentication(principal: string, authorities: set<string>)

  /** One request passing through one filter. */
  class Exchange {
    /** The request headers, by name. */
    const headers: map<string, string>
    /** `SecurityContextHolder.getContext().getAuthentication()`. */
    var authentication: Option<Authentication>
    /** The error written to the response, if any: its status and its code. */
    var error: Option<(int, ErrorCode)>
    /** Whether `filterChain.doFilter` was called. */
    var chained: bool

    constructor (headers0: map<string, string>, authentication0: Option<Authentication>)
      ensures headers == headers0 && authentication == authentication0
      ensures error.None? && !chained
    {
      headers := headers0;
      authentication := authentication0;
      error := None;
      chained := false;
    }

    /** `request.getHeader(name)`: null when the header is absent. */
    function Header(name: string): (h: Option<string>)
      ensures h.Some? <==> name in headers
      ensures h.Some? ==> h.value == headers[name]
    {
      if name in headers then Some(headers[name]) else None
    }
  }

  /** `sendErrorResponse`: the code's HTTP status and the code itself. */
  function ErrorResponse(code: ErrorCode): (e: (int, ErrorCode))
    ensures e.0 == Status(code) && e.1 == code
  {
    (Status(code), code)
  }
}
