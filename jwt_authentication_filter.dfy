/*
 * The backend's JWT filter: the bearer token is taken from the
 * Authorization header (section 2.1 of RFC 6750) and, when it has text,
 * validated; a valid token's authentication goes into the security
 * context. Token validation and decoding are foreign and are an input
 * here, `TokenCheck`.
 */
module JwtAuthenticationFilter {
  import opened Common
  import opened BackendDomain
  import opened Servlet

  const AuthorizationHeader := "Authorization"
  const BearerPrefix := "Bearer "

  /**
   * `resolveToken`: the text after "Bearer " when the header has text and
   * starts with that prefix, otherwise null.
   */
  function ResolveToken(header: Option<string>): (token: Option<string>)
    ensures token.Some? <==> HasText(header) && IsPrefix(BearerPrefix, header.value)
    ensures token.Some? ==> header.value == BearerPrefix + token.value
  {
    if HasText(header) && IsPrefix(BearerPrefix, header.value) then
      var h := header.value;
      assert h == h[..|BearerPrefix|] + h[|BearerPrefix|..];
      Some(h[|BearerPrefix|..])
    else None
  }

  /** Round trip: "Bearer " followed by any token resolves to that token. */
  lemma ResolveBearer(t: string)
    ensures ResolveToken(Some(BearerPrefix + t)) == Some(t)
  {
    var h := BearerPrefix + t;
    assert !IsJavaWhitespace(h[0]);
    assert (BearerPrefix + t)[..|BearerPrefix|] == BearerPrefix;
    assert h[|BearerPrefix|..] == t;
  }

  /** A header without the exact, case-sensitive prefix resolves to no token. */
  lemma OtherSchemesIgnored(h: string)
    requires !IsPrefix(BearerPrefix, h)
    ensures ResolveToken(Some(h)).None?
  {
  }

  /**
   * What `validateToken` followed by `getAuthentication` does with a token:
   * accept it with an authentication, throw a CustomException (an invalid
   * token throws INVALID_TOKEN rather than returning false), or throw
   * anything else.
   */
  datatype TokenCheck =
    | Accepted(authentication: Authentication)
    | Rejected(code: ErrorCode)
    | Crashed

  /**
   * `doFilterInternal`: without a token that has text the request goes on
   * unauthenticated; an accepted token is put in the context and the
   * request goes on; a CustomException clears the context and writes its
   * code; any other exception writes INTERNAL_SERVER_ERROR; neither error
   * passes the request on.
   */
  method DoFilterInternal(ex: Exchange, check: TokenCheck)
    requires ex.error.None? && !ex.chained
    modifies ex
    ensures ex.chained <==> ex.error.None?
    ensures var token := ResolveToken(ex.Header(AuthorizationHeader));
      if !HasText(token) then
        ex.authentication == old(ex.authentication) && ex.error.None? && ex.chained
      else match check
        case Accepted(a) => ex.authentication == Some(a) && ex.error.None? && ex.chained
        case Rejected(code) => ex.authentication.None? && ex.error == Some(ErrorResponse(code)) && !ex.chained
        case Crashed =>
          ex.authentication == old(ex.authentication) &&
          ex.error == Some(ErrorResponse(INTERNAL_SERVER_ERROR)) && !ex.chained
  {
    var token := ResolveToken(ex.Header(AuthorizationHeader));
    if HasText(token) {
      match check
      case Accepted(a) =>
        ex.authentication := Some(a);
      case Rejected(code) =>
        ex.authentication := None;
        ex.error := Some(ErrorResponse(code));
        return;
      case Crashed =>
        ex.error := Some(ErrorResponse(INTERNAL_SERVER_ERROR));
        return;
    }
    ex.chained := true;
  }
}
