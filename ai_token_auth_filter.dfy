/*
 * The backend's filter for calls from the AI server: a shared secret in the
 * "X-AI-Token" header, compared exactly with the configured one, grants
 * the fixed AI-server principal. The request always goes down the chain;
 * endpoints that need the role refuse it later.
 */
module AITokenAuthFilter {
  import opened Common
  import opened Servlet

  const AITokenHeader := "X-AI-Token"
  const AIServerRole := "ROLE_AI_SERVER"
  const AIServerPrincipalName := "ai-server"

  /** The authentication granted on a matching token. */
  const AIServer := Authentication(AIServerPrincipalName, {AIServerRole})

  /** The check: the header has text and equals the secret exactly. */
  predicate Admits(token: Option<string>, secret: string)
  {
    HasText(token) && secret == token.value
  }

  /**
   * A token is admitted exactly when it is the secret, and then only if the
   * secret itself has text: a blank or empty secret admits nobody, and a
   * missing header is never admitted.
   */
  lemma AdmitsExactlyTheSecret(token: Option<string>, secret: string)
    ensures Admits(token, secret) <==> token == Some(secret) && HasText(Some(secret))
  {
  }

  /**
   * `doFilterInternal`: on an admitted token the context holds the
   * AI-server principal with the single authority ROLE_AI_SERVER; otherwise
   * the context is left as it was. Either way the chain continues and no
   * error is written.
   */
  method DoFilterInternal(ex: Exchange, secret: string)
    modifies ex
    ensures Admits(ex.Header(AITokenHeader), secret) ==> ex.authentication == Some(AIServer)
    ensures !Admits(ex.Header(AITokenHeader), secret) ==> ex.authentication == old(ex.authentication)
    ensures ex.chained && ex.error == old(ex.error)
  {
    var token := ex.Header(AITokenHeader);
    if HasText(token) && secret == token.value {
      ex.authentication := Some(AIServer);
    }
    ex.chained := true;
  }
}
