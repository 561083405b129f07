/** The bearer-token check every scheduled job performs before doing any work. */
module CronAuth {
  import opened Wrappers

  /**
   * The header value a job accepts: `Bearer ` followed by the configured secret,
   * which the template literal renders as `undefined` when the secret is unset.
   */
  function ExpectedHeader(secret: Option<string>): (h: string)
    ensures |h| >= 7 && h[..7] == "Bearer "
    ensures secret.Some? ==> h[7..] == secret.value
    ensures secret.None? ==> h[7..] == "undefined"
  {
    "Bearer " + secret.GetOr("undefined")
  }

  /** The request may proceed iff it carries an `authorization` header equal to the expected one. */
  function Authorized(header: Option<string>, secret: Option<string>): (ok: bool)
    ensures header.None? ==> !ok
    ensures ok <==> header == Some(ExpectedHeader(secret))
  {
    match header
    case None => false
    case Some(h) => h == ExpectedHeader(secret)
  }

  /** With no secret configured, the literal header `Bearer undefined` is accepted. */
  lemma UnsetSecretAcceptsUndefined()
    ensures Authorized(Some("Bearer undefined"), None)
  {
  }
}
