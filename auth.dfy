/** The shared-secret check every inbound request passes first (`validateToken`). */
module Auth {
  import opened Options
  import opened Strings

  const BearerPrefix: string := "Bearer "

  /** Accepted, or rejected with status 401 and the message the bridge sends back. */
  datatype AuthResult = Accepted | Rejected(message: string)

  const MissingHeader: string := "Missing Authorization header"
  const InvalidToken: string := "Invalid token"

  /** The token carried by a header: the header with a leading "Bearer " cut off, if it has one. */
  function TokenOf(header: string): string {
    if StartsWith(header, BearerPrefix) then header[|BearerPrefix|..] else header
  }

  /** `validateToken`: a missing or empty header and a token other than the configured one are refused. */
  function ValidateToken(authorization: Option<string>, botToken: string): (r: AuthResult)
    ensures r.Rejected? ==> r.message == MissingHeader || r.message == InvalidToken
    ensures r.Rejected? && r.message == MissingHeader <==> !Truthy(authorization)
  {
    if !Truthy(authorization) then Rejected(MissingHeader)
    else if TokenOf(authorization.value) != botToken then Rejected(InvalidToken)
    else Accepted
  }

  /**
   * Exactly two header forms pass: "Bearer " followed by the configured token, and the bare
   * token itself, the latter only when the token does not itself begin with "Bearer ".
   */
  lemma ValidateTokenIff(authorization: Option<string>, botToken: string)
    ensures ValidateToken(authorization, botToken) == Accepted <==>
            authorization.Some? && authorization.value != "" &&
            (authorization.value == BearerPrefix + botToken ||
             (authorization.value == botToken && !StartsWith(botToken, BearerPrefix)))
  {
    if authorization.Some? {
      var h := authorization.value;
      if StartsWith(h, BearerPrefix) {
        assert h == BearerPrefix + h[|BearerPrefix|..];
      }
      assert (BearerPrefix + botToken)[..|BearerPrefix|] == BearerPrefix;
      assert (BearerPrefix + botToken)[|BearerPrefix|..] == botToken;
    }
  }
}
