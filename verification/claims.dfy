/** The verified token as this core sees it: an already parsed, read-only claim set. */
module Claims {
  import opened Wrappers

  /** A raw JSON claim value as the token parser hands it over; JNull is a Java null. */
  datatype ClaimValue = JNull | JString(s: string) | JArray(items: seq<ClaimValue>) | JOther

  /**
   * The claims the core reads. `appid` and `azp` are the values of
   * getClaimAsString, `aud` the value of getAudience, and `roles` the raw value
   * of getClaim("roles") (JNull when the claim is missing or null).
   */
  datatype Jwt = Jwt(
    appid: Option<string>,
    azp: Option<string>,
    aud: Option<seq<string>>,
    roles: ClaimValue)
}
