/**
 * The token validator that rejects tokens not issued for this resource server,
 * by the audience ("aud") claim of RFC 7519, section 4.1.3.
 */
module AudienceValidation {
  import opened Wrappers
  import opened Claims

  /** An OAuth 2.0 error: code, human-readable description, optional URI. */
  datatype OAuth2Error = OAuth2Error(errorCode: string, description: string, uri: Option<string>)

  /** The single error every audience rejection carries; it names no audience. */
  const INVALID_AUDIENCE := OAuth2Error(
    "invalid_token",
    "The token audience does not include the required audience for this resource server",
    None)

  /** A validation result: success is the result without errors. */
  datatype OAuth2TokenValidatorResult = OAuth2TokenValidatorResult(errors: seq<OAuth2Error>)

  predicate HasErrors(r: OAuth2TokenValidatorResult) {
    |r.errors| > 0
  }

  /** The validator; its expected audience is fixed when it is constructed. */
  datatype AudienceValidator = AudienceValidator(expectedAudience: string)

  /**
   * validate: success exactly when the token has an audience list and the list
   * contains the expected audience, by exact string equality; every failure is
   * the one constant error.
   */
  function Validate(v: AudienceValidator, jwt: Jwt): (r: OAuth2TokenValidatorResult)
    ensures !HasErrors(r) <==> jwt.aud.Some? && v.expectedAudience in jwt.aud.value
    ensures HasErrors(r) ==> r.errors == [INVALID_AUDIENCE]
  {
    if jwt.aud.Some? && v.expectedAudience in jwt.aud.value then
      OAuth2TokenValidatorResult([])
    else
      OAuth2TokenValidatorResult([INVALID_AUDIENCE])
  }

  /** A token without an audience list never passes. */
  lemma MissingAudienceFails(v: AudienceValidator, jwt: Jwt)
    requires jwt.aud.None?
    ensures Validate(v, jwt) == OAuth2TokenValidatorResult([INVALID_AUDIENCE])
  {
  }

  /** Failures do not depend on the token: any two rejected tokens get the same result. */
  lemma FailureIsConstant(v: AudienceValidator, jwt1: Jwt, jwt2: Jwt)
    requires HasErrors(Validate(v, jwt1)) && HasErrors(Validate(v, jwt2))
    ensures Validate(v, jwt1) == Validate(v, jwt2)
  {
  }

  /** Success is monotone: a list holding every audience of a passing list also passes, in any order. */
  lemma SuccessMonotone(v: AudienceValidator, jwt1: Jwt, jwt2: Jwt)
    requires !HasErrors(Validate(v, jwt1))
    requires jwt2.aud.Some?
    requires forall a :: a in jwt1.aud.value ==> a in jwt2.aud.value
    ensures !HasErrors(Validate(v, jwt2))
  {
  }

  /** The expected audience "controller-api" against three audience claims. */
  lemma ValidateExamples(jwt: Jwt)
    ensures !HasErrors(Validate(AudienceValidator("controller-api"), jwt.(aud := Some(["controller-api", "other"]))))
    ensures Validate(AudienceValidator("controller-api"), jwt.(aud := Some(["other"])))
         == OAuth2TokenValidatorResult([INVALID_AUDIENCE])
    ensures Validate(AudienceValidator("controller-api"), jwt.(aud := None))
         == OAuth2TokenValidatorResult([INVALID_AUDIENCE])
  {
    assert "controller-api" != "other" by { assert |"controller-api"| != |"other"|; }
  }
}
