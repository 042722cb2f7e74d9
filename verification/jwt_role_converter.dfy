/**
 * Converts a token's `roles` claim into granted authorities carrying the
 * ROLE_ prefix that role-based checks look for.
 */
module JwtRoleConverter {
  import opened Wrappers
  import opened Claims

  const ROLES_CLAIM := "roles"
  const ROLE_PREFIX := "ROLE_"

  /** A granted authority, named by its text. */
  datatype GrantedAuthority = SimpleGrantedAuthority(authority: string)

  /**
   * The runtime failure of a cast: of a claim that is not a list to List, or of
   * a list element that is not a string to String as the prefix is added.
   */
  datatype ConversionError = ClassCastException

  /** A list element that passes the cast to String: a string, or null. */
  predicate IsStringElement(v: ClaimValue) {
    v.JString? || v.JNull?
  }

  /** `ROLE_PREFIX + role` for such an element; a null role is written as "null". */
  function RoleText(v: ClaimValue): string
    requires IsStringElement(v)
  {
    if v.JNull? then "null" else v.s
  }

  /**
   * The stream map/collect over the roles list: one authority per element, in
   * order, duplicates kept. An element that is not a String fails the implicit
   * cast to String as the prefix is added.
   */
  function MapRoles(items: seq<ClaimValue>): (r: Result<seq<GrantedAuthority>, ConversionError>)
    ensures r.Success? <==> forall i :: 0 <= i < |items| ==> IsStringElement(items[i])
    ensures r.Success? ==> |r.value| == |items|
    ensures r.Success? ==> forall i :: 0 <= i < |items| ==>
      r.value[i] == SimpleGrantedAuthority(ROLE_PREFIX + RoleText(items[i]))
    decreases |items|
  {
    if |items| == 0 then Success([])
    else if !IsStringElement(items[0]) then Failure(ClassCastException)
    else match MapRoles(items[1..])
      case Failure(err) => Failure(err)
      case Success(rest) =>
        Success([SimpleGrantedAuthority(ROLE_PREFIX + RoleText(items[0]))] + rest)
  }

  /**
   * convert: no authorities for a missing or null claim; otherwise the claim is
   * cast to a list and each role is prefixed. A claim that is not a list is
   * not treated as empty: the cast to List fails.
   */
  function Convert(jwt: Jwt): (r: Result<seq<GrantedAuthority>, ConversionError>)
    ensures jwt.roles.JNull? ==> r == Success([])
    ensures jwt.roles.JString? || jwt.roles.JOther? ==> r == Failure(ClassCastException)
    ensures r.Success? ==> forall a :: a in r.value ==> ROLE_PREFIX <= a.authority
  {
    match jwt.roles
    case JNull => Success([])
    case JArray(items) => MapRoles(items)
    case _ => Failure(ClassCastException)
  }

  /** The claim value of a well-formed roles list. */
  function StringList(roles: seq<string>): (items: seq<ClaimValue>)
    ensures |items| == |roles| && forall i :: 0 <= i < |roles| ==> items[i] == JString(roles[i])
  {
    seq(|roles|, i requires 0 <= i < |roles| => JString(roles[i]))
  }

  /** For a list of strings, element i of the result is ROLE_ followed by role i. */
  lemma ConvertStringRoles(jwt: Jwt, roles: seq<string>)
    requires jwt.roles == JArray(StringList(roles))
    ensures Convert(jwt).Success?
    ensures |Convert(jwt).value| == |roles|
    ensures forall i :: 0 <= i < |roles| ==> Convert(jwt).value[i] == SimpleGrantedAuthority(ROLE_PREFIX + roles[i])
  {
  }

  /** Prefixing is injective: equal prefixed texts come from equal roles. */
  lemma {:induction false} PrefixInjective(a: string, b: string)
    requires ROLE_PREFIX + a == ROLE_PREFIX + b
    ensures a == b
  {
    assert a == (ROLE_PREFIX + a)[|ROLE_PREFIX|..];
    assert b == (ROLE_PREFIX + b)[|ROLE_PREFIX|..];
  }

  /** A role is granted, as ROLE_ plus its name, exactly when the roles list holds it. */
  lemma RoleGrantedIffListed(jwt: Jwt, roles: seq<string>, role: string)
    requires jwt.roles == JArray(StringList(roles))
    ensures Convert(jwt).Success?
    ensures SimpleGrantedAuthority(ROLE_PREFIX + role) in Convert(jwt).value <==> role in roles
  {
    ConvertStringRoles(jwt, roles);
    var out := Convert(jwt).value;
    if SimpleGrantedAuthority(ROLE_PREFIX + role) in out {
      var i :| 0 <= i < |out| && out[i] == SimpleGrantedAuthority(ROLE_PREFIX + role);
      PrefixInjective(role, roles[i]);
    }
    if role in roles {
      var i :| 0 <= i < |roles| && roles[i] == role;
      assert out[i] == SimpleGrantedAuthority(ROLE_PREFIX + role);
    }
  }

  /** The mapping the converter documents, and the empty result for a token without roles. */
  lemma ConvertExamples(jwt: Jwt)
    ensures Convert(jwt.(roles := JArray([JString("ADMINAPP_SERVICE"), JString("RHAPP_SERVICE")])))
         == Success([SimpleGrantedAuthority("ROLE_ADMINAPP_SERVICE"), SimpleGrantedAuthority("ROLE_RHAPP_SERVICE")])
    ensures Convert(jwt.(roles := JNull)) == Success([])
  {
    var r := Convert(jwt.(roles := JArray([JString("ADMINAPP_SERVICE"), JString("RHAPP_SERVICE")])));
    assert r.Success? && |r.value| == 2;
    assert r.value[0] == SimpleGrantedAuthority(ROLE_PREFIX + "ADMINAPP_SERVICE");
    assert r.value[1] == SimpleGrantedAuthority(ROLE_PREFIX + "RHAPP_SERVICE");
    assert ROLE_PREFIX + "ADMINAPP_SERVICE" == "ROLE_ADMINAPP_SERVICE";
    assert ROLE_PREFIX + "RHAPP_SERVICE" == "ROLE_RHAPP_SERVICE";
    assert r.value == [r.value[0], r.value[1]];
  }

  /** A malformed claim is not mistaken for "no roles": a bare string or a list with a number fails. */
  lemma MalformedClaimFails(jwt: Jwt, role: string, before: seq<string>)
    ensures Convert(jwt.(roles := JString(role))) == Failure(ClassCastException)
    ensures Convert(jwt.(roles := JArray(StringList(before) + [JOther]))).Failure?
  {
    var items := StringList(before) + [JOther];
    assert !IsStringElement(items[|before|]);
  }
}
