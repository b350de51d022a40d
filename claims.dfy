/** `System.Security.Claims`: the claim record and the authenticated principal. */
module Claims {

  /** `ClaimValueTypes.String`, the value type of a claim built without one. */
  const StringValueType := "http://www.w3.org/2001/XMLSchema#string"

  /** `ClaimValueTypes.Integer64`. */
  const Integer64ValueType := "http://www.w3.org/2001/XMLSchema#integer64"

  /** A claim: its type, its (free-form) value and the type of that value. */
  datatype Claim = Claim(claimType: string, value: string, valueType: string)

  /** `new Claim(type, value)`: a claim whose value type is the default, string. */
  function NewClaim(claimType: string, value: string): Claim
  {
    Claim(claimType, value, StringValueType)
  }

  /**
   * `HttpContext.User`: whether its identity is authenticated and every claim
   * it holds, in enumeration order (several claims may share a type).
   */
  datatype ClaimsPrincipal = ClaimsPrincipal(isAuthenticated: bool, claims: seq<Claim>)
}
