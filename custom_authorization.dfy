/**
 * `CustomAuthorization`: the claims predicate and the authorization filters
 * that guard an action before it runs.
 */
module CustomAuthorization {
  import opened Wrappers
  import opened Strings
  import opened Claims

  /** The test inside `Any`: exact type, and a value containing the required value. */
  predicate Satisfies(c: Claim, claimName: string, claimValue: string)
  {
    c.claimType == claimName && Contains(c.value, claimValue)
  }

  /** `claims.Any(c => Satisfies(c, claimName, claimValue))`. */
  function AnySatisfies(claims: seq<Claim>, claimName: string, claimValue: string): (r: bool)
    ensures r <==> exists i :: 0 <= i < |claims| && Satisfies(claims[i], claimName, claimValue)
  {
    if claims == [] then false
    else Satisfies(claims[0], claimName, claimValue) || AnySatisfies(claims[1..], claimName, claimValue)
  }

  /**
   * `ValidarClaimsUsuario`: the user is authenticated and holds a claim whose
   * type is exactly `claimName` and whose value contains `claimValue`.
   */
  function ValidarClaimsUsuario(user: ClaimsPrincipal, claimName: string, claimValue: string): (r: bool)
    ensures r <==> (user.isAuthenticated &&
      exists i :: 0 <= i < |user.claims| && user.claims[i].claimType == claimName &&
        exists k :: OccursAt(user.claims[i].value, claimValue, k))
  {
    user.isAuthenticated && AnySatisfies(user.claims, claimName, claimValue)
  }

  /**
   * Matching on the value is containment: a claim whose value is any text
   * around the required value (such as a comma-joined list) satisfies it.
   */
  lemma ContainmentSatisfies(user: ClaimsPrincipal, i: int, claimName: string, before: string, claimValue: string, after: string)
    requires user.isAuthenticated && 0 <= i < |user.claims|
    requires user.claims[i].claimType == claimName && user.claims[i].value == before + claimValue + after
    ensures ValidarClaimsUsuario(user, claimName, claimValue)
  {
    ContainsInfix(before, claimValue, after);
    assert Satisfies(user.claims[i], claimName, claimValue);
  }

  /** Matching on the type is equality: with no claim of that type no value helps. */
  lemma OtherTypesNeverSatisfy(user: ClaimsPrincipal, claimName: string, claimValue: string)
    requires forall i :: 0 <= i < |user.claims| ==> user.claims[i].claimType != claimName
    ensures !ValidarClaimsUsuario(user, claimName, claimValue)
  {
  }

  /** An unauthenticated user fails whatever claims it carries. */
  lemma UnauthenticatedNeverSatisfies(user: ClaimsPrincipal, claimName: string, claimValue: string)
    requires !user.isAuthenticated
    ensures !ValidarClaimsUsuario(user, claimName, claimValue)
  {
  }

  /** The user of the examples below: one comma-joined permission claim on suppliers. */
  function SupplierEditor(): ClaimsPrincipal
  {
    ClaimsPrincipal(true, [NewClaim("Fornecedor", "Adicionar,Atualizar")])
  }

  /** The value "Adicionar,Atualizar" grants "Adicionar" and "Atualizar". */
  lemma SupplierEditorMayAddAndUpdate()
    ensures ValidarClaimsUsuario(SupplierEditor(), "Fornecedor", "Adicionar")
    ensures ValidarClaimsUsuario(SupplierEditor(), "Fornecedor", "Atualizar")
  {
    assert "Adicionar,Atualizar" == "" + "Adicionar" + ",Atualizar";
    ContainmentSatisfies(SupplierEditor(), 0, "Fornecedor", "", "Adicionar", ",Atualizar");
    assert "Adicionar,Atualizar" == "Adicionar," + "Atualizar" + "";
    ContainmentSatisfies(SupplierEditor(), 0, "Fornecedor", "Adicionar,", "Atualizar", "");
  }

  /** The same value does not grant "Excluir", nor anything on another resource. */
  lemma SupplierEditorMayNotDelete()
    ensures !ValidarClaimsUsuario(SupplierEditor(), "Fornecedor", "Excluir")
    ensures !ValidarClaimsUsuario(SupplierEditor(), "Produto", "Adicionar")
  {
    var v := "Adicionar,Atualizar";
    assert forall j :: 0 <= j < |v| ==> v[j] != 'E';
    NotContainsWithoutFirstChar(v, "Excluir");
    OtherTypesNeverSatisfy(SupplierEditor(), "Produto", "Adicionar");
  }

  /** `StatusCodeResult`, the short-circuit result a filter may set. */
  datatype StatusCodeResult = StatusCodeResult(statusCode: int)

  /** `AuthorizationFilterContext`: the request's user and the result set so far. */
  class AuthorizationFilterContext {
    const user: ClaimsPrincipal
    var result: Option<StatusCodeResult>

    constructor (user: ClaimsPrincipal)
      ensures this.user == user && result == None
    {
      this.user := user;
      result := None;
    }
  }

  /** `RequisitoClaimFilter`: the filter guarding an action with one required claim. */
  class RequisitoClaimFilter {
    const claim: Claim

    constructor (claim: Claim)
      ensures this.claim == claim
    {
      this.claim := claim;
    }

    /**
     * 401 for an unauthenticated user, before any claim is looked at; 403 for an
     * authenticated user without the claim; otherwise the result is left as it
     * was and the action runs.
     */
    method OnAuthorization(context: AuthorizationFilterContext)
      modifies context
      ensures !context.user.isAuthenticated ==> context.result == Some(StatusCodeResult(401))
      ensures context.user.isAuthenticated && !ValidarClaimsUsuario(context.user, claim.claimType, claim.value) ==>
        context.result == Some(StatusCodeResult(403))
      ensures ValidarClaimsUsuario(context.user, claim.claimType, claim.value) ==>
        context.result == old(context.result)
    {
      if !context.user.isAuthenticated {
        context.result := Some(StatusCodeResult(401));
        return;
      }
      if !ValidarClaimsUsuario(context.user, claim.claimType, claim.value) {
        context.result := Some(StatusCodeResult(403));
      }
    }
  }

  /**
   * `[ClaimsAuthorize(claimName, claimValue)]`: hands the filter exactly one
   * argument, the claim to require.
   */
  class ClaimsAuthorizeAttribute {
    const arguments: seq<Claim>

    constructor (claimName: string, claimValue: string)
      ensures arguments == [NewClaim(claimName, claimValue)]
    {
      arguments := [NewClaim(claimName, claimValue)];
    }

    /** The one filter the framework builds from `arguments`, per request. */
    method CreateInstance() returns (f: RequisitoClaimFilter)
      requires |arguments| == 1
      ensures fresh(f) && f.claim == arguments[0]
    {
      f := new RequisitoClaimFilter(arguments[0]);
    }
  }

  /**
   * `testeFilter`: reads the bearer token and two claims of the user and
   * discards them; it never sets a result, so every request goes through.
   */
  class TesteFilter {
    constructor ()
    {
    }

    method OnAuthorization(context: AuthorizationFilterContext)
      ensures context.result == old(context.result)
    {
    }
  }
}
