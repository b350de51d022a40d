/**
 * What the controllers get back from ASP.NET Core Identity. The services are
 * asynchronous and backed by a database; here each is the function from its
 * arguments to the result it reported for this request.
 */
module Identity {
  import opened Claims

  /** `IdentityUser`, the fields the controllers use. */
  datatype IdentityUser = IdentityUser(id: string, userName: string, email: string, emailConfirmed: bool)

  /** `IdentityError`: a code and the description shown to the client. */
  datatype IdentityError = IdentityError(code: string, description: string)

  /** `IdentityResult` of `CreateAsync`. */
  datatype IdentityResult = IdentityResult(succeeded: bool, errors: seq<IdentityError>)

  /** `SignInResult` of `PasswordSignInAsync`. */
  datatype SignInResult = SignInResult(succeeded: bool, isLockedOut: bool)

  /**
   * `UserManager<IdentityUser>`: `CreateAsync(user, password)`,
   * `FindByEmailAsync(email)`, `GetClaimsAsync(user)` and `GetRolesAsync(user)`.
   */
  datatype UserManager = UserManager(
    create: (IdentityUser, string) -> IdentityResult,
    findByEmail: string -> IdentityUser,
    getClaims: IdentityUser -> seq<Claim>,
    getRoles: IdentityUser -> seq<string>)

  /**
   * `SignInManager<IdentityUser>.PasswordSignInAsync(userName, password,
   * isPersistent, lockoutOnFailure)`.
   */
  datatype SignInManager = SignInManager(passwordSignIn: (string, string, bool, bool) -> SignInResult)

  /** `LoginUserViewModel`. */
  datatype LoginUserViewModel = LoginUserViewModel(email: string, password: string)

  /** `RegisterUserViewModel`. */
  datatype RegisterUserViewModel = RegisterUserViewModel(email: string, password: string, confirmPassword: string)

  /**
   * The user `Registrar` asks Identity to create: user name and e-mail both
   * the submitted e-mail, e-mail already confirmed; `id` is the fresh id the
   * `IdentityUser` constructor draws.
   */
  function NewUser(model: RegisterUserViewModel, id: string): IdentityUser
  {
    IdentityUser(id, model.email, model.email, true)
  }

  /** Messages `Login` records, verbatim. */
  const LockedOutMessage := "Usuario temporariamente bloqueado por tentativas invalidas."
  const LoginErrorMessage := "Login error"

  /** `result.Errors.Select(e => e.Description)`. */
  function Descriptions(errors: seq<IdentityError>): seq<string>
  {
    seq(|errors|, i requires 0 <= i < |errors| => errors[i].description)
  }
}
