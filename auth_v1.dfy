/**
 * `Version1.Controllers.AuthController`: account registration and login for
 * API version 1; a successful one answers with the token and a public view
 * of its claims.
 */
module AuthV1 {
  import opened Wrappers
  import opened Claims
  import opened Settings
  import opened Notifications
  import opened MainApi
  import opened Identity
  import opened TokenAssembly

  /** `ClaimViewModel`: a claim's type and value, without its value type. */
  datatype ClaimViewModel = ClaimViewModel(claimType: string, value: string)

  /** `UserTokenViewModel`. */
  datatype UserTokenViewModel = UserTokenViewModel(id: string, email: string, claims: seq<ClaimViewModel>)

  /** `LoginResponseViewModel`; `expiresIn` is in seconds. */
  datatype LoginResponseViewModel = LoginResponseViewModel(accessToken: string, expiresIn: int, userToken: UserTokenViewModel)

  /** `claims.Select(c => new ClaimViewModel { Type = c.Type, Value = c.Value })`. */
  function ClaimViews(claims: seq<Claim>): seq<ClaimViewModel>
  {
    seq(|claims|, i requires 0 <= i < |claims| => ClaimViewModel(claims[i].claimType, claims[i].value))
  }

  /** What an action of this controller hands to `CustomResponse`. */
  datatype Payload =
    | LoginModel(login: LoginUserViewModel)
    | RegisterModel(register: RegisterUserViewModel)
    | Token(response: LoginResponseViewModel)

  class AuthController {
    /** The `MainAPIController` part of this controller. */
    const main: MainApiController
    const signInManager: SignInManager
    const userManager: UserManager
    const settings: MyAppSettings

    constructor (notificador: Notificador, signInManager: SignInManager, userManager: UserManager,
                 settings: MyAppSettings, user: AppUser)
      ensures fresh(main) && main.notificador == notificador && main.appUser == user
      ensures main.usuarioAutenticado == user.authenticated && main.modelState == EmptyModelState
      ensures main.usuarioId == if user.authenticated then user.userId else EmptyGuid
      ensures this.signInManager == signInManager && this.userManager == userManager && this.settings == settings
    {
      main := new MainApiController(notificador, user);
      this.signInManager := signInManager;
      this.userManager := userManager;
      this.settings := settings;
    }

    /** The response `GerarJwt(email)` builds. */
    function JwtResponse(email: string, src: TokenSources): LoginResponseViewModel
    {
      var user := userManager.findByEmail(email);
      var claims := IssuedClaims(userManager, user, src);
      LoginResponseViewModel(
        src.writeToken(Descriptor(settings, src.clock.expires, claims)),
        settings.expiracaoHora * SecondsPerHour,
        UserTokenViewModel(user.id, user.email, ClaimViews(claims)))
    }

    /**
     * The token is written from a descriptor with issuer `Emissor`, audience
     * `ValidoEm` and expiry `ExpiracaoHora` hours after the clock's reading;
     * the response reports that lifetime in seconds, the user's id and
     * e-mail, and every claim of the token in order.
     */
    lemma JwtResponseContents(email: string, src: TokenSources)
      ensures var user := userManager.findByEmail(email);
        var r := JwtResponse(email, src);
        var d := Descriptor(settings, src.clock.expires, IssuedClaims(userManager, user, src));
        && r.accessToken == src.writeToken(d)
        && d.issuer == settings.emissor && d.audience == settings.validoEm
        && d.expires == src.clock.expires + r.expiresIn
        && r.expiresIn == settings.expiracaoHora * 3600
        && r.userToken.id == user.id && r.userToken.email == user.email
        && |r.userToken.claims| == |userManager.getClaims(user)| + 5 + |userManager.getRoles(user)|
        && forall i :: 0 <= i < |d.subject| ==>
             r.userToken.claims[i] == ClaimViewModel(d.subject[i].claimType, d.subject[i].value)
    {
      var user := userManager.findByEmail(email);
      TokenClaimsLayout(userManager.getClaims(user), user.id, user.email, src.newGuid, src.clock.nbf, src.clock.iat,
                        userManager.getRoles(user));
    }

    /** `GerarJwt`: looks the user up, assembles the claims and writes the token. */
    method GerarJwt(email: string, src: TokenSources) returns (response: LoginResponseViewModel)
      ensures response == JwtResponse(email, src)
    {
      var user := userManager.findByEmail(email);
      var claims := AssembleClaims(userManager.getClaims(user), user.id, user.email, src.newGuid,
                                   src.clock.nbf, src.clock.iat, userManager.getRoles(user));
      var descriptor := Descriptor(settings, src.clock.expires, claims);
      var encodedHandler := src.writeToken(descriptor);
      response := LoginResponseViewModel(
        encodedHandler,
        settings.expiracaoHora * SecondsPerHour,
        UserTokenViewModel(user.id, user.email, ClaimViews(claims)));
    }

    /**
     * `Registrar`: an invalid model answers with its errors; otherwise the user
     * is created from the submitted e-mail, and success answers with a token
     * while failure records each Identity error's description, in order, and
     * answers with the submitted model.
     */
    method Registrar(model: RegisterUserViewModel, newUserId: string, src: TokenSources) returns (r: Envelope<Payload>)
      modifies main.notificador
      ensures var result := userManager.create(NewUser(model, newUserId), model.password);
        && (!main.modelState.isValid ==>
              main.notificador.notificacoes ==
                old(main.notificador.notificacoes) + ToNotificacoes(FlattenedMessages(main.modelState.values))
              && r == main.CustomResponse(None))
        && (main.modelState.isValid && result.succeeded ==>
              main.notificador.notificacoes == old(main.notificador.notificacoes)
              && r == main.CustomResponse(Some(Token(JwtResponse(model.email, src)))))
        && (main.modelState.isValid && !result.succeeded ==>
              main.notificador.notificacoes ==
                old(main.notificador.notificacoes) + ToNotificacoes(Descriptions(result.errors))
              && r == main.CustomResponse(Some(RegisterModel(model))))
      ensures var result := userManager.create(NewUser(model, newUserId), model.password);
        (main.modelState.isValid && !result.succeeded
         && (old(main.notificador.notificacoes) != [] || result.errors != [])) ==>
          r == BadRequest(Mensagens(old(main.notificador.notificacoes)) + Descriptions(result.errors))
    {
      if !main.modelState.isValid {
        r := main.CustomResponseModelState(main.modelState);
        return;
      }
      var user := NewUser(model, newUserId);
      var result := userManager.create(user, model.password);
      if result.succeeded {
        var response := GerarJwt(user.email, src);
        r := main.CustomResponse(Some(Token(response)));
        return;
      }
      for i := 0 to |result.errors|
        invariant main.notificador.notificacoes ==
          old(main.notificador.notificacoes) + ToNotificacoes(Descriptions(result.errors[..i]))
      {
        main.NotificarErro(result.errors[i].description);
        assert Descriptions(result.errors[..i + 1]) == Descriptions(result.errors[..i]) + [result.errors[i].description];
      }
      assert result.errors[..|result.errors|] == result.errors;
      r := main.CustomResponse(Some(RegisterModel(model)));
      MensagensAppend(old(main.notificador.notificacoes), ToNotificacoes(Descriptions(result.errors)));
    }

    /**
     * `Login`: an invalid model is answered with the model itself and nothing
     * recorded; then success answers with a token, a locked-out account
     * records the lockout message, and any other failure records "Login error".
     */
    method Login(model: LoginUserViewModel, src: TokenSources) returns (r: Envelope<Payload>)
      modifies main.notificador
      ensures var result := signInManager.passwordSignIn(model.email, model.password, false, true);
        && (!main.modelState.isValid ==>
              main.notificador.notificacoes == old(main.notificador.notificacoes)
              && r == main.CustomResponse(Some(LoginModel(model))))
        && (main.modelState.isValid && result.succeeded ==>
              main.notificador.notificacoes == old(main.notificador.notificacoes)
              && r == main.CustomResponse(Some(Token(JwtResponse(model.email, src)))))
        && (main.modelState.isValid && !result.succeeded && result.isLockedOut ==>
              main.notificador.notificacoes == old(main.notificador.notificacoes) + [Notificacao(LockedOutMessage)]
              && r == BadRequest(Mensagens(old(main.notificador.notificacoes)) + [LockedOutMessage]))
        && (main.modelState.isValid && !result.succeeded && !result.isLockedOut ==>
              main.notificador.notificacoes == old(main.notificador.notificacoes) + [Notificacao(LoginErrorMessage)]
              && r == BadRequest(Mensagens(old(main.notificador.notificacoes)) + [LoginErrorMessage]))
    {
      if !main.modelState.isValid {
        r := main.CustomResponse(Some(LoginModel(model)));
        return;
      }
      var result := signInManager.passwordSignIn(model.email, model.password, false, true);
      if result.succeeded {
        var response := GerarJwt(model.email, src);
        r := main.CustomResponse(Some(Token(response)));
        return;
      }
      if result.isLockedOut {
        main.NotificarErro(LockedOutMessage);
        r := main.CustomResponse(Some(LoginModel(model)));
        MensagensAppend(old(main.notificador.notificacoes), [Notificacao(LockedOutMessage)]);
        return;
      }
      main.NotificarErro(LoginErrorMessage);
      r := main.CustomResponse(Some(LoginModel(model)));
      MensagensAppend(old(main.notificador.notificacoes), [Notificacao(LoginErrorMessage)]);
    }
  }
}
