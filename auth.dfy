/**
 * `Controllers.AuthController`, the unversioned registration and login
 * endpoints: a successful one answers with the encoded token alone.
 */
module AuthUnversioned {
  import opened Wrappers
  import opened Settings
  import opened Notifications
  import opened MainApi
  import opened Identity
  import opened TokenAssembly
  import Strings

  /** What an action of this controller hands to `CustomResponse`. */
  datatype Payload =
    | LoginModel(login: LoginUserViewModel)
    | RegisterModel(register: RegisterUserViewModel)
    | Token(token: string)

  class AuthController {
    /** The `MainAPIController` part of this controller. */
    const main: MainApiController
    const signInManager: SignInManager
    const userManager: UserManager
    const settings: MyAppSettings

    constructor (notificador: Notificador, signInManager: SignInManager, userManager: UserManager,
                 settings: MyAppSettings, user: AppUser)
      ensures fresh(main) && main.notificador == notificador && main.appUser == user
      ensures main.usuarioAutenticado == user.authenticated && main.modelState == EmptyModelState
      ensures main.usuarioId == if user.authenticated then user.userId else EmptyGuid
      ensures this.signInManager == signInManager && this.userManager == userManager && this.settings == settings
    {
      main := new MainApiController(notificador, user);
      this.signInManager := signInManager;
      this.userManager := userManager;
      this.settings := settings;
    }

    /** The descriptor `GerarJwt(email)` signs. */
    function JwtDescriptor(email: string, src: TokenSources): TokenDescriptor
    {
      Descriptor(settings, src.clock.expires, IssuedClaims(userManager, userManager.findByEmail(email), src))
    }

    /**
     * The token is signed with HMAC-SHA-256 under the secret's ASCII bytes, from a
     * descriptor with issuer `Emissor`, audience `ValidoEm`, expiry
     * `ExpiracaoHora` hours after the clock's reading, and as subject the
     * found user's claim list (laid out as `TokenClaimsLayout` states).
     */
    lemma JwtDescriptorContents(email: string, src: TokenSources)
      ensures var user := userManager.findByEmail(email);
        var d := JwtDescriptor(email, src);
        && d.issuer == settings.emissor && d.audience == settings.validoEm
        && d.expires == src.clock.expires + settings.expiracaoHora * 3600
        && d.signingCredentials == SigningCredentials(Strings.AsciiBytes(settings.secret), HmacSha256Signature)
        && d.subject == TokenClaims(userManager.getClaims(user), user.id, user.email, src.newGuid,
                                    src.clock.nbf, src.clock.iat, userManager.getRoles(user))
    {
    }

    /** `GerarJwt`: looks the user up, assembles the claims and returns only the written token. */
    method GerarJwt(email: string, src: TokenSources) returns (encodedHandler: string)
      ensures encodedHandler == src.writeToken(JwtDescriptor(email, src))
    {
      var user := userManager.findByEmail(email);
      var claims := AssembleClaims(userManager.getClaims(user), user.id, user.email, src.newGuid,
                                   src.clock.nbf, src.clock.iat, userManager.getRoles(user));
      var descriptor := Descriptor(settings, src.clock.expires, claims);
      encodedHandler := src.writeToken(descriptor);
    }

    /**
     * `Registrar`: an invalid model answers with its errors; otherwise the user
     * is created from the submitted e-mail, and success answers with the
     * token string while failure records each Identity error's description,
     * in order, and answers with the submitted model.
     */
    method Registrar(model: RegisterUserViewModel, newUserId: string, src: TokenSources) returns (r: Envelope<Payload>)
      modifies main.notificador
      ensures var result := userManager.create(NewUser(model, newUserId), model.password);
        && (!main.modelState.isValid ==>
              main.notificador.notificacoes ==
                old(main.notificador.notificacoes) + ToNotificacoes(FlattenedMessages(main.modelState.values))
              && r == main.CustomResponse(None))
        && (main.modelState.isValid && result.succeeded ==>
              main.notificador.notificacoes == old(main.notificador.notificacoes)
              && r == main.CustomResponse(Some(Token(src.writeToken(JwtDescriptor(model.email, src))))))
        && (main.modelState.isValid && !result.succeeded ==>
              main.notificador.notificacoes ==
                old(main.notificador.notificacoes) + ToNotificacoes(Descriptions(result.errors))
              && r == main.CustomResponse(Some(RegisterModel(model))))
      ensures var result := userManager.create(NewUser(model, newUserId), model.password);
        (main.modelState.isValid && !result.succeeded
         && (old(main.notificador.notificacoes) != [] || result.errors != [])) ==>
          r == BadRequest(Mensagens(old(main.notificador.notificacoes)) + Descriptions(result.errors))
    {
      if !main.modelState.isValid {
        r := main.CustomResponseModelState(main.modelState);
        return;
      }
      var user := NewUser(model, newUserId);
      var result := userManager.create(user, model.password);
      if result.succeeded {
        var token := GerarJwt(user.email, src);
        r := main.CustomResponse(Some(Token(token)));
        return;
      }
      for i := 0 to |result.errors|
        invariant main.notificador.notificacoes ==
          old(main.notificador.notificacoes) + ToNotificacoes(Descriptions(result.errors[..i]))
      {
        main.NotificarErro(result.errors[i].description);
        assert Descriptions(result.errors[..i + 1]) == Descriptions(result.errors[..i]) + [result.errors[i].description];
      }
      assert result.errors[..|result.errors|] == result.errors;
      r := main.CustomResponse(Some(RegisterModel(model)));
      MensagensAppend(old(main.notificador.notificacoes), ToNotificacoes(Descriptions(result.errors)));
    }

    /**
     * `Login`: an invalid model is answered with the model itself and nothing
     * recorded; then success answers with the token string, a locked-out
     * account records the lockout message, and any other failure records
     * "Login error".
     */
    method Login(model: LoginUserViewModel, src: TokenSources) returns (r: Envelope<Payload>)
      modifies main.notificador
      ensures var result := signInManager.passwordSignIn(model.email, model.password, false, true);
        && (!main.modelState.isValid ==>
              main.notificador.notificacoes == old(main.notificador.notificacoes)
              && r == main.CustomResponse(Some(LoginModel(model))))
        && (main.modelState.isValid && result.succeeded ==>
              main.notificador.notificacoes == old(main.notificador.notificacoes)
              && r == main.CustomResponse(Some(Token(src.writeToken(JwtDescriptor(model.email, src))))))
        && (main.modelState.isValid && !result.succeeded && result.isLockedOut ==>
              main.notificador.notificacoes == old(main.notificador.notificacoes) + [Notificacao(LockedOutMessage)]
              && r == BadRequest(Mensagens(old(main.notificador.notificacoes)) + [LockedOutMessage]))
        && (main.modelState.isValid && !result.succeeded && !result.isLockedOut ==>
              main.notificador.notificacoes == old(main.notificador.notificacoes) + [Notificacao(LoginErrorMessage)]
              && r == BadRequest(Mensagens(old(main.notificador.notificacoes)) + [LoginErrorMessage]))
    {
      if !main.modelState.isValid {
        r := main.CustomResponse(Some(LoginModel(model)));
        return;
      }
      var result := signInManager.passwordSignIn(model.email, model.password, false, true);
      if result.succeeded {
        var token := GerarJwt(model.email, src);
        r := main.CustomResponse(Some(Token(token)));
        return;
      }
      if result.isLockedOut {
        main.NotificarErro(LockedOutMessage);
        r := main.CustomResponse(Some(LoginModel(model)));
        MensagensAppend(old(main.notificador.notificacoes), [Notificacao(LockedOutMessage)]);
        return;
      }
      main.NotificarErro(LoginErrorMessage);
      r := main.CustomResponse(Some(LoginModel(model)));
      MensagensAppend(old(main.notificador.notificacoes), [Notificacao(LoginErrorMessage)]);
    }
  }
}
