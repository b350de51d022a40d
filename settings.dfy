/** `MyAppSettings`, the "AppSettings" configuration section bound once at start-up. */
module Settings {

  /**
   * `secret`: key the tokens are signed with; `expiracaoHora`: hours a token stays valid;
   * `emissor`: the token issuer; `validoEm`: the audience the token is valid for.
   */
  datatype MyAppSettings = MyAppSettings(
    secret: string,
    expiracaoHora: int,
    emissor: string,
    validoEm: string)
}
