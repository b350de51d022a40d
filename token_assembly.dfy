/**
 * The part of `GerarJwt` that both `AuthController`s share: the claim list
 * the token carries and the descriptor it is signed from. Section 4.1 of
 * RFC 7519 names the registered claims used here. Signing and serialising
 * the token are left to the injected `writeToken`.
 */
module TokenAssembly {
  import opened Strings
  import opened Claims
  import opened Settings
  import opened Identity

  /** `JwtRegisteredClaimNames.Sub`, `.Email`, `.Jti`, `.Nbf`, `.Iat`. */
  const SubClaim := "sub"
  const EmailClaim := "email"
  const JtiClaim := "jti"
  const NbfClaim := "nbf"
  const IatClaim := "iat"

  /** The claim type each role is issued under. */
  const RoleClaim := "role"

  /** `SecurityAlgorithms.HmacSha256Signature`. */
  const HmacSha256Signature := "http://www.w3.org/2001/04/xmldsig-more#hmac-sha256"

  const SecondsPerHour := 3600

  /**
   * The three readings of `DateTime.UtcNow` one `GerarJwt` makes, in epoch
   * seconds: for `nbf`, for `iat`, and for the expiry.
   */
  datatype ClockReads = ClockReads(nbf: int, iat: int, expires: int)

  /** `SigningCredentials`: key bytes and algorithm. */
  datatype SigningCredentials = SigningCredentials(key: seq<byte>, algorithm: string)

  /** `SecurityTokenDescriptor`, the fields `GerarJwt` sets. */
  datatype TokenDescriptor = TokenDescriptor(
    issuer: string,
    audience: string,
    expires: int,
    signingCredentials: SigningCredentials,
    subject: seq<Claim>)

  /**
   * Where a token's non-deterministic parts come from: the id
   * `Guid.NewGuid()` draws for `jti`, the clock readings, and
   * `JwtSecurityTokenHandler` creating and writing the signed token.
   */
  datatype TokenSources = TokenSources(newGuid: string, clock: ClockReads, writeToken: TokenDescriptor -> string)

  /** The five claims added after the stored ones, in the order they are added. */
  function RegisteredClaims(userId: string, email: string, jti: string, nbf: int, iat: int): seq<Claim>
  {
    [ NewClaim(SubClaim, userId),
      NewClaim(EmailClaim, email),
      NewClaim(JtiClaim, jti),
      NewClaim(NbfClaim, IntToString(nbf)),
      Claim(IatClaim, IntToString(iat), Integer64ValueType) ]
  }

  /** One "role" claim per role, in role order. */
  function RoleClaims(roles: seq<string>): seq<Claim>
  {
    seq(|roles|, i requires 0 <= i < |roles| => NewClaim(RoleClaim, roles[i]))
  }

  /** The claim list a token is issued with. */
  function TokenClaims(stored: seq<Claim>, userId: string, email: string, jti: string,
                       nbf: int, iat: int, roles: seq<string>): seq<Claim>
  {
    stored + RegisteredClaims(userId, email, jti, nbf, iat) + RoleClaims(roles)
  }

  /**
   * `claims.Add` of the five registered claims onto the user's stored claims,
   * then of one "role" claim per role.
   */
  method AssembleClaims(stored: seq<Claim>, userId: string, email: string, jti: string,
                        nbf: int, iat: int, roles: seq<string>) returns (claims: seq<Claim>)
    ensures claims == TokenClaims(stored, userId, email, jti, nbf, iat, roles)
  {
    claims := stored;
    claims := claims + [NewClaim(SubClaim, userId)];
    claims := claims + [NewClaim(EmailClaim, email)];
    claims := claims + [NewClaim(JtiClaim, jti)];
    claims := claims + [NewClaim(NbfClaim, IntToString(nbf))];
    claims := claims + [Claim(IatClaim, IntToString(iat), Integer64ValueType)];
    for i := 0 to |roles|
      invariant claims == stored + RegisteredClaims(userId, email, jti, nbf, iat) + RoleClaims(roles[..i])
    {
      claims := claims + [NewClaim(RoleClaim, roles[i])];
      assert RoleClaims(roles[..i + 1]) == RoleClaims(roles[..i]) + [NewClaim(RoleClaim, roles[i])];
    }
    assert roles[..|roles|] == roles;
  }

  /**
   * The claims of a token issued to `user`: its stored claims, the registered
   * claims with the drawn id and clock readings, then its roles.
   */
  function IssuedClaims(userManager: UserManager, user: IdentityUser, src: TokenSources): seq<Claim>
  {
    TokenClaims(userManager.getClaims(user), user.id, user.email, src.newGuid, src.clock.nbf, src.clock.iat,
                userManager.getRoles(user))
  }

  /**
   * The stored claims come first and unchanged; then `sub`, `email`, `jti`,
   * `nbf` and `iat`; then the roles in order: |stored| + 5 + |roles| claims.
   */
  lemma TokenClaimsLayout(stored: seq<Claim>, userId: string, email: string, jti: string,
                          nbf: int, iat: int, roles: seq<string>)
    ensures var c := TokenClaims(stored, userId, email, jti, nbf, iat, roles);
      var n := |stored|;
      && |c| == n + 5 + |roles|
      && c[..n] == stored
      && c[n] == NewClaim(SubClaim, userId)
      && c[n + 1] == NewClaim(EmailClaim, email)
      && c[n + 2] == NewClaim(JtiClaim, jti)
      && c[n + 3] == NewClaim(NbfClaim, IntToString(nbf))
      && c[n + 4] == Claim(IatClaim, IntToString(iat), Integer64ValueType)
      && forall k :: 0 <= k < |roles| ==> c[n + 5 + k] == NewClaim(RoleClaim, roles[k])
  {
  }

  /**
   * Two tokens issued with different ids differ, and only in the `jti` claim:
   * everything else, subject, e-mail and roles included, is identical.
   */
  lemma JtiIsTheOnlyDifference(stored: seq<Claim>, userId: string, email: string, jti1: string, jti2: string,
                               nbf: int, iat: int, roles: seq<string>)
    requires jti1 != jti2
    ensures var c1 := TokenClaims(stored, userId, email, jti1, nbf, iat, roles);
      var c2 := TokenClaims(stored, userId, email, jti2, nbf, iat, roles);
      && |c1| == |c2|
      && c1[|stored| + 2].value == jti1 && c2[|stored| + 2].value == jti2
      && c1 != c2
      && forall k :: 0 <= k < |c1| && k != |stored| + 2 ==> c1[k] == c2[k]
  {
    var c1 := TokenClaims(stored, userId, email, jti1, nbf, iat, roles);
    var c2 := TokenClaims(stored, userId, email, jti2, nbf, iat, roles);
    assert c1[|stored| + 2] != c2[|stored| + 2];
  }

  /** The values of the claims of type `t`, in order: what a reader of the token finds under `t`. */
  function ValuesOfType(claims: seq<Claim>, t: string): seq<string>
  {
    if claims == [] then []
    else (if claims[0].claimType == t then [claims[0].value] else []) + ValuesOfType(claims[1..], t)
  }

  lemma {:induction false} ValuesOfTypeAppend(a: seq<Claim>, b: seq<Claim>, t: string)
    ensures ValuesOfType(a + b, t) == ValuesOfType(a, t) + ValuesOfType(b, t)
  {
    if a == [] {
      assert a + b == b;
    } else {
      assert (a + b)[1..] == a[1..] + b;
      ValuesOfTypeAppend(a[1..], b, t);
    }
  }

  lemma {:induction false} RoleClaimsValues(roles: seq<string>, t: string)
    ensures ValuesOfType(RoleClaims(roles), t) == if t == RoleClaim then roles else []
  {
    if roles != [] {
      assert RoleClaims(roles)[1..] == RoleClaims(roles[1..]);
      RoleClaimsValues(roles[1..], t);
    }
  }

  /**
   * Reading the issued claims back by type: the roles under "role", the user
   * id under "sub", the e-mail under "email", and the two instants under
   * "nbf" and "iat" (parsed back to the same epoch seconds), each after
   * whatever the stored claims already held under that type.
   */
  lemma {:induction false} TokenClaimsReadBack(stored: seq<Claim>, userId: string, email: string, jti: string,
                                               nbf: int, iat: int, roles: seq<string>)
    ensures var c := TokenClaims(stored, userId, email, jti, nbf, iat, roles);
      && ValuesOfType(c, RoleClaim) == ValuesOfType(stored, RoleClaim) + roles
      && ValuesOfType(c, SubClaim) == ValuesOfType(stored, SubClaim) + [userId]
      && ValuesOfType(c, EmailClaim) == ValuesOfType(stored, EmailClaim) + [email]
      && ValuesOfType(c, JtiClaim) == ValuesOfType(stored, JtiClaim) + [jti]
      && ParseInt(c[|stored| + 3].value) == nbf
      && ParseInt(c[|stored| + 4].value) == iat
  {
    var reg := RegisteredClaims(userId, email, jti, nbf, iat);
    forall t | t in {RoleClaim, SubClaim, EmailClaim, JtiClaim}
      ensures ValuesOfType(TokenClaims(stored, userId, email, jti, nbf, iat, roles), t)
           == ValuesOfType(stored, t) + ValuesOfType(reg, t) + (if t == RoleClaim then roles else [])
    {
      ValuesOfTypeAppend(stored + reg, RoleClaims(roles), t);
      ValuesOfTypeAppend(stored, reg, t);
      RoleClaimsValues(roles, t);
    }
    RegisteredValues(userId, email, jti, nbf, iat);
    IntToStringRoundTrip(nbf);
    IntToStringRoundTrip(iat);
  }

  /** Under each of the types `sub`, `email` and `jti` the registered claims hold one value, and no role. */
  lemma RegisteredValues(userId: string, email: string, jti: string, nbf: int, iat: int)
    ensures var reg := RegisteredClaims(userId, email, jti, nbf, iat);
      && ValuesOfType(reg, SubClaim) == [userId]
      && ValuesOfType(reg, EmailClaim) == [email]
      && ValuesOfType(reg, JtiClaim) == [jti]
      && ValuesOfType(reg, RoleClaim) == []
  {
    RegisteredValuesOf(userId, email, jti, nbf, iat, SubClaim);
    RegisteredValuesOf(userId, email, jti, nbf, iat, EmailClaim);
    RegisteredValuesOf(userId, email, jti, nbf, iat, JtiClaim);
    RegisteredValuesOf(userId, email, jti, nbf, iat, RoleClaim);
  }

  lemma RegisteredValuesOf(userId: string, email: string, jti: string, nbf: int, iat: int, t: string)
    ensures ValuesOfType(RegisteredClaims(userId, email, jti, nbf, iat), t)
         == (if t == SubClaim then [userId] else [])
          + (if t == EmailClaim then [email] else [])
          + (if t == JtiClaim then [jti] else [])
          + (if t == NbfClaim then [IntToString(nbf)] else [])
          + (if t == IatClaim then [IntToString(iat)] else [])
  {
    var a, b, c := NewClaim(SubClaim, userId), NewClaim(EmailClaim, email), NewClaim(JtiClaim, jti);
    var d, e := NewClaim(NbfClaim, IntToString(nbf)), Claim(IatClaim, IntToString(iat), Integer64ValueType);
    assert RegisteredClaims(userId, email, jti, nbf, iat) == [a] + [b] + [c] + [d] + [e];
    ValuesOfTypeAppend([a] + [b] + [c] + [d], [e], t);
    ValuesOfTypeAppend([a] + [b] + [c], [d], t);
    ValuesOfTypeAppend([a] + [b], [c], t);
    ValuesOfTypeAppend([a], [b], t);
    ValuesOfTypeSingle(a, t);
    ValuesOfTypeSingle(b, t);
    ValuesOfTypeSingle(c, t);
    ValuesOfTypeSingle(d, t);
    ValuesOfTypeSingle(e, t);
  }

  lemma ValuesOfTypeSingle(c: Claim, t: string)
    ensures ValuesOfType([c], t) == if c.claimType == t then [c.value] else []
  {
    assert [c][1..] == [];
  }

  /** With no role among the stored claims, the roles read back are exactly those issued. */
  lemma RolesReadBackExactly(stored: seq<Claim>, userId: string, email: string, jti: string,
                             nbf: int, iat: int, roles: seq<string>)
    requires forall i :: 0 <= i < |stored| ==> stored[i].claimType != RoleClaim
    ensures ValuesOfType(TokenClaims(stored, userId, email, jti, nbf, iat, roles), RoleClaim) == roles
  {
    TokenClaimsReadBack(stored, userId, email, jti, nbf, iat, roles);
    NoValuesOfAbsentType(stored, RoleClaim);
  }

  lemma {:induction false} NoValuesOfAbsentType(claims: seq<Claim>, t: string)
    requires forall i :: 0 <= i < |claims| ==> claims[i].claimType != t
    ensures ValuesOfType(claims, t) == []
  {
    if claims != [] {
      NoValuesOfAbsentType(claims[1..], t);
    }
  }

  /**
   * The descriptor of a token: issuer `Emissor`, audience `ValidoEm`, expiry
   * `ExpiracaoHora` hours after the clock reading `now`, signed with
   * HMAC-SHA-256 under the ASCII bytes of `Secret`, and carrying `claims`.
   */
  function Descriptor(settings: MyAppSettings, now: int, claims: seq<Claim>): TokenDescriptor
  {
    TokenDescriptor(
      settings.emissor,
      settings.validoEm,
      now + settings.expiracaoHora * SecondsPerHour,
      SigningCredentials(AsciiBytes(settings.secret), HmacSha256Signature),
      claims)
  }

  /**
   * When the clock gives one instant to all three readings, the token expires
   * exactly `ExpiracaoHora` hours (3600 seconds per hour) after the instant
   * its `iat` claim states, and becomes valid at that same instant.
   */
  lemma ExpiryWindow(settings: MyAppSettings, stored: seq<Claim>, userId: string, email: string,
                     jti: string, now: int, roles: seq<string>)
    ensures var c := TokenClaims(stored, userId, email, jti, now, now, roles);
      var d := Descriptor(settings, now, c);
      && d.expires - ParseInt(c[|stored| + 4].value) == settings.expiracaoHora * 3600
      && ParseInt(c[|stored| + 3].value) == ParseInt(c[|stored| + 4].value)
      && d.subject == c
  {
    TokenClaimsReadBack(stored, userId, email, jti, now, now, roles);
  }
}
