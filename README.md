# Notifications, claims authorization and token issuance of the DevIO API

This project models the small core of the DevIO administration API (an ASP.NET Core
backend for suppliers and products) that holds real logic, and proves properties of it
in Dafny:

- **Notifier and response shaping** (`MainAPIController`). A request-scoped notifier
  (`INotificador`) collects error messages. `NotificarErro` records one message.
  `NotificarErroModelInvalida` flattens model-state errors into messages.
  `CustomResponse` turns the notifier's state into a uniform envelope:
  `{ success = true, data }` (200) or `{ sucess = false, errors }` (400). The failure
  key is misspelled in the code, and the model keeps that spelling.
- **Claims authorization** (`CustomAuthorization`, `RequisitoClaimFilter`,
  `ClaimsAuthorizeAttribute`, `testeFilter`). The user passes when it is authenticated
  and holds a claim of exactly the required type whose value *contains* the required
  value. The filter answers 401, 403, or lets the action run.
- **Login, registration and token assembly** (both `AuthController`s). `GerarJwt` builds
  the claim list: the user's stored claims, then `sub`, `email`, `jti`, `nbf` and `iat`
  (the registered claims of section 4.1 of RFC 7519), then one `role` claim per role.
  It also builds the token descriptor: issuer, audience, expiry, and an HMAC-SHA-256 key
  made from the secret. `Login` and `Registrar` branch on the Identity results and record
  fixed or derived messages.

Modules, one per source file or component: `Wrappers` (Option), `Strings` (ordinal
`Contains`, `long.ToString` and its inverse, `Encoding.ASCII.GetBytes`), `Claims`,
`Settings` (`MyAppSettings`), `Notifications` (the notifier), `MainApi`
(`MainAPIController`), `CustomAuthorization`, `Identity` (what Identity reports),
`TokenAssembly` (the claim list and descriptor shared by both `GerarJwt`s), `AuthV1`
(`Version1/Controllers/AuthController.cs`) and `AuthUnversioned`
(`Controllers/AuthController.cs`).

Modelling choices:

- The notifier and the controllers are classes, because the code updates them in place.
  An `AuthController` holds its `MainAPIController` part as the field `main`, since Dafny
  has no class inheritance.
- The Identity services, the clock, the GUID source and the token writer are inputs.
  The Identity services are functions from their arguments to the result they reported.
  `TokenSources` holds the GUID drawn for `jti`, the three clock readings, and the
  `writeToken` function that signs and serialises a descriptor.
- Time is in integer epoch seconds.
- The unversioned `AuthController` calls `base(notificador)` with one argument. The base
  class in `Controller/MainAPIController.cs:24-35` takes two. The model gives both
  controllers the two-argument base, and so the unversioned constructor also takes the
  user.
- `CustomResponse(ModelStateDictionary modelState)` decides whether to flatten errors
  by testing the controller's own `ModelState.IsValid`, not its argument. The model
  does the same: it tests the field `modelState.isValid` and flattens the argument.

Where the code departs from the intended design, the model follows the code:

- The failure envelope's key is `sucess`, not `success`.
- `Login` with an invalid model does not record the model-state errors. It calls
  `CustomResponse(model)`, so with an empty notifier it answers 200 with the model as
  data.
- Roles are a list, so order is kept and duplicates repeat.
- The token's claim list also carries every stored claim of the user. When a stored
  claim already has type `role`, `sub`, `email` or `jti`, someone reading the token by
  type sees that stored value first (`TokenAssembly.TokenClaimsReadBack`).
- A failed `Registrar` whose result lists no errors, with an empty notifier, answers
  200 with the submitted model.

## Model

| member | source | states |
|---|---|---|
| `MainApi.MainApiController.constructor` | src/DevIO.Api/Controller/MainAPIController.cs:24-35 | Keeps the notifier and user. `UsuarioAutenticado` is true and `UsuarioId` is the user's id exactly when the user is authenticated. Otherwise they keep `false` and the empty GUID. ModelState starts empty and valid. |
| `MainApi.Construct` | src/DevIO.Api/Controller/MainAPIController.cs:24-33 | A null notifier gives `ArgumentNullException("notificador")`. Otherwise a null user gives `ArgumentNullException("appUser")`. Otherwise it returns a fresh controller with the fields set as the constructor sets them. |
| `MainApi.MainApiController.OperacaoValida` | src/DevIO.Api/Controller/MainAPIController.cs:41-44 | The operation is valid iff the notifier holds no notification. |
| `MainApi.MainApiController.CustomResponse` | src/DevIO.Api/Controller/MainAPIController.cs:46-65 | The envelope is a success iff there is no notification. A success carries exactly `result`, status 200 and key `success`. Otherwise it is a 400 with key `sucess` whose errors are every recorded message in recording order (one per notification), and the result is dropped. |
| `MainApi.MainApiController.CustomResponseModelState` | src/DevIO.Api/Controller/MainAPIController.cs:67-75 | Appends the argument's flattened messages iff the controller's own ModelState is invalid, otherwise records nothing. Then it shapes the envelope with null data from the new notifier state. |
| `MainApi.MainApiController.NotificarErroModelInvalida` | src/DevIO.Api/Controller/MainAPIController.cs:77-91 | Appends one notification per model error across all entries, in enumeration order: the exception's message when there is one, otherwise the error message. Earlier notifications are kept. |
| `MainApi.MainApiController.NotificarErro` | src/DevIO.Api/Controller/MainAPIController.cs:93-100 | Appends exactly one notification carrying the message and changes nothing else. |
| `MainApi.InvalidStaysInvalid` | src/DevIO.Api/Controller/MainAPIController.cs:41-44 | When the notifier only grew between two states, an operation that was invalid in the first is still invalid in the second. |
| `MainApi.FlattenedMessagesAppend` | src/DevIO.Api/Controller/MainAPIController.cs:80-86 | Flattening two runs of entries one after the other gives the first run's messages followed by the second's. |
| `MainApi.FlattenedMessagesPerEntry` | src/DevIO.Api/Controller/MainAPIController.cs:80-86 | There is one message per model error. The messages come entry by entry: the first entry's errors, then the rest. |
| `MainApi.FlattenedMessagesExample` | src/DevIO.Api/Controller/MainAPIController.cs:80-86 | Fields `email` (one error), `password` (two) and an error caused by an exception give four messages, field by field: `required`, `too short`, `no digit`, then the exception's message. |
| `Notifications.Mensagens` | src/DevIO.Api/Controller/MainAPIController.cs:61 | The error list has one message per notification, each the notification's `Mensagem`, in the same order. |
| `Notifications.Notificador.Handle` | src/DevIO.Api/Controller/MainAPIController.cs:96-98 | Recording a notification appends it after all earlier ones. |
| `Strings.Contains` | src/DevIO.Api/Extensions/CustomAuthorization.cs:19 | `s.Contains(sub)` is true iff `sub` occurs in `s` at some position. The empty string occurs everywhere. |
| `Strings.ContainsInfix` | src/DevIO.Api/Extensions/CustomAuthorization.cs:19 | A string contains every infix, whatever text surrounds it. |
| `Strings.IntToString` | src/DevIO.Api/Version1/Controllers/AuthController.cs:142-144 | The `nbf`/`iat` claim value is a decimal numeral. It starts with `-` iff the instant is negative. |
| `Strings.IntToStringRoundTrip` | src/DevIO.Api/Version1/Controllers/AuthController.cs:142-144 | Parsing the formatted epoch seconds gives back the same number. |
| `Strings.IntToStringInjective` | src/DevIO.Api/Version1/Controllers/AuthController.cs:142-144 | Distinct instants are written as distinct claim values. |
| `Strings.AsciiRoundTrip` | src/DevIO.Api/Version1/Controllers/AuthController.cs:156 | The key has one byte per character of the secret. Its bytes spell the secret back iff the secret is plain ASCII, because other characters become `?`. |
| `CustomAuthorization.AnySatisfies` | src/DevIO.Api/Extensions/CustomAuthorization.cs:19 | `Any` is true iff some claim has exactly the required type and a value that contains the required value. |
| `CustomAuthorization.ValidarClaimsUsuario` | src/DevIO.Api/Extensions/CustomAuthorization.cs:16-20 | True iff the user is authenticated and some claim has type equal to `claimName` and a value in which `claimValue` occurs. |
| `CustomAuthorization.ContainmentSatisfies` | src/DevIO.Api/Extensions/CustomAuthorization.cs:19 | An authenticated user holding a claim of the required type whose value is any text around the required value passes. Value matching is containment, not equality. |
| `CustomAuthorization.OtherTypesNeverSatisfy` | src/DevIO.Api/Extensions/CustomAuthorization.cs:19 | If no claim has exactly the required type, the user fails, whatever the values. |
| `CustomAuthorization.UnauthenticatedNeverSatisfies` | src/DevIO.Api/Extensions/CustomAuthorization.cs:18 | An unauthenticated user fails whatever claims it holds. |
| `CustomAuthorization.SupplierEditorMayAddAndUpdate` | src/DevIO.Api/Extensions/CustomAuthorization.cs:19 | The claim `Fornecedor = "Adicionar,Atualizar"` grants `("Fornecedor", "Adicionar")` and `("Fornecedor", "Atualizar")`. |
| `CustomAuthorization.SupplierEditorMayNotDelete` | src/DevIO.Api/Extensions/CustomAuthorization.cs:19 | The same claim does not grant `("Fornecedor", "Excluir")`, nor `("Produto", "Adicionar")`. |
| `CustomAuthorization.RequisitoClaimFilter.constructor` | src/DevIO.Api/Extensions/CustomAuthorization.cs:36-39 | The filter keeps the claim it is given as its requirement. |
| `CustomAuthorization.RequisitoClaimFilter.OnAuthorization` | src/DevIO.Api/Extensions/CustomAuthorization.cs:41-53 | An unauthenticated user gets result 401, decided before any claim check. An authenticated user failing the claim check gets 403. A user passing it leaves the result as it was, so the action runs. |
| `CustomAuthorization.ClaimsAuthorizeAttribute.constructor` | src/DevIO.Api/Extensions/CustomAuthorization.cs:26-29 | The attribute's filter arguments are exactly one claim, `(claimName, claimValue)`. |
| `CustomAuthorization.ClaimsAuthorizeAttribute.CreateInstance` | src/DevIO.Api/Extensions/CustomAuthorization.cs:26-28 | The filter built from the attribute is a fresh `RequisitoClaimFilter` requiring that one claim. |
| `CustomAuthorization.TesteFilter.OnAuthorization` | src/DevIO.Api/Extensions/CustomAuthorization.cs:70-83 | Never sets a result, so every request goes through. |
| `TokenAssembly.AssembleClaims` | src/DevIO.Api/Version1/Controllers/AuthController.cs:133-150 | The successive `claims.Add` calls and the loop over roles produce exactly the token's claim list. |
| `TokenAssembly.TokenClaimsLayout` | src/DevIO.Api/Version1/Controllers/AuthController.cs:133-150 | The list has \|stored\| + 5 + \|roles\| claims. The stored claims come first, unchanged. Then come `sub` = user id, `email` = user e-mail, `jti`, `nbf` and `iat` (the latter typed `integer64`), then one `role` claim per role, in order. |
| `TokenAssembly.JtiIsTheOnlyDifference` | src/DevIO.Api/Version1/Controllers/AuthController.cs:140 | Two assemblies with different ids differ, and only at the `jti` position. Subject, e-mail and roles are identical. |
| `TokenAssembly.RegisteredValues` | src/DevIO.Api/Version1/Controllers/AuthController.cs:137-144 | The five registered claims hold exactly one value each under `sub`, `email` and `jti`, and none under `role`. |
| `TokenAssembly.TokenClaimsReadBack` | src/DevIO.Api/Version1/Controllers/AuthController.cs:137-150 | Reading the claims by type gives the stored values followed by the issued ones: the roles, the user id, the e-mail and the `jti`. The `nbf` and `iat` values parse back to the clock readings. |
| `TokenAssembly.RolesReadBackExactly` | src/DevIO.Api/Version1/Controllers/AuthController.cs:147-150 | If no stored claim has type `role`, the roles read back from the token are exactly the user's roles, in order. |
| `TokenAssembly.ExpiryWindow` | src/DevIO.Api/Version1/Controllers/AuthController.cs:142-164 | When all clock readings give one instant, the expiry is `ExpiracaoHora` × 3600 seconds after the instant in `iat`, `nbf` equals `iat`, and the descriptor's subject is the claim list. |
| `AuthV1.AuthController.constructor` | src/DevIO.Api/Version1/Controllers/AuthController.cs:41-54 | Builds the base part from the notifier and user as the base constructor does: `UsuarioAutenticado`, and `UsuarioId` set to the user's id only when the user is authenticated, otherwise the empty GUID. Keeps the Identity services and settings. |
| `AuthV1.AuthController.JwtResponseContents` | src/DevIO.Api/Version1/Controllers/AuthController.cs:156-181 | The access token is written from a descriptor with issuer `Emissor`, audience `ValidoEm` and expiry `expiresIn` seconds after the clock reading. `ExpiresIn` = `ExpiracaoHora` × 3600. `UserToken` carries the user's id and e-mail and a view of every claim of the token, in order, \|stored\| + 5 + \|roles\| of them. |
| `AuthV1.AuthController.GerarJwt` | src/DevIO.Api/Version1/Controllers/AuthController.cs:128-185 | Looks up the user by the given e-mail, assembles the claims and returns the response described by `JwtResponseContents`. |
| `AuthV1.AuthController.Registrar` | src/DevIO.Api/Version1/Controllers/AuthController.cs:62-90 | An invalid ModelState goes through `CustomResponse(ModelState)`. Otherwise the user is created with user name and e-mail both the submitted e-mail, already confirmed. Success answers `CustomResponse` with the token response for that e-mail and records nothing. Failure records each error description in order and answers `CustomResponse(model)`. That answer is a 400 listing the earlier messages then the descriptions, whenever any message exists. |
| `AuthV1.AuthController.Login` | src/DevIO.Api/Version1/Controllers/AuthController.cs:98-121 | Branches are tried in order. An invalid ModelState answers `CustomResponse(model)` and records nothing. A successful sign-in answers with the token response and records nothing. A lockout records exactly `Usuario temporariamente bloqueado por tentativas invalidas.` and answers 400. Any other failure records exactly `Login error` and answers 400. Sign-in is asked with the model's e-mail and password, not persistent, with lockout on failure. |
| `AuthUnversioned.AuthController.constructor` | src/DevIO.Api/Controllers/AuthController.cs:30-39 | Builds the base part as the base constructor does (authentication flag, and the user's id only when authenticated, otherwise the empty GUID). Keeps the Identity services and settings. |
| `AuthUnversioned.AuthController.JwtDescriptorContents` | src/DevIO.Api/Controllers/AuthController.cs:127-141 | The descriptor has issuer `Emissor`, audience `ValidoEm`, and expiry `ExpiracaoHora` hours after the clock reading. It is signed HMAC-SHA-256 under the secret's ASCII bytes, and its subject is the found user's assembled claim list. |
| `AuthUnversioned.AuthController.GerarJwt` | src/DevIO.Api/Controllers/AuthController.cs:102-147 | Returns only the token written from that descriptor. |
| `AuthUnversioned.AuthController.Registrar` | src/DevIO.Api/Controllers/AuthController.cs:42-70 | Same branches as version 1. A success's data is the token string. |
| `AuthUnversioned.AuthController.Login` | src/DevIO.Api/Controllers/AuthController.cs:73-95 | Same ordered branches and fixed messages as version 1. A success's data is the token string. |

## Left out

- Signing and serialising the token (`JwtSecurityTokenHandler`, `SymmetricSecurityKey`, HMAC-SHA-256 as in section 3.2 of RFC 7518) is a foreign library call. It is the injected `writeToken`, so the model treats the encoded token as an opaque function of the descriptor. The model builds a descriptor for any secret. That includes an empty secret, for which the `SymmetricSecurityKey` constructor throws `ArgumentException`, and secrets shorter than the library's minimum HMAC key size, which `CreateToken` rejects. The same call also throws `ArgumentException` when `ExpiracaoHora <= 0`, because the code sets `Expires` but no `NotBefore`, and `CreateToken` requires expiry after its own later `UtcNow`. None of these exceptions is modelled: the model still writes a token in each case, so a successful `Login` or `Registrar` answers with it, and `TokenAssembly.ExpiryWindow` then describes a window of zero or negative length.
- `ClaimsIdentity`: the descriptor's subject is the claim list itself.
- `ToUnixEpochDate` works in `double` and uses `Math.Round`. The clock readings are integer epoch seconds supplied by the caller, one for each `DateTime.UtcNow` the code reads (`nbf`, `iat`, expiry). Sub-second time is not modelled.
- Strings.IntToString: writes `-` as the negative sign. `ToString()` with no argument uses the current culture, whose negative sign could differ. This only matters for instants before 1970.
- `ExpiracaoHora` is an unbounded integer. The `OverflowException` / `ArgumentOutOfRangeException` that `TimeSpan.FromHours` and `DateTime.AddHours` throw for huge values are not modelled. `ExpiresIn` is a `double` in the code and an exact integer in the model.
- `async`/`await`, the database behind Identity, `SignInAsync` (it sets the sign-in cookie) and `ILogger.LogInformation` are I/O.
- AuthV1.AuthController.GerarJwt: assumes the lookup by e-mail finds a user. It also returns a token when `ExpiracaoHora <= 0`, where the code throws from `CreateToken` (see above). The code would throw from `GetClaimsAsync` on a null user.
- AuthUnversioned.AuthController.GerarJwt: makes the same assumption. It also returns a token when `ExpiracaoHora <= 0`, where the code throws from `CreateToken` (see above).
- The Identity services are pure functions of their arguments. So `FindByEmailAsync` after `CreateAsync` does not "see" the created user by construction; the caller supplies what the store returns.
- AuthV1.AuthController.constructor: does not model the `ArgumentNullException`s for null services, settings or logger. Datatype values cannot be null. The logger is not modelled at all.
- AuthUnversioned.AuthController.constructor: does not model the null checks either. It takes the user, because the model's base class needs one (see above).
- `ModelState.IsValid` is supplied by the binding layer as a flag. The model does not recompute it from the entries. In `NotificarErroModelInvalida`, the unused `Select(e => e.Errors)` is not modelled.
- CustomAuthorization.TesteFilter.OnAuthorization: the bearer token read with `GetTokenAsync`, and the `sub` and name-identifier claim lookups, are discarded by the code and not modelled.
- Ordinal `String.Contains` compares UTF-16 code units. The model compares Unicode scalar values, which agrees on well-formed strings. `Encoding.ASCII` replacing each non-ASCII scalar with one `?` is assumed for characters outside the Basic Multilingual Plane too.
- The API's other controllers (suppliers, products, test endpoints), start-up, dependency injection, Swagger, health checks and the exception middleware are framework glue. They are outside this core.
