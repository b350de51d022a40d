/**
 * `MainAPIController`, the base of every API controller: it wires the
 * request's notifier and user, shapes every response from the notifier's
 * state, and funnels model-validation errors into the notifier.
 */
module MainApi {
  import opened Wrappers
  import opened Notifications

  /** `System.Guid`, by its text form. */
  type Guid = string

  /** `default(Guid)`, the value `UsuarioId` keeps for an anonymous user. */
  const EmptyGuid: Guid := "00000000-0000-0000-0000-000000000000"

  /**
   * `IUser`, the request's user as the controller sees it (its
   * implementation reads the HTTP context and is not part of this model).
   */
  class AppUser {
    const authenticated: bool
    const userId: Guid

    constructor (authenticated: bool, userId: Guid)
      ensures this.authenticated == authenticated && this.userId == userId
    {
      this.authenticated := authenticated;
      this.userId := userId;
    }

    predicate IsAuthenticated() { authenticated }

    function GetUserId(): Guid { userId }
  }

  /**
   * The response `CustomResponse` builds:
   * `Ok(data)` is HTTP 200 with body `{ success = true, data }`;
   * `BadRequest(errors)` is HTTP 400 with body `{ sucess = false, errors }`
   * (the failure body's key is spelled "sucess").
   */
  datatype Envelope<T> = Ok(data: Option<T>) | BadRequest(errors: seq<string>)
  {
    function StatusCode(): int { if Ok? then 200 else 400 }

    /** The name of the boolean key in the JSON body. */
    function FlagKey(): string { if Ok? then "success" else "sucess" }

    function Flag(): bool { Ok? }
  }

  /** `System.Exception`, by its message. */
  datatype Exception = Exception(message: string)

  /** `ModelError`: a binding or validation error, possibly caused by an exception. */
  datatype ModelError = ModelError(errorMessage: string, exception: Option<Exception>)

  /** `ModelStateEntry`: the errors recorded against one bound field. */
  datatype ModelStateEntry = ModelStateEntry(key: string, errors: seq<ModelError>)

  /**
   * `ModelStateDictionary`: its entries in enumeration order and its
   * `IsValid` verdict, which the binding layer computes.
   */
  datatype ModelStateDictionary = ModelStateDictionary(values: seq<ModelStateEntry>, isValid: bool)

  /** The dictionary a controller starts with: nothing bound, valid. */
  const EmptyModelState := ModelStateDictionary([], true)

  /** `modelState.Values.SelectMany(e => e.Errors)`. */
  function AllErrors(values: seq<ModelStateEntry>): seq<ModelError>
  {
    if values == [] then [] else values[0].errors + AllErrors(values[1..])
  }

  /** The message recorded for one error: the exception's when there is one, else its own. */
  function ErrorText(e: ModelError): string
  {
    if e.exception == None then e.errorMessage else e.exception.value.message
  }

  function ErrorTexts(errors: seq<ModelError>): seq<string>
  {
    seq(|errors|, i requires 0 <= i < |errors| => ErrorText(errors[i]))
  }

  /** The messages `NotificarErroModelInvalida` records for `values`, in order. */
  function FlattenedMessages(values: seq<ModelStateEntry>): seq<string>
  {
    ErrorTexts(AllErrors(values))
  }

  /** Flattening the entries of two dictionaries one after the other flattens each in turn. */
  lemma {:induction false} FlattenedMessagesAppend(a: seq<ModelStateEntry>, b: seq<ModelStateEntry>)
    ensures FlattenedMessages(a + b) == FlattenedMessages(a) + FlattenedMessages(b)
  {
    AllErrorsAppend(a, b);
    assert ErrorTexts(AllErrors(a) + AllErrors(b)) == ErrorTexts(AllErrors(a)) + ErrorTexts(AllErrors(b));
  }

  lemma {:induction false} AllErrorsAppend(a: seq<ModelStateEntry>, b: seq<ModelStateEntry>)
    ensures AllErrors(a + b) == AllErrors(a) + AllErrors(b)
  {
    if a == [] {
      assert a + b == b;
    } else {
      assert (a + b)[1..] == a[1..] + b;
      AllErrorsAppend(a[1..], b);
    }
  }

  /**
   * Every error of every entry yields exactly one message: the entry-by-entry
   * messages, concatenated, are the flattened list.
   */
  lemma {:induction false} FlattenedMessagesPerEntry(values: seq<ModelStateEntry>)
    ensures |FlattenedMessages(values)| == |AllErrors(values)|
    ensures values != [] ==>
      FlattenedMessages(values) == ErrorTexts(values[0].errors) + FlattenedMessages(values[1..])
  {
    if values != [] {
      assert ErrorTexts(values[0].errors + AllErrors(values[1..]))
          == ErrorTexts(values[0].errors) + ErrorTexts(AllErrors(values[1..]));
    }
  }

  /**
   * A field "email" with one error and a field "password" with two give
   * three messages, field by field and in order; an error caused by an
   * exception contributes the exception's message.
   */
  lemma FlattenedMessagesExample(cause: string)
    ensures FlattenedMessages([
      ModelStateEntry("email", [ModelError("required", None)]),
      ModelStateEntry("password", [ModelError("too short", None), ModelError("no digit", None)]),
      ModelStateEntry("age", [ModelError("", Some(Exception(cause)))])])
      == ["required", "too short", "no digit", cause]
  {
    var e := ModelStateEntry("email", [ModelError("required", None)]);
    var p := ModelStateEntry("password", [ModelError("too short", None), ModelError("no digit", None)]);
    var a := ModelStateEntry("age", [ModelError("", Some(Exception(cause)))]);
    assert [e, p, a][1..] == [p, a];
    assert [p, a][1..] == [a];
    assert [a][1..] == [];
    assert AllErrors([a]) == a.errors;
    assert AllErrors([p, a]) == p.errors + a.errors;
    assert AllErrors([e, p, a]) == e.errors + p.errors + a.errors;
  }

  /** What the notifier tells the controller, and what the controller knows of its user. */
  class MainApiController {
    const notificador: Notificador
    const appUser: AppUser
    var usuarioId: Guid
    var usuarioAutenticado: bool
    /** `ControllerBase.ModelState`, filled by model binding before an action runs. */
    var modelState: ModelStateDictionary

    /**
     * An authenticated user's id and flag are copied; an anonymous user
     * leaves both at their defaults.
     */
    constructor (notificador: Notificador, appUser: AppUser)
      ensures this.notificador == notificador && this.appUser == appUser
      ensures usuarioAutenticado == appUser.authenticated
      ensures usuarioId == if appUser.authenticated then appUser.userId else EmptyGuid
      ensures modelState == EmptyModelState
    {
      this.notificador := notificador;
      this.appUser := appUser;
      usuarioId := EmptyGuid;
      usuarioAutenticado := false;
      modelState := EmptyModelState;
      new;
      if appUser.IsAuthenticated() {
        usuarioId := appUser.GetUserId();
        usuarioAutenticado := true;
      }
    }

    /** `!TemNotificacao()`: the operation is valid exactly while nothing has been recorded. */
    predicate OperacaoValida()
      reads this, notificador
      ensures OperacaoValida() <==> notificador.notificacoes == []
    {
      !notificador.TemNotificacao()
    }

    /**
     * `CustomResponse(result)`: with no notification the result goes out in a
     * 200 success body; otherwise a 400 body lists every notification's
     * message in recording order and the result is dropped.
     */
    function CustomResponse<T>(result: Option<T>): (r: Envelope<T>)
      reads this, notificador
      ensures r.Ok? <==> notificador.notificacoes == []
      ensures r.Ok? ==> r.data == result && r.StatusCode() == 200 && r.FlagKey() == "success" && r.Flag()
      ensures r.BadRequest? ==>
        r.errors == Mensagens(notificador.notificacoes) && |r.errors| == |notificador.notificacoes|
        && r.StatusCode() == 400 && r.FlagKey() == "sucess" && !r.Flag()
    {
      if OperacaoValida() then Ok(result)
      else BadRequest(Mensagens(notificador.ObterNotificacoes()))
    }

    /**
     * `CustomResponse(modelState)`: when the controller's own `ModelState` is
     * invalid, the argument's errors are recorded; then the response is shaped
     * with no result.
     */
    method CustomResponseModelState<T>(modelState: ModelStateDictionary) returns (r: Envelope<T>)
      modifies notificador
      ensures notificador.notificacoes == old(notificador.notificacoes) +
        (if this.modelState.isValid then [] else ToNotificacoes(FlattenedMessages(modelState.values)))
      ensures r == CustomResponse(None)
    {
      if !this.modelState.isValid {
        NotificarErroModelInvalida(modelState);
      }
      r := CustomResponse(None);
    }

    /** Records one notification per model error, across all entries, in enumeration order. */
    method NotificarErroModelInvalida(modelState: ModelStateDictionary)
      modifies notificador
      ensures notificador.notificacoes ==
        old(notificador.notificacoes) + ToNotificacoes(FlattenedMessages(modelState.values))
    {
      var todosErros := AllErrors(modelState.values);
      for i := 0 to |todosErros|
        invariant notificador.notificacoes ==
          old(notificador.notificacoes) + ToNotificacoes(ErrorTexts(todosErros[..i]))
      {
        var erro := todosErros[i];
        var errorMessage := ErrorText(erro);
        NotificarErro(errorMessage);
        assert ErrorTexts(todosErros[..i + 1]) == ErrorTexts(todosErros[..i]) + [errorMessage];
      }
      assert todosErros[..|todosErros|] == todosErros;
    }

    /** Records exactly one notification carrying `errorMsg`; nothing else changes. */
    method NotificarErro(errorMsg: string)
      modifies notificador
      ensures notificador.notificacoes == old(notificador.notificacoes) + [Notificacao(errorMsg)]
    {
      var notificacaoErro := Notificacao(errorMsg);
      notificador.Handle(notificacaoErro);
    }
  }

  /** `ArgumentNullException`, by the name of the missing argument. */
  datatype Construction = Constructed(controller: MainApiController) | ArgumentNullException(paramName: string)

  /**
   * Constructing the base with a missing notifier or user throws
   * `ArgumentNullException` naming the first missing argument.
   */
  method Construct(notificador: Notificador?, appUser: AppUser?) returns (r: Construction)
    ensures notificador == null ==> r == ArgumentNullException("notificador")
    ensures notificador != null && appUser == null ==> r == ArgumentNullException("appUser")
    ensures notificador != null && appUser != null ==>
      r.Constructed? && fresh(r.controller)
      && r.controller.notificador == notificador && r.controller.appUser == appUser
      && r.controller.usuarioAutenticado == appUser.authenticated
      && r.controller.usuarioId == (if appUser.authenticated then appUser.userId else EmptyGuid)
  {
    if notificador == null {
      return ArgumentNullException("notificador");
    }
    if appUser == null {
      return ArgumentNullException("appUser");
    }
    var c := new MainApiController(notificador, appUser);
    r := Constructed(c);
  }

  /**
   * The notifier only grows, so once an operation has stopped being valid it
   * stays invalid for the rest of the request.
   */
  twostate lemma InvalidStaysInvalid(c: MainApiController)
    requires old(c.notificador.notificacoes) <= c.notificador.notificacoes
    ensures !old(c.OperacaoValida()) ==> !c.OperacaoValida()
  {
  }
}
