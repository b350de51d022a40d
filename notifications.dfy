/**
 * The request-scoped notifier (`INotificador`) that controllers record error
 * messages in instead of throwing. Its implementation is not part of this
 * model; it is modelled the way the controllers use it: an append-only list
 * whose `TemNotificacao` means "not empty" and whose `ObterNotificacoes`
 * returns the notifications in the order they were recorded.
 */
module Notifications {

  /** `Notificacao`: one flat error message. */
  datatype Notificacao = Notificacao(mensagem: string)

  /** `notificacoes.Select(m => m.Mensagem)`. */
  function Mensagens(ns: seq<Notificacao>): (ms: seq<string>)
    ensures |ms| == |ns|
    ensures forall i :: 0 <= i < |ns| ==> ms[i] == ns[i].mensagem
  {
    if ns == [] then [] else [ns[0].mensagem] + Mensagens(ns[1..])
  }

  lemma MensagensAppend(a: seq<Notificacao>, b: seq<Notificacao>)
    ensures Mensagens(a + b) == Mensagens(a) + Mensagens(b)
  {
    assert forall i :: 0 <= i < |a + b| ==> Mensagens(a + b)[i] == (Mensagens(a) + Mensagens(b))[i];
  }

  /** The notifications that record `ms`, one each, in order. */
  function ToNotificacoes(ms: seq<string>): (ns: seq<Notificacao>)
    ensures Mensagens(ns) == ms
  {
    seq(|ms|, i requires 0 <= i < |ms| => Notificacao(ms[i]))
  }

  class Notificador {
    var notificacoes: seq<Notificacao>

    /** A fresh notifier for a new request holds nothing. */
    constructor ()
      ensures notificacoes == []
    {
      notificacoes := [];
    }

    /** `Handle`: record one notification after all earlier ones. */
    method Handle(notificacao: Notificacao)
      modifies this
      ensures notificacoes == old(notificacoes) + [notificacao]
    {
      notificacoes := notificacoes + [notificacao];
    }

    predicate TemNotificacao()
      reads this
    {
      |notificacoes| > 0
    }

    function ObterNotificacoes(): seq<Notificacao>
      reads this
    {
      notificacoes
    }
  }
}
