/** What the page forms share: the messages a refused form shows, the outcome of a handler,
    and the tests behind `!campo.trim()` and `isNaN(x) || x <= 0`. A number typed in a field
    arrives already parsed: `None` stands for `NaN`. */
module Formularios {
  import opened Common
  import Texto

  /** The error toasts of the forms. */
  datatype Aviso =
    | PreenchaCodigoENome      // "Preencha código e nome"
    | PrecoInvalido            // "Informe um preço válido"
    | QuantidadeInvalida       // "Informe uma quantidade válida"
    | ValorInvalido            // "Informe um valor válido"
    | DescricaoObrigatoria     // "Informe uma descrição"
    | EstoqueInsuficiente      // "Estoque insuficiente"
    | NomeObrigatorio          // "Informe o nome do cliente"
    | PreenchaNomeECargo       // "Preencha nome e cargo"

  /** A handler either goes through, stops with an error toast, or returns silently (no
      entity selected, or the selected one is gone). */
  datatype Desfecho = Aceito | Recusado(aviso: Aviso) | Ignorado

  /** `campo.trim()` is not empty. */
  predicate Preenchido(s: string) {
    Texto.Trim(s) != []
  }

  /** The quantity and value test: a number, and above zero. */
  predicate Positivo(x: Option<int>) {
    x.Some? && x.value > 0
  }

  /** The price and target test: a number, and not below zero. */
  predicate NaoNegativo(x: Option<int>) {
    x.Some? && x.value >= 0
  }

  /** A field is filled exactly when it holds a character that is not white space. */
  lemma PreenchidoSse(s: string)
    ensures Preenchido(s) <==> exists k :: 0 <= k < |s| && !Texto.EhEspaco(s[k])
  {
  }

  /** Leading and trailing blanks do not make a field filled, and one letter does. */
  lemma PreenchidoExemplos()
    ensures !Preenchido("  ")
    ensures Preenchido(" a ")
  {
    assert !Texto.EmBranco(" a ") by { assert !Texto.EhEspaco(" a "[1]); }
  }
}
