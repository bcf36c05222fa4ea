/** The stock status shared by the two stock pages (products and supplies): the
    `alerta` / `sem-estoque` / `normal` tests, the status filter and the search on name or
    code. */
module Situacao {
  import Texto

  /** Low but not empty: `estoque <= minimo && estoque > 0`. */
  predicate EmAlerta(estoque: int, minimo: int) { estoque <= minimo && estoque > 0 }

  /** Empty: `estoque === 0`. */
  predicate SemEstoque(estoque: int) { estoque == 0 }

  /** Above the minimum: `estoque > minimo`. */
  predicate Normal(estoque: int, minimo: int) { estoque > minimo }

  /** The list filter of the stock pages. */
  datatype FiltroTipo = Todos | Alerta | SemEstoqueFiltro | NormalFiltro

  /** The `switch (filtro)` of the list filter; `todos` keeps everything. */
  predicate PassaFiltro(filtro: FiltroTipo, estoque: int, minimo: int) {
    match filtro
    case Alerta => EmAlerta(estoque, minimo)
    case SemEstoqueFiltro => SemEstoque(estoque)
    case NormalFiltro => Normal(estoque, minimo)
    case Todos => true
  }

  /** The search first (name or code contains the text, ignoring case), then the status. */
  predicate Mostra(nome: string, codigo: string, estoque: int, minimo: int, busca: string, filtro: FiltroTipo) {
    (Texto.Busca(nome, busca) || Texto.Busca(codigo, busca)) && PassaFiltro(filtro, estoque, minimo)
  }

  /** The four numbers on top of a stock page. */
  datatype Estatisticas = Estatisticas(total: nat, semEstoque: nat, emAlerta: nat, normal: nat)

  /** The summary's "em alerta" figure: the low ones and the empty ones together. */
  function AlertaResumo(s: Estatisticas): (n: nat)
    ensures n >= s.emAlerta && n >= s.semEstoque
  {
    s.emAlerta + s.semEstoque
  }

  /** With a stock and a minimum that are not negative, every item is in exactly one of the
      three buckets. */
  lemma StatusParticiona(estoque: int, minimo: int)
    requires estoque >= 0 && minimo >= 0
    ensures EmAlerta(estoque, minimo) || SemEstoque(estoque) || Normal(estoque, minimo)
    ensures !(EmAlerta(estoque, minimo) && SemEstoque(estoque))
    ensures !(EmAlerta(estoque, minimo) && Normal(estoque, minimo))
    ensures !(SemEstoque(estoque) && Normal(estoque, minimo))
  {
  }

  /** Without those bounds the buckets do not partition: an empty item with a negative
      minimum is both `sem-estoque` and `normal`, and a negative stock is in none. */
  lemma StatusSemParticao()
    ensures SemEstoque(0) && Normal(0, -1)
    ensures !EmAlerta(-1, 0) && !SemEstoque(-1) && !Normal(-1, 0)
  {
  }

  /** The alert flag of the product list (`estoque <= minimo`) covers both the `alerta` and
      the `sem-estoque` buckets when the values are not negative. */
  lemma AlertaIncluiSemEstoque(estoque: int, minimo: int)
    requires estoque >= 0 && minimo >= 0
    ensures estoque <= minimo <==> EmAlerta(estoque, minimo) || SemEstoque(estoque)
  {
  }

  /** An empty search with the `todos` filter shows every item. */
  lemma MostraTudo(nome: string, codigo: string, estoque: int, minimo: int)
    ensures Mostra(nome, codigo, estoque, minimo, "", Todos)
  {
    Texto.BuscaVaziaCasaTudo(nome);
  }
}
