/** The supplies page (`EstoqueMantimentos`): the list filtered by search and status, the
    status counts, the summary, and the three forms, which go through the supplies
    context. */
module PaginaEstoqueMantimentos {
  import opened Common
  import opened Ordem
  import Situacao
  import Mantimentos
  import ContextoMantimentos
  import opened Formularios

  predicate Mostra(m: Mantimentos.Mantimento, busca: string, filtro: Situacao.FiltroTipo) {
    Situacao.Mostra(m.nome, m.codigo, m.estoqueAtual, m.estoqueMinimo, busca, filtro)
  }

  /** `mantimentosFiltrados`: the items that pass the search and the status filter, in list
      order. */
  function MantimentosFiltrados(ms: seq<Mantimentos.Mantimento>, busca: string, filtro: Situacao.FiltroTipo)
    : (r: seq<Mantimentos.Mantimento>)
    ensures |r| <= |ms|
    ensures forall m :: m in r <==> m in ms && Mostra(m, busca, filtro)
    ensures Ordenada(ms, Mantimentos.PorNome) ==> Ordenada(r, Mantimentos.PorNome)
  {
    var busca', filtro' := busca, filtro;
    if Ordenada(ms, Mantimentos.PorNome) then
      FilterKeepsOrder(ms, m => Mostra(m, busca', filtro'), Mantimentos.PorNome);
      Filter(ms, m => Mostra(m, busca', filtro'))
    else Filter(ms, m => Mostra(m, busca', filtro'))
  }

  predicate SemEstoque(m: Mantimentos.Mantimento) { Situacao.SemEstoque(m.estoqueAtual) }
  predicate EmAlerta(m: Mantimentos.Mantimento) { Situacao.EmAlerta(m.estoqueAtual, m.estoqueMinimo) }
  predicate Normal(m: Mantimentos.Mantimento) { Situacao.Normal(m.estoqueAtual, m.estoqueMinimo) }

  predicate ValoresNaoNegativos(ms: seq<Mantimentos.Mantimento>) {
    forall m :: m in ms ==> m.estoqueAtual >= 0 && m.estoqueMinimo >= 0
  }

  /** `stats`: the total and the three status counts. */
  function Estatisticas(ms: seq<Mantimentos.Mantimento>): (s: Situacao.Estatisticas)
    ensures s.total == |ms|
    ensures s.semEstoque <= s.total && s.emAlerta <= s.total && s.normal <= s.total
  {
    Situacao.Estatisticas(|ms|, Count(ms, SemEstoque), Count(ms, EmAlerta), Count(ms, Normal))
  }

  /** Each count is the length of the list the matching status filter shows for an empty
      search. */
  lemma EstatisticasSaoFiltros(ms: seq<Mantimentos.Mantimento>)
    ensures var s := Estatisticas(ms);
      && s.semEstoque == |MantimentosFiltrados(ms, "", Situacao.SemEstoqueFiltro)|
      && s.emAlerta == |MantimentosFiltrados(ms, "", Situacao.Alerta)|
      && s.normal == |MantimentosFiltrados(ms, "", Situacao.NormalFiltro)|
  {
    forall m | m in ms
      ensures SemEstoque(m) == Mostra(m, "", Situacao.SemEstoqueFiltro)
      ensures EmAlerta(m) == Mostra(m, "", Situacao.Alerta)
      ensures Normal(m) == Mostra(m, "", Situacao.NormalFiltro)
    {
      Situacao.MostraTudo(m.nome, m.codigo, m.estoqueAtual, m.estoqueMinimo);
    }
    FilterEquiv(ms, SemEstoque, m => Mostra(m, "", Situacao.SemEstoqueFiltro));
    FilterEquiv(ms, EmAlerta, m => Mostra(m, "", Situacao.Alerta));
    FilterEquiv(ms, Normal, m => Mostra(m, "", Situacao.NormalFiltro));
  }

  /** With values that are not negative the three buckets add up to the total. The stored
      stock of a supply is never negative once it has moved (the clamp), but its minimum and
      its initial stock are whatever the form parsed. */
  lemma EstatisticasParticionam(ms: seq<Mantimentos.Mantimento>)
    requires ValoresNaoNegativos(ms)
    ensures var s := Estatisticas(ms); s.semEstoque + s.emAlerta + s.normal == s.total
  {
    forall m | m in ms
      ensures SemEstoque(m) || EmAlerta(m) || Normal(m)
      ensures !(SemEstoque(m) && EmAlerta(m)) && !(SemEstoque(m) && Normal(m)) && !(EmAlerta(m) && Normal(m))
    {
      Situacao.StatusParticiona(m.estoqueAtual, m.estoqueMinimo);
    }
    CountPartition3(ms, SemEstoque, EmAlerta, Normal);
  }

  function EstoqueDe(m: Mantimentos.Mantimento): int { m.estoqueAtual }

  /** "Itens em estoque": the sum of the stored stocks, not negative when none is. */
  function UnidadesEmEstoque(ms: seq<Mantimentos.Mantimento>): (n: int)
    ensures ValoresNaoNegativos(ms) ==> n >= 0
  {
    if ValoresNaoNegativos(ms) then
      SumByNonNeg(ms, EstoqueDe);
      SumBy(ms, EstoqueDe)
    else SumBy(ms, EstoqueDe)
  }

  /** `m.foto` is truthy: a photo that is not the empty text. */
  predicate TemFoto(m: Mantimentos.Mantimento) { m.foto.Some? && m.foto.value != "" }

  /** "Com foto": how many items carry a photo. */
  function ComFoto(ms: seq<Mantimentos.Mantimento>): (n: nat)
    ensures n <= |ms|
    ensures n == |ms| <==> forall m :: m in ms ==> TemFoto(m)
  {
    FilterTodosSse(ms, TemFoto);
    Count(ms, TemFoto)
  }

  // ---------------------------------------------------------------------------------
  // `handleAdicionarMantimento`

  /** Only code and name are checked. */
  function ValidaNovoMantimento(codigo: string, nome: string): (r: Option<Aviso>)
    ensures r.None? <==> Preenchido(codigo) && Preenchido(nome)
    ensures r.Some? ==> r.value == PreenchaCodigoENome
  {
    if !Preenchido(codigo) || !Preenchido(nome) then Some(PreenchaCodigoENome) else None
  }

  /** The form: refused with a toast, or the item is registered with an empty photo field
      passed as none and unparseable numbers read as 0. */
  method HandleAdicionarMantimento(ctx: ContextoMantimentos.EstoqueMantimentosProvider, id: Id, codigo: string,
                                   nome: string, foto: string, estoqueInicial: Option<int>, estoqueMinimo: Option<int>,
                                   estoqueMaximo: Option<int>, unidade: string, hoje: Data)
    returns (aviso: Option<Aviso>)
    requires ctx.Valid()
    modifies ctx.hook
    ensures ctx.Valid()
    ensures aviso == ValidaNovoMantimento(codigo, nome)
    ensures aviso.Some? ==> ctx.hook.mantimentos == old(ctx.hook.mantimentos)
    ensures aviso.None? ==>
      ctx.hook.mantimentos == Mantimentos.AposAdicionar(old(ctx.hook.mantimentos), id, codigo, nome,
                                                        if foto == "" then None else Some(foto),
                                                        OuZero(estoqueInicial), OuZero(estoqueMinimo), OuZero(estoqueMaximo),
                                                        unidade, hoje)
  {
    if !Preenchido(codigo) || !Preenchido(nome) {
      return Some(PreenchaCodigoENome);
    }
    var f := if foto == "" then None else Some(foto);
    ctx.AdicionarMantimento(id, codigo, nome, f, OuZero(estoqueInicial), OuZero(estoqueMinimo), OuZero(estoqueMaximo), unidade, hoje);
    return None;
  }

  // ---------------------------------------------------------------------------------
  // `handleMovimentacao`

  /** The two kinds the movement form offers. */
  datatype TipoMovimentacao = Entrada | Saida

  /** The movement form's outcome: quantity, description and selection are checked on the
      page; a stock-out refused by the context (unknown item or stock too low) is reported as
      insufficient stock. */
  function DesfechoMovimentacao(ms: seq<Mantimentos.Mantimento>, selecionado: Option<Id>, tipo: TipoMovimentacao,
                                quantidade: Option<int>, descricao: string): (d: Desfecho)
    ensures d == Recusado(QuantidadeInvalida) <==> !Positivo(quantidade)
    ensures d == Recusado(DescricaoObrigatoria) <==> Positivo(quantidade) && !Preenchido(descricao)
    ensures d == Ignorado <==> Positivo(quantidade) && Preenchido(descricao) && selecionado.None?
    ensures d == Recusado(EstoqueInsuficiente) <==>
      && Positivo(quantidade) && Preenchido(descricao) && selecionado.Some? && tipo == Saida
      && !Mantimentos.SaidaPermitida(ms, selecionado.value, quantidade.value)
    ensures d == Aceito <==>
      && Positivo(quantidade) && Preenchido(descricao) && selecionado.Some?
      && !(tipo == Saida && !Mantimentos.SaidaPermitida(ms, selecionado.value, quantidade.value))
  {
    if !Positivo(quantidade) then Recusado(QuantidadeInvalida)
    else if !Preenchido(descricao) then Recusado(DescricaoObrigatoria)
    else if selecionado.None? then Ignorado
    else if tipo == Saida && !Mantimentos.SaidaPermitida(ms, selecionado.value, quantidade.value) then Recusado(EstoqueInsuficiente)
    else Aceito
  }

  /** The form: `entrada` goes to `entradaMantimento`; `saida` goes to the context's guarded
      stock-out, whose answer decides the outcome. */
  method HandleMovimentacao(ctx: ContextoMantimentos.EstoqueMantimentosProvider, selecionado: Option<Id>,
                            tipo: TipoMovimentacao, quantidade: Option<int>, descricao: string, hoje: Data)
    returns (d: Desfecho)
    requires ctx.Valid()
    modifies ctx, ctx.hook
    ensures ctx.Valid()
    ensures d == DesfechoMovimentacao(old(ctx.hook.mantimentos), selecionado, tipo, quantidade, descricao)
    ensures d == Aceito && tipo == Entrada ==>
      ctx.hook.mantimentos == Mantimentos.AposEntrada(old(ctx.hook.mantimentos), selecionado.value, quantidade.value, descricao, hoje)
    ensures d == Aceito && tipo == Saida ==>
      ctx.hook.mantimentos == Mantimentos.AposSaida(old(ctx.hook.mantimentos), selecionado.value, quantidade.value, descricao, hoje)
    ensures d != Aceito ==> ctx.hook.mantimentos == old(ctx.hook.mantimentos)
    ensures ctx.chamadasSaida == old(ctx.chamadasSaida) + (if d == Aceito && tipo == Saida then 1 else 0)
  {
    if quantidade.None? || quantidade.value <= 0 {
      return Recusado(QuantidadeInvalida);
    }
    if !Preenchido(descricao) {
      return Recusado(DescricaoObrigatoria);
    }
    if selecionado.None? {
      return Ignorado;
    }
    if tipo == Entrada {
      ctx.EntradaMantimento(selecionado.value, quantidade.value, descricao, hoje);
    } else {
      var sucesso := ctx.SaidaMantimento(selecionado.value, quantidade.value, descricao, hoje);
      if !sucesso {
        return Recusado(EstoqueInsuficiente);
      }
    }
    return Aceito;
  }

  // ---------------------------------------------------------------------------------
  // `handleAjusteManual`

  /** The adjustment form's outcome: the target must be a number not below zero; the page
      does not look the item up. */
  function DesfechoAjuste(selecionado: Option<Id>, nova: Option<int>): (d: Desfecho)
    ensures d == Aceito <==> NaoNegativo(nova) && selecionado.Some?
    ensures !NaoNegativo(nova) ==> d == Recusado(QuantidadeInvalida)
  {
    if !NaoNegativo(nova) then Recusado(QuantidadeInvalida)
    else if selecionado.None? then Ignorado
    else Aceito
  }

  /** The form hands the absolute target to `ajustarEstoque`. */
  method HandleAjusteManual(ctx: ContextoMantimentos.EstoqueMantimentosProvider, selecionado: Option<Id>,
                            nova: Option<int>, hoje: Data)
    returns (d: Desfecho)
    requires ctx.Valid()
    modifies ctx.hook
    ensures ctx.Valid()
    ensures d == DesfechoAjuste(selecionado, nova)
    ensures d != Aceito ==> ctx.hook.mantimentos == old(ctx.hook.mantimentos)
    ensures d == Aceito ==> ctx.hook.mantimentos == Mantimentos.AposAjuste(old(ctx.hook.mantimentos), selecionado.value, nova.value, hoje)
  {
    if nova.None? || nova.value < 0 {
      return Recusado(QuantidadeInvalida);
    }
    if selecionado.None? {
      return Ignorado;
    }
    ctx.AjustarEstoque(selecionado.value, nova.value, hoje);
    return Aceito;
  }

  /** Unlike the product adjustment, the supply adjustment reaches an accepted target
      whatever the history says, and writes exactly one `ajuste` movement. */
  lemma AjusteAlcancaAlvo(ms: seq<Mantimentos.Mantimento>, i: nat, nova: Option<int>, hoje: Data)
    requires Mantimentos.Valida(ms) && i < |ms|
    requires DesfechoAjuste(Some(ms[i].id), nova) == Aceito
    ensures var r := Mantimentos.AposAjuste(ms, ms[i].id, nova.value, hoje);
      && r[i].estoqueAtual == nova.value
      && |r[i].historico| == |ms[i].historico| + 1
      && r[i].historico[|ms[i].historico|].tipo == Mantimentos.Ajuste
  {
    var r := Mantimentos.AposAjuste(ms, ms[i].id, nova.value, hoje);
    assert ms[i].id == ms[i].id && ChavesUnicas(ms, Mantimentos.IdDe);
  }
}
