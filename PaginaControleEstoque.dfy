/** The stock control page (`ControleEstoque`): the list filtered by search and status, the
    status counts, the summary, and the manual adjustment that turns a target level into an
    `entrada` or a `saida`. Its registration and movement forms are those of the product
    page. */
module PaginaControleEstoque {
  import opened Common
  import opened Ordem
  import Situacao
  import Produtos
  import Cantina
  import PaginaProdutos
  import opened Formularios

  predicate Mostra(p: Produtos.Produto, busca: string, filtro: Situacao.FiltroTipo) {
    Situacao.Mostra(p.nome, p.codigo, p.estoqueAtual, p.estoqueMinimo, busca, filtro)
  }

  /** `produtosFiltrados`: the products that pass the search and the status filter, in list
      order. */
  function ProdutosFiltrados(ps: seq<Produtos.Produto>, busca: string, filtro: Situacao.FiltroTipo): (r: seq<Produtos.Produto>)
    ensures |r| <= |ps|
    ensures forall p :: p in r <==> p in ps && Mostra(p, busca, filtro)
    ensures Ordenada(ps, Produtos.PorNome) ==> Ordenada(r, Produtos.PorNome)
  {
    var busca', filtro' := busca, filtro;
    if Ordenada(ps, Produtos.PorNome) then
      FilterKeepsOrder(ps, p => Mostra(p, busca', filtro'), Produtos.PorNome);
      Filter(ps, p => Mostra(p, busca', filtro'))
    else Filter(ps, p => Mostra(p, busca', filtro'))
  }

  predicate SemEstoque(p: Produtos.Produto) { Situacao.SemEstoque(p.estoqueAtual) }
  predicate EmAlerta(p: Produtos.Produto) { Situacao.EmAlerta(p.estoqueAtual, p.estoqueMinimo) }
  predicate Normal(p: Produtos.Produto) { Situacao.Normal(p.estoqueAtual, p.estoqueMinimo) }

  predicate ValoresNaoNegativos(ps: seq<Produtos.Produto>) {
    forall p :: p in ps ==> p.estoqueAtual >= 0 && p.estoqueMinimo >= 0
  }

  /** `stats`: the total and the three status counts. */
  function Estatisticas(ps: seq<Produtos.Produto>): (s: Situacao.Estatisticas)
    ensures s.total == |ps|
    ensures s.semEstoque <= s.total && s.emAlerta <= s.total && s.normal <= s.total
  {
    Situacao.Estatisticas(|ps|, Count(ps, SemEstoque), Count(ps, EmAlerta), Count(ps, Normal))
  }

  /** The counts use the tests of the status filter: each is the length of the list that
      filter shows for an empty search. */
  lemma EstatisticasSaoFiltros(ps: seq<Produtos.Produto>)
    ensures var s := Estatisticas(ps);
      && s.semEstoque == |ProdutosFiltrados(ps, "", Situacao.SemEstoqueFiltro)|
      && s.emAlerta == |ProdutosFiltrados(ps, "", Situacao.Alerta)|
      && s.normal == |ProdutosFiltrados(ps, "", Situacao.NormalFiltro)|
  {
    forall p | p in ps
      ensures SemEstoque(p) == Mostra(p, "", Situacao.SemEstoqueFiltro)
      ensures EmAlerta(p) == Mostra(p, "", Situacao.Alerta)
      ensures Normal(p) == Mostra(p, "", Situacao.NormalFiltro)
    {
      Situacao.MostraTudo(p.nome, p.codigo, p.estoqueAtual, p.estoqueMinimo);
    }
    FilterEquiv(ps, SemEstoque, p => Mostra(p, "", Situacao.SemEstoqueFiltro));
    FilterEquiv(ps, EmAlerta, p => Mostra(p, "", Situacao.Alerta));
    FilterEquiv(ps, Normal, p => Mostra(p, "", Situacao.NormalFiltro));
  }

  /** With values that are not negative the three buckets add up to the total. */
  lemma EstatisticasParticionam(ps: seq<Produtos.Produto>)
    requires ValoresNaoNegativos(ps)
    ensures var s := Estatisticas(ps); s.semEstoque + s.emAlerta + s.normal == s.total
  {
    forall p | p in ps
      ensures SemEstoque(p) || EmAlerta(p) || Normal(p)
      ensures !(SemEstoque(p) && EmAlerta(p)) && !(SemEstoque(p) && Normal(p)) && !(EmAlerta(p) && Normal(p))
    {
      Situacao.StatusParticiona(p.estoqueAtual, p.estoqueMinimo);
    }
    CountPartition3(ps, SemEstoque, EmAlerta, Normal);
  }

  function EstoqueDe(p: Produtos.Produto): int { p.estoqueAtual }

  /** "Itens em estoque": the sum of the cached stocks, not negative when none is. */
  function UnidadesEmEstoque(ps: seq<Produtos.Produto>): (n: int)
    ensures ValoresNaoNegativos(ps) ==> n >= 0
  {
    if ValoresNaoNegativos(ps) then
      SumByNonNeg(ps, EstoqueDe);
      SumBy(ps, EstoqueDe)
    else SumBy(ps, EstoqueDe)
  }

  function ValorDe(p: Produtos.Produto): int { p.preco * p.estoqueAtual }

  predicate PrecosNaoNegativos(ps: seq<Produtos.Produto>) {
    forall p :: p in ps ==> p.preco >= 0
  }

  /** "Valor total estimado": price times cached stock, summed over the list; not negative
      when no price and no stock is. */
  function ValorEstimado(ps: seq<Produtos.Produto>): (v: int)
    ensures ValoresNaoNegativos(ps) && PrecosNaoNegativos(ps) ==> v >= 0
    ensures (forall p :: p in ps ==> p.estoqueAtual == 0) ==> v == 0
  {
    if forall p :: p in ps ==> p.estoqueAtual == 0 then
      SumByNonNeg(ps, ValorDe);
      SumByNonPos(ps, ValorDe);
      SumBy(ps, ValorDe)
    else if ValoresNaoNegativos(ps) && PrecosNaoNegativos(ps) then
      forall p | p in ps ensures ValorDe(p) >= 0 {
        assert p.preco >= 0 && p.estoqueAtual >= 0;
      }
      SumByNonNeg(ps, ValorDe);
      SumBy(ps, ValorDe)
    else SumBy(ps, ValorDe)
  }

  /** "Produtos em alerta" is `emAlerta + semEstoque`; with values that are not negative it
      counts exactly the cards that carry the product page's alert flag. */
  lemma AlertaResumoContaFlag(ps: seq<Produtos.Produto>)
    requires ValoresNaoNegativos(ps)
    ensures Situacao.AlertaResumo(Estatisticas(ps)) == Count(ps, PaginaProdutos.EstoqueAlerta)
  {
    forall p | p in ps
      ensures PaginaProdutos.EstoqueAlerta(p) <==> EmAlerta(p) || SemEstoque(p)
      ensures !(EmAlerta(p) && SemEstoque(p))
    {
      PaginaProdutos.EstoqueAlertaSse(p);
    }
    CountUnion(ps, EmAlerta, SemEstoque, PaginaProdutos.EstoqueAlerta);
  }

  // ---------------------------------------------------------------------------------
  // `handleAjusteManual`

  const DescricaoAjuste: string := "Ajuste manual de estoque"

  /** The movement the adjustment writes for a difference: an `entrada` when positive, a
      `saida` of its size when negative, nothing when zero. */
  function AjustePorDiferenca(ps: seq<Produtos.Produto>, id: Id, diferenca: int, hoje: Data): (r: seq<Produtos.Produto>)
    ensures |r| == |ps|
    ensures forall i :: 0 <= i < |ps| && ps[i].id != id ==> r[i] == ps[i]
  {
    if diferenca > 0 then Produtos.AposEntrada(ps, id, diferenca, DescricaoAjuste, hoje)
    else if diferenca < 0 then Produtos.AposSaida(ps, id, Abs(diferenca), DescricaoAjuste, None, hoje)
    else ps
  }

  /** What the adjustment writes: for a listed product, the difference between the target
      and the cached stock; an unlisted product is left alone. */
  function AposAjusteManual(ps: seq<Produtos.Produto>, id: Id, nova: int, hoje: Data): (r: seq<Produtos.Produto>)
    ensures |r| == |ps|
    ensures forall i :: 0 <= i < |ps| && ps[i].id != id ==> r[i] == ps[i]
    ensures !TemChave(ps, Produtos.IdDe, id) ==> r == ps
  {
    match Localiza(ps, Produtos.IdDe, id)
    case None => ps
    case Some(i) => AjustePorDiferenca(ps, id, nova - ps[i].estoqueAtual, hoje)
  }

  /** A product whose cached stock agrees with its history reaches the target exactly, still
      agrees with its history afterwards, and gains at most one movement. */
  lemma AjusteAlcancaAlvo(ps: seq<Produtos.Produto>, i: nat, nova: int, hoje: Data)
    requires Produtos.Valida(ps) && Produtos.Consistente(ps) && i < |ps| && nova >= 0
    ensures var r := AposAjusteManual(ps, ps[i].id, nova, hoje);
      && r[i].estoqueAtual == nova
      && r[i].estoqueAtual == Produtos.Estoque(r[i].historico)
      && |r[i].historico| == |ps[i].historico| + (if nova == ps[i].estoqueAtual then 0 else 1)
  {
    var p := ps[i];
    LocalizaUnica(ps, Produtos.IdDe, p.id, i);
    var diferenca := nova - p.estoqueAtual;
    var r := AposAjusteManual(ps, p.id, nova, hoje);
    if diferenca > 0 {
      var m := Produtos.MovimentacaoEstoque(Produtos.Entrada, diferenca, DescricaoAjuste, hoje, None);
      Produtos.EstoqueComMovimento(p.historico, m);
    } else if diferenca < 0 {
      assert Produtos.SaidaPermitida(ps, p.id, -diferenca);
      var m := Produtos.MovimentacaoEstoque(Produtos.Saida, -diferenca, DescricaoAjuste, hoje, Normaliza(None));
      Produtos.EstoqueComMovimento(p.historico, m);
    }
  }

  /** The difference is taken from the cached stock but the write refolds the history, so a
      product registered with a negative initial stock (stored, yet explained by no movement)
      misses the target: -5 adjusted to 0 writes an `entrada` of 5 and ends at 5. */
  lemma AjusteErraComEstoqueInicialNegativo(hoje: Data)
    ensures var ps := Produtos.AposAdicionar([], "p", "P1", "Suco", 300, -5, 2, None, hoje);
      && ps[0].estoqueAtual == -5
      && AposAjusteManual(ps, "p", 0, hoje)[0].estoqueAtual == 5
  {
    var novo := Produtos.NovoProduto("p", "P1", "Suco", 300, -5, 2, None, hoje);
    var ps := Produtos.AposAdicionar([], "p", "P1", "Suco", 300, -5, 2, None, hoje);
    assert multiset(ps) == multiset{novo};
    assert ps == [novo] by {
      assert |ps| == 1;
      assert ps[0] in multiset(ps);
    }
    assert novo.historico == [];
    LocalizaUnica(ps, Produtos.IdDe, "p", 0);
    var m := Produtos.MovimentacaoEstoque(Produtos.Entrada, 5, DescricaoAjuste, hoje, None);
    Produtos.EstoqueComMovimento([], m);
  }

  /** The adjustment form's outcome: a target that is not a number or is negative is
      refused; no selection, or a selected product that is gone, returns silently. */
  function DesfechoAjuste(ps: seq<Produtos.Produto>, selecionado: Option<Id>, nova: Option<int>): (d: Desfecho)
    ensures d == Recusado(QuantidadeInvalida) <==> !NaoNegativo(nova)
    ensures d == Aceito <==> NaoNegativo(nova) && selecionado.Some? && TemChave(ps, Produtos.IdDe, selecionado.value)
  {
    if !NaoNegativo(nova) then Recusado(QuantidadeInvalida)
    else if selecionado.None? then Ignorado
    else if Localiza(ps, Produtos.IdDe, selecionado.value).None? then Ignorado
    else Aceito
  }

  method HandleAjusteManual(ctx: Cantina.CantinaProvider, selecionado: Option<Id>, nova: Option<int>, hoje: Data)
    returns (d: Desfecho)
    requires ctx.Valid()
    modifies ctx.produtos
    ensures ctx.Valid()
    ensures d == DesfechoAjuste(old(ctx.produtos.produtos), selecionado, nova)
    ensures d != Aceito ==> ctx.produtos.produtos == old(ctx.produtos.produtos)
    ensures d == Aceito ==> ctx.produtos.produtos == AposAjusteManual(old(ctx.produtos.produtos), selecionado.value, nova.value, hoje)
  {
    if nova.None? || nova.value < 0 {
      return Recusado(QuantidadeInvalida);
    }
    if selecionado.None? {
      return Ignorado;
    }
    var k := Localiza(ctx.produtos.produtos, Produtos.IdDe, selecionado.value);
    if k.None? {
      return Ignorado;
    }
    AjustarProduto(ctx.produtos, selecionado.value, k.value, nova.value, hoje);
    return Aceito;
  }

  /** The write of an accepted adjustment: the difference from the cached stock of the product
      found goes to `entradaEstoque` or `saidaEstoque`. */
  method AjustarProduto(estoque: Produtos.ProdutosLedger, id: Id, k: nat, nova: int, hoje: Data)
    requires estoque.Valid()
    requires Localiza(estoque.produtos, Produtos.IdDe, id) == Some(k)
    modifies estoque
    ensures estoque.Valid()
    ensures estoque.produtos == AposAjusteManual(old(estoque.produtos), id, nova, hoje)
  {
    var diferenca := nova - estoque.produtos[k].estoqueAtual;
    if diferenca > 0 {
      estoque.EntradaEstoque(id, diferenca, DescricaoAjuste, hoje);
    } else if diferenca < 0 {
      estoque.SaidaEstoque(id, Abs(diferenca), DescricaoAjuste, None, hoje);
    }
  }
}
