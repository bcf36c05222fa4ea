/** The product list page (`Produtos`): the search on name or code, the registration and
    movement forms, and the alert flag of each card. The stock control page repeats the two
    forms word for word and uses these same definitions. */
module PaginaProdutos {
  import opened Common
  import opened Ordem
  import Texto
  import Situacao
  import Produtos
  import Cantina
  import opened Formularios

  /** Name or code contains the search text, ignoring case. */
  predicate CasaBusca(p: Produtos.Produto, busca: string) {
    Texto.Busca(p.nome, busca) || Texto.Busca(p.codigo, busca)
  }

  /** `produtosFiltrados`: the matching products, in list order. */
  function ProdutosFiltrados(ps: seq<Produtos.Produto>, busca: string): (r: seq<Produtos.Produto>)
    ensures |r| <= |ps|
    ensures forall p :: p in r <==> p in ps && CasaBusca(p, busca)
    ensures Ordenada(ps, Produtos.PorNome) ==> Ordenada(r, Produtos.PorNome)
  {
    var busca' := busca;
    if Ordenada(ps, Produtos.PorNome) then
      FilterKeepsOrder(ps, p => CasaBusca(p, busca'), Produtos.PorNome);
      Filter(ps, p => CasaBusca(p, busca'))
    else Filter(ps, p => CasaBusca(p, busca'))
  }

  /** An empty search keeps the whole list. */
  lemma BuscaVaziaMostraTodos(ps: seq<Produtos.Produto>)
    ensures ProdutosFiltrados(ps, "") == ps
  {
    forall p | p in ps ensures CasaBusca(p, "") {
      Texto.BuscaVaziaCasaTudo(p.nome);
    }
    FilterAll(ps, p => CasaBusca(p, ""));
  }

  /** The card's alert flag: `estoqueAtual <= estoqueMinimo`, zero stock included. */
  predicate EstoqueAlerta(p: Produtos.Produto) {
    p.estoqueAtual <= p.estoqueMinimo
  }

  /** With values that are not negative the flag is raised exactly for the `alerta` and
      `sem-estoque` buckets of the stock pages. */
  lemma EstoqueAlertaSse(p: Produtos.Produto)
    requires p.estoqueAtual >= 0 && p.estoqueMinimo >= 0
    ensures EstoqueAlerta(p) <==> Situacao.EmAlerta(p.estoqueAtual, p.estoqueMinimo) || Situacao.SemEstoque(p.estoqueAtual)
  {
    Situacao.AlertaIncluiSemEstoque(p.estoqueAtual, p.estoqueMinimo);
  }

  // ---------------------------------------------------------------------------------
  // `handleAdicionarProduto`

  /** Code and name are checked first, then the price; a price of 0 passes. */
  function ValidaNovoProduto(codigo: string, nome: string, preco: Option<int>): (r: Option<Aviso>)
    ensures r.None? <==> Preenchido(codigo) && Preenchido(nome) && NaoNegativo(preco)
    ensures !(Preenchido(codigo) && Preenchido(nome)) ==> r == Some(PreenchaCodigoENome)
    ensures r == Some(PrecoInvalido) <==> Preenchido(codigo) && Preenchido(nome) && !NaoNegativo(preco)
  {
    if !Preenchido(codigo) || !Preenchido(nome) then Some(PreenchaCodigoENome)
    else if preco.None? || preco.value < 0 then Some(PrecoInvalido)
    else None
  }

  /** A free product is accepted; a price below zero or missing is not. */
  lemma ValidaNovoProdutoPreco()
    ensures ValidaNovoProduto("P1", "Suco", Some(0)) == None
    ensures ValidaNovoProduto("P1", "Suco", Some(-1)) == Some(PrecoInvalido)
    ensures ValidaNovoProduto("P1", "Suco", None) == Some(PrecoInvalido)
  {
    assert !Texto.EmBranco("P1") by { assert !Texto.EhEspaco("P1"[0]); }
    assert !Texto.EmBranco("Suco") by { assert !Texto.EhEspaco("Suco"[0]); }
    assert Preenchido("P1") && Preenchido("Suco");
  }

  /** A code of blanks is refused before the price is looked at. */
  lemma ValidaNovoProdutoCodigoEmBranco()
    ensures ValidaNovoProduto(" ", "Suco", Some(500)) == Some(PreenchaCodigoENome)
  {
    assert !Preenchido(" ") by { assert Texto.EmBranco(" "); }
  }

  /** The form: refused with a toast, or the product is registered with the parsed price
      and with unparseable stock fields read as 0 (`parseInt(x) || 0`). The id is the one the
      database hands out. */
  method HandleAdicionarProduto(ctx: Cantina.CantinaProvider, id: Id, codigo: string, nome: string, preco: Option<int>,
                                estoqueInicial: Option<int>, estoqueMinimo: Option<int>, hoje: Data)
    returns (aviso: Option<Aviso>)
    requires ctx.Valid()
    modifies ctx.produtos
    ensures ctx.Valid()
    ensures aviso == ValidaNovoProduto(codigo, nome, preco)
    ensures aviso.Some? ==> ctx.produtos.produtos == old(ctx.produtos.produtos)
    ensures aviso.None? ==>
      ctx.produtos.produtos == Produtos.AposAdicionar(old(ctx.produtos.produtos), id, codigo, nome, preco.value,
                                                     OuZero(estoqueInicial), OuZero(estoqueMinimo), None, hoje)
  {
    if !Preenchido(codigo) || !Preenchido(nome) {
      return Some(PreenchaCodigoENome);
    }
    var ini := OuZero(estoqueInicial);
    var min := OuZero(estoqueMinimo);
    if preco.None? || preco.value < 0 {
      return Some(PrecoInvalido);
    }
    ctx.produtos.AdicionarProduto(id, codigo, nome, preco.value, ini, min, None, hoje);
    return None;
  }

  // ---------------------------------------------------------------------------------
  // `handleMovimentacao`

  /** The movement form: quantity, then description, then a selected product; a stock-out
      above the cached stock of a listed product is refused here already. A product that is
      no longer listed passes this check. */
  function ValidaMovimentacao(ps: seq<Produtos.Produto>, selecionado: Option<Id>, tipo: Produtos.TipoEstoque,
                              quantidade: Option<int>, descricao: string): (d: Desfecho)
    ensures d == Recusado(QuantidadeInvalida) <==> !Positivo(quantidade)
    ensures d == Recusado(DescricaoObrigatoria) <==> Positivo(quantidade) && !Preenchido(descricao)
    ensures d == Ignorado <==> Positivo(quantidade) && Preenchido(descricao) && selecionado.None?
    ensures d == Recusado(EstoqueInsuficiente) <==>
      && Positivo(quantidade) && Preenchido(descricao) && selecionado.Some? && tipo == Produtos.Saida
      && TemChave(ps, Produtos.IdDe, selecionado.value) && !Produtos.SaidaPermitida(ps, selecionado.value, quantidade.value)
    ensures d == Aceito <==>
      && Positivo(quantidade) && Preenchido(descricao) && selecionado.Some?
      && !(tipo == Produtos.Saida && TemChave(ps, Produtos.IdDe, selecionado.value)
           && !Produtos.SaidaPermitida(ps, selecionado.value, quantidade.value))
  {
    if !Positivo(quantidade) then Recusado(QuantidadeInvalida)
    else if !Preenchido(descricao) then Recusado(DescricaoObrigatoria)
    else if selecionado.None? then Ignorado
    else match Localiza(ps, Produtos.IdDe, selecionado.value)
      case Some(i) =>
        if tipo == Produtos.Saida && ps[i].estoqueAtual < quantidade.value then Recusado(EstoqueInsuficiente) else Aceito
      case None => Aceito
  }

  /** The page's own stock check is the hook's guard: an accepted stock-out of a listed
      product is never dropped by the hook. */
  lemma SaidaAceitaPassaNoGuarda(ps: seq<Produtos.Produto>, id: Id, quantidade: Option<int>, descricao: string)
    requires ValidaMovimentacao(ps, Some(id), Produtos.Saida, quantidade, descricao) == Aceito
    requires TemChave(ps, Produtos.IdDe, id)
    ensures Produtos.SaidaPermitida(ps, id, quantidade.value)
  {
  }

  /** The form: `entrada` goes to `entradaEstoque` and `saida` to `saidaEstoque`, with the
      same quantity and description and no customer reference; anything else writes
      nothing. */
  method HandleMovimentacao(ctx: Cantina.CantinaProvider, selecionado: Option<Id>, tipo: Produtos.TipoEstoque,
                            quantidade: Option<int>, descricao: string, hoje: Data)
    returns (d: Desfecho)
    requires ctx.Valid()
    modifies ctx.produtos
    ensures ctx.Valid()
    ensures d == ValidaMovimentacao(old(ctx.produtos.produtos), selecionado, tipo, quantidade, descricao)
    ensures d != Aceito ==> ctx.produtos.produtos == old(ctx.produtos.produtos)
    ensures d == Aceito && tipo == Produtos.Entrada ==>
      ctx.produtos.produtos == Produtos.AposEntrada(old(ctx.produtos.produtos), selecionado.value, quantidade.value, descricao, hoje)
    ensures d == Aceito && tipo == Produtos.Saida ==>
      ctx.produtos.produtos == Produtos.AposSaida(old(ctx.produtos.produtos), selecionado.value, quantidade.value, descricao, None, hoje)
  {
    d := ValidaMovimentacao(ctx.produtos.produtos, selecionado, tipo, quantidade, descricao);
    if d != Aceito {
      return;
    }
    var id, q := selecionado.value, quantidade.value;
    if tipo == Produtos.Entrada {
      ctx.produtos.EntradaEstoque(id, q, descricao, hoje);
    } else {
      ctx.produtos.SaidaEstoque(id, q, descricao, None, hoje);
    }
  }

  /** An accepted movement of a listed product appends exactly that movement to it and moves
      its refolded stock by the quantity, in the direction of the kind. */
  lemma MovimentacaoAceitaRegistra(ps: seq<Produtos.Produto>, i: nat, tipo: Produtos.TipoEstoque,
                                   quantidade: Option<int>, descricao: string, hoje: Data)
    requires Produtos.Valida(ps) && i < |ps|
    requires ValidaMovimentacao(ps, Some(ps[i].id), tipo, quantidade, descricao) == Aceito
    ensures var r := if tipo == Produtos.Entrada
                     then Produtos.AposEntrada(ps, ps[i].id, quantidade.value, descricao, hoje)
                     else Produtos.AposSaida(ps, ps[i].id, quantidade.value, descricao, None, hoje);
      && r[i].historico == ps[i].historico + [Produtos.MovimentacaoEstoque(tipo, quantidade.value, descricao, hoje, None)]
      && r[i].estoqueAtual == Produtos.Estoque(ps[i].historico) + (if tipo == Produtos.Entrada then quantidade.value else -quantidade.value)
  {
    LocalizaUnica(ps, Produtos.IdDe, ps[i].id, i);
    if tipo == Produtos.Saida {
      SaidaAceitaPassaNoGuarda(ps, ps[i].id, quantidade, descricao);
    }
  }
}
