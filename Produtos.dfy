/** The product stock ledger (`useSupabaseProdutos`). Every product carries a cached
    `estoqueAtual` and the stock movements recorded for it. A stock-in or stock-out appends one
    movement and rewrites `estoqueAtual` with a fold of the product's whole history, where
    `entrada` adds and any other kind subtracts. The fold is not clamped at 0. A stock-out is
    refused when the cached stock is below the quantity. */
module Produtos {
  import opened Common
  import opened Ordem
  import Texto

  datatype TipoEstoque = Entrada | Saida

  datatype MovimentacaoEstoque = MovimentacaoEstoque(
    tipo: TipoEstoque,
    quantidade: int,
    descricao: string,
    data: Data,
    clienteId: Option<Id>)

  datatype Produto = Produto(
    id: Id,
    codigo: string,
    nome: string,
    preco: int,
    estoqueAtual: int,
    estoqueMinimo: int,
    fotoUrl: Option<string>,
    dataCadastro: Data,
    historico: seq<MovimentacaoEstoque>)

  function IdDe(p: Produto): Id { p.id }
  function NomeDe(p: Produto): string { p.nome }

  predicate PorNome(a: Produto, b: Produto) { Texto.NomeLe(a.nome, b.nome) }

  /** The term of one movement in the fold: `entrada` adds, anything else subtracts. */
  function Efeito(m: MovimentacaoEstoque): int {
    if m.tipo == Entrada then m.quantidade else -m.quantidade
  }

  /** The recomputed stock of a whole history. */
  function Estoque(h: seq<MovimentacaoEstoque>): int {
    SumBy(h, Efeito)
  }

  predicate EhEntrada(m: MovimentacaoEstoque) { m.tipo == Entrada }
  predicate EhSaida(m: MovimentacaoEstoque) { m.tipo == Saida }
  function Quantidade(m: MovimentacaoEstoque): int { m.quantidade }

  /** The recomputed stock is everything that came in minus everything that went out. */
  lemma {:induction false} EstoquePorTipo(h: seq<MovimentacaoEstoque>)
    ensures Estoque(h) == SumBy(Filter(h, EhEntrada), Quantidade) - SumBy(Filter(h, EhSaida), Quantidade)
    decreases |h|
  {
    if h != [] {
      var h', m := h[..|h| - 1], h[|h| - 1];
      EstoquePorTipo(h');
      var fe, fs := Filter(h', EhEntrada), Filter(h', EhSaida);
      if m.tipo == Entrada {
        assert Filter(h, EhEntrada) == fe + [m] && Filter(h, EhSaida) == fs;
        SumByAppend(fe, m, Quantidade);
      } else {
        assert Filter(h, EhEntrada) == fe && Filter(h, EhSaida) == fs + [m];
        SumByAppend(fs, m, Quantidade);
      }
    }
  }

  lemma EstoqueComMovimento(h: seq<MovimentacaoEstoque>, m: MovimentacaoEstoque)
    ensures Estoque(h + [m]) == Estoque(h) + Efeito(m)
  {
    SumByAppend(h, m, Efeito);
  }

  lemma EstoqueComMovimentoTodos(ps: seq<Produto>, m: MovimentacaoEstoque)
    ensures forall i :: 0 <= i < |ps| ==>
      Estoque(ps[i].historico + [m]) == Estoque(ps[i].historico) + Efeito(m)
  {
    forall i | 0 <= i < |ps| {
      EstoqueComMovimento(ps[i].historico, m);
    }
  }

  // ---------------------------------------------------------------------------------
  // The store after each operation

  /** Every cached stock equals the fold of its history. */
  predicate Consistente(ps: seq<Produto>) {
    forall i :: 0 <= i < |ps| ==> ps[i].estoqueAtual == Estoque(ps[i].historico)
  }

  predicate NaoNegativo(ps: seq<Produto>) {
    forall i :: 0 <= i < |ps| ==> ps[i].estoqueAtual >= 0
  }

  /** The shape every reload has: unique ids, ordered by name. */
  ghost predicate Valida(ps: seq<Produto>) {
    ChavesUnicas(ps, IdDe) && Ordenada(ps, PorNome)
  }

  /** The movement written at registration: one `entrada` of the initial stock, only if it is
      positive. */
  function HistoricoInicial(estoqueInicial: int, hoje: Data): (h: seq<MovimentacaoEstoque>)
    ensures |h| <= 1
    ensures forall m :: m in h ==> m.tipo == Entrada && m.descricao == "Estoque inicial" && m.data == hoje
    ensures Estoque(h) == Max(0, estoqueInicial)
  {
    if estoqueInicial > 0 then
      var m := MovimentacaoEstoque(Entrada, estoqueInicial, "Estoque inicial", hoje, None);
      SumByAppend([], m, Efeito);
      assert [m] == [] + [m];
      [m]
    else []
  }

  /** The product as the reload shows it after `adicionarProduto`: the stored stock is the
      initial stock, whatever its sign; an empty photo address reads back as none. */
  function NovoProduto(id: Id, codigo: string, nome: string, preco: int, estoqueInicial: int,
                       estoqueMinimo: int, fotoUrl: Option<string>, hoje: Data): Produto
  {
    Produto(id, codigo, nome, preco, estoqueInicial, estoqueMinimo, Normaliza(fotoUrl), hoje,
            HistoricoInicial(estoqueInicial, hoje))
  }

  /** A freshly registered product agrees with its fold exactly when its initial stock is not
      negative: a negative initial stock is stored but no movement explains it. */
  lemma NovoProdutoConsistente(id: Id, codigo: string, nome: string, preco: int, estoqueInicial: int,
                               estoqueMinimo: int, fotoUrl: Option<string>, hoje: Data)
    ensures var p := NovoProduto(id, codigo, nome, preco, estoqueInicial, estoqueMinimo, fotoUrl, hoje);
      p.estoqueAtual == Estoque(p.historico) <==> estoqueInicial >= 0
  {
  }

  /** `adicionarProduto`: a fresh id gets a new row, inserted in name order; a repeated id is
      refused by the primary key and nothing changes. */
  function AposAdicionar(ps: seq<Produto>, id: Id, codigo: string, nome: string, preco: int,
                         estoqueInicial: int, estoqueMinimo: int, fotoUrl: Option<string>, hoje: Data): (r: seq<Produto>)
    ensures TemChave(ps, IdDe, id) ==> r == ps
    ensures !TemChave(ps, IdDe, id) ==>
      multiset(r) == multiset(ps) + multiset{NovoProduto(id, codigo, nome, preco, estoqueInicial, estoqueMinimo, fotoUrl, hoje)}
  {
    if TemChave(ps, IdDe, id) then ps
    else Insere(ps, NovoProduto(id, codigo, nome, preco, estoqueInicial, estoqueMinimo, fotoUrl, hoje), PorNome)
  }

  /** One movement recorded for the product(s) with key `id`, each stock refolded. */
  function Movimentar(ps: seq<Produto>, id: Id, m: MovimentacaoEstoque): (r: seq<Produto>)
    ensures |r| == |ps|
    ensures forall i :: 0 <= i < |ps| ==>
      && r[i].id == ps[i].id && r[i].nome == ps[i].nome && r[i].codigo == ps[i].codigo
      && r[i].preco == ps[i].preco && r[i].estoqueMinimo == ps[i].estoqueMinimo
      && r[i].fotoUrl == ps[i].fotoUrl && r[i].dataCadastro == ps[i].dataCadastro
    ensures forall i :: 0 <= i < |ps| && ps[i].id != id ==> r[i] == ps[i]
    ensures forall i :: 0 <= i < |ps| && ps[i].id == id ==>
      r[i].historico == ps[i].historico + [m] && r[i].estoqueAtual == Estoque(ps[i].historico) + Efeito(m)
  {
    EstoqueComMovimentoTodos(ps, m);
    seq(|ps|, i requires 0 <= i < |ps| =>
      if ps[i].id == id then
        var h := ps[i].historico + [m];
        ps[i].(historico := h, estoqueAtual := Estoque(h))
      else ps[i])
  }

  /** `entradaEstoque`: one `entrada` appended and the stock refolded; no check on the
      quantity, and an unknown id changes nothing. */
  function AposEntrada(ps: seq<Produto>, id: Id, quantidade: int, descricao: string, hoje: Data): (r: seq<Produto>)
    ensures |r| == |ps|
    ensures forall i :: 0 <= i < |ps| && ps[i].id != id ==> r[i] == ps[i]
    ensures forall i :: 0 <= i < |ps| && ps[i].id == id ==>
      && r[i].historico == ps[i].historico + [MovimentacaoEstoque(Entrada, quantidade, descricao, hoje, None)]
      && r[i].estoqueAtual == Estoque(ps[i].historico) + quantidade
  {
    Movimentar(ps, id, MovimentacaoEstoque(Entrada, quantidade, descricao, hoje, None))
  }

  /** The guard of `saidaEstoque`: the product is in the list and its cached stock is not
      below the quantity. */
  predicate SaidaPermitida(ps: seq<Produto>, id: Id, quantidade: int) {
    match Localiza(ps, IdDe, id)
    case None => false
    case Some(i) => !(ps[i].estoqueAtual < quantidade)
  }

  /** `saidaEstoque`: refused (nothing written) for an unknown product or a cached stock
      below the quantity; otherwise one `saida` with the optional customer reference, and the
      refolded stock is lower by the quantity. */
  function AposSaida(ps: seq<Produto>, id: Id, quantidade: int, descricao: string, clienteId: Option<Id>, hoje: Data): (r: seq<Produto>)
    ensures !SaidaPermitida(ps, id, quantidade) ==> r == ps
    ensures SaidaPermitida(ps, id, quantidade) ==>
      && |r| == |ps|
      && (forall i :: 0 <= i < |ps| && ps[i].id != id ==> r[i] == ps[i])
      && (forall i :: 0 <= i < |ps| && ps[i].id == id ==>
            && r[i].historico == ps[i].historico + [MovimentacaoEstoque(Saida, quantidade, descricao, hoje, Normaliza(clienteId))]
            && r[i].estoqueAtual == Estoque(ps[i].historico) - quantidade)
  {
    if SaidaPermitida(ps, id, quantidade)
    then Movimentar(ps, id, MovimentacaoEstoque(Saida, quantidade, descricao, hoje, Normaliza(clienteId)))
    else ps
  }

  /** `removerProduto`: the row goes with its movements; the others stay. */
  function AposRemover(ps: seq<Produto>, id: Id): (r: seq<Produto>)
    ensures !TemChave(r, IdDe, id)
    ensures forall p :: p in r <==> p in ps && p.id != id
  {
    Filter(ps, (p: Produto) => p.id != id)
  }

  /** `atualizarFotoProduto`: only the photo address of that product changes; an empty
      address reads back as none. */
  function AposFoto(ps: seq<Produto>, id: Id, fotoUrl: string): (r: seq<Produto>)
    ensures |r| == |ps|
    ensures forall i :: 0 <= i < |ps| && ps[i].id != id ==> r[i] == ps[i]
    ensures forall i :: 0 <= i < |ps| && ps[i].id == id ==>
      r[i] == ps[i].(fotoUrl := Normaliza(Some(fotoUrl)))
  {
    seq(|ps|, i requires 0 <= i < |ps| =>
      if ps[i].id == id then ps[i].(fotoUrl := Normaliza(Some(fotoUrl))) else ps[i])
  }

  // ---------------------------------------------------------------------------------
  // Properties of the operations

  /** Operations that keep every field but the history and the stock keep the name order and
      the keys. */
  lemma MesmosNomesEChaves(ps: seq<Produto>, r: seq<Produto>)
    requires Valida(ps)
    requires |r| == |ps| && forall i :: 0 <= i < |ps| ==> r[i].id == ps[i].id && r[i].nome == ps[i].nome
    ensures Valida(r)
  {
    forall i, j | 0 <= i < j < |r| ensures PorNome(r[i], r[j]) {
      assert PorNome(ps[i], ps[j]);
    }
  }

  lemma AdicionarPreservaValida(ps: seq<Produto>, id: Id, codigo: string, nome: string, preco: int,
                                estoqueInicial: int, estoqueMinimo: int, fotoUrl: Option<string>, hoje: Data)
    requires Valida(ps)
    ensures Valida(AposAdicionar(ps, id, codigo, nome, preco, estoqueInicial, estoqueMinimo, fotoUrl, hoje))
  {
    if !TemChave(ps, IdDe, id) {
      var novo := NovoProduto(id, codigo, nome, preco, estoqueInicial, estoqueMinimo, fotoUrl, hoje);
      Texto.PorNomeEhPreordem(NomeDe, PorNome);
      InsereOrdenada(ps, novo, PorNome);
      InsereMantemChaves(ps, novo, PorNome, IdDe);
    }
  }

  /** Registering a product with a non-negative initial stock keeps every stock equal to its
      fold and non-negative. */
  lemma AdicionarPreservaConsistente(ps: seq<Produto>, id: Id, codigo: string, nome: string, preco: int,
                                     estoqueInicial: int, estoqueMinimo: int, fotoUrl: Option<string>, hoje: Data)
    requires Consistente(ps) && NaoNegativo(ps) && estoqueInicial >= 0
    ensures var r := AposAdicionar(ps, id, codigo, nome, preco, estoqueInicial, estoqueMinimo, fotoUrl, hoje);
      Consistente(r) && NaoNegativo(r)
  {
    var r := AposAdicionar(ps, id, codigo, nome, preco, estoqueInicial, estoqueMinimo, fotoUrl, hoje);
    var novo := NovoProduto(id, codigo, nome, preco, estoqueInicial, estoqueMinimo, fotoUrl, hoje);
    NovoProdutoConsistente(id, codigo, nome, preco, estoqueInicial, estoqueMinimo, fotoUrl, hoje);
    if !TemChave(ps, IdDe, id) {
      forall i | 0 <= i < |r| ensures r[i].estoqueAtual == Estoque(r[i].historico) && r[i].estoqueAtual >= 0 {
        assert r[i] in multiset(ps) + multiset{novo};
        if r[i] != novo {
          var j :| 0 <= j < |ps| && ps[j] == r[i];
        }
      }
    }
  }

  /** A negative initial stock is stored as it is and breaks the agreement with the fold. */
  lemma AdicionarNegativoInconsistente(hoje: Data)
    ensures var r := AposAdicionar([], "p", "001", "Suco", 300, -5, 2, None, hoje);
      |r| == 1 && r[0].estoqueAtual == -5 && r[0].historico == [] && !Consistente(r)
  {
  }

  /** A stock-in or stock-out keeps every cached stock equal to its fold. */
  lemma MovimentarPreservaConsistente(ps: seq<Produto>, id: Id, m: MovimentacaoEstoque)
    requires Consistente(ps)
    ensures Consistente(Movimentar(ps, id, m))
  {
  }

  /** With consistent stocks, a stock-out never drives a stock below 0, whatever the
      quantity: no clamp is needed because the guard keeps the cached value at least the
      quantity. */
  lemma SaidaPreservaNaoNegativo(ps: seq<Produto>, id: Id, quantidade: int, descricao: string, clienteId: Option<Id>, hoje: Data)
    requires Valida(ps) && Consistente(ps) && NaoNegativo(ps)
    ensures var r := AposSaida(ps, id, quantidade, descricao, clienteId, hoje);
      Consistente(r) && NaoNegativo(r)
  {
    if SaidaPermitida(ps, id, quantidade) {
      var i := Localiza(ps, IdDe, id).value;
      LocalizaUnica(ps, IdDe, id, i);
    }
  }

  /** A stock-in of a non-negative quantity keeps stocks non-negative. */
  lemma EntradaPreservaNaoNegativo(ps: seq<Produto>, id: Id, quantidade: int, descricao: string, hoje: Data)
    requires Consistente(ps) && NaoNegativo(ps) && quantidade >= 0
    ensures var r := AposEntrada(ps, id, quantidade, descricao, hoje);
      Consistente(r) && NaoNegativo(r)
  {
  }

  /** The product fold is not clamped: a stock-in of a negative quantity, which the hook does
      not refuse, drives the stock below 0. */
  lemma EntradaSemLimite(hoje: Data)
    ensures var p := NovoProduto("p", "001", "Suco", 300, 0, 2, None, hoje);
      AposEntrada([p], "p", -3, "erro", hoje)[0].estoqueAtual == -3
  {
  }

  /** The guard is strict: taking out exactly the cached stock is allowed and leaves 0. */
  lemma SaidaDeTudoZera(ps: seq<Produto>, i: nat, descricao: string, clienteId: Option<Id>, hoje: Data)
    requires Valida(ps) && Consistente(ps) && i < |ps|
    ensures SaidaPermitida(ps, ps[i].id, ps[i].estoqueAtual)
    ensures AposSaida(ps, ps[i].id, ps[i].estoqueAtual, descricao, clienteId, hoje)[i].estoqueAtual == 0
  {
    LocalizaUnica(ps, IdDe, ps[i].id, i);
  }

  /** On a product in the list, the guard refuses exactly the quantities above the cached
      stock. */
  lemma SaidaPermitidaSse(ps: seq<Produto>, i: nat, quantidade: int)
    requires Valida(ps) && i < |ps|
    ensures SaidaPermitida(ps, ps[i].id, quantidade) <==> quantidade <= ps[i].estoqueAtual
  {
    LocalizaUnica(ps, IdDe, ps[i].id, i);
  }

  lemma SaidaPreservaValida(ps: seq<Produto>, id: Id, quantidade: int, descricao: string, clienteId: Option<Id>, hoje: Data)
    requires Valida(ps)
    ensures Valida(AposSaida(ps, id, quantidade, descricao, clienteId, hoje))
  {
    MesmosNomesEChaves(ps, AposSaida(ps, id, quantidade, descricao, clienteId, hoje));
  }

  lemma RemoverPreservaValida(ps: seq<Produto>, id: Id)
    requires Valida(ps)
    ensures Valida(AposRemover(ps, id))
  {
    var p := (x: Produto) => x.id != id;
    FilterMantemChaves(ps, p, IdDe);
    FilterKeepsOrder(ps, p, PorNome);
  }

  /** Removing a product keeps the others' stocks in agreement with their folds. */
  lemma RemoverPreservaConsistente(ps: seq<Produto>, id: Id)
    requires Consistente(ps) && NaoNegativo(ps)
    ensures Consistente(AposRemover(ps, id)) && NaoNegativo(AposRemover(ps, id))
  {
    var r := AposRemover(ps, id);
    forall i | 0 <= i < |r| ensures r[i].estoqueAtual == Estoque(r[i].historico) && r[i].estoqueAtual >= 0 {
      var j :| 0 <= j < |ps| && ps[j] == r[i];
    }
  }

  /** Scenario: Suco registered with 10 units; a stock-out of 4 leaves 6; a stock-out of 10
      is then refused and the stock stays 6. */
  lemma CenarioSuco(hoje: Data)
    ensures var p0 := AposAdicionar([], "suco", "001", "Suco", 300, 10, 2, None, hoje);
      var p1 := AposSaida(p0, "suco", 4, "venda", None, hoje);
      var p2 := AposSaida(p1, "suco", 10, "venda", None, hoje);
      |p1| == 1 && p1[0].estoqueAtual == 6 && p2 == p1
  {
    var p0 := AposAdicionar([], "suco", "001", "Suco", 300, 10, 2, None, hoje);
    assert p0 == [NovoProduto("suco", "001", "Suco", 300, 10, 2, None, hoje)];
    NovoProdutoConsistente("suco", "001", "Suco", 300, 10, 2, None, hoje);
    assert Localiza(p0, IdDe, "suco") == Some(0);
    var p1 := AposSaida(p0, "suco", 4, "venda", None, hoje);
    assert Localiza(p1, IdDe, "suco") == Some(0);
  }

  // ---------------------------------------------------------------------------------
  // The reload (`fetchProdutos`)

  datatype LinhaMovimentacao = LinhaMovimentacao(
    produtoId: Id,
    tipo: TipoEstoque,
    quantidade: int,
    descricao: string,
    data: Data,
    clienteId: Option<Id>)

  function ParaMovimentacao(l: LinhaMovimentacao): MovimentacaoEstoque {
    MovimentacaoEstoque(l.tipo, l.quantidade, l.descricao, l.data, Normaliza(l.clienteId))
  }

  /** The history of one product: the movement rows whose `produto_id` matches, in query
      order. */
  function HistoricoDe(movs: seq<LinhaMovimentacao>, id: Id): (h: seq<MovimentacaoEstoque>)
    ensures |h| == Count(movs, (l: LinhaMovimentacao) => l.produtoId == id)
  {
    Map(Filter(movs, (l: LinhaMovimentacao) => l.produtoId == id), ParaMovimentacao)
  }

  /** Each product's history holds exactly the movements recorded under its id. */
  lemma HistoricoDeAgrupa(movs: seq<LinhaMovimentacao>, id: Id, m: MovimentacaoEstoque)
    ensures m in HistoricoDe(movs, id) <==>
      exists l :: l in movs && l.produtoId == id && ParaMovimentacao(l) == m
  {
    var f := Filter(movs, (l: LinhaMovimentacao) => l.produtoId == id);
    var h := HistoricoDe(movs, id);
    if m in h {
      var k :| 0 <= k < |h| && h[k] == m;
      assert f[k] in movs;
    }
    if exists l :: l in movs && l.produtoId == id && ParaMovimentacao(l) == m {
      var l :| l in movs && l.produtoId == id && ParaMovimentacao(l) == m;
      var k :| 0 <= k < |movs| && movs[k] == l;
      assert l in f;
      var j :| 0 <= j < |f| && f[j] == l;
      assert h[j] == m;
    }
  }

  // ---------------------------------------------------------------------------------
  // The hook's state and its operations

  class ProdutosLedger {
    var produtos: seq<Produto>

    ghost predicate Valid()
      reads this
    {
      Valida(produtos)
    }

    constructor ()
      ensures Valid() && produtos == []
    {
      produtos := [];
    }

    method AdicionarProduto(id: Id, codigo: string, nome: string, preco: int, estoqueInicial: int,
                            estoqueMinimo: int, fotoUrl: Option<string>, hoje: Data)
      requires Valid()
      modifies this
      ensures Valid()
      ensures produtos == AposAdicionar(old(produtos), id, codigo, nome, preco, estoqueInicial, estoqueMinimo, fotoUrl, hoje)
    {
      AdicionarPreservaValida(produtos, id, codigo, nome, preco, estoqueInicial, estoqueMinimo, fotoUrl, hoje);
      if TemChave(produtos, IdDe, id) {
        return;
      }
      var novo := Produto(id, codigo, nome, preco, estoqueInicial, estoqueMinimo, Normaliza(fotoUrl), hoje, []);
      if estoqueInicial > 0 {
        novo := novo.(historico := [MovimentacaoEstoque(Entrada, estoqueInicial, "Estoque inicial", hoje, None)]);
      }
      produtos := Insere(produtos, novo, PorNome);
    }

    /** Insert the movement row, re-read the product's movements, fold them and write the
        new stock. An unknown id is refused by the foreign key: nothing changes. */
    method Registrar(produtoId: Id, m: MovimentacaoEstoque)
      requires Valid()
      modifies this
      ensures Valid()
      ensures produtos == Movimentar(old(produtos), produtoId, m)
    {
      MesmosNomesEChaves(produtos, Movimentar(produtos, produtoId, m));
      var k := Localiza(produtos, IdDe, produtoId);
      if k.None? {
        assert Movimentar(produtos, produtoId, m) == produtos;
        return;
      }
      var i := k.value;
      LocalizaUnica(produtos, IdDe, produtoId, i);
      var h := produtos[i].historico + [m];
      var novoEstoque := Estoque(h);
      produtos := produtos[i := produtos[i].(historico := h, estoqueAtual := novoEstoque)];
    }

    method EntradaEstoque(produtoId: Id, quantidade: int, descricao: string, hoje: Data)
      requires Valid()
      modifies this
      ensures Valid()
      ensures produtos == AposEntrada(old(produtos), produtoId, quantidade, descricao, hoje)
    {
      Registrar(produtoId, MovimentacaoEstoque(Entrada, quantidade, descricao, hoje, None));
    }

    method SaidaEstoque(produtoId: Id, quantidade: int, descricao: string, clienteId: Option<Id>, hoje: Data)
      requires Valid()
      modifies this
      ensures Valid()
      ensures produtos == AposSaida(old(produtos), produtoId, quantidade, descricao, clienteId, hoje)
    {
      var k := Localiza(produtos, IdDe, produtoId);
      if k.None? || produtos[k.value].estoqueAtual < quantidade {
        return;
      }
      Registrar(produtoId, MovimentacaoEstoque(Saida, quantidade, descricao, hoje, Normaliza(clienteId)));
    }

    method RemoverProduto(produtoId: Id)
      requires Valid()
      modifies this
      ensures Valid()
      ensures produtos == AposRemover(old(produtos), produtoId)
    {
      RemoverPreservaValida(produtos, produtoId);
      produtos := AposRemover(produtos, produtoId);
    }

    method AtualizarFotoProduto(produtoId: Id, fotoUrl: string)
      requires Valid()
      modifies this
      ensures Valid()
      ensures produtos == AposFoto(old(produtos), produtoId, fotoUrl)
    {
      MesmosNomesEChaves(produtos, AposFoto(produtos, produtoId, fotoUrl));
      produtos := AposFoto(produtos, produtoId, fotoUrl);
    }
  }
}
