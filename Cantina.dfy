/** The canteen context (`CantinaContext`): the three ledgers side by side, the sale that
    touches two of them, and the monthly report computed from the customer and product
    lists. */
module Cantina {
  import opened Common
  import opened Ordem
  import Texto
  import Clientes
  import Produtos
  import Colaboradores

  // ---------------------------------------------------------------------------------
  // The sale (`realizarVenda`)

  /** The guard of the sale: the product and the customer are both listed and the product's
      cached stock is not below the quantity. The quantity itself is not checked. */
  predicate VendaPermitida(ps: seq<Produtos.Produto>, cs: seq<Clientes.Cliente>, clienteId: Id, produtoId: Id, quantidade: int) {
    var p := Localiza(ps, Produtos.IdDe, produtoId);
    var c := Localiza(cs, Clientes.IdDe, clienteId);
    p.Some? && c.Some? && !(ps[p.value].estoqueAtual < quantidade)
  }

  function DescricaoVenda(nomeCliente: string): string {
    "Venda para " + nomeCliente
  }

  function DescricaoCompra(quantidade: int, nomeProduto: string): string {
    "Compra: " + Texto.IntParaTexto(quantidade) + "x " + nomeProduto
  }

  datatype ResultadoVenda = ResultadoVenda(ok: bool, produtos: seq<Produtos.Produto>, clientes: seq<Clientes.Cliente>)

  /** The two lists after `realizarVenda`: when the guard refuses, `false` and nothing
      written; otherwise a stock-out of the quantity with the customer reference, then a debit
      of price times quantity with the product reference, and `true`. */
  function Venda(ps: seq<Produtos.Produto>, cs: seq<Clientes.Cliente>, clienteId: Id, produtoId: Id, quantidade: int, hoje: Data): (r: ResultadoVenda)
    ensures r.ok == VendaPermitida(ps, cs, clienteId, produtoId, quantidade)
    ensures !r.ok ==> r.produtos == ps && r.clientes == cs
    ensures r.ok ==> |r.produtos| == |ps| && |r.clientes| == |cs|
    ensures r.ok ==> forall i :: 0 <= i < |ps| && ps[i].id != produtoId ==> r.produtos[i] == ps[i]
    ensures r.ok ==> forall j :: 0 <= j < |cs| && cs[j].id != clienteId ==> r.clientes[j] == cs[j]
    ensures r.ok ==>
      var c := cs[Localiza(cs, Clientes.IdDe, clienteId).value];
      forall i :: 0 <= i < |ps| && ps[i].id == produtoId ==>
        && r.produtos[i].historico == ps[i].historico +
             [Produtos.MovimentacaoEstoque(Produtos.Saida, quantidade, DescricaoVenda(c.nome), hoje, Normaliza(Some(clienteId)))]
        && r.produtos[i].estoqueAtual == Produtos.Estoque(ps[i].historico) - quantidade
    ensures r.ok ==>
      var p := ps[Localiza(ps, Produtos.IdDe, produtoId).value];
      forall j :: 0 <= j < |cs| && cs[j].id == clienteId ==>
        && r.clientes[j].historico == cs[j].historico +
             [Clientes.MovimentacaoCliente(Clientes.Debito, p.preco * quantidade, DescricaoCompra(quantidade, p.nome), hoje, Normaliza(Some(produtoId)))]
        && r.clientes[j].saldo == Clientes.Saldo(cs[j].historico) - p.preco * quantidade
  {
    if !VendaPermitida(ps, cs, clienteId, produtoId, quantidade) then ResultadoVenda(false, ps, cs)
    else
      var p := ps[Localiza(ps, Produtos.IdDe, produtoId).value];
      var c := cs[Localiza(cs, Clientes.IdDe, clienteId).value];
      ResultadoVenda(true,
        Produtos.AposSaida(ps, produtoId, quantidade, DescricaoVenda(c.nome), Some(clienteId), hoje),
        Clientes.AposDebito(cs, clienteId, p.preco * quantidade, DescricaoCompra(quantidade, p.nome), Some(produtoId), hoje))
  }

  /** On a listed product and customer the sale is refused exactly when the quantity exceeds
      the cached stock; an unknown product or customer is always refused. */
  lemma VendaPermitidaSse(ps: seq<Produtos.Produto>, cs: seq<Clientes.Cliente>, clienteId: Id, produtoId: Id, quantidade: int)
    requires Produtos.Valida(ps) && Clientes.Valida(cs)
    ensures !TemChave(ps, Produtos.IdDe, produtoId) ==> !VendaPermitida(ps, cs, clienteId, produtoId, quantidade)
    ensures !TemChave(cs, Clientes.IdDe, clienteId) ==> !VendaPermitida(ps, cs, clienteId, produtoId, quantidade)
    ensures forall i, j :: 0 <= i < |ps| && ps[i].id == produtoId && 0 <= j < |cs| && cs[j].id == clienteId ==>
      (VendaPermitida(ps, cs, clienteId, produtoId, quantidade) <==> quantidade <= ps[i].estoqueAtual)
  {
    forall i, j | 0 <= i < |ps| && ps[i].id == produtoId && 0 <= j < |cs| && cs[j].id == clienteId
      ensures VendaPermitida(ps, cs, clienteId, produtoId, quantidade) <==> quantidade <= ps[i].estoqueAtual
    {
      LocalizaUnica(ps, Produtos.IdDe, produtoId, i);
      LocalizaUnica(cs, Clientes.IdDe, clienteId, j);
    }
  }

  /** A successful sale lowers the product's stock by the quantity and the customer's balance
      by price times quantity, appends one movement to each with the two cross references, and
      leaves every other product and customer as it was. */
  lemma VendaEfeitos(ps: seq<Produtos.Produto>, cs: seq<Clientes.Cliente>, clienteId: Id, produtoId: Id,
                     quantidade: int, hoje: Data, i: nat, j: nat)
    requires Produtos.Valida(ps) && Produtos.Consistente(ps) && Clientes.Valida(cs)
    requires i < |ps| && ps[i].id == produtoId && j < |cs| && cs[j].id == clienteId
    requires quantidade <= ps[i].estoqueAtual
    ensures var r := Venda(ps, cs, clienteId, produtoId, quantidade, hoje);
      && r.ok
      && |r.produtos| == |ps| && |r.clientes| == |cs|
      && r.produtos[i].estoqueAtual == ps[i].estoqueAtual - quantidade
      && r.produtos[i].historico == ps[i].historico +
           [Produtos.MovimentacaoEstoque(Produtos.Saida, quantidade, DescricaoVenda(cs[j].nome), hoje, Normaliza(Some(clienteId)))]
      && r.clientes[j].saldo == cs[j].saldo - ps[i].preco * quantidade
      && r.clientes[j].historico == cs[j].historico +
           [Clientes.MovimentacaoCliente(Clientes.Debito, ps[i].preco * quantidade, DescricaoCompra(quantidade, ps[i].nome), hoje, Normaliza(Some(produtoId)))]
      && (forall k :: 0 <= k < |ps| && k != i ==> r.produtos[k] == ps[k])
      && (forall k :: 0 <= k < |cs| && k != j ==> r.clientes[k] == cs[k])
  {
    LocalizaUnica(ps, Produtos.IdDe, produtoId, i);
    LocalizaUnica(cs, Clientes.IdDe, clienteId, j);
    assert VendaPermitida(ps, cs, clienteId, produtoId, quantidade);
    assert Produtos.SaidaPermitida(ps, produtoId, quantidade);
    var r := Venda(ps, cs, clienteId, produtoId, quantidade, hoje);
    assert r.produtos == Produtos.AposSaida(ps, produtoId, quantidade, DescricaoVenda(cs[j].nome), Some(clienteId), hoje);
    assert r.clientes == Clientes.AposDebito(cs, clienteId, ps[i].preco * quantidade, DescricaoCompra(quantidade, ps[i].nome), Some(produtoId), hoje);
    assert r.produtos[i].estoqueAtual == ps[i].estoqueAtual - quantidade;
    assert r.clientes[j].saldo == cs[j].saldo - ps[i].preco * quantidade;
  }

  /** The quantity is not checked: a sale of -1 raises the stock by one and the balance by the
      price. */
  lemma VendaQuantidadeNegativa(hoje: Data)
    ensures var ps := Produtos.AposAdicionar([], "suco", "001", "Suco", 300, 6, 2, None, hoje);
      var cs := Clientes.AposAdicionar([], "ana", "Ana", hoje);
      var r := Venda(ps, cs, "ana", "suco", -1, hoje);
      r.ok && r.produtos[0].estoqueAtual == 7 && r.clientes[0].saldo == 300
  {
    ProdutoUnico("suco", "001", "Suco", 300, 6, 2, hoje);
    ClienteUnico("ana", "Ana", hoje);
    VendaEfeitos(Produtos.AposAdicionar([], "suco", "001", "Suco", 300, 6, 2, None, hoje),
      Clientes.AposAdicionar([], "ana", "Ana", hoje), "ana", "suco", -1, hoje, 0, 0);
  }

  /** Scenario: Ana has a balance of 50 and Suco costs 3 with 6 in stock; selling 2 leaves 4 in
      stock and a balance of 44. */
  lemma CenarioVendaAna(hoje: Data)
    ensures var ps := Produtos.AposAdicionar([], "suco", "001", "Suco", 3, 6, 2, None, hoje);
      var cs := Clientes.AposCredito(Clientes.AposAdicionar([], "ana", "Ana", hoje), "ana", 50, "recarga", hoje);
      var r := Venda(ps, cs, "ana", "suco", 2, hoje);
      r.ok && r.produtos[0].estoqueAtual == 4 && r.clientes[0].saldo == 44
  {
    ProdutoUnico("suco", "001", "Suco", 3, 6, 2, hoje);
    ClienteUnicoComCredito("ana", "Ana", 50, "recarga", hoje);
    VendaEfeitos(Produtos.AposAdicionar([], "suco", "001", "Suco", 3, 6, 2, None, hoje),
      Clientes.AposCredito(Clientes.AposAdicionar([], "ana", "Ana", hoje), "ana", 50, "recarga", hoje), "ana", "suco", 2, hoje, 0, 0);
  }

  /** The product list after registering one product with no stock below zero into an
      empty list. */
  lemma ProdutoUnico(id: Id, codigo: string, nome: string, preco: int, estoque: int, minimo: int, hoje: Data)
    requires estoque >= 0
    ensures var ps := Produtos.AposAdicionar([], id, codigo, nome, preco, estoque, minimo, None, hoje);
      && |ps| == 1 && ps[0].id == id && ps[0].nome == nome && ps[0].preco == preco && ps[0].estoqueAtual == estoque
      && Produtos.Valida(ps) && Produtos.Consistente(ps)
  {
    var p := Produtos.NovoProduto(id, codigo, nome, preco, estoque, minimo, None, hoje);
    assert Produtos.AposAdicionar([], id, codigo, nome, preco, estoque, minimo, None, hoje) == [p];
    Produtos.NovoProdutoConsistente(id, codigo, nome, preco, estoque, minimo, None, hoje);
  }

  /** The customer list after registering one customer into an empty list. */
  lemma ClienteUnico(id: Id, nome: string, hoje: Data)
    ensures var cs := Clientes.AposAdicionar([], id, nome, hoje);
      |cs| == 1 && cs[0].id == id && cs[0].nome == nome && cs[0].saldo == 0 && Clientes.Valida(cs)
  {
    assert Clientes.AposAdicionar([], id, nome, hoje) == [Clientes.NovoCliente(id, nome, hoje)];
  }

  /** The customer list after registering one customer and crediting it. */
  lemma ClienteUnicoComCredito(id: Id, nome: string, valor: int, descricao: string, hoje: Data)
    ensures var cs := Clientes.AposCredito(Clientes.AposAdicionar([], id, nome, hoje), id, valor, descricao, hoje);
      |cs| == 1 && cs[0].id == id && cs[0].nome == nome && cs[0].saldo == valor && Clientes.Valida(cs)
  {
    var c0 := Clientes.AposAdicionar([], id, nome, hoje);
    ClienteUnico(id, nome, hoje);
    Clientes.MovimentarPreservaValida(c0, id, Clientes.MovimentacaoCliente(Clientes.Credito, valor, descricao, hoje, None));
  }

  // ---------------------------------------------------------------------------------
  // The monthly report (`getDashboardData`)

  function SaldoDe(c: Clientes.Cliente): int { c.saldo }
  predicate SaldoNaoNegativo(c: Clientes.Cliente) { c.saldo >= 0 }
  predicate SaldoNegativo(c: Clientes.Cliente) { c.saldo < 0 }

  /** What one customer contributes to each side of the sign split. */
  function ParteNaoNegativa(c: Clientes.Cliente): int { if c.saldo >= 0 then c.saldo else 0 }
  function ParteNegativa(c: Clientes.Cliente): int { if c.saldo < 0 then c.saldo else 0 }

  /** The movements of one history that fall in the month. */
  function DoPeriodo(h: seq<Clientes.MovimentacaoCliente>, mes: int, ano: int): (r: seq<Clientes.MovimentacaoCliente>)
    ensures forall m :: m in r <==> m in h && NoPeriodo(m.data, mes, ano)
  {
    if h == [] then []
    else
      var h', m := h[..|h| - 1], h[|h| - 1];
      assert h == h' + [m];
      DoPeriodo(h', mes, ano) + (if NoPeriodo(m.data, mes, ano) then [m] else [])
  }

  lemma DoPeriodoComMovimento(h: seq<Clientes.MovimentacaoCliente>, m: Clientes.MovimentacaoCliente, mes: int, ano: int)
    ensures DoPeriodo(h + [m], mes, ano) == DoPeriodo(h, mes, ano) + (if NoPeriodo(m.data, mes, ano) then [m] else [])
  {
    assert (h + [m])[..|h|] == h;
  }

  /** `clientes.flatMap(c => c.historico.filter(inPeriod))`. */
  function MovimentacoesMes(cs: seq<Clientes.Cliente>, mes: int, ano: int): (r: seq<Clientes.MovimentacaoCliente>)
    ensures forall m :: m in r <==>
      exists k :: 0 <= k < |cs| && m in cs[k].historico && NoPeriodo(m.data, mes, ano)
  {
    if cs == [] then []
    else
      var cs' := cs[..|cs| - 1];
      assert forall k :: 0 <= k < |cs'| ==> cs'[k] == cs[k];
      MovimentacoesMes(cs', mes, ano) + DoPeriodo(cs[|cs| - 1].historico, mes, ano)
  }

  /** The quantity of one product's `saida` movements in the month. */
  function VendasDe(h: seq<Produtos.MovimentacaoEstoque>, mes: int, ano: int): int {
    if h == [] then 0
    else
      var m := h[|h| - 1];
      VendasDe(h[..|h| - 1], mes, ano) + (if m.tipo == Produtos.Saida && NoPeriodo(m.data, mes, ano) then m.quantidade else 0)
  }

  datatype VendasProduto = VendasProduto(nome: string, vendas: int)

  predicate NomesUnicos(t: seq<VendasProduto>) {
    forall i, j :: 0 <= i < j < |t| ==> t[i].nome != t[j].nome
  }

  /** `tabela[nome] = vendas` on a record: an existing key keeps its place and takes the new
      value; a new key goes last. */
  function Registra(t: seq<VendasProduto>, nome: string, vendas: int): (r: seq<VendasProduto>)
    ensures |r| <= |t| + 1
    ensures VendasProduto(nome, vendas) in r
    ensures NomesUnicos(t) ==> NomesUnicos(r)
    ensures NomesUnicos(t) ==> forall j :: 0 <= j < |r| && r[j].nome == nome ==> r[j].vendas == vendas
    ensures forall e :: e in r && e.nome != nome ==> e in t
    ensures forall e :: e in t && e.nome != nome ==> e in r
  {
    if t == [] then [VendasProduto(nome, vendas)]
    else if t[0].nome == nome then [VendasProduto(nome, vendas)] + t[1..]
    else
      assert forall e :: e in t[1..] ==> e in t;
      assert NomesUnicos(t) ==> NomesUnicos(t[1..]) && forall e :: e in t[1..] ==> e.nome != t[0].nome;
      [t[0]] + Registra(t[1..], nome, vendas)
  }

  /** `vendasPorProduto`: one entry per product name, in the order names first appear. */
  function Tabela(ps: seq<Produtos.Produto>, mes: int, ano: int): (t: seq<VendasProduto>)
    ensures |t| <= |ps|
    ensures NomesUnicos(t)
  {
    if ps == [] then []
    else
      var p := ps[|ps| - 1];
      Registra(Tabela(ps[..|ps| - 1], mes, ano), p.nome, VendasDe(p.historico, mes, ano))
  }

  /** Some entry carries the name. */
  predicate TemNome(t: seq<VendasProduto>, nome: string) {
    exists j :: 0 <= j < |t| && t[j].nome == nome
  }

  /** Every product name has an entry. */
  lemma {:induction false} TabelaCobreNomes(ps: seq<Produtos.Produto>, mes: int, ano: int)
    ensures forall k :: 0 <= k < |ps| ==> TemNome(Tabela(ps, mes, ano), ps[k].nome)
    decreases |ps|
  {
    if ps != [] {
      var ps', p := ps[..|ps| - 1], ps[|ps| - 1];
      TabelaCobreNomes(ps', mes, ano);
      var t' := Tabela(ps', mes, ano);
      var v := VendasDe(p.historico, mes, ano);
      forall k | 0 <= k < |ps| ensures TemNome(Registra(t', p.nome, v), ps[k].nome) {
        if ps[k].nome == p.nome {
          RegistraTemNome(t', p.nome, v);
        } else {
          assert ps[k] == ps'[k];
          RegistraMantemNome(t', p.nome, v, ps[k].nome);
        }
      }
    }
  }

  lemma RegistraTemNome(t: seq<VendasProduto>, nome: string, vendas: int)
    ensures TemNome(Registra(t, nome, vendas), nome)
  {
    var r := Registra(t, nome, vendas);
    var j :| 0 <= j < |r| && r[j] == VendasProduto(nome, vendas);
  }

  lemma RegistraMantemNome(t: seq<VendasProduto>, nome: string, vendas: int, outro: string)
    requires TemNome(t, outro) && outro != nome
    ensures TemNome(Registra(t, nome, vendas), outro)
  {
    var r := Registra(t, nome, vendas);
    var j' :| 0 <= j' < |t| && t[j'].nome == outro;
    assert t[j'] in t;
    assert t[j'] in r;
    var j :| 0 <= j < |r| && r[j] == t[j'];
  }

  /** The entry holds the month's sales of the last product with its name. */
  ghost predicate DoUltimo(ps: seq<Produtos.Produto>, e: VendasProduto, mes: int, ano: int) {
    exists k :: UltimoComNome(ps, k, e.nome) && e.vendas == VendasDe(ps[k].historico, mes, ano)
  }

  /** Every entry belongs to a product and holds the month's sales of the LAST product with
      that name: a later product with the same name overwrites the earlier one. */
  lemma {:induction false} TabelaGuardaUltimo(ps: seq<Produtos.Produto>, mes: int, ano: int)
    ensures forall e :: e in Tabela(ps, mes, ano) ==> DoUltimo(ps, e, mes, ano)
    decreases |ps|
  {
    if ps != [] {
      var ps', p := ps[..|ps| - 1], ps[|ps| - 1];
      assert ps == ps' + [p];
      TabelaGuardaUltimo(ps', mes, ano);
      var t', t := Tabela(ps', mes, ano), Tabela(ps, mes, ano);
      var v := VendasDe(p.historico, mes, ano);
      assert t == Registra(t', p.nome, v);
      forall e | e in t ensures DoUltimo(ps, e, mes, ano) {
        var j :| 0 <= j < |t| && t[j] == e;
        if e.nome == p.nome {
          assert e.vendas == v;
          assert UltimoComNome(ps, |ps| - 1, e.nome);
          assert ps[|ps| - 1] == p;
        } else {
          assert e in t';
          assert DoUltimo(ps', e, mes, ano);
          var k :| UltimoComNome(ps', k, e.nome) && e.vendas == VendasDe(ps'[k].historico, mes, ano);
          assert ps[k] == ps'[k];
          assert p.nome != e.nome;
          assert UltimoComNome(ps, k, e.nome);
        }
      }
    }
  }

  /** The product at `k` has the name and no later product has it: the one whose entry
      survives in the record. */
  predicate UltimoComNome(ps: seq<Produtos.Produto>, k: int, nome: string) {
    0 <= k < |ps| && ps[k].nome == nome && forall k' :: k < k' < |ps| ==> ps[k'].nome != nome
  }

  /** `sort((a, b) => b.vendas - a.vendas)`: non-increasing sales. */
  predicate PorVendasDesc(a: VendasProduto, b: VendasProduto) { a.vendas >= b.vendas }

  lemma PorVendasDescEhPreordem()
    ensures PreordemTotal(PorVendasDesc)
  {
  }

  /** The ranking, then `slice(0, 5)`. */
  function Ranking(t: seq<VendasProduto>): (s: seq<VendasProduto>)
    ensures multiset(s) == multiset(t) && |s| == |t|
    ensures Ordenada(s, PorVendasDesc)
  {
    PorVendasDescEhPreordem();
    OrdenaOrdenada(t, PorVendasDesc);
    Ordena(t, PorVendasDesc)
  }

  function Corte(n: nat): nat { if n < 5 then n else 5 }

  function Top(t: seq<VendasProduto>): (s: seq<VendasProduto>)
    ensures |s| == Corte(|t|)
    ensures Ordenada(s, PorVendasDesc)
  {
    Ranking(t)[..Corte(|t|)]
  }

  /** What the ranking leaves out. */
  function Resto(t: seq<VendasProduto>): seq<VendasProduto> {
    Ranking(t)[Corte(|t|)..]
  }

  /** The top entries and the rest together are the record, and no entry left out sold more
      than any entry kept. */
  lemma TopSaoOsMaiores(t: seq<VendasProduto>)
    ensures multiset(Top(t)) + multiset(Resto(t)) == multiset(t)
    ensures forall i, j :: 0 <= i < |Top(t)| && 0 <= j < |Resto(t)| ==> Top(t)[i].vendas >= Resto(t)[j].vendas
  {
    var s := Ranking(t);
    assert s == Top(t) + Resto(t);
    forall i, j | 0 <= i < |Top(t)| && 0 <= j < |Resto(t)| ensures Top(t)[i].vendas >= Resto(t)[j].vendas {
      assert Top(t)[i] == s[i] && Resto(t)[j] == s[Corte(|t|) + j];
    }
  }

  datatype DashboardData = DashboardData(
    totalClientes: nat,
    totalProdutos: nat,
    saldoTotal: int,
    saldosPositivos: int,
    saldosNegativos: int,
    creditosMes: int,
    debitosMes: int,
    transacoesMes: nat,
    topProdutos: seq<VendasProduto>)

  /** The report for month `mes` (0..11) of year `ano`. */
  function GetDashboardData(cs: seq<Clientes.Cliente>, ps: seq<Produtos.Produto>, mes: int, ano: int): (r: DashboardData)
    ensures r.saldoTotal == r.saldosPositivos + r.saldosNegativos
    ensures r.saldosNegativos <= 0 <= r.saldosPositivos
    ensures r.saldosPositivos == SumBy(cs, ParteNaoNegativa)
    ensures r.saldosNegativos == SumBy(cs, ParteNegativa)
    ensures r.transacoesMes ==
      Count(MovimentacoesMes(cs, mes, ano), Clientes.EhCredito) + Count(MovimentacoesMes(cs, mes, ano), Clientes.EhDebito)
    ensures r.creditosMes - r.debitosMes == SumBy(MovimentacoesMes(cs, mes, ano), Clientes.Efeito)
    ensures |r.topProdutos| <= 5 && Ordenada(r.topProdutos, PorVendasDesc)
    ensures r.topProdutos == Top(Tabela(ps, mes, ano))
  {
    var mm := MovimentacoesMes(cs, mes, ano);
    SaldosPorSinal(cs);
    SumByFilter(cs, SaldoNaoNegativo, SaldoDe, ParteNaoNegativa);
    SumByFilter(cs, SaldoNegativo, SaldoDe, ParteNegativa);
    SumByFilterSplit(mm, Clientes.EhCredito, Clientes.EhDebito, Clientes.Valor);
    Clientes.SaldoPorTipo(mm);
    DashboardData(
      |cs|,
      |ps|,
      SumBy(cs, SaldoDe),
      SumBy(Filter(cs, SaldoNaoNegativo), SaldoDe),
      SumBy(Filter(cs, SaldoNegativo), SaldoDe),
      SumBy(Filter(mm, Clientes.EhCredito), Clientes.Valor),
      SumBy(Filter(mm, Clientes.EhDebito), Clientes.Valor),
      |mm|,
      Top(Tabela(ps, mes, ano)))
  }

  /** The balances split by sign: the non-negative part, the negative part, and their sum. */
  lemma SaldosPorSinal(cs: seq<Clientes.Cliente>)
    ensures SumBy(cs, SaldoDe) == SumBy(Filter(cs, SaldoNaoNegativo), SaldoDe) + SumBy(Filter(cs, SaldoNegativo), SaldoDe)
    ensures SumBy(Filter(cs, SaldoNaoNegativo), SaldoDe) >= 0
    ensures SumBy(Filter(cs, SaldoNegativo), SaldoDe) <= 0
  {
    SumByFilterSplit(cs, SaldoNaoNegativo, SaldoNegativo, SaldoDe);
    var fp, fn := Filter(cs, SaldoNaoNegativo), Filter(cs, SaldoNegativo);
    forall x | x in fp ensures SaldoDe(x) >= 0 {
      var k :| 0 <= k < |fp| && fp[k] == x;
    }
    forall x | x in fn ensures SaldoDe(x) <= 0 {
      var k :| 0 <= k < |fn| && fn[k] == x;
    }
    SumByNonNeg(fp, SaldoDe);
    SumByNonPos(fn, SaldoDe);
  }

  /** Scenario: a customer with credits of 20 and 30 inside the month and one of 15 outside
      gives monthly credits of 50. */
  lemma CenarioCreditosMes(c: Clientes.Cliente, ps: seq<Produtos.Produto>, mes: int, ano: int,
                           m1: Clientes.MovimentacaoCliente, m2: Clientes.MovimentacaoCliente, m3: Clientes.MovimentacaoCliente)
    requires c.historico == [m1, m2, m3]
    requires m1.tipo == Clientes.Credito && m1.valor == 20 && NoPeriodo(m1.data, mes, ano)
    requires m2.tipo == Clientes.Credito && m2.valor == 30 && NoPeriodo(m2.data, mes, ano)
    requires m3.tipo == Clientes.Credito && m3.valor == 15 && !NoPeriodo(m3.data, mes, ano)
    ensures GetDashboardData([c], ps, mes, ano).creditosMes == 50
  {
    DoPeriodoDeTres(m1, m2, m3, mes, ano);
    CreditosDeDois(m1, m2);
    CreditosMesDeUmCliente(c, ps, mes, ano);
  }

  /** Scenario step of `CenarioCreditosMes`: two movements in the month and one outside it. */
  lemma DoPeriodoDeTres(m1: Clientes.MovimentacaoCliente, m2: Clientes.MovimentacaoCliente, m3: Clientes.MovimentacaoCliente,
                        mes: int, ano: int)
    requires NoPeriodo(m1.data, mes, ano) && NoPeriodo(m2.data, mes, ano) && !NoPeriodo(m3.data, mes, ano)
    ensures DoPeriodo([m1, m2, m3], mes, ano) == [m1, m2]
  {
    DoPeriodoComMovimento([], m1, mes, ano);
    assert [] + [m1] == [m1] && [m1] + [m2] == [m1, m2] && [m1, m2] + [m3] == [m1, m2, m3];
    DoPeriodoComMovimento([m1], m2, mes, ano);
    DoPeriodoComMovimento([m1, m2], m3, mes, ano);
  }

  /** Scenario step of `CenarioCreditosMes`: the credit total of two credits. */
  lemma CreditosDeDois(m1: Clientes.MovimentacaoCliente, m2: Clientes.MovimentacaoCliente)
    requires m1.tipo == Clientes.Credito && m2.tipo == Clientes.Credito
    ensures SumBy(Filter([m1, m2], Clientes.EhCredito), Clientes.Valor) == m1.valor + m2.valor
  {
    FilterAll([m1, m2], Clientes.EhCredito);
    assert [m1, m2] == [m1] + [m2] && [m1] == [] + [m1];
    SumByAppend([], m1, Clientes.Valor);
    SumByAppend([m1], m2, Clientes.Valor);
  }

  /** With one customer, the monthly credits are the credits among that customer's movements
      of the month. */
  lemma CreditosMesDeUmCliente(c: Clientes.Cliente, ps: seq<Produtos.Produto>, mes: int, ano: int)
    ensures GetDashboardData([c], ps, mes, ano).creditosMes ==
      SumBy(Filter(DoPeriodo(c.historico, mes, ano), Clientes.EhCredito), Clientes.Valor)
  {
    var mm := MovimentacoesMes([c], mes, ano);
    assert mm == DoPeriodo(c.historico, mes, ano) by {
      assert [c][..0] == [];
      assert MovimentacoesMes([], mes, ano) == [];
      assert mm == MovimentacoesMes([], mes, ano) + DoPeriodo(c.historico, mes, ano);
    }
    assert GetDashboardData([c], ps, mes, ano).creditosMes == SumBy(Filter(mm, Clientes.EhCredito), Clientes.Valor);
  }

  // ---------------------------------------------------------------------------------
  // The context's state

  class CantinaProvider {
    const clientes: Clientes.ClientesLedger
    const produtos: Produtos.ProdutosLedger
    const colaboradores: Colaboradores.ColaboradoresLedger

    ghost predicate Valid()
      reads this, clientes, produtos, colaboradores
    {
      clientes.Valid() && produtos.Valid() && colaboradores.Valid()
    }

    constructor ()
      ensures Valid()
      ensures clientes.clientes == [] && produtos.produtos == [] && colaboradores.colaboradores == []
      ensures fresh(clientes) && fresh(produtos) && fresh(colaboradores)
    {
      clientes := new Clientes.ClientesLedger();
      produtos := new Produtos.ProdutosLedger();
      colaboradores := new Colaboradores.ColaboradoresLedger();
    }

    /** `realizarVenda`: the guard on the in-memory lists, then the stock-out and the debit,
        one after the other. */
    method RealizarVenda(clienteId: Id, produtoId: Id, quantidade: int, hoje: Data) returns (ok: bool)
      requires Valid()
      modifies clientes, produtos
      ensures Valid()
      ensures var r := Venda(old(produtos.produtos), old(clientes.clientes), clienteId, produtoId, quantidade, hoje);
        ok == r.ok && produtos.produtos == r.produtos && clientes.clientes == r.clientes
    {
      var pk := Localiza(produtos.produtos, Produtos.IdDe, produtoId);
      var ck := Localiza(clientes.clientes, Clientes.IdDe, clienteId);
      if pk.None? || ck.None? {
        return false;
      }
      var produto := produtos.produtos[pk.value];
      var cliente := clientes.clientes[ck.value];
      if produto.estoqueAtual < quantidade {
        return false;
      }
      var valorTotal := produto.preco * quantidade;
      produtos.SaidaEstoque(produtoId, quantidade, DescricaoVenda(cliente.nome), Some(clienteId), hoje);
      clientes.AdicionarDebito(clienteId, valorTotal, DescricaoCompra(quantidade, produto.nome), Some(produtoId), hoje);
      return true;
    }

    /** `getDashboardData` on the current lists. */
    method ObterDashboard(mes: int, ano: int) returns (d: DashboardData)
      requires Valid()
      ensures d == GetDashboardData(clientes.clientes, produtos.produtos, mes, ano)
      ensures d.totalClientes == |clientes.clientes| && d.totalProdutos == |produtos.produtos|
    {
      d := GetDashboardData(clientes.clientes, produtos.produtos, mes, ano);
    }
  }
}
