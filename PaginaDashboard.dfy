/** The report page (`Dashboard`): the net result of the month and the per-customer report
    of the credits put in during the month. */
module PaginaDashboard {
  import opened Common
  import opened Ordem
  import Clientes
  import Produtos
  import Cantina

  /** `saldoLiquido`: the month's credits minus the month's debits. */
  function SaldoLiquido(d: Cantina.DashboardData): int {
    d.creditosMes - d.debitosMes
  }

  /** The net result is what the month's movements did to all balances together: credits
      add, debits subtract. */
  lemma SaldoLiquidoEhEfeitoDoMes(cs: seq<Clientes.Cliente>, ps: seq<Produtos.Produto>, mes: int, ano: int)
    ensures SaldoLiquido(Cantina.GetDashboardData(cs, ps, mes, ano)) ==
      SumBy(Cantina.MovimentacoesMes(cs, mes, ano), Clientes.Efeito)
  {
  }

  // ---------------------------------------------------------------------------------
  // `clientesComCreditos`

  /** A `credito` movement dated in the month. */
  predicate CreditoNoPeriodo(m: Clientes.MovimentacaoCliente, mes: int, ano: int) {
    m.tipo == Clientes.Credito && NoPeriodo(m.data, mes, ano)
  }

  /** `creditosManuais`: the customer's credits of the month, in history order. */
  function CreditosManuais(h: seq<Clientes.MovimentacaoCliente>, mes: int, ano: int): (r: seq<Clientes.MovimentacaoCliente>)
    ensures forall m :: m in r <==> m in h && CreditoNoPeriodo(m, mes, ano)
  {
    Filter(h, m => CreditoNoPeriodo(m, mes, ano))
  }

  /** One line of the report: the customer, its credits of the month and their total. */
  datatype ClienteComCreditos = ClienteComCreditos(
    cliente: Clientes.Cliente,
    creditosManuais: seq<Clientes.MovimentacaoCliente>,
    totalCreditos: int)

  function Linha(c: Clientes.Cliente, mes: int, ano: int): ClienteComCreditos {
    var cm := CreditosManuais(c.historico, mes, ano);
    ClienteComCreditos(c, cm, SumBy(cm, Clientes.Valor))
  }

  /** The `map` step: one line per customer, in list order. */
  function Linhas(cs: seq<Clientes.Cliente>, mes: int, ano: int): (r: seq<ClienteComCreditos>)
    ensures |r| == |cs|
    ensures forall k :: 0 <= k < |cs| ==> r[k] == Linha(cs[k], mes, ano)
  {
    Map(cs, c => Linha(c, mes, ano))
  }

  function TotalDe(l: ClienteComCreditos): int { l.totalCreditos }
  predicate TemCreditos(l: ClienteComCreditos) { |l.creditosManuais| > 0 }
  predicate SemCreditos(l: ClienteComCreditos) { |l.creditosManuais| == 0 }

  /** `sort((a, b) => b.totalCreditos - a.totalCreditos)`, a stable sort. */
  predicate PorTotalDesc(a: ClienteComCreditos, b: ClienteComCreditos) { a.totalCreditos >= b.totalCreditos }

  /** The report: lines without credits dropped, the rest by total, largest first. */
  function ClientesComCreditos(cs: seq<Clientes.Cliente>, mes: int, ano: int): (r: seq<ClienteComCreditos>)
    ensures Ordenada(r, PorTotalDesc)
    ensures multiset(r) == multiset(Filter(Linhas(cs, mes, ano), TemCreditos))
  {
    var f := Filter(Linhas(cs, mes, ano), TemCreditos);
    assert PreordemTotal(PorTotalDesc);
    OrdenaOrdenada(f, PorTotalDesc);
    Ordena(f, PorTotalDesc)
  }

  /** The report holds exactly the lines of the customers with a credit in the month. */
  lemma ClientesComCreditosSse(cs: seq<Clientes.Cliente>, mes: int, ano: int, l: ClienteComCreditos)
    ensures l in ClientesComCreditos(cs, mes, ano) <==>
      exists k :: 0 <= k < |cs| && l == Linha(cs[k], mes, ano) && TemCreditos(l)
  {
    var ls := Linhas(cs, mes, ano);
    var f := Filter(ls, TemCreditos);
    assert l in ClientesComCreditos(cs, mes, ano) <==> l in f by {
      assert multiset(ClientesComCreditos(cs, mes, ano)) == multiset(f);
      assert l in ClientesComCreditos(cs, mes, ano) <==> l in multiset(f);
    }
    assert l in f <==> l in ls && TemCreditos(l);
    LinhaDeUmCliente(cs, mes, ano, l);
  }

  /** The lines are the customers' lines, one per customer. */
  lemma LinhaDeUmCliente(cs: seq<Clientes.Cliente>, mes: int, ano: int, l: ClienteComCreditos)
    ensures l in Linhas(cs, mes, ano) <==> exists k :: 0 <= k < |cs| && l == Linha(cs[k], mes, ano)
  {
    var ls := Linhas(cs, mes, ano);
    if l in ls {
      var k :| 0 <= k < |ls| && ls[k] == l;
      assert l == Linha(cs[k], mes, ano);
    }
    if exists k :: 0 <= k < |cs| && l == Linha(cs[k], mes, ano) {
      var k :| 0 <= k < |cs| && l == Linha(cs[k], mes, ano);
      assert ls[k] == l;
    }
  }

  /** Every customer with a credit in the month has its line in the report, with that credit
      in it. */
  lemma ClienteComCreditoAparece(cs: seq<Clientes.Cliente>, mes: int, ano: int, k: nat, j: nat)
    requires k < |cs| && j < |cs[k].historico| && CreditoNoPeriodo(cs[k].historico[j], mes, ano)
    ensures Linha(cs[k], mes, ano) in ClientesComCreditos(cs, mes, ano)
    ensures cs[k].historico[j] in Linha(cs[k], mes, ano).creditosManuais
  {
    var m := cs[k].historico[j];
    assert m in CreditosManuais(cs[k].historico, mes, ano);
    ClientesComCreditosSse(cs, mes, ano, Linha(cs[k], mes, ano));
  }

  /** Within one history, the report's credits are the report page's credits of the month:
      both filters pick the same movements in the same order. */
  lemma {:induction false} CreditosManuaisSaoDoPeriodo(h: seq<Clientes.MovimentacaoCliente>, mes: int, ano: int)
    ensures CreditosManuais(h, mes, ano) == Filter(Cantina.DoPeriodo(h, mes, ano), Clientes.EhCredito)
    decreases |h|
  {
    if h != [] {
      var h', m := h[..|h| - 1], h[|h| - 1];
      CreditosManuaisSaoDoPeriodo(h', mes, ano);
      var fim := if NoPeriodo(m.data, mes, ano) then [m] else [];
      assert Cantina.DoPeriodo(h, mes, ano) == Cantina.DoPeriodo(h', mes, ano) + fim;
      FilterConcat(Cantina.DoPeriodo(h', mes, ano), fim, Clientes.EhCredito);
      if fim != [] {
        assert fim[..0] == [];
      }
    }
  }

  /** Summed over all customers, the line totals are the report's monthly credits. */
  lemma {:induction false} LinhasSomamCreditosMes(cs: seq<Clientes.Cliente>, mes: int, ano: int)
    ensures SumBy(Linhas(cs, mes, ano), TotalDe) ==
      SumBy(Filter(Cantina.MovimentacoesMes(cs, mes, ano), Clientes.EhCredito), Clientes.Valor)
    decreases |cs|
  {
    if cs != [] {
      var c := cs[|cs| - 1];
      LinhasSomamCreditosMes(cs[..|cs| - 1], mes, ano);
      LinhasComUltimo(cs, mes, ano);
      CreditosMesComUltimo(cs, mes, ano);
      CreditosManuaisSaoDoPeriodo(c.historico, mes, ano);
    }
  }

  lemma LinhasComUltimo(cs: seq<Clientes.Cliente>, mes: int, ano: int)
    requires cs != []
    ensures SumBy(Linhas(cs, mes, ano), TotalDe) ==
      SumBy(Linhas(cs[..|cs| - 1], mes, ano), TotalDe) + Linha(cs[|cs| - 1], mes, ano).totalCreditos
  {
    var ls := Linhas(cs, mes, ano);
    assert ls[..|ls| - 1] == Linhas(cs[..|cs| - 1], mes, ano);
  }

  lemma CreditosMesComUltimo(cs: seq<Clientes.Cliente>, mes: int, ano: int)
    requires cs != []
    ensures SumBy(Filter(Cantina.MovimentacoesMes(cs, mes, ano), Clientes.EhCredito), Clientes.Valor) ==
      SumBy(Filter(Cantina.MovimentacoesMes(cs[..|cs| - 1], mes, ano), Clientes.EhCredito), Clientes.Valor) +
      SumBy(Filter(Cantina.DoPeriodo(cs[|cs| - 1].historico, mes, ano), Clientes.EhCredito), Clientes.Valor)
  {
    var mm', d := Cantina.MovimentacoesMes(cs[..|cs| - 1], mes, ano), Cantina.DoPeriodo(cs[|cs| - 1].historico, mes, ano);
    assert Cantina.MovimentacoesMes(cs, mes, ano) == mm' + d;
    FilterConcat(mm', d, Clientes.EhCredito);
    SumByConcat(Filter(mm', Clientes.EhCredito), Filter(d, Clientes.EhCredito), Clientes.Valor);
  }

  /** A line whose total is the sum of its credits. */
  predicate TotalCoerente(l: ClienteComCreditos) {
    l.totalCreditos == SumBy(l.creditosManuais, Clientes.Valor)
  }

  /** Dropping the lines without credits leaves the sum of coherent totals as it was. */
  lemma SemVaziasMesmaSoma(ls: seq<ClienteComCreditos>)
    requires forall l :: l in ls ==> TotalCoerente(l)
    ensures SumBy(Filter(ls, TemCreditos), TotalDe) == SumBy(ls, TotalDe)
  {
    SumByFilterSplit(ls, TemCreditos, SemCreditos, TotalDe);
    var vazias := Filter(ls, SemCreditos);
    forall l | l in vazias ensures TotalDe(l) == 0 {
      var i :| 0 <= i < |vazias| && vazias[i] == l;
      assert TotalCoerente(l) && l.creditosManuais == [];
    }
    SumByNonNeg(vazias, TotalDe);
    SumByNonPos(vazias, TotalDe);
  }

  /** Dropping the lines without credits and sorting leave the sum of the totals as it was. */
  lemma TotalDoRelatorioEhTotalDasLinhas(cs: seq<Clientes.Cliente>, mes: int, ano: int)
    ensures SumBy(ClientesComCreditos(cs, mes, ano), TotalDe) == SumBy(Linhas(cs, mes, ano), TotalDe)
  {
    var ls := Linhas(cs, mes, ano);
    SumByPerm(ClientesComCreditos(cs, mes, ano), Filter(ls, TemCreditos), TotalDe);
    forall l | l in ls ensures TotalCoerente(l) {
      var k :| 0 <= k < |ls| && ls[k] == l;
    }
    SemVaziasMesmaSoma(ls);
  }

  /** The report's totals add up to the card of monthly credits. */
  lemma TotalDoRelatorioEhCreditosMes(cs: seq<Clientes.Cliente>, ps: seq<Produtos.Produto>, mes: int, ano: int)
    ensures SumBy(ClientesComCreditos(cs, mes, ano), TotalDe) == Cantina.GetDashboardData(cs, ps, mes, ano).creditosMes
  {
    TotalDoRelatorioEhTotalDasLinhas(cs, mes, ano);
    LinhasSomamCreditosMes(cs, mes, ano);
  }
}
