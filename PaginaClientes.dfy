/** The customer page (`Clientes`): the search on name, the balance figures, and the forms
    for a new customer and for a credit or a debit. */
module PaginaClientes {
  import opened Common
  import opened Ordem
  import Texto
  import Clientes
  import Produtos
  import Cantina
  import opened Formularios

  predicate CasaBusca(c: Clientes.Cliente, busca: string) {
    Texto.Busca(c.nome, busca)
  }

  /** `clientesFiltrados`: the customers whose name contains the text, ignoring case, in
      list order. */
  function ClientesFiltrados(cs: seq<Clientes.Cliente>, busca: string): (r: seq<Clientes.Cliente>)
    ensures |r| <= |cs|
    ensures forall c :: c in r <==> c in cs && CasaBusca(c, busca)
    ensures Ordenada(cs, Clientes.PorNome) ==> Ordenada(r, Clientes.PorNome)
  {
    var busca' := busca;
    if Ordenada(cs, Clientes.PorNome) then
      FilterKeepsOrder(cs, c => CasaBusca(c, busca'), Clientes.PorNome);
      Filter(cs, c => CasaBusca(c, busca'))
    else Filter(cs, c => CasaBusca(c, busca'))
  }

  /** The four figures on top of the page. */
  datatype EstatisticasClientes = EstatisticasClientes(total: nat, saldoTotal: int, positivos: nat, negativos: nat)

  /** `stats`: a zero balance counts as positive, so every customer is counted once. */
  function Estatisticas(cs: seq<Clientes.Cliente>): (s: EstatisticasClientes)
    ensures s.total == |cs|
    ensures s.positivos + s.negativos == s.total
    ensures s.saldoTotal == SumBy(cs, Cantina.SaldoDe)
    ensures s.positivos == Count(cs, Cantina.SaldoNaoNegativo) && s.negativos == Count(cs, Cantina.SaldoNegativo)
    ensures s.negativos == 0 <==> forall c :: c in cs ==> c.saldo >= 0
    ensures s.positivos == 0 <==> forall c :: c in cs ==> c.saldo < 0
  {
    CountPartition2(cs, Cantina.SaldoNaoNegativo, Cantina.SaldoNegativo);
    NenhumSse(cs, Cantina.SaldoNegativo);
    NenhumSse(cs, Cantina.SaldoNaoNegativo);
    EstatisticasClientes(|cs|, SumBy(cs, Cantina.SaldoDe), Count(cs, Cantina.SaldoNaoNegativo), Count(cs, Cantina.SaldoNegativo))
  }

  /** The page's total balance is the report's, and splits into the report's positive and
      negative sums. */
  lemma SaldoTotalComoPainel(cs: seq<Clientes.Cliente>, ps: seq<Produtos.Produto>, mes: int, ano: int)
    ensures var d := Cantina.GetDashboardData(cs, ps, mes, ano);
      Estatisticas(cs).saldoTotal == d.saldoTotal == d.saldosPositivos + d.saldosNegativos
  {
  }

  // ---------------------------------------------------------------------------------
  // `handleAdicionarCliente`

  function ValidaNovoCliente(nome: string): (r: Option<Aviso>)
    ensures r.None? <==> Preenchido(nome)
    ensures r.Some? ==> r.value == NomeObrigatorio
  {
    if !Preenchido(nome) then Some(NomeObrigatorio) else None
  }

  /** The form: a name of blanks is refused; otherwise the customer is created from the name
      as typed. */
  method HandleAdicionarCliente(ctx: Cantina.CantinaProvider, id: Id, nome: string, hoje: Data)
    returns (aviso: Option<Aviso>)
    requires ctx.Valid()
    modifies ctx.clientes
    ensures ctx.Valid()
    ensures aviso == ValidaNovoCliente(nome)
    ensures aviso.Some? ==> ctx.clientes.clientes == old(ctx.clientes.clientes)
    ensures aviso.None? ==> ctx.clientes.clientes == Clientes.AposAdicionar(old(ctx.clientes.clientes), id, nome, hoje)
  {
    if !Preenchido(nome) {
      return Some(NomeObrigatorio);
    }
    ctx.clientes.AdicionarCliente(id, nome, hoje);
    return None;
  }

  // ---------------------------------------------------------------------------------
  // `handleMovimentacao`

  /** The movement form checks the value, the description and the selection, and nothing
      about the balance: the outcome does not even depend on the customer list. */
  function DesfechoMovimentacao(selecionado: Option<Id>, valor: Option<int>, descricao: string): (d: Desfecho)
    ensures d == Aceito <==> Positivo(valor) && Preenchido(descricao) && selecionado.Some?
    ensures !Positivo(valor) ==> d == Recusado(ValorInvalido)
    ensures Positivo(valor) && !Preenchido(descricao) ==> d == Recusado(DescricaoObrigatoria)
    ensures d == Ignorado <==> Positivo(valor) && Preenchido(descricao) && selecionado.None?
  {
    if !Positivo(valor) then Recusado(ValorInvalido)
    else if !Preenchido(descricao) then Recusado(DescricaoObrigatoria)
    else if selecionado.None? then Ignorado
    else Aceito
  }

  /** The form: a credit goes to `adicionarCredito`, a debit to `adicionarDebito` without a
      product reference. */
  method HandleMovimentacao(ctx: Cantina.CantinaProvider, selecionado: Option<Id>, tipo: Clientes.TipoCliente,
                            valor: Option<int>, descricao: string, hoje: Data)
    returns (d: Desfecho)
    requires ctx.Valid()
    modifies ctx.clientes
    ensures ctx.Valid()
    ensures d == DesfechoMovimentacao(selecionado, valor, descricao)
    ensures d != Aceito ==> ctx.clientes.clientes == old(ctx.clientes.clientes)
    ensures d == Aceito && tipo == Clientes.Credito ==>
      ctx.clientes.clientes == Clientes.AposCredito(old(ctx.clientes.clientes), selecionado.value, valor.value, descricao, hoje)
    ensures d == Aceito && tipo == Clientes.Debito ==>
      ctx.clientes.clientes == Clientes.AposDebito(old(ctx.clientes.clientes), selecionado.value, valor.value, descricao, None, hoje)
  {
    if valor.None? || valor.value <= 0 {
      return Recusado(ValorInvalido);
    }
    if !Preenchido(descricao) {
      return Recusado(DescricaoObrigatoria);
    }
    if selecionado.None? {
      return Ignorado;
    }
    if tipo == Clientes.Credito {
      ctx.clientes.AdicionarCredito(selecionado.value, valor.value, descricao, hoje);
    } else {
      ctx.clientes.AdicionarDebito(selecionado.value, valor.value, descricao, None, hoje);
    }
    return Aceito;
  }

  /** A debit larger than the balance is accepted and drives the balance below zero by the
      difference. */
  lemma DebitoAlemDoSaldo(cs: seq<Clientes.Cliente>, i: nat, valor: int, descricao: string, hoje: Data)
    requires Clientes.Valida(cs) && i < |cs|
    requires valor > cs[i].saldo && valor > 0 && Preenchido(descricao)
    ensures DesfechoMovimentacao(Some(cs[i].id), Some(valor), descricao) == Aceito
    ensures var r := Clientes.AposDebito(cs, cs[i].id, valor, descricao, None, hoje);
      r[i].saldo == cs[i].saldo - valor < 0
  {
  }
}
