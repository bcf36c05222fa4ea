/** The customer ledger (`useSupabaseClientes`). Every customer carries a cached `saldo`
    and the movements of its account. A credit or a debit appends one movement and then
    rewrites `saldo` with a fold of the customer's whole history, where `credito` adds and
    any other kind subtracts. No balance check is made before a debit. */
module Clientes {
  import opened Common
  import opened Ordem
  import Texto

  datatype TipoCliente = Credito | Debito

  datatype MovimentacaoCliente = MovimentacaoCliente(
    tipo: TipoCliente,
    valor: int,
    descricao: string,
    data: Data,
    produtoId: Option<Id>)

  datatype Cliente = Cliente(
    id: Id,
    nome: string,
    saldo: int,
    dataCadastro: Data,
    historico: seq<MovimentacaoCliente>)

  function IdDe(c: Cliente): Id { c.id }
  function NomeDe(c: Cliente): string { c.nome }

  /** The list is reloaded ordered by name. */
  predicate PorNome(a: Cliente, b: Cliente) { Texto.NomeLe(a.nome, b.nome) }

  /** The term of one movement in the fold: `credito` adds its value, anything else subtracts. */
  function Efeito(m: MovimentacaoCliente): int {
    if m.tipo == Credito then m.valor else -m.valor
  }

  /** The recomputed balance of a whole history. */
  function Saldo(h: seq<MovimentacaoCliente>): int {
    SumBy(h, Efeito)
  }

  predicate EhCredito(m: MovimentacaoCliente) { m.tipo == Credito }
  predicate EhDebito(m: MovimentacaoCliente) { m.tipo == Debito }
  function Valor(m: MovimentacaoCliente): int { m.valor }

  /** The balance is the sum of the credited values minus the sum of the debited ones. */
  lemma {:induction false} SaldoPorTipo(h: seq<MovimentacaoCliente>)
    ensures Saldo(h) == SumBy(Filter(h, EhCredito), Valor) - SumBy(Filter(h, EhDebito), Valor)
    decreases |h|
  {
    if h != [] {
      var h', m := h[..|h| - 1], h[|h| - 1];
      SaldoPorTipo(h');
      var fc, fd := Filter(h', EhCredito), Filter(h', EhDebito);
      if m.tipo == Credito {
        assert Filter(h, EhCredito) == fc + [m] && Filter(h, EhDebito) == fd;
        SumByAppend(fc, m, Valor);
      } else {
        assert Filter(h, EhCredito) == fc && Filter(h, EhDebito) == fd + [m];
        SumByAppend(fd, m, Valor);
      }
    }
  }

  /** The recomputed balance does not depend on the order in which movements were recorded. */
  lemma SaldoIndependeDaOrdem(a: seq<MovimentacaoCliente>, b: seq<MovimentacaoCliente>)
    requires multiset(a) == multiset(b)
    ensures Saldo(a) == Saldo(b)
  {
    SumByPerm(a, b, Efeito);
  }

  /** Folding a history with one more movement adds that movement's term. */
  lemma SaldoComMovimento(h: seq<MovimentacaoCliente>, m: MovimentacaoCliente)
    ensures Saldo(h + [m]) == Saldo(h) + Efeito(m)
  {
    SumByAppend(h, m, Efeito);
  }

  // ---------------------------------------------------------------------------------
  // The store after each operation

  /** Every cached balance equals the fold of its history. */
  predicate Consistente(cs: seq<Cliente>) {
    forall i :: 0 <= i < |cs| ==> cs[i].saldo == Saldo(cs[i].historico)
  }

  /** The state the hook keeps: unique ids, balances that agree with the histories, and the
      order of the reload by name. */
  ghost predicate Valida(cs: seq<Cliente>) {
    ChavesUnicas(cs, IdDe) && Consistente(cs) && Ordenada(cs, PorNome)
  }

  /** A customer as the store creates it from a name: balance 0, empty history. */
  function NovoCliente(id: Id, nome: string, hoje: Data): Cliente {
    Cliente(id, nome, 0, hoje, [])
  }

  /** `adicionarCliente(nome)`: the store inserts a row under a fresh id; a repeated id is
      refused by the primary key and nothing changes. */
  function AposAdicionar(cs: seq<Cliente>, id: Id, nome: string, hoje: Data): (r: seq<Cliente>)
    ensures TemChave(cs, IdDe, id) ==> r == cs
    ensures !TemChave(cs, IdDe, id) ==>
      multiset(r) == multiset(cs) + multiset{NovoCliente(id, nome, hoje)}
  {
    if TemChave(cs, IdDe, id) then cs else Insere(cs, NovoCliente(id, nome, hoje), PorNome)
  }

  /** One movement recorded for the customer(s) with key `id`, each balance refolded. */
  function Movimentar(cs: seq<Cliente>, id: Id, m: MovimentacaoCliente): (r: seq<Cliente>)
    ensures |r| == |cs|
    ensures forall i :: 0 <= i < |cs| ==>
      r[i].id == cs[i].id && r[i].nome == cs[i].nome && r[i].dataCadastro == cs[i].dataCadastro
    ensures forall i :: 0 <= i < |cs| && cs[i].id != id ==> r[i] == cs[i]
    ensures forall i :: 0 <= i < |cs| && cs[i].id == id ==>
      r[i].historico == cs[i].historico + [m] && r[i].saldo == Saldo(cs[i].historico) + Efeito(m)
  {
    SaldoComMovimentoTodos(cs, m);
    seq(|cs|, i requires 0 <= i < |cs| =>
      if cs[i].id == id then
        var h := cs[i].historico + [m];
        cs[i].(historico := h, saldo := Saldo(h))
      else cs[i])
  }

  lemma SaldoComMovimentoTodos(cs: seq<Cliente>, m: MovimentacaoCliente)
    ensures forall i :: 0 <= i < |cs| ==>
      Saldo(cs[i].historico + [m]) == Saldo(cs[i].historico) + Efeito(m)
  {
    forall i | 0 <= i < |cs| {
      SaldoComMovimento(cs[i].historico, m);
    }
  }

  /** `adicionarCredito`: one `credito` movement, never with a product reference; the balance
      grows by exactly `valor`. */
  function AposCredito(cs: seq<Cliente>, id: Id, valor: int, descricao: string, hoje: Data): (r: seq<Cliente>)
    ensures |r| == |cs|
    ensures forall i :: 0 <= i < |cs| && cs[i].id != id ==> r[i] == cs[i]
    ensures forall i :: 0 <= i < |cs| && cs[i].id == id ==>
      && r[i].historico == cs[i].historico + [MovimentacaoCliente(Credito, valor, descricao, hoje, None)]
      && r[i].saldo == Saldo(cs[i].historico) + valor
  {
    Movimentar(cs, id, MovimentacaoCliente(Credito, valor, descricao, hoje, None))
  }

  /** `adicionarDebito`: one `debito` movement carrying the optional product reference; the
      balance drops by exactly `valor`, whatever it was before. */
  function AposDebito(cs: seq<Cliente>, id: Id, valor: int, descricao: string, produtoId: Option<Id>, hoje: Data): (r: seq<Cliente>)
    ensures |r| == |cs|
    ensures forall i :: 0 <= i < |cs| && cs[i].id != id ==> r[i] == cs[i]
    ensures forall i :: 0 <= i < |cs| && cs[i].id == id ==>
      && r[i].historico == cs[i].historico + [MovimentacaoCliente(Debito, valor, descricao, hoje, Normaliza(produtoId))]
      && r[i].saldo == Saldo(cs[i].historico) - valor
  {
    Movimentar(cs, id, MovimentacaoCliente(Debito, valor, descricao, hoje, Normaliza(produtoId)))
  }

  /** `removerCliente`: the row goes, and its movements with it (cascade). */
  function AposRemover(cs: seq<Cliente>, id: Id): (r: seq<Cliente>)
    ensures !TemChave(r, IdDe, id)
    ensures forall c :: c in r <==> c in cs && c.id != id
  {
    Filter(cs, (c: Cliente) => c.id != id)
  }

  // ---------------------------------------------------------------------------------
  // Properties of the operations

  lemma AdicionarPreservaValida(cs: seq<Cliente>, id: Id, nome: string, hoje: Data)
    requires Valida(cs)
    ensures Valida(AposAdicionar(cs, id, nome, hoje))
  {
    if !TemChave(cs, IdDe, id) {
      var novo := NovoCliente(id, nome, hoje);
      var r := Insere(cs, novo, PorNome);
      Texto.PorNomeEhPreordem(NomeDe, PorNome);
      InsereOrdenada(cs, novo, PorNome);
      InsereMantemChaves(cs, novo, PorNome, IdDe);
      forall i | 0 <= i < |r| ensures r[i].saldo == Saldo(r[i].historico) {
        assert r[i] in multiset(cs) + multiset{novo};
        if r[i] != novo {
          var j :| 0 <= j < |cs| && cs[j] == r[i];
        }
      }
    }
  }

  lemma MovimentarPreservaValida(cs: seq<Cliente>, id: Id, m: MovimentacaoCliente)
    requires Valida(cs)
    ensures Valida(Movimentar(cs, id, m))
  {
    var r := Movimentar(cs, id, m);
    assert forall i :: 0 <= i < |cs| ==> PorNome(r[i], cs[i]) == PorNome(cs[i], cs[i]);
    forall i, j | 0 <= i < j < |r| ensures PorNome(r[i], r[j]) {
      assert PorNome(cs[i], cs[j]);
    }
  }

  lemma RemoverPreservaValida(cs: seq<Cliente>, id: Id)
    requires Valida(cs)
    ensures Valida(AposRemover(cs, id))
  {
    var p := (c: Cliente) => c.id != id;
    FilterMantemChaves(cs, p, IdDe);
    FilterKeepsOrder(cs, p, PorNome);
    var r := AposRemover(cs, id);
    forall i | 0 <= i < |r| ensures r[i].saldo == Saldo(r[i].historico) {
      var j :| 0 <= j < |cs| && cs[j] == r[i];
    }
  }

  /** In a consistent store, the cached balance after a credit is the sum of every credited
      value minus every debited value of the full history, the new credit included. */
  lemma CreditoRefazSaldoCompleto(cs: seq<Cliente>, id: Id, valor: int, descricao: string, hoje: Data, i: nat)
    requires Valida(cs) && i < |cs| && cs[i].id == id
    ensures var c := AposCredito(cs, id, valor, descricao, hoje)[i];
      && c.saldo == SumBy(Filter(c.historico, EhCredito), Valor) - SumBy(Filter(c.historico, EhDebito), Valor)
      && c.saldo == cs[i].saldo + valor
  {
    var r := AposCredito(cs, id, valor, descricao, hoje);
    MovimentarPreservaValida(cs, id, MovimentacaoCliente(Credito, valor, descricao, hoje, None));
    SaldoPorTipo(r[i].historico);
  }

  /** A debit is never refused for lack of funds: from balance 0 a debit of 10 gives -10. */
  lemma DebitoPodeNegativar(id: Id, nome: string, hoje: Data)
    ensures AposDebito([NovoCliente(id, nome, hoje)], id, 10, "lanche", None, hoje)[0].saldo == -10
  {
  }

  /** Scenario: Ana, balance 0, receives a credit of 50: balance 50, one movement. */
  lemma CenarioCreditoAna(hoje: Data)
    ensures var c := AposCredito(AposAdicionar([], "ana", "Ana", hoje), "ana", 50, "recarga", hoje);
      |c| == 1 && c[0].saldo == 50 && |c[0].historico| == 1
  {
    var cs := AposAdicionar([], "ana", "Ana", hoje);
    assert cs == [NovoCliente("ana", "Ana", hoje)];
  }

  // ---------------------------------------------------------------------------------
  // The reload (`fetchClientes`): rows come ordered by name, movements by date

  datatype LinhaCliente = LinhaCliente(id: Id, nome: string, saldo: int, dataCadastro: Data)

  datatype LinhaMovimentacao = LinhaMovimentacao(
    clienteId: Id,
    tipo: TipoCliente,
    valor: int,
    descricao: string,
    data: Data,
    produtoId: Option<Id>)

  function ParaMovimentacao(l: LinhaMovimentacao): MovimentacaoCliente {
    MovimentacaoCliente(l.tipo, l.valor, l.descricao, l.data, Normaliza(l.produtoId))
  }

  /** The history of one customer: the movement rows whose `cliente_id` matches, in the
      order the query returned them. */
  function HistoricoDe(movs: seq<LinhaMovimentacao>, id: Id): seq<MovimentacaoCliente> {
    Map(Filter(movs, (l: LinhaMovimentacao) => l.clienteId == id), ParaMovimentacao)
  }

  function ParaCliente(movs: seq<LinhaMovimentacao>, l: LinhaCliente): Cliente {
    Cliente(l.id, l.nome, l.saldo, l.dataCadastro, HistoricoDe(movs, l.id))
  }

  /** The in-memory list built from the two queries. The stored `saldo` is taken as it is,
      not refolded. */
  function Carrega(linhas: seq<LinhaCliente>, movs: seq<LinhaMovimentacao>): (r: seq<Cliente>)
    ensures |r| == |linhas|
    ensures forall i :: 0 <= i < |r| ==>
      r[i].id == linhas[i].id && r[i].nome == linhas[i].nome && r[i].saldo == linhas[i].saldo
  {
    Map(linhas, (l: LinhaCliente) => ParaCliente(movs, l))
  }

  /** Each customer's history holds exactly the movements recorded under its id. */
  lemma CarregaAgrupaPorCliente(linhas: seq<LinhaCliente>, movs: seq<LinhaMovimentacao>, i: nat, m: MovimentacaoCliente)
    requires i < |linhas|
    ensures m in Carrega(linhas, movs)[i].historico <==>
      exists l :: l in movs && l.clienteId == linhas[i].id && ParaMovimentacao(l) == m
  {
    var f := Filter(movs, (l: LinhaMovimentacao) => l.clienteId == linhas[i].id);
    var h := Carrega(linhas, movs)[i].historico;
    assert h == Map(f, ParaMovimentacao);
    if m in h {
      var k :| 0 <= k < |h| && h[k] == m;
      assert f[k] in movs;
    }
    if exists l :: l in movs && l.clienteId == linhas[i].id && ParaMovimentacao(l) == m {
      var l :| l in movs && l.clienteId == linhas[i].id && ParaMovimentacao(l) == m;
      var k :| 0 <= k < |movs| && movs[k] == l;
      assert l in f;
      var j :| 0 <= j < |f| && f[j] == l;
      assert h[j] == m;
    }
  }

  /** Movements read in ascending date order give every history in ascending date order. */
  lemma CarregaHistoricoCronologico(linhas: seq<LinhaCliente>, movs: seq<LinhaMovimentacao>, i: nat)
    requires i < |linhas|
    requires forall j, k :: 0 <= j < k < |movs| ==> DataLe(movs[j].data, movs[k].data)
    ensures var h := Carrega(linhas, movs)[i].historico;
      forall j, k :: 0 <= j < k < |h| ==> DataLe(h[j].data, h[k].data)
  {
    var p := (l: LinhaMovimentacao) => l.clienteId == linhas[i].id;
    var le := (a: LinhaMovimentacao, b: LinhaMovimentacao) => DataLe(a.data, b.data);
    FilterKeepsOrder(movs, p, le);
    var f := Filter(movs, p);
    var h := Carrega(linhas, movs)[i].historico;
    assert h == Map(f, ParaMovimentacao);
    forall j, k | 0 <= j < k < |h| ensures DataLe(h[j].data, h[k].data) {
      assert le(f[j], f[k]);
      assert h[j] == ParaMovimentacao(f[j]) && h[k] == ParaMovimentacao(f[k]);
    }
  }

  /** Rows read in name order give a list in name order. */
  lemma CarregaOrdenadoPorNome(linhas: seq<LinhaCliente>, movs: seq<LinhaMovimentacao>)
    requires forall j, k :: 0 <= j < k < |linhas| ==> Texto.NomeLe(linhas[j].nome, linhas[k].nome)
    ensures Ordenada(Carrega(linhas, movs), PorNome)
  {
  }

  // ---------------------------------------------------------------------------------
  // The hook's state and its operations

  class ClientesLedger {
    var clientes: seq<Cliente>

    ghost predicate Valid()
      reads this
    {
      Valida(clientes)
    }

    constructor ()
      ensures Valid() && clientes == []
    {
      clientes := [];
    }

    method AdicionarCliente(id: Id, nome: string, hoje: Data)
      requires Valid()
      modifies this
      ensures Valid()
      ensures clientes == AposAdicionar(old(clientes), id, nome, hoje)
    {
      AdicionarPreservaValida(clientes, id, nome, hoje);
      if TemChave(clientes, IdDe, id) {
        return;
      }
      clientes := Insere(clientes, NovoCliente(id, nome, hoje), PorNome);
    }

    /** Insert the movement row, re-read the customer's movements, fold them and write the
        new balance. An unknown id is refused by the foreign key: nothing changes. */
    method Registrar(clienteId: Id, m: MovimentacaoCliente)
      requires Valid()
      modifies this
      ensures Valid()
      ensures clientes == Movimentar(old(clientes), clienteId, m)
    {
      MovimentarPreservaValida(clientes, clienteId, m);
      var k := Localiza(clientes, IdDe, clienteId);
      if k.None? {
        assert Movimentar(clientes, clienteId, m) == clientes;
        return;
      }
      var i := k.value;
      LocalizaUnica(clientes, IdDe, clienteId, i);
      var h := clientes[i].historico + [m];
      var novoSaldo := Saldo(h);
      clientes := clientes[i := clientes[i].(historico := h, saldo := novoSaldo)];
    }

    method AdicionarCredito(clienteId: Id, valor: int, descricao: string, hoje: Data)
      requires Valid()
      modifies this
      ensures Valid()
      ensures clientes == AposCredito(old(clientes), clienteId, valor, descricao, hoje)
    {
      Registrar(clienteId, MovimentacaoCliente(Credito, valor, descricao, hoje, None));
    }

    method AdicionarDebito(clienteId: Id, valor: int, descricao: string, produtoId: Option<Id>, hoje: Data)
      requires Valid()
      modifies this
      ensures Valid()
      ensures clientes == AposDebito(old(clientes), clienteId, valor, descricao, produtoId, hoje)
    {
      Registrar(clienteId, MovimentacaoCliente(Debito, valor, descricao, hoje, Normaliza(produtoId)));
    }

    method RemoverCliente(clienteId: Id)
      requires Valid()
      modifies this
      ensures Valid()
      ensures clientes == AposRemover(old(clientes), clienteId)
    {
      RemoverPreservaValida(clientes, clienteId);
      clientes := AposRemover(clientes, clienteId);
    }
  }
}
