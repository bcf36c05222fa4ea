/** The staff ledger (`useSupabaseColaboradores`). Every collaborator carries a cached
    `debito` (what they owe) and their movements. A debit or a payment appends one movement
    and rewrites `debito` with the fold of the whole history, `debito` adding and any other
    kind subtracting, clamped at 0 after the whole sum. */
module Colaboradores {
  import opened Common
  import opened Ordem
  import Texto

  datatype TipoColaborador = Debito | Pagamento

  datatype MovimentacaoColaborador = MovimentacaoColaborador(
    tipo: TipoColaborador,
    valor: int,
    descricao: string,
    data: Data)

  datatype Colaborador = Colaborador(
    id: Id,
    nome: string,
    cargo: string,
    debito: int,
    dataCadastro: Data,
    historico: seq<MovimentacaoColaborador>)

  function IdDe(c: Colaborador): Id { c.id }
  function NomeDe(c: Colaborador): string { c.nome }

  predicate PorNome(a: Colaborador, b: Colaborador) { Texto.NomeLe(a.nome, b.nome) }

  /** The term of one movement in the fold: a debit adds, anything else subtracts. */
  function Efeito(m: MovimentacaoColaborador): int {
    if m.tipo == Debito then m.valor else -m.valor
  }

  /** The unclamped sum of a history. */
  function Soma(h: seq<MovimentacaoColaborador>): int {
    SumBy(h, Efeito)
  }

  /** The debt written back: `Math.max(0, sum)` over the whole history. */
  function Divida(h: seq<MovimentacaoColaborador>): (d: int)
    ensures d >= 0
    ensures d >= Soma(h) && (d == 0 || d == Soma(h))
  {
    Max(0, Soma(h))
  }

  predicate EhDebito(m: MovimentacaoColaborador) { m.tipo == Debito }
  predicate EhPagamento(m: MovimentacaoColaborador) { m.tipo == Pagamento }
  function Valor(m: MovimentacaoColaborador): int { m.valor }

  /** The unclamped sum is the debits minus the payments of the whole history. */
  lemma {:induction false} SomaPorTipo(h: seq<MovimentacaoColaborador>)
    ensures Soma(h) == SumBy(Filter(h, EhDebito), Valor) - SumBy(Filter(h, EhPagamento), Valor)
    decreases |h|
  {
    if h != [] {
      var h', m := h[..|h| - 1], h[|h| - 1];
      SomaPorTipo(h');
      var fd, fp := Filter(h', EhDebito), Filter(h', EhPagamento);
      if m.tipo == Debito {
        assert Filter(h, EhDebito) == fd + [m] && Filter(h, EhPagamento) == fp;
        SumByAppend(fd, m, Valor);
      } else {
        assert Filter(h, EhDebito) == fd && Filter(h, EhPagamento) == fp + [m];
        SumByAppend(fp, m, Valor);
      }
    }
  }

  lemma SomaComMovimento(h: seq<MovimentacaoColaborador>, m: MovimentacaoColaborador)
    ensures Soma(h + [m]) == Soma(h) + Efeito(m)
  {
    SumByAppend(h, m, Efeito);
  }

  /** The debt each step would give if the clamp were applied movement by movement. This is
      not what the hook computes; it is the alternative reading the hook does not follow. */
  function DividaPassoAPasso(h: seq<MovimentacaoColaborador>): int {
    if h == [] then 0 else Max(0, DividaPassoAPasso(h[..|h| - 1]) + Efeito(h[|h| - 1]))
  }

  /** The clamp acts on the total, not on each step: after debits of 30, a payment of 50 and a
      debit of 10 the debt is 0, where clamping step by step would give 10. */
  lemma ClampNoTotal(hoje: Data)
    ensures var h := [MovimentacaoColaborador(Debito, 30, "lanche", hoje),
                      MovimentacaoColaborador(Pagamento, 50, "acerto", hoje),
                      MovimentacaoColaborador(Debito, 10, "lanche", hoje)];
      Divida(h) == 0 && DividaPassoAPasso(h) == 10
  {
    var h := [MovimentacaoColaborador(Debito, 30, "lanche", hoje),
              MovimentacaoColaborador(Pagamento, 50, "acerto", hoje),
              MovimentacaoColaborador(Debito, 10, "lanche", hoje)];
    var a, b := [h[0]], [h[0], h[1]];
    assert h == b + [h[2]] && b == a + [h[1]] && a == [] + [h[0]];
    SomaComMovimento([], h[0]);
    SomaComMovimento(a, h[1]);
    SomaComMovimento(b, h[2]);
    assert h[..2] == b && b[..1] == a && a[..0] == [];
    assert DividaPassoAPasso(a) == 30;
    assert DividaPassoAPasso(b) == 0;
  }

  // ---------------------------------------------------------------------------------
  // The store after each operation

  /** Every cached debt equals the clamped fold of its history. */
  predicate Consistente(cs: seq<Colaborador>) {
    forall i :: 0 <= i < |cs| ==> cs[i].debito == Divida(cs[i].historico)
  }

  ghost predicate Valida(cs: seq<Colaborador>) {
    ChavesUnicas(cs, IdDe) && Consistente(cs) && Ordenada(cs, PorNome)
  }

  /** A collaborator as the store creates it from a name and a role: no debt, no history. */
  function NovoColaborador(id: Id, nome: string, cargo: string, hoje: Data): Colaborador {
    Colaborador(id, nome, cargo, 0, hoje, [])
  }

  /** `adicionarColaborador`: a fresh id gets a new row in name order; a repeated id is
      refused by the primary key. */
  function AposAdicionar(cs: seq<Colaborador>, id: Id, nome: string, cargo: string, hoje: Data): (r: seq<Colaborador>)
    ensures TemChave(cs, IdDe, id) ==> r == cs
    ensures !TemChave(cs, IdDe, id) ==>
      multiset(r) == multiset(cs) + multiset{NovoColaborador(id, nome, cargo, hoje)}
  {
    if TemChave(cs, IdDe, id) then cs else Insere(cs, NovoColaborador(id, nome, cargo, hoje), PorNome)
  }

  /** One movement recorded for the collaborator(s) with key `id`, each debt refolded. */
  function Movimentar(cs: seq<Colaborador>, id: Id, m: MovimentacaoColaborador): (r: seq<Colaborador>)
    ensures |r| == |cs|
    ensures forall i :: 0 <= i < |cs| ==>
      r[i].id == cs[i].id && r[i].nome == cs[i].nome && r[i].cargo == cs[i].cargo && r[i].dataCadastro == cs[i].dataCadastro
    ensures forall i :: 0 <= i < |cs| && cs[i].id != id ==> r[i] == cs[i]
    ensures forall i :: 0 <= i < |cs| && cs[i].id == id ==>
      r[i].historico == cs[i].historico + [m] && r[i].debito == Max(0, Soma(cs[i].historico) + Efeito(m))
  {
    SomaComMovimentoTodos(cs, m);
    seq(|cs|, i requires 0 <= i < |cs| =>
      if cs[i].id == id then
        var h := cs[i].historico + [m];
        cs[i].(historico := h, debito := Divida(h))
      else cs[i])
  }

  lemma SomaComMovimentoTodos(cs: seq<Colaborador>, m: MovimentacaoColaborador)
    ensures forall i :: 0 <= i < |cs| ==> Soma(cs[i].historico + [m]) == Soma(cs[i].historico) + Efeito(m)
  {
    forall i | 0 <= i < |cs| {
      SomaComMovimento(cs[i].historico, m);
    }
  }

  /** `adicionarDebitoColaborador`. */
  function AposDebito(cs: seq<Colaborador>, id: Id, valor: int, descricao: string, hoje: Data): (r: seq<Colaborador>)
    ensures |r| == |cs|
    ensures forall i :: 0 <= i < |cs| && cs[i].id != id ==> r[i] == cs[i]
    ensures forall i :: 0 <= i < |cs| && cs[i].id == id ==>
      && r[i].historico == cs[i].historico + [MovimentacaoColaborador(Debito, valor, descricao, hoje)]
      && r[i].debito == Max(0, Soma(cs[i].historico) + valor)
  {
    Movimentar(cs, id, MovimentacaoColaborador(Debito, valor, descricao, hoje))
  }

  /** `registrarPagamentoColaborador`. */
  function AposPagamento(cs: seq<Colaborador>, id: Id, valor: int, descricao: string, hoje: Data): (r: seq<Colaborador>)
    ensures |r| == |cs|
    ensures forall i :: 0 <= i < |cs| && cs[i].id != id ==> r[i] == cs[i]
    ensures forall i :: 0 <= i < |cs| && cs[i].id == id ==>
      && r[i].historico == cs[i].historico + [MovimentacaoColaborador(Pagamento, valor, descricao, hoje)]
      && r[i].debito == Max(0, Soma(cs[i].historico) - valor)
  {
    Movimentar(cs, id, MovimentacaoColaborador(Pagamento, valor, descricao, hoje))
  }

  /** `removerColaborador`: exactly the rows with that id go. */
  function AposRemover(cs: seq<Colaborador>, id: Id): (r: seq<Colaborador>)
    ensures !TemChave(r, IdDe, id)
    ensures forall c :: c in r <==> c in cs && c.id != id
  {
    Filter(cs, (c: Colaborador) => c.id != id)
  }

  // ---------------------------------------------------------------------------------
  // Properties of the operations

  lemma AdicionarPreservaValida(cs: seq<Colaborador>, id: Id, nome: string, cargo: string, hoje: Data)
    requires Valida(cs)
    ensures Valida(AposAdicionar(cs, id, nome, cargo, hoje))
  {
    if !TemChave(cs, IdDe, id) {
      var novo := NovoColaborador(id, nome, cargo, hoje);
      var r := Insere(cs, novo, PorNome);
      Texto.PorNomeEhPreordem(NomeDe, PorNome);
      InsereOrdenada(cs, novo, PorNome);
      InsereMantemChaves(cs, novo, PorNome, IdDe);
      forall i | 0 <= i < |r| ensures r[i].debito == Divida(r[i].historico) {
        assert r[i] in multiset(cs) + multiset{novo};
        if r[i] != novo {
          var j :| 0 <= j < |cs| && cs[j] == r[i];
        }
      }
    }
  }

  lemma MovimentarPreservaValida(cs: seq<Colaborador>, id: Id, m: MovimentacaoColaborador)
    requires Valida(cs)
    ensures Valida(Movimentar(cs, id, m))
  {
    var r := Movimentar(cs, id, m);
    forall i, j | 0 <= i < j < |r| ensures PorNome(r[i], r[j]) {
      assert PorNome(cs[i], cs[j]);
    }
  }

  lemma RemoverPreservaValida(cs: seq<Colaborador>, id: Id)
    requires Valida(cs)
    ensures Valida(AposRemover(cs, id))
  {
    var p := (c: Colaborador) => c.id != id;
    FilterMantemChaves(cs, p, IdDe);
    FilterKeepsOrder(cs, p, PorNome);
    var r := AposRemover(cs, id);
    forall i | 0 <= i < |r| ensures r[i].debito == Divida(r[i].historico) {
      var j :| 0 <= j < |cs| && cs[j] == r[i];
    }
  }

  /** In a consistent store every debt is at least 0, after any sequence of operations. */
  lemma DividaNaoNegativa(cs: seq<Colaborador>, i: nat)
    requires Consistente(cs) && i < |cs|
    ensures cs[i].debito >= 0
  {
  }

  /** A payment at least as large as the current debt leaves the debt at 0, never below. */
  lemma PagamentoQuita(cs: seq<Colaborador>, i: nat, valor: int, descricao: string, hoje: Data)
    requires Consistente(cs) && i < |cs| && valor >= cs[i].debito
    ensures AposPagamento(cs, cs[i].id, valor, descricao, hoje)[i].debito == 0
  {
  }

  /** After a debit or a payment the cached debt is the clamped difference of debits and
      payments over the whole history, the new movement included. */
  lemma MovimentoRefazDivida(cs: seq<Colaborador>, i: nat, m: MovimentacaoColaborador)
    requires i < |cs|
    ensures var c := Movimentar(cs, cs[i].id, m)[i];
      c.debito == Max(0, SumBy(Filter(c.historico, EhDebito), Valor) - SumBy(Filter(c.historico, EhPagamento), Valor))
  {
    var h := cs[i].historico;
    var c := Movimentar(cs, cs[i].id, m)[i];
    assert c.historico == h + [m] && c.debito == Max(0, Soma(h) + Efeito(m));
    SomaComMovimento(h, m);
    SomaPorTipo(c.historico);
  }

  /** Scenario: Bruno owes 30 and pays 50: the debt is 0, not -20. */
  lemma CenarioPagamentoBruno(hoje: Data)
    ensures var c0 := AposAdicionar([], "bruno", "Bruno", "cozinha", hoje);
      var c1 := AposDebito(c0, "bruno", 30, "lanche", hoje);
      var c2 := AposPagamento(c1, "bruno", 50, "acerto", hoje);
      c1[0].debito == 30 && c2[0].debito == 0
  {
    var c0 := AposAdicionar([], "bruno", "Bruno", "cozinha", hoje);
    assert c0 == [NovoColaborador("bruno", "Bruno", "cozinha", hoje)];
    var c1 := AposDebito(c0, "bruno", 30, "lanche", hoje);
    SomaComMovimento([], MovimentacaoColaborador(Debito, 30, "lanche", hoje));
    assert c1[0].historico == [] + [MovimentacaoColaborador(Debito, 30, "lanche", hoje)];
  }

  // ---------------------------------------------------------------------------------
  // The hook's state and its operations

  class ColaboradoresLedger {
    var colaboradores: seq<Colaborador>

    ghost predicate Valid()
      reads this
    {
      Valida(colaboradores)
    }

    constructor ()
      ensures Valid() && colaboradores == []
    {
      colaboradores := [];
    }

    method AdicionarColaborador(id: Id, nome: string, cargo: string, hoje: Data)
      requires Valid()
      modifies this
      ensures Valid()
      ensures colaboradores == AposAdicionar(old(colaboradores), id, nome, cargo, hoje)
    {
      AdicionarPreservaValida(colaboradores, id, nome, cargo, hoje);
      if TemChave(colaboradores, IdDe, id) {
        return;
      }
      colaboradores := Insere(colaboradores, NovoColaborador(id, nome, cargo, hoje), PorNome);
    }

    /** Insert the movement row, re-read the collaborator's movements, fold them, clamp at 0
        and write the new debt. An unknown id is refused by the foreign key. */
    method Registrar(colaboradorId: Id, m: MovimentacaoColaborador)
      requires Valid()
      modifies this
      ensures Valid()
      ensures colaboradores == Movimentar(old(colaboradores), colaboradorId, m)
    {
      MovimentarPreservaValida(colaboradores, colaboradorId, m);
      var k := Localiza(colaboradores, IdDe, colaboradorId);
      if k.None? {
        assert Movimentar(colaboradores, colaboradorId, m) == colaboradores;
        return;
      }
      var i := k.value;
      LocalizaUnica(colaboradores, IdDe, colaboradorId, i);
      var h := colaboradores[i].historico + [m];
      var novoDebito := Soma(h);
      colaboradores := colaboradores[i := colaboradores[i].(historico := h, debito := Max(0, novoDebito))];
    }

    method AdicionarDebitoColaborador(colaboradorId: Id, valor: int, descricao: string, hoje: Data)
      requires Valid()
      modifies this
      ensures Valid()
      ensures colaboradores == AposDebito(old(colaboradores), colaboradorId, valor, descricao, hoje)
    {
      Registrar(colaboradorId, MovimentacaoColaborador(Debito, valor, descricao, hoje));
    }

    method RegistrarPagamentoColaborador(colaboradorId: Id, valor: int, descricao: string, hoje: Data)
      requires Valid()
      modifies this
      ensures Valid()
      ensures colaboradores == AposPagamento(old(colaboradores), colaboradorId, valor, descricao, hoje)
    {
      Registrar(colaboradorId, MovimentacaoColaborador(Pagamento, valor, descricao, hoje));
    }

    method RemoverColaborador(colaboradorId: Id)
      requires Valid()
      modifies this
      ensures Valid()
      ensures colaboradores == AposRemover(old(colaboradores), colaboradorId)
    {
      RemoverPreservaValida(colaboradores, colaboradorId);
      colaboradores := AposRemover(colaboradores, colaboradorId);
    }
  }
}
