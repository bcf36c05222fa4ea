/** The supplies ledger (`useSupabaseMantimentos`) and the record shapes it shares with
    `EstoqueMantimentosContext`. A stock-in or stock-out appends one movement and rewrites
    `estoqueAtual` with a fold of the whole history in which `entrada` adds, `saida`
    subtracts and any other kind (`ajuste`) replaces the running value by its own quantity;
    the result is clamped at 0. A manual adjustment instead records the signed difference
    between the new and the old level and writes the new level directly. */
module Mantimentos {
  import opened Common
  import opened Ordem
  import Texto

  datatype TipoMantimento = Entrada | Saida | Ajuste

  datatype MovimentacaoMantimento = MovimentacaoMantimento(
    tipo: TipoMantimento,
    quantidade: int,
    descricao: string,
    data: Data)

  datatype Mantimento = Mantimento(
    id: Id,
    codigo: string,
    nome: string,
    foto: Option<string>,
    estoqueAtual: int,
    estoqueMinimo: int,
    estoqueMaximo: int,
    unidade: string,
    dataCadastro: Data,
    historico: seq<MovimentacaoMantimento>)

  function IdDe(m: Mantimento): Id { m.id }
  function NomeDe(m: Mantimento): string { m.nome }

  predicate PorNome(a: Mantimento, b: Mantimento) { Texto.NomeLe(a.nome, b.nome) }

  /** One step of the recompute: `entrada` adds, `saida` subtracts, and anything else sets
      the running value to the movement's stored quantity. */
  function Passo(acc: int, m: MovimentacaoMantimento): int {
    match m.tipo
    case Entrada => acc + m.quantidade
    case Saida => acc - m.quantidade
    case Ajuste => m.quantidade
  }

  /** The recompute fold over a whole history, starting at 0. */
  function Recalcula(h: seq<MovimentacaoMantimento>): int {
    if h == [] then 0 else Passo(Recalcula(h[..|h| - 1]), h[|h| - 1])
  }

  /** The stock written after a stock-in or stock-out: `Math.max(0, fold)`. */
  function EstoqueGravado(h: seq<MovimentacaoMantimento>): (e: int)
    ensures e >= 0 && e >= Recalcula(h)
    ensures Recalcula(h) >= 0 ==> e == Recalcula(h)
  {
    Max(0, Recalcula(h))
  }

  predicate EhAjuste(m: MovimentacaoMantimento) { m.tipo == Ajuste }

  /** The signed term of a movement when no adjustment is involved. */
  function Efeito(m: MovimentacaoMantimento): int {
    if m.tipo == Entrada then m.quantidade else -m.quantidade
  }

  /** The fold continues from its value on a prefix by adding the terms of a suffix that holds
      no adjustment. */
  lemma {:induction false} RecalculaSemAjuste(a: seq<MovimentacaoMantimento>, b: seq<MovimentacaoMantimento>)
    requires forall k :: 0 <= k < |b| ==> !EhAjuste(b[k])
    ensures Recalcula(a + b) == Recalcula(a) + SumBy(b, Efeito)
    decreases |b|
  {
    if b == [] {
      assert a + b == a;
    } else {
      var b', x := b[..|b| - 1], b[|b| - 1];
      assert a + b == (a + b') + [x];
      assert (a + b)[..|a + b| - 1] == a + b';
      RecalculaSemAjuste(a, b');
      SumByAppend(b', x, Efeito);
      assert b == b' + [x];
    }
  }

  /** Without adjustments the fold is the plain sum: entries minus exits. */
  lemma RecalculaEhSoma(h: seq<MovimentacaoMantimento>)
    requires forall k :: 0 <= k < |h| ==> !EhAjuste(h[k])
    ensures Recalcula(h) == SumBy(h, Efeito)
  {
    RecalculaSemAjuste([], h);
    assert [] + h == h;
  }

  /** The last adjustment resets the fold: what came before it no longer counts, and the
      stored quantity of the adjustment is read as an absolute level. */
  lemma UltimoAjusteReinicia(a: seq<MovimentacaoMantimento>, aj: MovimentacaoMantimento, b: seq<MovimentacaoMantimento>)
    requires EhAjuste(aj)
    requires forall k :: 0 <= k < |b| ==> !EhAjuste(b[k])
    ensures Recalcula(a + [aj] + b) == aj.quantidade + SumBy(b, Efeito)
  {
    RecalculaSemAjuste(a + [aj], b);
    assert (a + [aj])[..|a + [aj]| - 1] == a;
  }

  // ---------------------------------------------------------------------------------
  // The store after each operation

  /** The agreement that stock-in and stock-out re-establish: the stock equals the clamped
      fold of the history. */
  predicate Consistente(ms: seq<Mantimento>) {
    forall i :: 0 <= i < |ms| ==> ms[i].estoqueAtual == EstoqueGravado(ms[i].historico)
  }

  ghost predicate Valida(ms: seq<Mantimento>) {
    ChavesUnicas(ms, IdDe) && Ordenada(ms, PorNome)
  }

  function HistoricoInicial(estoqueInicial: int, hoje: Data): (h: seq<MovimentacaoMantimento>)
    ensures |h| <= 1
    ensures forall m :: m in h ==> m.tipo == Entrada && m.descricao == "Estoque inicial" && m.data == hoje
    ensures Recalcula(h) == Max(0, estoqueInicial)
  {
    if estoqueInicial > 0 then
      var h := [MovimentacaoMantimento(Entrada, estoqueInicial, "Estoque inicial", hoje)];
      assert h[..|h| - 1] == [];
      h
    else []
  }

  /** The item as the reload shows it after `adicionarMantimento`: stock set to the initial
      stock, one `entrada` "Estoque inicial" only when that is positive. */
  function NovoMantimento(id: Id, codigo: string, nome: string, foto: Option<string>, estoqueInicial: int,
                          estoqueMinimo: int, estoqueMaximo: int, unidade: string, hoje: Data): Mantimento
  {
    Mantimento(id, codigo, nome, Normaliza(foto), estoqueInicial, estoqueMinimo, estoqueMaximo, unidade, hoje,
               HistoricoInicial(estoqueInicial, hoje))
  }

  /** A new item agrees with the clamped fold exactly when its initial stock is not negative. */
  lemma NovoMantimentoConsistente(id: Id, codigo: string, nome: string, foto: Option<string>, estoqueInicial: int,
                                  estoqueMinimo: int, estoqueMaximo: int, unidade: string, hoje: Data)
    ensures var m := NovoMantimento(id, codigo, nome, foto, estoqueInicial, estoqueMinimo, estoqueMaximo, unidade, hoje);
      m.estoqueAtual == EstoqueGravado(m.historico) <==> estoqueInicial >= 0
  {
  }

  function AposAdicionar(ms: seq<Mantimento>, id: Id, codigo: string, nome: string, foto: Option<string>,
                         estoqueInicial: int, estoqueMinimo: int, estoqueMaximo: int, unidade: string, hoje: Data): (r: seq<Mantimento>)
    ensures TemChave(ms, IdDe, id) ==> r == ms
    ensures !TemChave(ms, IdDe, id) ==>
      multiset(r) == multiset(ms) + multiset{NovoMantimento(id, codigo, nome, foto, estoqueInicial, estoqueMinimo, estoqueMaximo, unidade, hoje)}
  {
    if TemChave(ms, IdDe, id) then ms
    else Insere(ms, NovoMantimento(id, codigo, nome, foto, estoqueInicial, estoqueMinimo, estoqueMaximo, unidade, hoje), PorNome)
  }

  /** One stock-in or stock-out recorded for the item(s) with key `id`, each stock rewritten
      with the clamped fold. */
  function Movimentar(ms: seq<Mantimento>, id: Id, m: MovimentacaoMantimento): (r: seq<Mantimento>)
    ensures |r| == |ms|
    ensures forall i :: 0 <= i < |ms| ==>
      && r[i].id == ms[i].id && r[i].nome == ms[i].nome && r[i].codigo == ms[i].codigo
      && r[i].foto == ms[i].foto && r[i].estoqueMinimo == ms[i].estoqueMinimo
      && r[i].estoqueMaximo == ms[i].estoqueMaximo && r[i].unidade == ms[i].unidade
      && r[i].dataCadastro == ms[i].dataCadastro
    ensures forall i :: 0 <= i < |ms| && ms[i].id != id ==> r[i] == ms[i]
    ensures forall i :: 0 <= i < |ms| && ms[i].id == id ==>
      r[i].historico == ms[i].historico + [m] && r[i].estoqueAtual == Max(0, Passo(Recalcula(ms[i].historico), m))
  {
    ComMovimentoTodos(ms, m);
    seq(|ms|, i requires 0 <= i < |ms| =>
      if ms[i].id == id then
        var h := ms[i].historico + [m];
        ms[i].(historico := h, estoqueAtual := EstoqueGravado(h))
      else ms[i])
  }

  lemma ComMovimentoTodos(ms: seq<Mantimento>, m: MovimentacaoMantimento)
    ensures forall i :: 0 <= i < |ms| ==>
      Recalcula(ms[i].historico + [m]) == Passo(Recalcula(ms[i].historico), m)
  {
    forall i | 0 <= i < |ms|
      ensures Recalcula(ms[i].historico + [m]) == Passo(Recalcula(ms[i].historico), m)
    {
      assert (ms[i].historico + [m])[..|ms[i].historico|] == ms[i].historico;
    }
  }

  /** `entradaMantimento`. */
  function AposEntrada(ms: seq<Mantimento>, id: Id, quantidade: int, descricao: string, hoje: Data): (r: seq<Mantimento>)
    ensures |r| == |ms|
    ensures forall i :: 0 <= i < |ms| && ms[i].id != id ==> r[i] == ms[i]
    ensures forall i :: 0 <= i < |ms| && ms[i].id == id ==>
      && r[i].historico == ms[i].historico + [MovimentacaoMantimento(Entrada, quantidade, descricao, hoje)]
      && r[i].estoqueAtual == Max(0, Recalcula(ms[i].historico) + quantidade)
  {
    Movimentar(ms, id, MovimentacaoMantimento(Entrada, quantidade, descricao, hoje))
  }

  /** The guard of `saidaMantimento` (and of the context's wrapper): the item is listed and its
      cached stock is not below the quantity. */
  predicate SaidaPermitida(ms: seq<Mantimento>, id: Id, quantidade: int) {
    match Localiza(ms, IdDe, id)
    case None => false
    case Some(i) => !(ms[i].estoqueAtual < quantidade)
  }

  /** `saidaMantimento`: nothing written when the guard refuses; otherwise one `saida`
      movement and the clamped refold. */
  function AposSaida(ms: seq<Mantimento>, id: Id, quantidade: int, descricao: string, hoje: Data): (r: seq<Mantimento>)
    ensures !SaidaPermitida(ms, id, quantidade) ==> r == ms
    ensures |r| == |ms|
    ensures forall i :: 0 <= i < |ms| && ms[i].id != id ==> r[i] == ms[i]
    ensures SaidaPermitida(ms, id, quantidade) ==> forall i :: 0 <= i < |ms| && ms[i].id == id ==>
      && r[i].historico == ms[i].historico + [MovimentacaoMantimento(Saida, quantidade, descricao, hoje)]
      && r[i].estoqueAtual == EstoqueGravado(r[i].historico)
  {
    if SaidaPermitida(ms, id, quantidade) then
      Movimentar(ms, id, MovimentacaoMantimento(Saida, quantidade, descricao, hoje))
    else ms
  }

  /** How the source text spells the arrow of the adjustment description: the three
      characters U+00E2 U+2020 U+2019, a mis-decoded "→". */
  const Seta: string := "\U{00E2}\U{2020}\U{2019}"

  /** The description of an adjustment from `atual` to `nova`. */
  function DescricaoAjuste(atual: int, nova: int): string {
    "Ajuste manual: " + Texto.IntParaTexto(atual) + " " + Seta + " " + Texto.IntParaTexto(nova)
  }

  /** `ajustarEstoque`: an unknown id does nothing. Otherwise one `ajuste` movement whose
      quantity is `nova - atual`, and the stock is set to `nova` exactly, without refolding
      and without clamping. */
  function AposAjuste(ms: seq<Mantimento>, id: Id, nova: int, hoje: Data): (r: seq<Mantimento>)
    ensures !TemChave(ms, IdDe, id) ==> r == ms
    ensures |r| == |ms|
    ensures forall i :: 0 <= i < |ms| && ms[i].id != id ==> r[i] == ms[i]
  {
    match Localiza(ms, IdDe, id)
    case None => ms
    case Some(k) =>
      var atual := ms[k].estoqueAtual;
      var m := MovimentacaoMantimento(Ajuste, nova - atual, DescricaoAjuste(atual, nova), hoje);
      seq(|ms|, i requires 0 <= i < |ms| =>
        if ms[i].id == id then ms[i].(historico := ms[i].historico + [m], estoqueAtual := nova) else ms[i])
  }

  /** With unique keys the adjustment rewrites the one item found. */
  lemma AjusteNaPosicao(ms: seq<Mantimento>, id: Id, nova: int, hoje: Data, i: nat)
    requires ChavesUnicas(ms, IdDe) && i < |ms| && ms[i].id == id
    ensures var m := MovimentacaoMantimento(Ajuste, nova - ms[i].estoqueAtual, DescricaoAjuste(ms[i].estoqueAtual, nova), hoje);
      AposAjuste(ms, id, nova, hoje) == ms[i := ms[i].(historico := ms[i].historico + [m], estoqueAtual := nova)]
  {
    LocalizaUnica(ms, IdDe, id, i);
  }

  /** The adjustment keeps the list's keys and names, hence its order. */
  lemma AjustePreservaValida(ms: seq<Mantimento>, id: Id, nova: int, hoje: Data)
    requires Valida(ms)
    ensures Valida(AposAjuste(ms, id, nova, hoje))
  {
    MesmosNomesEChaves(ms, AposAjuste(ms, id, nova, hoje));
  }

  function AposRemover(ms: seq<Mantimento>, id: Id): (r: seq<Mantimento>)
    ensures !TemChave(r, IdDe, id)
    ensures forall m :: m in r <==> m in ms && m.id != id
  {
    Filter(ms, (m: Mantimento) => m.id != id)
  }

  /** `atualizarFoto`: only the photo of that item changes; an empty address reads back as
      none. */
  function AposFoto(ms: seq<Mantimento>, id: Id, foto: string): (r: seq<Mantimento>)
    ensures |r| == |ms|
    ensures forall i :: 0 <= i < |ms| && ms[i].id != id ==> r[i] == ms[i]
    ensures forall i :: 0 <= i < |ms| && ms[i].id == id ==> r[i] == ms[i].(foto := Normaliza(Some(foto)))
  {
    seq(|ms|, i requires 0 <= i < |ms| =>
      if ms[i].id == id then ms[i].(foto := Normaliza(Some(foto))) else ms[i])
  }

  // ---------------------------------------------------------------------------------
  // Properties of the operations

  lemma MesmosNomesEChaves(ms: seq<Mantimento>, r: seq<Mantimento>)
    requires Valida(ms)
    requires |r| == |ms| && forall i :: 0 <= i < |ms| ==> r[i].id == ms[i].id && r[i].nome == ms[i].nome
    ensures Valida(r)
  {
    forall i, j | 0 <= i < j < |r| ensures PorNome(r[i], r[j]) {
      assert PorNome(ms[i], ms[j]);
    }
  }

  lemma AdicionarPreservaValida(ms: seq<Mantimento>, id: Id, codigo: string, nome: string, foto: Option<string>,
                                estoqueInicial: int, estoqueMinimo: int, estoqueMaximo: int, unidade: string, hoje: Data)
    requires Valida(ms)
    ensures Valida(AposAdicionar(ms, id, codigo, nome, foto, estoqueInicial, estoqueMinimo, estoqueMaximo, unidade, hoje))
  {
    if !TemChave(ms, IdDe, id) {
      var novo := NovoMantimento(id, codigo, nome, foto, estoqueInicial, estoqueMinimo, estoqueMaximo, unidade, hoje);
      Texto.PorNomeEhPreordem(NomeDe, PorNome);
      InsereOrdenada(ms, novo, PorNome);
      InsereMantemChaves(ms, novo, PorNome, IdDe);
    }
  }

  lemma RemoverPreservaValida(ms: seq<Mantimento>, id: Id)
    requires Valida(ms)
    ensures Valida(AposRemover(ms, id))
  {
    var p := (x: Mantimento) => x.id != id;
    FilterMantemChaves(ms, p, IdDe);
    FilterKeepsOrder(ms, p, PorNome);
  }

  /** After any stock-in or stock-out the stock of the item is at least 0, whatever the
      history and the quantity. */
  lemma MovimentoNuncaNegativo(ms: seq<Mantimento>, id: Id, m: MovimentacaoMantimento, i: nat)
    requires i < |ms| && ms[i].id == id
    ensures Movimentar(ms, id, m)[i].estoqueAtual >= 0
    ensures Movimentar(ms, id, m)[i].estoqueAtual == EstoqueGravado(ms[i].historico + [m])
  {
    ComMovimentoTodos(ms, m);
  }

  /** Stock-in and stock-out re-establish the agreement with the clamped fold for the item
      they touch and keep it for the others. */
  lemma MovimentarPreservaConsistente(ms: seq<Mantimento>, id: Id, m: MovimentacaoMantimento)
    requires Consistente(ms)
    ensures Consistente(Movimentar(ms, id, m))
  {
    ComMovimentoTodos(ms, m);
  }

  /** An adjustment breaks the agreement with the fold: the stored difference is later read as
      an absolute level. From 8 adjusted to 5 the movement stores -3, while the stock is 5. */
  lemma AjusteQuebraConsistencia(hoje: Data)
    ensures var m0 := AposAdicionar([], "arroz", "A1", "Arroz", None, 8, 2, 20, "kg", hoje);
      var m1 := AposAjuste(m0, "arroz", 5, hoje);
      Consistente(m0) && !Consistente(m1) && m1[0].estoqueAtual == 5
  {
    var novo := NovoMantimento("arroz", "A1", "Arroz", None, 8, 2, 20, "kg", hoje);
    MantimentoUnico("arroz", "A1", "Arroz", 8, 2, 20, "kg", hoje);
    NovoMantimentoConsistente("arroz", "A1", "Arroz", None, 8, 2, 20, "kg", hoje);
    AjusteDeUnico(novo, 5, hoje);
  }

  /** Registering one item into an empty list gives the list of that item. */
  lemma MantimentoUnico(id: Id, codigo: string, nome: string, estoqueInicial: int,
                        estoqueMinimo: int, estoqueMaximo: int, unidade: string, hoje: Data)
    ensures AposAdicionar([], id, codigo, nome, None, estoqueInicial, estoqueMinimo, estoqueMaximo, unidade, hoje) ==
      [NovoMantimento(id, codigo, nome, None, estoqueInicial, estoqueMinimo, estoqueMaximo, unidade, hoje)]
  {
  }

  /** The adjustment of the only item of a list: the stock becomes the new level, and the fold
      of the new history is the stored difference. */
  lemma AjusteDeUnico(x: Mantimento, nova: int, hoje: Data)
    ensures var r := AposAjuste([x], x.id, nova, hoje);
      && |r| == 1 && r[0].estoqueAtual == nova
      && r[0].historico == x.historico + [MovimentacaoMantimento(Ajuste, nova - x.estoqueAtual, DescricaoAjuste(x.estoqueAtual, nova), hoje)]
      && Recalcula(r[0].historico) == nova - x.estoqueAtual
  {
    var aj := MovimentacaoMantimento(Ajuste, nova - x.estoqueAtual, DescricaoAjuste(x.estoqueAtual, nova), hoje);
    AjusteNaPosicao([x], x.id, nova, hoje, 0);
    UltimoAjusteReinicia(x.historico, aj, []);
    assert x.historico + [aj] + [] == x.historico + [aj];
  }

  /** Scenario: an adjustment from 8 to 5 appends an `ajuste` of -3 described "8 → 5" (as the
      source spells the arrow) and sets the stock to 5. A following stock-in of 2 gives
      max(0, -3 + 2) = 0, not 7. */
  lemma CenarioAjusteArroz(hoje: Data)
    ensures var m0 := AposAdicionar([], "arroz", "A1", "Arroz", None, 8, 2, 20, "kg", hoje);
      var m1 := AposAjuste(m0, "arroz", 5, hoje);
      var m2 := AposEntrada(m1, "arroz", 2, "compra", hoje);
      && |m1| == 1 && m1[0].estoqueAtual == 5
      && m1[0].historico[|m1[0].historico| - 1] ==
           MovimentacaoMantimento(Ajuste, -3, "Ajuste manual: 8 " + Seta + " 5", hoje)
      && m2[0].estoqueAtual == 0
  {
    var novo := NovoMantimento("arroz", "A1", "Arroz", None, 8, 2, 20, "kg", hoje);
    MantimentoUnico("arroz", "A1", "Arroz", 8, 2, 20, "kg", hoje);
    AjusteDeUnico(novo, 5, hoje);
    assert DescricaoAjuste(8, 5) == "Ajuste manual: 8 " + Seta + " 5" by {
      assert Texto.IntParaTexto(8) == "8" && Texto.IntParaTexto(5) == "5";
    }
  }

  /** The fold depends on the order in which the rows come back: the same two movements, an
      `ajuste` of 5 and an `entrada` of 2, refold to 7 in one order and to 5 in the other. The
      model refolds in insertion order. */
  lemma {:induction false} OrdemImporta(hoje: Data)
    ensures var a := MovimentacaoMantimento(Ajuste, 5, "ajuste", hoje);
      var e := MovimentacaoMantimento(Entrada, 2, "compra", hoje);
      && multiset([a, e]) == multiset([e, a])
      && Recalcula([a, e]) == 7 && Recalcula([e, a]) == 5
  {
    var a := MovimentacaoMantimento(Ajuste, 5, "ajuste", hoje);
    var e := MovimentacaoMantimento(Entrada, 2, "compra", hoje);
    assert [a, e][..1] == [a] && [a][..0] == [];
    assert [e, a][..1] == [e] && [e][..0] == [];
  }

  /** With unique keys, a stock-out allowed by the guard touches exactly the guarded item;
      equal stock and quantity is allowed. */
  lemma SaidaPermitidaSse(ms: seq<Mantimento>, i: nat, quantidade: int)
    requires Valida(ms) && i < |ms|
    ensures SaidaPermitida(ms, ms[i].id, quantidade) <==> quantidade <= ms[i].estoqueAtual
  {
    LocalizaUnica(ms, IdDe, ms[i].id, i);
  }

  // ---------------------------------------------------------------------------------
  // The hook's state and its operations

  class MantimentosLedger {
    var mantimentos: seq<Mantimento>

    ghost predicate Valid()
      reads this
    {
      Valida(mantimentos)
    }

    constructor ()
      ensures Valid() && mantimentos == []
    {
      mantimentos := [];
    }

    method AdicionarMantimento(id: Id, codigo: string, nome: string, foto: Option<string>, estoqueInicial: int,
                               estoqueMinimo: int, estoqueMaximo: int, unidade: string, hoje: Data)
      requires Valid()
      modifies this
      ensures Valid()
      ensures mantimentos == AposAdicionar(old(mantimentos), id, codigo, nome, foto, estoqueInicial, estoqueMinimo, estoqueMaximo, unidade, hoje)
    {
      AdicionarPreservaValida(mantimentos, id, codigo, nome, foto, estoqueInicial, estoqueMinimo, estoqueMaximo, unidade, hoje);
      if TemChave(mantimentos, IdDe, id) {
        return;
      }
      var novo := Mantimento(id, codigo, nome, Normaliza(foto), estoqueInicial, estoqueMinimo, estoqueMaximo, unidade, hoje, []);
      if estoqueInicial > 0 {
        novo := novo.(historico := [MovimentacaoMantimento(Entrada, estoqueInicial, "Estoque inicial", hoje)]);
      }
      mantimentos := Insere(mantimentos, novo, PorNome);
    }

    method AtualizarFoto(mantimentoId: Id, foto: string)
      requires Valid()
      modifies this
      ensures Valid()
      ensures mantimentos == AposFoto(old(mantimentos), mantimentoId, foto)
    {
      MesmosNomesEChaves(mantimentos, AposFoto(mantimentos, mantimentoId, foto));
      mantimentos := AposFoto(mantimentos, mantimentoId, foto);
    }

    /** Insert the movement row, re-read the item's movements, fold them, clamp at 0 and write
        the stock. An unknown id is refused by the foreign key. */
    method Registrar(mantimentoId: Id, m: MovimentacaoMantimento)
      requires Valid()
      modifies this
      ensures Valid()
      ensures mantimentos == Movimentar(old(mantimentos), mantimentoId, m)
    {
      MesmosNomesEChaves(mantimentos, Movimentar(mantimentos, mantimentoId, m));
      var k := Localiza(mantimentos, IdDe, mantimentoId);
      if k.None? {
        assert Movimentar(mantimentos, mantimentoId, m) == mantimentos;
        return;
      }
      var i := k.value;
      LocalizaUnica(mantimentos, IdDe, mantimentoId, i);
      var h := mantimentos[i].historico + [m];
      var novoEstoque := Recalcula(h);
      mantimentos := mantimentos[i := mantimentos[i].(historico := h, estoqueAtual := Max(0, novoEstoque))];
    }

    method EntradaMantimento(mantimentoId: Id, quantidade: int, descricao: string, hoje: Data)
      requires Valid()
      modifies this
      ensures Valid()
      ensures mantimentos == AposEntrada(old(mantimentos), mantimentoId, quantidade, descricao, hoje)
    {
      Registrar(mantimentoId, MovimentacaoMantimento(Entrada, quantidade, descricao, hoje));
    }

    method SaidaMantimento(mantimentoId: Id, quantidade: int, descricao: string, hoje: Data) returns (ok: bool)
      requires Valid()
      modifies this
      ensures Valid()
      ensures ok == SaidaPermitida(old(mantimentos), mantimentoId, quantidade)
      ensures mantimentos == AposSaida(old(mantimentos), mantimentoId, quantidade, descricao, hoje)
    {
      var k := Localiza(mantimentos, IdDe, mantimentoId);
      if k.None? || mantimentos[k.value].estoqueAtual < quantidade {
        return false;
      }
      Registrar(mantimentoId, MovimentacaoMantimento(Saida, quantidade, descricao, hoje));
      return true;
    }

    method AjustarEstoque(mantimentoId: Id, novaQuantidade: int, hoje: Data)
      requires Valid()
      modifies this
      ensures Valid()
      ensures mantimentos == AposAjuste(old(mantimentos), mantimentoId, novaQuantidade, hoje)
    {
      var k := Localiza(mantimentos, IdDe, mantimentoId);
      if k.None? {
        return;
      }
      var i := k.value;
      var atual := mantimentos[i].estoqueAtual;
      var diferenca := novaQuantidade - atual;
      var m := MovimentacaoMantimento(Ajuste, diferenca, DescricaoAjuste(atual, novaQuantidade), hoje);
      var novos := mantimentos[i := mantimentos[i].(historico := mantimentos[i].historico + [m], estoqueAtual := novaQuantidade)];
      AjusteNaPosicao(mantimentos, mantimentoId, novaQuantidade, hoje, i);
      AjustePreservaValida(mantimentos, mantimentoId, novaQuantidade, hoje);
      mantimentos := novos;
    }

    method RemoverMantimento(mantimentoId: Id)
      requires Valid()
      modifies this
      ensures Valid()
      ensures mantimentos == AposRemover(old(mantimentos), mantimentoId)
    {
      RemoverPreservaValida(mantimentos, mantimentoId);
      mantimentos := AposRemover(mantimentos, mantimentoId);
    }
  }
}
