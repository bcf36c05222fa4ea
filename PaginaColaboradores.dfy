/** The collaborator page (`Colaboradores`): the search on name or role, and the forms for a
    new collaborator and for a debit or a payment. */
module PaginaColaboradores {
  import opened Common
  import opened Ordem
  import Texto
  import Colaboradores
  import Cantina
  import opened Formularios

  /** Name or role contains the search text, ignoring case. */
  predicate CasaBusca(c: Colaboradores.Colaborador, busca: string) {
    Texto.Busca(c.nome, busca) || Texto.Busca(c.cargo, busca)
  }

  /** `colaboradoresFiltrados`: the matching collaborators, in list order. */
  function ColaboradoresFiltrados(cs: seq<Colaboradores.Colaborador>, busca: string): (r: seq<Colaboradores.Colaborador>)
    ensures |r| <= |cs|
    ensures forall c :: c in r <==> c in cs && CasaBusca(c, busca)
    ensures Ordenada(cs, Colaboradores.PorNome) ==> Ordenada(r, Colaboradores.PorNome)
  {
    var busca' := busca;
    if Ordenada(cs, Colaboradores.PorNome) then
      FilterKeepsOrder(cs, c => CasaBusca(c, busca'), Colaboradores.PorNome);
      Filter(cs, c => CasaBusca(c, busca'))
    else Filter(cs, c => CasaBusca(c, busca'))
  }

  /** A search for the role finds the collaborator even when the name does not match. */
  lemma BuscaPorCargo(c: Colaboradores.Colaborador, cs: seq<Colaboradores.Colaborador>)
    requires c in cs
    ensures c in ColaboradoresFiltrados(cs, c.cargo)
  {
    Texto.BuscaSiMesmo(c.cargo);
  }

  // ---------------------------------------------------------------------------------
  // `handleAdicionarColaborador`

  function ValidaNovoColaborador(nome: string, cargo: string): (r: Option<Aviso>)
    ensures r.None? <==> Preenchido(nome) && Preenchido(cargo)
    ensures r.Some? ==> r.value == PreenchaNomeECargo
  {
    if !Preenchido(nome) || !Preenchido(cargo) then Some(PreenchaNomeECargo) else None
  }

  /** The form: a blank name or role is refused; otherwise the collaborator is created from
      the fields as typed. */
  method HandleAdicionarColaborador(ctx: Cantina.CantinaProvider, id: Id, nome: string, cargo: string, hoje: Data)
    returns (aviso: Option<Aviso>)
    requires ctx.Valid()
    modifies ctx.colaboradores
    ensures ctx.Valid()
    ensures aviso == ValidaNovoColaborador(nome, cargo)
    ensures aviso.Some? ==> ctx.colaboradores.colaboradores == old(ctx.colaboradores.colaboradores)
    ensures aviso.None? ==>
      ctx.colaboradores.colaboradores == Colaboradores.AposAdicionar(old(ctx.colaboradores.colaboradores), id, nome, cargo, hoje)
  {
    if !Preenchido(nome) || !Preenchido(cargo) {
      return Some(PreenchaNomeECargo);
    }
    ctx.colaboradores.AdicionarColaborador(id, nome, cargo, hoje);
    return None;
  }

  // ---------------------------------------------------------------------------------
  // `handleMovimentacao`

  /** Value, then description, then a selection; neither the debt nor the list is looked
      at, so a payment above the debt passes. */
  function DesfechoMovimentacao(selecionado: Option<Id>, valor: Option<int>, descricao: string): (d: Desfecho)
    ensures d == Aceito <==> Positivo(valor) && Preenchido(descricao) && selecionado.Some?
    ensures !Positivo(valor) ==> d == Recusado(ValorInvalido)
    ensures Positivo(valor) && !Preenchido(descricao) ==> d == Recusado(DescricaoObrigatoria)
    ensures d == Ignorado <==> Positivo(valor) && Preenchido(descricao) && selecionado.None?
  {
    if !Positivo(valor) then Recusado(ValorInvalido)
    else if !Preenchido(descricao) then Recusado(DescricaoObrigatoria)
    else if selecionado.None? then Ignorado
    else Aceito
  }

  /** The form: `debito` goes to `adicionarDebitoColaborador`, `pagamento` to
      `registrarPagamentoColaborador`, with the value as typed. */
  method HandleMovimentacao(ctx: Cantina.CantinaProvider, selecionado: Option<Id>, tipo: Colaboradores.TipoColaborador,
                            valor: Option<int>, descricao: string, hoje: Data)
    returns (d: Desfecho)
    requires ctx.Valid()
    modifies ctx.colaboradores
    ensures ctx.Valid()
    ensures d == DesfechoMovimentacao(selecionado, valor, descricao)
    ensures d != Aceito ==> ctx.colaboradores.colaboradores == old(ctx.colaboradores.colaboradores)
    ensures d == Aceito && tipo == Colaboradores.Debito ==>
      ctx.colaboradores.colaboradores ==
        Colaboradores.AposDebito(old(ctx.colaboradores.colaboradores), selecionado.value, valor.value, descricao, hoje)
    ensures d == Aceito && tipo == Colaboradores.Pagamento ==>
      ctx.colaboradores.colaboradores ==
        Colaboradores.AposPagamento(old(ctx.colaboradores.colaboradores), selecionado.value, valor.value, descricao, hoje)
  {
    if valor.None? || valor.value <= 0 {
      return Recusado(ValorInvalido);
    }
    if !Preenchido(descricao) {
      return Recusado(DescricaoObrigatoria);
    }
    if selecionado.None? {
      return Ignorado;
    }
    if tipo == Colaboradores.Debito {
      ctx.colaboradores.AdicionarDebitoColaborador(selecionado.value, valor.value, descricao, hoje);
    } else {
      ctx.colaboradores.RegistrarPagamentoColaborador(selecionado.value, valor.value, descricao, hoje);
    }
    return Aceito;
  }

  /** A payment above the debt goes through and settles it at 0; the excess is not kept as
      credit in the cached debt. */
  lemma PagamentoAcimaDaDivida(cs: seq<Colaboradores.Colaborador>, i: nat, valor: int, descricao: string, hoje: Data)
    requires Colaboradores.Consistente(cs) && i < |cs|
    requires valor > cs[i].debito && Preenchido(descricao)
    ensures DesfechoMovimentacao(Some(cs[i].id), Some(valor), descricao) == Aceito
    ensures Colaboradores.AposPagamento(cs, cs[i].id, valor, descricao, hoje)[i].debito == 0
  {
    Colaboradores.DividaNaoNegativa(cs, i);
    Colaboradores.PagamentoQuita(cs, i, valor, descricao, hoje);
  }
}
