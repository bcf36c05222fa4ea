/** The supplies context (`EstoqueMantimentosProvider`): it hands the hook's operations through
    unchanged, except the stock-out, which it wraps in a synchronous guard on the in-memory
    list before it fires the hook's stock-out. */
module ContextoMantimentos {
  import opened Common
  import Mantimentos

  class EstoqueMantimentosProvider {
    const hook: Mantimentos.MantimentosLedger
    /** How many times the wrapper has called the hook's stock-out. */
    ghost var chamadasSaida: nat

    ghost predicate Valid()
      reads this, hook
    {
      hook.Valid()
    }

    constructor ()
      ensures Valid() && hook.mantimentos == [] && chamadasSaida == 0
      ensures fresh(hook)
    {
      hook := new Mantimentos.MantimentosLedger();
      chamadasSaida := 0;
    }

    /** The list the pages read. */
    function Lista(): seq<Mantimentos.Mantimento>
      reads this, hook
    {
      hook.mantimentos
    }

    /** The wrapped stock-out: false as soon as the item is missing or its cached stock is
        below the quantity, without calling the hook; otherwise one call to the hook's
        stock-out and true, whatever the hook does with it. */
    method SaidaMantimento(mantimentoId: Id, quantidade: int, descricao: string, hoje: Data) returns (ok: bool)
      requires Valid()
      modifies this, hook
      ensures Valid()
      ensures ok == Mantimentos.SaidaPermitida(old(hook.mantimentos), mantimentoId, quantidade)
      ensures hook.mantimentos == Mantimentos.AposSaida(old(hook.mantimentos), mantimentoId, quantidade, descricao, hoje)
      ensures chamadasSaida == old(chamadasSaida) + (if ok then 1 else 0)
    {
      var k := Localiza(hook.mantimentos, Mantimentos.IdDe, mantimentoId);
      if k.None? || hook.mantimentos[k.value].estoqueAtual < quantidade {
        return false;
      }
      var _ := hook.SaidaMantimento(mantimentoId, quantidade, descricao, hoje);
      chamadasSaida := chamadasSaida + 1;
      return true;
    }

    method AdicionarMantimento(id: Id, codigo: string, nome: string, foto: Option<string>, estoqueInicial: int,
                               estoqueMinimo: int, estoqueMaximo: int, unidade: string, hoje: Data)
      requires Valid()
      modifies hook
      ensures Valid()
      ensures hook.mantimentos == Mantimentos.AposAdicionar(old(hook.mantimentos), id, codigo, nome, foto, estoqueInicial,
                                                            estoqueMinimo, estoqueMaximo, unidade, hoje)
    {
      hook.AdicionarMantimento(id, codigo, nome, foto, estoqueInicial, estoqueMinimo, estoqueMaximo, unidade, hoje);
    }

    method AtualizarFoto(mantimentoId: Id, foto: string)
      requires Valid()
      modifies hook
      ensures Valid()
      ensures hook.mantimentos == Mantimentos.AposFoto(old(hook.mantimentos), mantimentoId, foto)
    {
      hook.AtualizarFoto(mantimentoId, foto);
    }

    method EntradaMantimento(mantimentoId: Id, quantidade: int, descricao: string, hoje: Data)
      requires Valid()
      modifies hook
      ensures Valid()
      ensures hook.mantimentos == Mantimentos.AposEntrada(old(hook.mantimentos), mantimentoId, quantidade, descricao, hoje)
    {
      hook.EntradaMantimento(mantimentoId, quantidade, descricao, hoje);
    }

    method AjustarEstoque(mantimentoId: Id, novaQuantidade: int, hoje: Data)
      requires Valid()
      modifies hook
      ensures Valid()
      ensures hook.mantimentos == Mantimentos.AposAjuste(old(hook.mantimentos), mantimentoId, novaQuantidade, hoje)
    {
      hook.AjustarEstoque(mantimentoId, novaQuantidade, hoje);
    }

    method RemoverMantimento(mantimentoId: Id)
      requires Valid()
      modifies hook
      ensures Valid()
      ensures hook.mantimentos == Mantimentos.AposRemover(old(hook.mantimentos), mantimentoId)
    {
      hook.RemoverMantimento(mantimentoId);
    }
  }

  /** An id that is not listed is refused, whatever the quantity. */
  lemma SaidaDesconhecidoRecusa(ms: seq<Mantimentos.Mantimento>, id: Id, quantidade: int, descricao: string, hoje: Data)
    requires !TemChave(ms, Mantimentos.IdDe, id)
    ensures !Mantimentos.SaidaPermitida(ms, id, quantidade)
    ensures Mantimentos.AposSaida(ms, id, quantidade, descricao, hoje) == ms
  {
  }
}
