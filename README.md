# Cantina: the ledgers, the sale and the monthly report

This is a Dafny model of the bookkeeping core of a school canteen app. The app keeps four
ledgers with the same shape:

| ledger | entity | movement kinds | cached figure |
|---|---|---|---|
| customers | `clientes` | `credito`, `debito` | `saldo` |
| products | `produtos` | `entrada`, `saida` | `estoqueAtual` |
| staff | `colaboradores` | `debito`, `pagamento` | `debito` |
| supplies | `mantimentos` | `entrada`, `saida`, `ajuste` | `estoqueAtual` |

Every movement operation does the same thing. It appends one movement to the entity's history. It then recomputes the cached figure by folding the whole history and writes that figure back.

On top of the ledgers sit:
- the sale `realizarVenda`, which writes a product stock-out and a customer debit;
- the monthly report `getDashboardData`;
- the guarded stock-out of the supplies context;
- the validators, filters and counters of the list pages.

Layout, one module per file:

- `Common`, `Ordem`, `Texto`:
  - the list combinators the code uses (`reduce`, `filter`, `find`, `map`);
  - a stable insertion sort standing for `Array.prototype.sort`;
  - `trim()`, `toLowerCase()` and `includes()`;
  - the order of names;
  - the decimal rendering of integers inside template strings.
- `Clientes`, `Produtos`, `Colaboradores`, `Mantimentos`: one module per ledger hook.
  - The fold is a pure function.
  - The state after each operation is a pure function `AposX` of the state before.
  - A class `XLedger` holds the list as a `seq` field. Each method follows the hook's steps (find and guard, append, refold, write) and ensures `list == AposX(old(list), …)`. It also keeps the invariant the reload gives: unique ids and name order, plus cache == fold where the ledger keeps it.
- `Cantina`: the context with the sale and the report. `CantinaProvider` owns the customer, product and staff ledgers.
- `ContextoMantimentos`: the supplies context, which wraps the hook's stock-out.
- `Situacao`, `Formularios`: the shared stock-status predicates and form checks.
- `PaginaClientes`, `PaginaColaboradores`, `PaginaProdutos`, `PaginaControleEstoque`, `PaginaEstoqueMantimentos`, `PaginaDashboard`: the pages without their JSX.
  - Filters and counters are functions.
  - The `handle*` callbacks are methods on the context objects.
  - Each returns the outcome the page shows: a toast, an early return, or success.

Values:
- Money and quantities are `int`; money is in cents.
- A date is its `(getMonth(), getFullYear())` pair.
- A field that `parseInt`/`parseFloat` turns into `NaN` is `None`.
- Ids are strings that the store generates. They are passed in, and so is "now" (`hoje`).

Where the code behaves differently from what a reader of the application would expect, the
model follows the code:

- **The sale is not a transaction.** The code issues the stock-out and the debit as two independent calls, not as one transaction. The model also follows the code in not checking that the quantity is positive: `Cantina.VendaQuantidadeNegativa` shows a sale of −1 that raises stock and credits the customer.
- **`ajuste` is folded as a level, not skipped.** When a supply's stock is refolded, an `ajuste` movement does not leave the running value alone: it replaces it with the stored difference. As a result, the next `entrada`/`saida` recomputes from that difference (`Mantimentos.CenarioAjusteArroz`: 8 → 5, then +2, gives 0).
- **The hooks check little.** No hook checks that a value or quantity is positive or that a description is filled in; only the pages do. Three hooks look the id up in the cached list and return without writing when it is missing: `saidaEstoque`, `saidaMantimento` and `ajustarEstoque`. The two stock-outs also refuse a quantity above the cached stock (`Produtos.SaidaPermitidaSse`, `Mantimentos.SaidaPermitidaSse`). The other hooks write for any id; an unknown id is then a no-op at the store, and removal of an absent id does not fail.
- **Product stock can go negative.** In the code:
  - a negative initial stock is stored as is, with no movement that explains it (`Produtos.AdicionarNegativoInconsistente`);
  - `entradaEstoque` accepts any quantity (`Produtos.EntradaSemLimite`).

  Non-negativity holds only from non-negative starting values (`Produtos.SaidaPreservaNaoNegativo`).
- **There is no staff-as-buyer sale.** Only customers buy through `realizarVenda`; staff debts are recorded by hand.
- **Products have no `adjust` operation.** The products hook has no adjustment; the manual product adjustment lives in the stock-control page, which turns the difference into an `entrada` or a `saida`.

## Model

| member | source | states |
|---|---|---|
| Clientes.SaldoPorTipo | src/hooks/useSupabaseClientes.ts:66-68 | The balance fold equals all credited values minus all debited values of the history. |
| Clientes.SaldoIndependeDaOrdem | src/hooks/useSupabaseClientes.ts:88-90 | Two histories holding the same movements in any order fold to the same balance. |
| Clientes.SaldoComMovimento | src/hooks/useSupabaseClientes.ts:66-70 | Appending a movement changes the refolded balance by exactly that movement's signed value. |
| Clientes.AposAdicionar | src/hooks/useSupabaseClientes.ts:46-49 | A new customer is created from a name alone, with balance 0 and an empty history. A repeated id changes nothing. |
| Clientes.Movimentar | src/hooks/useSupabaseClientes.ts:53-70 | One movement is appended to the matching customer. Its balance becomes the fold of the new history. Every other customer and every identity field is unchanged. |
| Clientes.AposCredito | src/hooks/useSupabaseClientes.ts:51-72 | A credit appends one `credito` with no product reference to that customer only. Its balance becomes the old fold plus the value. |
| Clientes.AposDebito | src/hooks/useSupabaseClientes.ts:74-94 | A debit appends one `debito` carrying the optional product reference (an empty one counts as absent). The balance becomes the fold minus the value, with no balance check. |
| Clientes.AposRemover | src/hooks/useSupabaseClientes.ts:96-100 | Removal drops the customer together with its movements. Exactly the other customers remain. |
| Clientes.AdicionarPreservaValida | src/hooks/useSupabaseClientes.ts:46-49 | Adding keeps ids unique, the list in name order and every balance equal to its fold. |
| Clientes.MovimentarPreservaValida | src/hooks/useSupabaseClientes.ts:53-70 | A credit or debit keeps ids unique, name order and balance == fold. |
| Clientes.RemoverPreservaValida | src/hooks/useSupabaseClientes.ts:96-100 | Removal keeps ids unique, name order and balance == fold. |
| Clientes.CreditoRefazSaldoCompleto | src/hooks/useSupabaseClientes.ts:51-70 | After a credit, the balance is Σcredits − Σdebits over the whole history, the new credit included. It is also the old balance plus the value. |
| Clientes.DebitoPodeNegativar | src/hooks/useSupabaseClientes.ts:74-92 | A debit of 10 on a new customer leaves the balance at −10. |
| Clientes.CenarioCreditoAna | src/hooks/useSupabaseClientes.ts:46-70 | Registering Ana and crediting 50 gives one customer with balance 50 and one movement. |
| Clientes.Carrega | src/hooks/useSupabaseClientes.ts:9-40 | The reload gives one customer per stored row, with that row's id, name and balance. |
| Clientes.CarregaAgrupaPorCliente | src/hooks/useSupabaseClientes.ts:26-27 | Each customer's history holds exactly the movement rows whose `cliente_id` is its id. |
| Clientes.CarregaHistoricoCronologico | src/hooks/useSupabaseClientes.ts:18 | With the movement rows in ascending date order, every history is in ascending date order. |
| Clientes.CarregaOrdenadoPorNome | src/hooks/useSupabaseClientes.ts:13 | With the rows ordered by name, the loaded list is ordered by name. |
| Clientes.ClientesLedger.AdicionarCliente | src/hooks/useSupabaseClientes.ts:46-49 | The method leaves the state `AposAdicionar` describes and keeps the ledger invariant. |
| Clientes.ClientesLedger.Registrar | src/hooks/useSupabaseClientes.ts:53-70 | Insert, refold and write-back leave the state `Movimentar` describes and keep the invariant. |
| Clientes.ClientesLedger.AdicionarCredito | src/hooks/useSupabaseClientes.ts:51-72 | The method leaves the state `AposCredito` describes and keeps the invariant. |
| Clientes.ClientesLedger.AdicionarDebito | src/hooks/useSupabaseClientes.ts:74-94 | The method leaves the state `AposDebito` describes and keeps the invariant. |
| Clientes.ClientesLedger.RemoverCliente | src/hooks/useSupabaseClientes.ts:96-100 | The method leaves the state `AposRemover` describes and keeps the invariant. |
| Produtos.EstoquePorTipo | src/hooks/useSupabaseProdutos.ts:97-99 | The stock fold equals Σ`entrada` − Σ`saida` over the history, with no clamp. |
| Produtos.EstoqueComMovimento | src/hooks/useSupabaseProdutos.ts:97-101 | Appending a movement changes the refolded stock by exactly its signed quantity. |
| Produtos.HistoricoInicial | src/hooks/useSupabaseProdutos.ts:71-78 | Registration writes at most one movement, an `entrada` "Estoque inicial" dated today, and the history it leaves recomputes to max(0, initial stock): the initial stock itself when it is not negative, 0 otherwise. |
| Produtos.NovoProdutoConsistente | src/hooks/useSupabaseProdutos.ts:58-79 | A new product's stored stock equals its fold exactly when the initial stock is not negative. |
| Produtos.AposAdicionar | src/hooks/useSupabaseProdutos.ts:50-81 | A fresh id adds exactly the new product; a repeated id changes nothing. |
| Produtos.Movimentar | src/hooks/useSupabaseProdutos.ts:83-103 | One movement is appended to the matching product and its stock refolded. Every other product and every other field is unchanged. |
| Produtos.AposEntrada | src/hooks/useSupabaseProdutos.ts:83-103 | A stock-in appends one `entrada` and sets the stock to the old fold plus the quantity. No other product changes. |
| Produtos.AposSaida | src/hooks/useSupabaseProdutos.ts:105-128 | An unknown product, or one whose cached stock is below the quantity, is left with no movement and no update. Otherwise one `saida` with the optional customer reference is appended and the stock becomes the fold minus the quantity. |
| Produtos.AposRemover | src/hooks/useSupabaseProdutos.ts:130-133 | Removal deletes only the given product, with its movements. |
| Produtos.AposFoto | src/hooks/useSupabaseProdutos.ts:135-138 | A photo change alters only that product's `fotoUrl`. |
| Produtos.AdicionarPreservaValida | src/hooks/useSupabaseProdutos.ts:50-81 | Adding keeps ids unique and the list in name order. |
| Produtos.AdicionarPreservaConsistente | src/hooks/useSupabaseProdutos.ts:58-79 | With a non-negative initial stock, adding keeps every stock equal to its fold and not negative. |
| Produtos.AdicionarNegativoInconsistente | src/hooks/useSupabaseProdutos.ts:58-79 | An initial stock of −5 is stored with an empty history, so stock ≠ fold. |
| Produtos.MovimentarPreservaConsistente | src/hooks/useSupabaseProdutos.ts:97-101 | Any movement keeps every stock equal to its fold. |
| Produtos.SaidaPreservaNaoNegativo | src/hooks/useSupabaseProdutos.ts:105-126 | The guard keeps stock == fold and stock ≥ 0 through any stock-out. |
| Produtos.EntradaPreservaNaoNegativo | src/hooks/useSupabaseProdutos.ts:83-101 | A stock-in of a non-negative quantity keeps stock == fold and stock ≥ 0. |
| Produtos.EntradaSemLimite | src/hooks/useSupabaseProdutos.ts:83-101 | A stock-in of −3 on an empty product is accepted and leaves stock −3: the fold is not clamped. |
| Produtos.SaidaDeTudoZera | src/hooks/useSupabaseProdutos.ts:107 | Taking out exactly the current stock is allowed (the guard is strict) and leaves stock 0. |
| Produtos.SaidaPermitidaSse | src/hooks/useSupabaseProdutos.ts:106-107 | For a listed product, the stock-out is allowed iff the quantity is at most the cached stock. |
| Produtos.SaidaPreservaValida | src/hooks/useSupabaseProdutos.ts:105-128 | A stock-out keeps ids unique and name order. |
| Produtos.RemoverPreservaValida | src/hooks/useSupabaseProdutos.ts:130-133 | Removal keeps ids unique and name order. |
| Produtos.RemoverPreservaConsistente | src/hooks/useSupabaseProdutos.ts:130-133 | Removal keeps stock == fold and stock ≥ 0. |
| Produtos.CenarioSuco | src/hooks/useSupabaseProdutos.ts:50-128 | Register Suco with 10, take out 4: stock 6. A stock-out of 10 is then refused and nothing changes. |
| Produtos.HistoricoDe | src/hooks/useSupabaseProdutos.ts:31 | A product's history has one movement per stored row that references it. |
| Produtos.HistoricoDeAgrupa | src/hooks/useSupabaseProdutos.ts:31 | A product's history holds exactly the movement rows whose `produto_id` is its id. |
| Produtos.ProdutosLedger.AdicionarProduto | src/hooks/useSupabaseProdutos.ts:50-81 | The method leaves the state `AposAdicionar` describes, keeping ids unique and name order. |
| Produtos.ProdutosLedger.Registrar | src/hooks/useSupabaseProdutos.ts:83-101 | Insert, refold and write-back leave the state `Movimentar` describes. |
| Produtos.ProdutosLedger.EntradaEstoque | src/hooks/useSupabaseProdutos.ts:83-103 | The method leaves the state `AposEntrada` describes. |
| Produtos.ProdutosLedger.SaidaEstoque | src/hooks/useSupabaseProdutos.ts:105-128 | The guard, then the write, leave the state `AposSaida` describes; a refused stock-out changes nothing. |
| Produtos.ProdutosLedger.RemoverProduto | src/hooks/useSupabaseProdutos.ts:130-133 | The method leaves the state `AposRemover` describes. |
| Produtos.ProdutosLedger.AtualizarFotoProduto | src/hooks/useSupabaseProdutos.ts:135-138 | The method leaves the state `AposFoto` describes. |
| Colaboradores.Divida | src/hooks/useSupabaseColaboradores.ts:65-69 | The stored debt is `max(0, Σdebito − Σpagamento)`. It is never negative, and it is either 0 or the unclamped sum. |
| Colaboradores.SomaPorTipo | src/hooks/useSupabaseColaboradores.ts:65-67 | The unclamped sum is all debits minus all payments of the history. |
| Colaboradores.SomaComMovimento | src/hooks/useSupabaseColaboradores.ts:86-88 | Appending a movement changes the unclamped sum by its signed value. |
| Colaboradores.ClampNoTotal | src/hooks/useSupabaseColaboradores.ts:65-69 | The clamp applies to the whole-history total. For debit 30, payment 50, debit 10, the debt is 0; clamping step by step would give 10. |
| Colaboradores.AposAdicionar | src/hooks/useSupabaseColaboradores.ts:46-49 | A new collaborator has a name, a role, debt 0 and an empty history. A repeated id changes nothing. |
| Colaboradores.Movimentar | src/hooks/useSupabaseColaboradores.ts:51-92 | One movement is appended to the matching collaborator and its debt set to max(0, new sum). Everything else is unchanged. |
| Colaboradores.AposDebito | src/hooks/useSupabaseColaboradores.ts:51-71 | One `debito` is appended to that collaborator only. The debt becomes max(0, old sum + value). |
| Colaboradores.AposPagamento | src/hooks/useSupabaseColaboradores.ts:73-92 | One `pagamento` is appended to that collaborator only. The debt becomes max(0, old sum − value). |
| Colaboradores.AposRemover | src/hooks/useSupabaseColaboradores.ts:94-97 | Removal deletes exactly that collaborator. |
| Colaboradores.AdicionarPreservaValida | src/hooks/useSupabaseColaboradores.ts:46-49 | Adding keeps ids unique, name order and debt == clamped fold. |
| Colaboradores.MovimentarPreservaValida | src/hooks/useSupabaseColaboradores.ts:51-92 | A debit or payment keeps ids unique, name order and debt == clamped fold. |
| Colaboradores.RemoverPreservaValida | src/hooks/useSupabaseColaboradores.ts:94-97 | Removal keeps the invariant. |
| Colaboradores.DividaNaoNegativa | src/hooks/useSupabaseColaboradores.ts:69 | In a consistent list every stored debt is ≥ 0. |
| Colaboradores.PagamentoQuita | src/hooks/useSupabaseColaboradores.ts:86-90 | A payment of at least the debt leaves the debt at 0, not negative. |
| Colaboradores.MovimentoRefazDivida | src/hooks/useSupabaseColaboradores.ts:65-69 | After any movement, debt = max(0, Σdebito − Σpagamento) over the whole history. |
| Colaboradores.CenarioPagamentoBruno | src/hooks/useSupabaseColaboradores.ts:51-90 | A debit of 30 gives debt 30; a payment of 50 then gives 0. |
| Colaboradores.ColaboradoresLedger.AdicionarColaborador | src/hooks/useSupabaseColaboradores.ts:46-49 | The method leaves the state `AposAdicionar` describes and keeps the invariant. |
| Colaboradores.ColaboradoresLedger.Registrar | src/hooks/useSupabaseColaboradores.ts:51-69 | Insert, refold with clamp and write-back leave the state `Movimentar` describes. |
| Colaboradores.ColaboradoresLedger.AdicionarDebitoColaborador | src/hooks/useSupabaseColaboradores.ts:51-71 | The method leaves the state `AposDebito` describes. |
| Colaboradores.ColaboradoresLedger.RegistrarPagamentoColaborador | src/hooks/useSupabaseColaboradores.ts:73-92 | The method leaves the state `AposPagamento` describes. |
| Colaboradores.ColaboradoresLedger.RemoverColaborador | src/hooks/useSupabaseColaboradores.ts:94-97 | The method leaves the state `AposRemover` describes. |
| Mantimentos.EstoqueGravado | src/hooks/useSupabaseMantimentos.ts:109 | The stored stock is max(0, fold): never negative, and equal to the fold when that is not negative. |
| Mantimentos.RecalculaSemAjuste | src/hooks/useSupabaseMantimentos.ts:103-107 | Movements without `ajuste` add their signed quantities to whatever the fold had reached. |
| Mantimentos.RecalculaEhSoma | src/hooks/useSupabaseMantimentos.ts:103-107 | A history without `ajuste` folds to Σentrada − Σsaida. |
| Mantimentos.UltimoAjusteReinicia | src/hooks/useSupabaseMantimentos.ts:103-107 | The fold restarts at the last `ajuste`: it is that movement's stored difference plus the signed movements after it. |
| Mantimentos.HistoricoInicial | src/hooks/useSupabaseMantimentos.ts:73-80 | Registration writes at most one movement, an `entrada` "Estoque inicial" dated today, and the history it leaves folds to max(0, initial stock). |
| Mantimentos.NovoMantimentoConsistente | src/hooks/useSupabaseMantimentos.ts:59-80 | A new item's stock equals the clamped fold exactly when the initial stock is not negative. |
| Mantimentos.AposAdicionar | src/hooks/useSupabaseMantimentos.ts:50-83 | A fresh id adds exactly the new item, with stock set to the initial stock; a repeated id changes nothing. |
| Mantimentos.Movimentar | src/hooks/useSupabaseMantimentos.ts:90-138 | One movement is appended to the matching item. Its stock becomes max(0, fold step on the old fold); everything else is unchanged. |
| Mantimentos.AposEntrada | src/hooks/useSupabaseMantimentos.ts:90-111 | A stock-in appends one `entrada` and stores max(0, old fold + quantity). |
| Mantimentos.AposSaida | src/hooks/useSupabaseMantimentos.ts:113-138 | An unknown id, or cached stock below the quantity, changes nothing. Otherwise one `saida` is appended and the stored stock is the clamped fold of the new history. |
| Mantimentos.AposAjuste | src/hooks/useSupabaseMantimentos.ts:140-154 | An unknown id does nothing. Otherwise only that item changes. |
| Mantimentos.AjusteNaPosicao | src/hooks/useSupabaseMantimentos.ts:144-152 | Adjusting an item appends one `ajuste` carrying `nova − atual` and the description with both levels, and sets the stock to `nova` exactly, without refolding or clamping. |
| Mantimentos.AjustePreservaValida | src/hooks/useSupabaseMantimentos.ts:140-154 | An adjustment keeps ids unique and name order. |
| Mantimentos.AposRemover | src/hooks/useSupabaseMantimentos.ts:156-159 | Removal deletes exactly that item. |
| Mantimentos.AposFoto | src/hooks/useSupabaseMantimentos.ts:85-88 | A photo change alters only that item's `foto`. |
| Mantimentos.AdicionarPreservaValida | src/hooks/useSupabaseMantimentos.ts:50-83 | Adding keeps ids unique and name order. |
| Mantimentos.RemoverPreservaValida | src/hooks/useSupabaseMantimentos.ts:156-159 | Removal keeps ids unique and name order. |
| Mantimentos.MovimentoNuncaNegativo | src/hooks/useSupabaseMantimentos.ts:109 | After a stock-in or stock-out the stored stock is ≥ 0 and equals max(0, fold of the new history). |
| Mantimentos.MovimentarPreservaConsistente | src/hooks/useSupabaseMantimentos.ts:103-109 | A stock-in or stock-out keeps stock == clamped fold. |
| Mantimentos.AjusteQuebraConsistencia | src/hooks/useSupabaseMantimentos.ts:148-152 | Adjusting 8 → 5 leaves stock 5, while the fold of the history reads the stored −3 as the level, so stock ≠ clamped fold. |
| Mantimentos.AjusteDeUnico | src/hooks/useSupabaseMantimentos.ts:144-152 | On a one-item list the adjustment appends `ajuste(nova − atual)` and sets stock to `nova`. The fold of the new history is then the difference, not `nova`. |
| Mantimentos.CenarioAjusteArroz | src/hooks/useSupabaseMantimentos.ts:103-152 | Rice at 8 adjusted to 5 stores −3 with description "Ajuste manual: 8 → 5" and stock 5. A later `entrada` of 2 yields max(0, −3 + 2) = 0, not 7. |
| Mantimentos.OrdemImporta | src/hooks/useSupabaseMantimentos.ts:98-107 | The refolded stock depends on the order the re-selected rows come back in: an `ajuste` of 5 and an `entrada` of 2 fold to 7 in one order and to 5 in the other. |
| Mantimentos.SaidaPermitidaSse | src/hooks/useSupabaseMantimentos.ts:114-115 | For a listed item, the stock-out is allowed iff the quantity is at most the cached stock. |
| Mantimentos.MantimentosLedger.AdicionarMantimento | src/hooks/useSupabaseMantimentos.ts:50-83 | The method leaves the state `AposAdicionar` describes. |
| Mantimentos.MantimentosLedger.AtualizarFoto | src/hooks/useSupabaseMantimentos.ts:85-88 | The method leaves the state `AposFoto` describes. |
| Mantimentos.MantimentosLedger.Registrar | src/hooks/useSupabaseMantimentos.ts:101-109 | Insert, refold, clamp and write-back leave the state `Movimentar` describes. |
| Mantimentos.MantimentosLedger.EntradaMantimento | src/hooks/useSupabaseMantimentos.ts:90-111 | The method leaves the state `AposEntrada` describes. |
| Mantimentos.MantimentosLedger.SaidaMantimento | src/hooks/useSupabaseMantimentos.ts:113-138 | It returns false with no movement when the item is unknown or short of stock, and true otherwise. The state is the one `AposSaida` describes. |
| Mantimentos.MantimentosLedger.AjustarEstoque | src/hooks/useSupabaseMantimentos.ts:140-154 | The method leaves the state `AposAjuste` describes. |
| Mantimentos.MantimentosLedger.RemoverMantimento | src/hooks/useSupabaseMantimentos.ts:156-159 | The method leaves the state `AposRemover` describes. |
| ContextoMantimentos.EstoqueMantimentosProvider.SaidaMantimento | src/contexts/EstoqueMantimentosContext.tsx:67-72 | An unknown id, or stock below the quantity, returns false without calling the hook. Otherwise it calls the hook's stock-out exactly once and returns true; equal stock and quantity succeeds. |
| ContextoMantimentos.SaidaDesconhecidoRecusa | src/contexts/EstoqueMantimentosContext.tsx:67-69 | For an unknown id the stock-out is refused and the list is unchanged. |
| ContextoMantimentos.EstoqueMantimentosProvider.AdicionarMantimento | src/contexts/EstoqueMantimentosContext.tsx:56-64 | Passed through to the hook unchanged. |
| ContextoMantimentos.EstoqueMantimentosProvider.AtualizarFoto | src/contexts/EstoqueMantimentosContext.tsx:56-64 | Passed through to the hook unchanged. |
| ContextoMantimentos.EstoqueMantimentosProvider.EntradaMantimento | src/contexts/EstoqueMantimentosContext.tsx:56-64 | Passed through to the hook unchanged. |
| ContextoMantimentos.EstoqueMantimentosProvider.AjustarEstoque | src/contexts/EstoqueMantimentosContext.tsx:75-83 | Passed through to the hook unchanged. |
| ContextoMantimentos.EstoqueMantimentosProvider.RemoverMantimento | src/contexts/EstoqueMantimentosContext.tsx:75-83 | Passed through to the hook unchanged. |
| Cantina.Venda | src/contexts/CantinaContext.tsx:85-99 | It succeeds exactly when the guard holds (both ids listed, stock not below the quantity) and a refused sale writes nothing. A successful one leaves both lists the same length and every other product and customer untouched; the product gains one `saida` of the quantity referencing the customer ("Venda para <nome>") and its stock refolds to its old fold minus the quantity; the customer gains one `debito` of `preco × quantidade` referencing the product ("Compra: <q>x <produto>") and its balance refolds to its old fold minus that amount. |
| Cantina.VendaPermitidaSse | src/contexts/CantinaContext.tsx:86-90 | A missing product or customer refuses the sale. With both present, the sale is allowed iff quantity ≤ stock. |
| Cantina.VendaEfeitos | src/contexts/CantinaContext.tsx:92-98 | A permitted sale lowers that product's stock by the quantity and that customer's balance by price × quantity. Each gets exactly one new movement; every other product and customer is unchanged. |
| Cantina.VendaQuantidadeNegativa | src/contexts/CantinaContext.tsx:85-98 | The quantity is not checked: a sale of −1 succeeds, raises the stock and credits the customer. |
| Cantina.CenarioVendaAna | src/contexts/CantinaContext.tsx:85-99 | Ana with 50 buys 2 juices at 3: stock 6 → 4 and balance 50 → 44. |
| Cantina.CantinaProvider.RealizarVenda | src/contexts/CantinaContext.tsx:85-99 | Guard, then the product stock-out, then the customer debit. The result and the new state are those of `Venda`, and the ledger invariants hold. |
| Cantina.DoPeriodo | src/contexts/CantinaContext.tsx:107-110 | It keeps exactly the movements whose month and year both match. |
| Cantina.MovimentacoesMes | src/contexts/CantinaContext.tsx:107-110 | It holds exactly the in-period movements of all customers. |
| Cantina.DoPeriodoComMovimento | src/contexts/CantinaContext.tsx:107-110 | The period filter of a history with one more movement is the old filter plus that movement if it is in period. |
| Cantina.Registra | src/contexts/CantinaContext.tsx:120-129 | Writing a name's units into the table keeps names unique. The name ends up with the new value, and every other entry stays. |
| Cantina.Tabela | src/contexts/CantinaContext.tsx:120-129 | The per-name sales table has unique names and at most one entry per product. |
| Cantina.TabelaCobreNomes | src/contexts/CantinaContext.tsx:120-129 | Every product's name has an entry, even with zero sales (the name `__proto__` is the one exception in the source; see "## Left out"). |
| Cantina.RegistraTemNome | src/contexts/CantinaContext.tsx:126-128 | After writing a name, the table has that name. |
| Cantina.RegistraMantemNome | src/contexts/CantinaContext.tsx:126-128 | Writing one name does not drop another. |
| Cantina.TabelaGuardaUltimo | src/contexts/CantinaContext.tsx:120-129 | Each entry holds the in-period `saida` units of the LAST product with that name: a later product with the same name overwrites the earlier one. |
| Cantina.PorVendasDescEhPreordem | src/contexts/CantinaContext.tsx:132 | "More units first" is a total preorder, so the stable sort applies. |
| Cantina.Ranking | src/contexts/CantinaContext.tsx:131-133 | The ranking is a permutation of the table, ordered by units, non-increasing. |
| Cantina.Top | src/contexts/CantinaContext.tsx:131-134 | The top list has min(5, n) entries, ordered by units, non-increasing. |
| Cantina.TopSaoOsMaiores | src/contexts/CantinaContext.tsx:131-134 | Top plus rest is the whole table, and every top entry has at least the units of every entry left out. |
| Cantina.GetDashboardData | src/contexts/CantinaContext.tsx:102-147 | `saldosPositivos` is the sum of the balances ≥ 0 and `saldosNegativos` the sum of the balances < 0 (each customer contributes its balance to one side and 0 to the other); they add up to `saldoTotal`, with `saldosNegativos ≤ 0 ≤ saldosPositivos`. `transacoesMes` counts the in-period credits and debits. `creditosMes − debitosMes` is the month's net effect on balances. `topProdutos` is the top-5 cut of the per-name sales table (at most 5 entries, ordered), so `Cantina.TopSaoOsMaiores`, `Cantina.TabelaGuardaUltimo` and `Cantina.TabelaCobreNomes` apply to it. |
| Cantina.SaldosPorSinal | src/contexts/CantinaContext.tsx:103-105 | The total balance splits into the sum of balances ≥ 0, which is ≥ 0, and the sum of balances < 0, which is ≤ 0. |
| Cantina.CreditosMesDeUmCliente | src/contexts/CantinaContext.tsx:112-114 | For one customer, `creditosMes` is the sum of its in-period credits. |
| Cantina.CenarioCreditosMes | src/contexts/CantinaContext.tsx:107-114 | Credits of 20 and 30 inside the month and 15 outside give `creditosMes` = 50. |
| Cantina.CantinaProvider.ObterDashboard | src/contexts/CantinaContext.tsx:136-146 | The report over the current ledgers; `totalClientes` and `totalProdutos` are the two list lengths. |
| Situacao.StatusParticiona | src/pages/ControleEstoque.tsx:61-66 | With stock and minimum ≥ 0, exactly one of `sem-estoque`, `alerta`, `normal` holds. |
| Situacao.StatusSemParticao | src/pages/ControleEstoque.tsx:61-66 | Without that premise the buckets overlap (0 with minimum −1) or miss (stock −1). |
| Situacao.AlertaIncluiSemEstoque | src/pages/Produtos.tsx:217 | With non-negative values, `estoque ≤ mínimo` holds iff the item is `alerta` or `sem-estoque`. |
| Situacao.MostraTudo | src/pages/ControleEstoque.tsx:42-58 | An empty search with the `todos` filter shows every item. |
| Situacao.AlertaResumo | src/pages/ControleEstoque.tsx:359 | The summary's alert figure counts at least the low and at least the empty items. |
| Texto.Trim | src/pages/Clientes.tsx:38 | `trim()` is the slice of the text left once a white-space prefix and a white-space suffix are cut. It is empty exactly when the text is all white space, and otherwise it starts and ends with a non-space character, so the cut is the maximal one. |
| Texto.MinusculaChar | src/pages/Clientes.tsx:27 | `toLowerCase()` moves an ASCII capital and a Latin-1 capital (U+00C0–U+00DE except ×) up by 32 code points, to its small letter, and leaves every other character as it is. |
| Texto.Contem | src/pages/Clientes.tsx:26-28 | `includes` holds iff the text occurs at some position. |
| Texto.BuscaVaziaCasaTudo | src/pages/Clientes.tsx:26-28 | An empty search matches every text. |
| Texto.BuscaSiMesmo | src/pages/Colaboradores.tsx:28-31 | Every text is found by a search for itself. |
| Texto.PorNomeEhPreordem | src/hooks/useSupabaseClientes.ts:13 | Ordering records by name is a total preorder. |
| Texto.IntParaTextoIda | src/contexts/CantinaContext.tsx:96 | Reading back the decimal text `${n}` writes gives n. |
| Texto.IntParaTextoInjetiva | src/hooks/useSupabaseMantimentos.ts:149 | Different numbers give different texts, so the description records both levels without loss. |
| Formularios.PreenchidoSse | src/pages/Clientes.tsx:38 | `!s.trim()` is false iff some character is not white space. |
| Formularios.PreenchidoExemplos | src/pages/Colaboradores.tsx:34 | Blanks only are refused; a letter inside blanks is accepted. |
| PaginaClientes.ClientesFiltrados | src/pages/Clientes.tsx:26-28 | It keeps exactly the customers whose name contains the search text, ignoring case, and keeps the name order. |
| PaginaClientes.Estatisticas | src/pages/Clientes.tsx:30-35 | The total is the count. `saldoTotal` is Σsaldo. `positivos` counts the customers with saldo ≥ 0 and `negativos` those with saldo < 0, so together they are the total; `negativos` is 0 exactly when no balance is negative, and `positivos` is 0 exactly when every balance is. |
| PaginaClientes.SaldoTotalComoPainel | src/pages/Clientes.tsx:30-35 | The page's total balance is the report's, and it splits into the report's positive and negative sums. |
| PaginaClientes.ValidaNovoCliente | src/pages/Clientes.tsx:37-41 | It refuses exactly a name that is empty after trimming. |
| PaginaClientes.HandleAdicionarCliente | src/pages/Clientes.tsx:37-46 | A refused form changes nothing; otherwise the customer is added as `AposAdicionar` describes. |
| PaginaClientes.DesfechoMovimentacao | src/pages/Clientes.tsx:48-58 | It accepts iff the value is a number > 0, the trimmed description is non-empty and a customer is selected. There is no balance check, and the reasons come in the code's order. |
| PaginaClientes.HandleMovimentacao | src/pages/Clientes.tsx:48-71 | A credit goes to `adicionarCredito`, a debit to `adicionarDebito` without a product. A refused form changes nothing. |
| PaginaClientes.DebitoAlemDoSaldo | src/pages/Clientes.tsx:48-66 | A debit above the balance is accepted and drives the balance negative by the difference. |
| PaginaColaboradores.ColaboradoresFiltrados | src/pages/Colaboradores.tsx:28-31 | It keeps exactly the collaborators whose name or role contains the text, ignoring case, in name order. |
| PaginaColaboradores.BuscaPorCargo | src/pages/Colaboradores.tsx:28-31 | A search for a collaborator's role finds it. |
| PaginaColaboradores.ValidaNovoColaborador | src/pages/Colaboradores.tsx:33-37 | It refuses iff the trimmed name or role is empty. |
| PaginaColaboradores.HandleAdicionarColaborador | src/pages/Colaboradores.tsx:33-42 | A refused form changes nothing; otherwise the collaborator is added. |
| PaginaColaboradores.DesfechoMovimentacao | src/pages/Colaboradores.tsx:44-54 | It accepts iff the value is > 0, the description is non-empty and someone is selected. |
| PaginaColaboradores.HandleMovimentacao | src/pages/Colaboradores.tsx:44-67 | A debit goes to `adicionarDebitoColaborador`, a payment to `registrarPagamentoColaborador`, with the value as typed. |
| PaginaColaboradores.PagamentoAcimaDaDivida | src/pages/Colaboradores.tsx:56-62 | A payment above the debt is not capped by the page; it is accepted and settles the debt at 0. |
| PaginaProdutos.ProdutosFiltrados | src/pages/Produtos.tsx:34-37 | It keeps exactly the products whose name or code contains the text, ignoring case, in name order. |
| PaginaProdutos.BuscaVaziaMostraTodos | src/pages/Produtos.tsx:34-37 | An empty search shows the whole list. |
| PaginaProdutos.EstoqueAlertaSse | src/pages/Produtos.tsx:217 | The alert flag `estoque ≤ mínimo` holds iff the product is low or empty (with non-negative values). |
| PaginaProdutos.ValidaNovoProduto | src/pages/Produtos.tsx:39-51 | It refuses a blank code or name first, then a NaN or negative price; it accepts otherwise. |
| PaginaProdutos.ValidaNovoProdutoPreco | src/pages/Produtos.tsx:48-51 | A price of 0 is accepted; −1 and NaN are refused. |
| PaginaProdutos.ValidaNovoProdutoCodigoEmBranco | src/pages/Produtos.tsx:40 | A code of blanks is refused. |
| PaginaProdutos.HandleAdicionarProduto | src/pages/Produtos.tsx:39-57 | A refused form changes nothing. Otherwise the product is registered with unparseable stock fields as 0. The stock-control page has the same form (ControleEstoque.tsx, lines 68-86). |
| PaginaProdutos.ValidaMovimentacao | src/pages/Produtos.tsx:59-75 | It refuses exactly a quantity NaN or ≤ 0, then exactly an empty description, ignores exactly a missing selection, and refuses exactly a stock-out above the current stock of a listed product. Every other form is accepted, a product no longer listed included. |
| PaginaProdutos.SaidaAceitaPassaNoGuarda | src/pages/Produtos.tsx:71-75 | A stock-out the page accepts also passes the hook's guard. |
| PaginaProdutos.HandleMovimentacao | src/pages/Produtos.tsx:59-88 | Stock-in calls `entradaEstoque` and stock-out `saidaEstoque` with the same quantity and description; a refused form changes nothing. The stock-control page has the same form (ControleEstoque.tsx, lines 88-117). |
| PaginaProdutos.MovimentacaoAceitaRegistra | src/pages/Produtos.tsx:77-83 | An accepted movement appends exactly that movement and moves the stock by ± the quantity. |
| PaginaControleEstoque.ProdutosFiltrados | src/pages/ControleEstoque.tsx:42-58 | A product is shown iff its name or code contains the text, ignoring case, and it passes the status filter. Name order is kept. |
| PaginaControleEstoque.Estatisticas | src/pages/ControleEstoque.tsx:61-66 | The total is the list length, and each count is at most the total. |
| PaginaControleEstoque.EstatisticasSaoFiltros | src/pages/ControleEstoque.tsx:48-66 | Each count is the length of the list that its status filter shows. |
| PaginaControleEstoque.EstatisticasParticionam | src/pages/ControleEstoque.tsx:61-66 | With non-negative stock and minimum, semEstoque + emAlerta + normal = total. |
| PaginaControleEstoque.UnidadesEmEstoque | src/pages/ControleEstoque.tsx:351 | "Itens em estoque" is Σestoque, not negative when no stock is. |
| PaginaControleEstoque.ValorEstimado | src/pages/ControleEstoque.tsx:355 | "Valor total estimado" is Σ preço × estoque: not negative with non-negative prices and stocks, 0 when every stock is 0. |
| PaginaControleEstoque.AlertaResumoContaFlag | src/pages/ControleEstoque.tsx:359 | "Produtos em alerta" = emAlerta + semEstoque counts exactly the products with the product page's alert flag. |
| PaginaControleEstoque.AjustePorDiferenca | src/pages/ControleEstoque.tsx:130-135 | A difference becomes an `entrada`, a `saida` of its size, or nothing. Only that product is touched. |
| PaginaControleEstoque.AposAjusteManual | src/pages/ControleEstoque.tsx:127-135 | An unlisted product is left alone; other products never change. |
| PaginaControleEstoque.AjusteAlcancaAlvo | src/pages/ControleEstoque.tsx:130-135 | For a product whose stock agrees with its fold, the target is reached exactly and still agrees with the fold. There is one movement more, or none when the target equals the stock. |
| PaginaControleEstoque.AjusteErraComEstoqueInicialNegativo | src/pages/ControleEstoque.tsx:130-134 | From an unexplained initial stock of −5, the target 0 writes an `entrada` of 5. The refold then gives 5, not 0. |
| PaginaControleEstoque.DesfechoAjuste | src/pages/ControleEstoque.tsx:119-128 | It refuses iff the target is NaN or negative. It acts iff the target is valid and a listed product is selected. |
| PaginaControleEstoque.HandleAjusteManual | src/pages/ControleEstoque.tsx:119-140 | The outcome is `DesfechoAjuste`. It changes nothing unless accepted, and otherwise writes what `AposAjusteManual` describes. |
| PaginaControleEstoque.AjustarProduto | src/pages/ControleEstoque.tsx:130-135 | The calls to `entradaEstoque`/`saidaEstoque` leave the state `AposAjusteManual` describes. |
| PaginaEstoqueMantimentos.MantimentosFiltrados | src/pages/EstoqueMantimentos.tsx:49-65 | Same search and status predicates as the stock-control page, in name order. |
| PaginaEstoqueMantimentos.Estatisticas | src/pages/EstoqueMantimentos.tsx:68-73 | The total is the list length, and each count is at most the total. |
| PaginaEstoqueMantimentos.EstatisticasSaoFiltros | src/pages/EstoqueMantimentos.tsx:55-73 | Each count is the length of the list its status filter shows. |
| PaginaEstoqueMantimentos.EstatisticasParticionam | src/pages/EstoqueMantimentos.tsx:68-73 | With non-negative values the three counts sum to the total. |
| PaginaEstoqueMantimentos.UnidadesEmEstoque | src/pages/EstoqueMantimentos.tsx:427 | The units in stock are Σestoque, not negative when no stock is. |
| PaginaEstoqueMantimentos.ComFoto | src/pages/EstoqueMantimentos.tsx:431 | "Com foto" is at most the total, and equals it iff every item has a photo. |
| PaginaEstoqueMantimentos.ValidaNovoMantimento | src/pages/EstoqueMantimentos.tsx:75-79 | It refuses iff the trimmed code or name is empty. |
| PaginaEstoqueMantimentos.HandleAdicionarMantimento | src/pages/EstoqueMantimentos.tsx:75-94 | A refused form changes nothing. Otherwise the item is added with unparseable numbers as 0 and an empty photo as none. |
| PaginaEstoqueMantimentos.DesfechoMovimentacao | src/pages/EstoqueMantimentos.tsx:96-118 | It refuses exactly a quantity NaN or ≤ 0, then exactly an empty description, and ignores exactly a missing selection. A stock-out the context refuses (unknown item or stock too low) is reported as insufficient stock. Every other form is accepted: a stock-in always, a stock-out the context allows. |
| PaginaEstoqueMantimentos.HandleMovimentacao | src/pages/EstoqueMantimentos.tsx:96-123 | Stock-in goes to the hook. Stock-out goes through the context's guarded wrapper, which calls the hook once when accepted; a refused stock-out changes nothing. |
| PaginaEstoqueMantimentos.DesfechoAjuste | src/pages/EstoqueMantimentos.tsx:125-131 | It refuses a NaN or negative target and acts iff something is selected. |
| PaginaEstoqueMantimentos.HandleAjusteManual | src/pages/EstoqueMantimentos.tsx:125-137 | It passes the absolute target to `ajustarEstoque`, as `AposAjuste` describes. |
| PaginaEstoqueMantimentos.AjusteAlcancaAlvo | src/pages/EstoqueMantimentos.tsx:125-137 | An accepted adjustment sets the stock to the target and appends one `ajuste` movement. |
| PaginaDashboard.SaldoLiquidoEhEfeitoDoMes | src/pages/Dashboard.tsx:23-24 | `saldoLiquido` = creditosMes − debitosMes is the month's net effect on all balances. |
| PaginaDashboard.CreditosManuais | src/pages/Dashboard.tsx:28-33 | A customer's list holds exactly its `credito` movements with matching month and year. |
| PaginaDashboard.Linhas | src/pages/Dashboard.tsx:26-36 | There is one line per customer, in list order. |
| PaginaDashboard.ClientesComCreditos | src/pages/Dashboard.tsx:26-38 | The report is a permutation of the lines with credits, sorted by total, non-increasing. |
| PaginaDashboard.ClientesComCreditosSse | src/pages/Dashboard.tsx:26-38 | A line is in the report iff it is some customer's line and that customer has a credit in the month. |
| PaginaDashboard.ClienteComCreditoAparece | src/pages/Dashboard.tsx:26-37 | Every customer with an in-month credit appears, with that credit listed. |
| PaginaDashboard.CreditosManuaisSaoDoPeriodo | src/pages/Dashboard.tsx:28-33 | The page's per-customer credits are the report context's in-period credits, in the same order. |
| PaginaDashboard.LinhasSomamCreditosMes | src/pages/Dashboard.tsx:26-36 | Summed over all customers, the line totals are the month's credits. |
| PaginaDashboard.TotalDoRelatorioEhTotalDasLinhas | src/pages/Dashboard.tsx:37-38 | Dropping the lines without credits and sorting leave the sum of the totals unchanged. |
| PaginaDashboard.TotalDoRelatorioEhCreditosMes | src/pages/Dashboard.tsx:26-38 | The report's totals add up to `creditosMes` of the report context. |

## Left out

- Storage: the Supabase calls are an in-memory list per ledger. The reload (`fetchX`) is folded into each operation's result. Errors returned by the store are not modelled, except a repeated id on insert and an unknown id on update, which are no-ops.
- Concurrency: every operation is sequential and atomic. The staleness of the in-memory snapshot the guards read is not modelled, and neither are the un-awaited writes of the sale.
- The sale's non-atomicity is stated only as the two separate writes `Cantina.CantinaProvider.RealizarVenda` performs. A failure between them is not modelled.
- Numbers: `parseFloat`/`parseInt` are not modelled; an unparseable field is `None`. There is no floating point (money in integer cents) and no `toFixed` or locale formatting.
- Dates: a timestamp is its month and year. Time zones and the ordering of timestamps within a month are not modelled.
- `Mantimentos.Movimentar`, `Mantimentos.AposEntrada`, `Mantimentos.AposSaida` and the ledger methods built on them assume the re-selected movement rows come back in insertion order. The source re-selects them with no `order` clause (src/hooks/useSupabaseMantimentos.ts:98-101 and 124-127), and because an `ajuste` discards the running value the refolded stock depends on that order (`Mantimentos.OrdemImporta`). For customers, products and staff the refold is a sum (clamped afterwards, for staff), which does not depend on the order (`Clientes.SaldoIndependeDaOrdem` for customers).
- Row ids of movements: the movement tables each have a generated `id` column (src/integrations/supabase/types.ts); the model's movement records leave it out, since no operation reads or compares it.
- Text: database collation is modelled as code-point order of names, and ties between equal names keep insertion order.
- Text: `toLowerCase` covers ASCII and Latin-1 capitals only.
- Text: the mis-decoded arrow in the adjustment description is kept as the three characters the source text holds.
- `Cantina.Tabela`: a product named `__proto__` gets an entry in the model. In the source the per-name record is a plain object literal, and assigning to its `__proto__` key goes through the inherited prototype setter, which ignores a number; that product never appears in `Object.entries` or in `topProdutos`. The model does not single out that name.
- Ranking ties: the per-name sales record is kept in first-insertion order of names, which is `Object.entries` order except for names that are array indices ("1", "42"), which JavaScript lists first in ascending numeric order. Which of several equally selling products make the top 5 depends on that order only.
- Removal: the cascade delete of movements is part of removal. Deleting images from storage is not modelled.
- Photos: the image upload and `FileReader` handling are left out. Only the stored address is modelled.
- UI: React state, dialogs, toasts, navigation and all rendering are left out, as is the progress bar of the report page.
- Access: login, the dashboard password gate and the system switcher are left out.
- `Mantimentos.AposAjuste`: its own contract states only the frame and the unknown-id case. The effect on the adjusted item is stated by `Mantimentos.AjusteNaPosicao`, under unique ids, which the ledger invariant provides.
- `Situacao.AlertaResumo`: its contract gives only lower bounds. The exact count is `PaginaControleEstoque.AlertaResumoContaFlag`.
- `Cantina.GetDashboardData`: its contract does not pin `creditosMes` and `debitosMes` separately. `Cantina.CreditosMesDeUmCliente` and `PaginaDashboard.TotalDoRelatorioEhCreditosMes` relate `creditosMes` to the movements.
