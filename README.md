# Cadastro billing core in Dafny

Cadastro is a single-page billing application. It registers clients, issues charges (*cobranças*) to them,
records payments (*pagamentos*) against those charges, and issues service invoices (*notas fiscais*, NFS-e)
with Brazilian taxes. This project models the application's billing logic and proves properties of it:

- **Entity models.** Charge, payment, payment method and invoice. They cover fees, taxes per tax regime,
  invoice numbers, access keys, protocols and payment identifiers with their display forms.
- **Services.** Lookups, updates, status changes, totals, statistics, group-bys, period filters, reports,
  validators, the tax-payment slip and its bar code. They run over an abstract keyed store.
- **React hooks.** The local lists the hooks keep in step with the store, and the validate-or-throw gates.
- **Form logic.**
  - The CPF mask and validation of the client form.
  - The value clean-up, validation and submission of the charge form.
  - The initial values, overpayment check and submit choice of the payment form.
  - The tax preview, validation and net value of the invoice form.
  - The search and the status toggle of the charge list.

Modules follow the source files:

| module | source |
|---|---|
| `FormaPagamentoModel` | `src/models/FormaPagamento.js` |
| `PagamentoModel` | `src/models/Pagamento.js` |
| `CobrancaModel` | `src/models/Cobranca.js` |
| `NotaFiscalModel` | `src/models/NotaFiscal.js` |
| `PagamentoService` | `src/services/PagamentoService.js` |
| `CobrancaService` | `src/services/CobrancaService.js` |
| `NotaFiscalService` | `src/services/NotaFiscalService.js` |
| `HookPagamentos` | `src/hooks/usePagamentos.js` |
| `HookCobrancas` | `src/hooks/useCobrancas.js` |
| `HookNotasFiscais` | `src/hooks/useNotasFiscais.js` |
| `ClienteForm` | `src/components/ClienteForm.jsx` |
| `CobrancaForm` | `src/components/CobrancaForm.jsx` |
| `PagamentoForm` | `src/components/PagamentoForm.jsx` |
| `NotaFiscalForm` | `src/components/NotaFiscalForm.jsx` |
| `CobrancasList` | `src/components/CobrancasList.jsx` |

Supporting modules:

- `BancoDados`: the store. `src/services/BancoDados.js` is not part of this model, so the store is a class
  `Colecao<T>` of id-carrying records with get, post, update-by-id and delete-by-id.
- `Relogio`: clock readings.
- `Formularios`: the charge object the forms are opened with, and JavaScript `||` on numbers.
- `Text` and `Seqs`: the string and sequence operations the JavaScript code uses, such as `trim`,
  `padStart`, `substring`, `replace`, `includes`, `filter`, `find`, `reduce` and `sort`.
- `Wrappers`: `Option` and `Result`.

How the model represents these things:

- **Money** is an exact `real`.
- **Clock readings** (`Date.now()`, `new Date()`) and **random numbers** (`Math.random()` and its string
  forms) are parameters.
- **Dates** are epoch milliseconds. Date strings given to report filters are read by a parameter `lerData`.
- **The store's new id** is a parameter `novoId`.
- **An update of a missing id** returns `None`. The hooks pass it on without recording an error.
- **Stateful code** is methods proved against functions:
  - the tax computation (`calcularImpostos`, `calcularImpostosPreview`);
  - the group-bys;
  - the report builders;
  - the validators;
  - the hooks' list maintenance, as classes holding the list and the store.

## Model

| member | source | states |
|---|---|---|
| FormaPagamentoModel.NovaFormaPagamento | src/models/FormaPagamento.js:2-9 | The fields are copied. `taxa` defaults to 0 and `ativo` to true only when the argument is absent. The creation instant is the clock's. |
| FormaPagamentoModel.TiposPagamento | src/models/FormaPagamento.js:11-20 | The method table has six rows. |
| FormaPagamentoModel.BuscarTipo | src/hooks/usePagamentos.js:140 | The row found carries the key and is in the table. No row is found exactly when no row has the key. |
| FormaPagamentoModel.TabelaDeTipos | src/models/FormaPagamento.js:13-18 | Each of the six keys finds its own row. The rates are dinheiro 0, pix 0, cartao_debito 1.5, cartao_credito 3.5, boleto 2.5 and transferencia 0. |
| FormaPagamentoModel.Linha | src/models/FormaPagamento.js:13-18 | The row at a given place is the one its key finds. |
| FormaPagamentoModel.ChavesDistintas | src/models/FormaPagamento.js:13-18 | No two rows of the table share a key. |
| FormaPagamentoModel.BuscarPrimeiro | src/models/FormaPagamento.js:13-18 | Every row is found by its own key. |
| FormaPagamentoModel.TaxasDaTabelaSaoPercentuais | src/models/FormaPagamento.js:13-18 | Every table rate is between 0 and 100. |
| FormaPagamentoModel.CalcularTaxa | src/models/FormaPagamento.js:22-24 | Fee × 100 = value × rate. A zero rate gives no fee. For a value ≥ 0 and a rate in [0, 100], the fee is between 0 and the value. |
| FormaPagamentoModel.ComTaxaELiquido | src/models/FormaPagamento.js:26-32 | Gross minus net is twice the fee, and gross plus net is twice the value. With a percentage rate, 0 ≤ net ≤ value ≤ gross ≤ 2·value. |
| FormaPagamentoModel.CalcularValorComTaxa | src/models/FormaPagamento.js:26-28 | With no fee the gross value is the value. For a non-negative value and a fee between 0 and 100 percent it lies between the value and twice the value. |
| FormaPagamentoModel.CalcularValorLiquido | src/models/FormaPagamento.js:30-32 | With no fee the net value is the value. For a non-negative value and a fee between 0 and 100 percent it lies between 0 and the value. |
| FormaPagamentoModel.ExemplosDeTaxa | src/models/FormaPagamento.js:22-24 | 1000 at 3.5% is 35; at 0% there is no fee. |
| PagamentoModel.SufixoAleatorio | src/models/Pagamento.js:25 | The random part has at most six characters. |
| PagamentoModel.GerarIdentificador | src/models/Pagamento.js:23-27 | The identifier is "PAG", then the decimal timestamp, then the random part, each in its place. |
| PagamentoModel.SufixoMaiusculo | src/models/Pagamento.js:25 | For a base-36 numeral "0.…", the random part is decimal digits and upper-case letters. |
| PagamentoModel.NovoPagamento | src/models/Pagamento.js:3-21 | The status is always "confirmado". The fields are copied, with absent observations as "". A non-empty identifier is kept; an absent or empty one is generated. Both dates are the clock's, and there is no cancellation or confirmation data. |
| PagamentoModel.SeisCampos | src/models/Pagamento.js:39 | Six two-digit fields in a row are twelve digits, each field in its place. |
| PagamentoModel.CarimboDigitos | src/models/Pagamento.js:31-39 | For a valid clock reading, the date-time part is twelve digits: yy, mm, dd, hh, mi and ss in order. |
| PagamentoModel.Carimbo | src/models/Pagamento.js:31-36 | For a valid clock reading the date and time part has twelve characters. |
| PagamentoModel.CamposDoCarimbo | src/models/Pagamento.js:31-36 | For a valid clock reading each of the six fields has two characters: the last two of the year, then the padded month, day, hour, minute and second. |
| PagamentoModel.UltimosDigitos | src/models/Pagamento.js:37 | `slice(-k)` of digits is digits. |
| PagamentoModel.GerarNumeroTransacao | src/models/Pagamento.js:29-40 | For a valid clock reading, the number is the twelve-digit date-time part followed by the last four characters of the random string. |
| PagamentoModel.CalcularTaxa | src/models/Pagamento.js:42-45 | No method object gives no fee. Otherwise the fee is the method's fee on the payment's value. |
| PagamentoModel.CalcularValorLiquido | src/models/Pagamento.js:47-50 | No method object gives the value. In every case net + fee = value. |
| PagamentoModel.ValorLiquidoLimitado | src/models/Pagamento.js:47-50 | With a percentage rate, the net value is between 0 and the value, and equals the method's own net-value formula. |
| PagamentoModel.FormatarIdentificador | src/models/Pagamento.js:52-56 | The display form starts with "PAG-" and has 6 to 18 characters. |
| PagamentoModel.FormatarGerado | src/models/Pagamento.js:52-56 | A generated identifier with a timestamp of at least 12 digits shows only the first twelve timestamp digits, in groups of four. |
| PagamentoModel.RecorteDoCarimbo | src/models/Pagamento.js:54-55 | "PAG" + ts + rest is shown as "PAG-" and the first twelve characters of ts in three groups. |
| PagamentoModel.FormatadoNaoDistingue | src/models/Pagamento.js:52-56 | Two identifiers whose timestamps share their first twelve digits have the same display form, whatever their random parts. |
| CobrancaModel.NovaCobranca | src/models/Cobranca.js:2-12 | A new charge is unpaid and dated by the clock. It carries only the description, value and client of the argument. |
| CobrancaModel.NovaCobrancaIgnoraStatusEData | src/models/Cobranca.js:2-8 | Arguments that agree on description, value and client give the same charge. A `status` or `data` passed in is ignored. |
| NotaFiscalModel.ObterAliquotaSimplesNacional | src/models/NotaFiscal.js:101-114 | The rate is the first bracket's, the lowest of the six. |
| NotaFiscalModel.AliquotaSimplesNacionalSeis | src/models/NotaFiscal.js:101-114 | The rate is 6. |
| NotaFiscalModel.CalcularImpostos | src/models/NotaFiscal.js:68-99 | The field-by-field computation equals the rate-table definition `ImpostosDe`. |
| NotaFiscalModel.ImpostosSimplesNacional | src/models/NotaFiscal.js:79-83 | Under Simples Nacional the total is 6% of the value and ISS is 40% of it. The other five taxes are 0. |
| NotaFiscalModel.ImpostosLucroPresumido | src/models/NotaFiscal.js:85-95 | Under Lucro Presumido the rates are 5, 11, 1.5, 3, 0.65 and 1%, and the total is their sum, 22.15%. |
| NotaFiscalModel.ImpostosOutroRegime | src/models/NotaFiscal.js:68-99 | Any other regime, `lucro_real` included, gives all seven fields 0. |
| NotaFiscalModel.ImpostosLimitados | src/models/NotaFiscal.js:68-99 | On a value ≥ 0 every tax is ≥ 0, the itemised taxes never exceed the total, and the total is at most a quarter of the value. A positive value has a positive net. |
| NotaFiscalModel.ExemplosDeImpostos | src/models/NotaFiscal.js:79-95 | For 1000: Simples Nacional gives 60 of tax, 24 of it ISS, and 940 net. Lucro Presumido gives 221.5 of tax and 778.5 net. |
| NotaFiscalModel.Sequencial | src/models/NotaFiscal.js:43 | The sequence number is in 1..999. |
| NotaFiscalModel.GerarNumeroNF | src/models/NotaFiscal.js:38-46 | For a valid clock reading, the number is 11 digits: year, month, day and the zero-padded sequence number, each in its place. |
| NotaFiscalModel.NumeroNFCampos | src/models/NotaFiscal.js:40-45 | Each field is well formed: four year digits, two digits each for month and day, and three sequence digits. |
| NotaFiscalModel.QuatroCampos | src/models/NotaFiscal.js:45 | Fields of 4, 2, 2 and 3 digits in a row are 11 digits, each field in its place. |
| Relogio.ValorComZeros | src/models/NotaFiscal.js:45 | Leading zeros keep a numeral's digits and value. |
| Relogio.ZerosValemZero | src/models/NotaFiscal.js:45 | A string of zeros reads as 0. |
| Relogio.ZerosAEsquerda | src/models/NotaFiscal.js:41-45 | `padStart(k, '0')` is digits and reads back as the number. |
| NotaFiscalModel.GerarChaveAcesso | src/models/NotaFiscal.js:48-54 | The access key has exactly 44 characters: a prefix of timestamp + random digits, right-padded with '0'. |
| NotaFiscalModel.ChaveAcessoDigitos | src/models/NotaFiscal.js:48-54 | When the random number is written "0.<digits>", the key is 44 digits. |
| NotaFiscalModel.SemZeroPonto | src/models/NotaFiscal.js:51 | Removing the leading "0." leaves the digits after it. |
| NotaFiscalModel.ChaveDeDigitos | src/models/NotaFiscal.js:52-53 | Cutting digits at 44 and padding with '0' gives digits. |
| NotaFiscalModel.GerarProtocolo | src/models/NotaFiscal.js:56-60 | The protocol is "PROT", then the timestamp, then at most four random characters. |
| NotaFiscalModel.NovaNotaFiscal | src/models/NotaFiscal.js:2-66 | `tipoServico` defaults to "consultoria" and the regime to Simples Nacional. The series is "001" and the status "emitida". The taxes are the regime's, valorTotal is the value, and valorLiquido is the value minus the total tax. It copies the charge, payment and client ids, the value and the description unchanged. The number is `gerarNumeroNF` of the clock and the random draw. The access key is `gerarChaveAcesso` of the clock and the random digits and has 44 characters. The protocol is `gerarProtocolo` of the clock and the random base-36 text. The due date is 30 days after issue, and no cancellation or sending data is set. |
| NotaFiscalModel.ExemploNotaPadrao | src/models/NotaFiscal.js:2-24 | A new invoice of 1000 with no regime given pays 60 of tax and nets 940. |
| NotaFiscalModel.FormatarNumero | src/models/NotaFiscal.js:190-192 | The result is the series, a dash and the number, each in its place. |
| NotaFiscalModel.FormatarNumeroNova | src/models/NotaFiscal.js:190-192 | A new invoice reads "001-" followed by its 11-digit number, 15 characters in all. |
| NotaFiscalModel.AgruparBlocos | src/models/NotaFiscal.js:196 | A string of 4m digits becomes m blocks of four, each followed by a space. |
| NotaFiscalModel.AgruparDigitos | src/models/NotaFiscal.js:196 | Grouping only inserts spaces: the result is at least as long as the input and at most one character longer per four input characters. |
| NotaFiscalModel.FormatarChave44 | src/models/NotaFiscal.js:194-197 | A 44-digit key is shown as 54 characters: eleven blocks of four with one space between blocks. |
| NotaFiscalModel.FormatarChaveAcesso | src/models/NotaFiscal.js:194-197 | The formatted key is at most one character longer per four characters of the key. |
| NotaFiscalModel.ObterStatusDescricao | src/models/NotaFiscal.js:199-207 | The result is "Status Desconhecido" exactly for a status other than the four. "enviada" is "Enviada ao Cliente". |
| NotaFiscalModel.DescricoesDeStatus | src/models/NotaFiscal.js:200-206 | The labels of rascunho, emitida and cancelada, and of an unknown status. |
| Relogio.ComZerosDigitos | src/models/NotaFiscal.js:41-45 | A number below 10^k padded to k is k digits that read back as the number. |
| Relogio.DoisDigitos | src/models/Pagamento.js:32-36 | A two-digit field of a valid clock reading is two digits. |
| BancoDados.SubstituirPorId | src/hooks/useCobrancas.js:57-61 | `map` replace-by-id keeps the length and replaces exactly the entries with the id. |
| BancoDados.AplicarPorId | src/services/CobrancaService.js:19-21 | The store's update patches exactly the records with the id and keeps every id. |
| BancoDados.RemoverPorId | src/hooks/useCobrancas.js:45 | `filter` by id leaves no entry with the id and keeps every other entry. |
| BancoDados.RemoverPorIdPreserva | src/hooks/useCobrancas.js:45 | Removing by id keeps the other entries in order, each as often as before. |
| BancoDados.BuscarPorId | src/services/CobrancaService.js:31-34 | `find` by id returns the first match, and nothing exactly when no record has the id. |
| BancoDados.BuscarAposSubstituir | src/hooks/useCobrancas.js:57-61 | After a replacement by id, a lookup of the id finds the new record. |
| BancoDados.SubstituirAplicado | src/hooks/useCobrancas.js:56-61 | With unique ids, replacing the entry with the store's updated record gives the store's own list. |
| BancoDados.AcrescentarMantemUnicos | src/hooks/useCobrancas.js:31-32 | Appending under a fresh id keeps ids unique. |
| BancoDados.RemoverMantemUnicos | src/hooks/useCobrancas.js:44-45 | Removing by id keeps ids unique. |
| BancoDados.Colecao.Get | src/services/CobrancaService.js:11-13 | Returns the records. |
| BancoDados.Colecao.Post | src/services/CobrancaService.js:6-9 | Appends the new record under the store's id and returns it. |
| BancoDados.Colecao.Update | src/services/CobrancaService.js:19-21 | With no record with the id, nothing changes and nothing is returned. Otherwise the records are patched by id and the updated record is returned. |
| BancoDados.Colecao.Delete | src/services/CobrancaService.js:15-17 | Every record with the id is dropped. |
| CobrancaService.CadastrarCobranca | src/services/CobrancaService.js:6-9 | The new charge is built by the constructor, so it is unpaid, and is appended with no validation. |
| CobrancaService.DeletarCobranca | src/services/CobrancaService.js:15-17 | The store loses exactly the records with the id. |
| CobrancaService.AtualizarCobranca | src/services/CobrancaService.js:19-21 | The fields given overwrite those of the records with the id. A missing id changes nothing. |
| CobrancaService.MarcarSoAlteraStatus | src/services/CobrancaService.js:23-29 | Marking sets `status` and changes no other field. |
| CobrancaService.MarcarStatus | src/services/CobrancaService.js:23-29 | `marcarComoPaga` and `marcarComoPendente` patch only the status of the records with the id, and return a record with that status. |
| CobrancaService.BuscarCobrancaPorId | src/services/CobrancaService.js:31-34 | Returns the first charge with the id, and nothing exactly when none has it. |
| CobrancaService.BuscarCobrancasPorCliente | src/services/CobrancaService.js:36-39 | Returns exactly the client's charges, as an order-preserving subsequence. |
| CobrancaService.CalcularTotal | src/services/CobrancaService.js:41-50 | With no filter, the sum over all charges. With `true` or `false`, the sum over the charges with that status. |
| CobrancaService.PagoMaisPendente | src/services/CobrancaService.js:41-50 | Total(true) + Total(false) = Total(null). |
| PagamentoService.RegistrarPagamento | src/services/PagamentoService.js:6-9 | The new payment is built by the constructor, so it is confirmed, and is appended. |
| PagamentoService.PegarPagamentosPorCobranca | src/services/PagamentoService.js:15-18 | Returns exactly the charge's payments, as an order-preserving subsequence. |
| PagamentoService.PegarPagamentoPorId | src/services/PagamentoService.js:20-23 | Returns the first payment with the id, and nothing exactly when none has it. |
| PagamentoService.PegarPagamentoPorIdentificador | src/services/PagamentoService.js:25-31 | Returns the first payment whose raw or formatted identifier is the argument, and nothing exactly when none matches. |
| PagamentoService.BuscaPorFormatadoAmbigua | src/services/PagamentoService.js:25-31 | Two generated payments whose timestamps agree in their first twelve digits have the same display form, so looking up the later one by it returns the earlier one. |
| PagamentoService.AtualizarPagamento | src/services/PagamentoService.js:33-35 | The fields given overwrite those of the records with the id. A missing id changes nothing. |
| PagamentoService.CancelarSoAlteraStatus | src/services/PagamentoService.js:37-43 | Cancelling writes the status "cancelado", the reason and the instant, and nothing else, whatever the current status. |
| PagamentoService.ConfirmarSoAlteraStatus | src/services/PagamentoService.js:45-50 | Confirming writes the status "confirmado" and the instant, and nothing else. A cancelled payment can be confirmed again and keeps its reason. |
| PagamentoService.CancelarPagamento | src/services/PagamentoService.js:37-43 | The store's records with the id get the cancellation patch, with the reason defaulting to "". |
| PagamentoService.ConfirmarPagamento | src/services/PagamentoService.js:45-50 | The store's records with the id get the confirmation patch. |
| PagamentoService.DeletarPagamento | src/services/PagamentoService.js:52-54 | The store loses exactly the records with the id. |
| PagamentoService.CalcularTotalPagamentos | src/services/PagamentoService.js:56-65 | With no status, or an empty one, the sum over all payments. Otherwise the sum over the payments with that status. |
| PagamentoService.TotalPorStatus | src/services/PagamentoService.js:56-65 | A status total plus the total of the other statuses is the overall total. With values ≥ 0, no status total exceeds it. |
| PagamentoService.ObterEstatisticasPagamentos | src/services/PagamentoService.js:67-81 | The counts and totals are per status. confirmados + pendentes + cancelados ≤ total, with equality when every status is one of the three. With values ≥ 0, confirmed + pending value ≤ total value. |
| PagamentoService.ConfirmadoMaisPendente | src/services/PagamentoService.js:67-81 | With values ≥ 0, the confirmed total plus the pending total never exceeds the overall total. |
| PagamentoService.FiltroPendenteSemConfirmados | src/services/PagamentoService.js:72-79 | Removing confirmed payments first does not change the pending ones. |
| PagamentoService.GrupoPasso | src/services/PagamentoService.js:86-99 | A payment extends its own method's group and leaves other groups as they are. |
| PagamentoService.PassoAgrupamento | src/services/PagamentoService.js:86-99 | One `forEach` step turns a grouping of a prefix into a grouping of the next prefix. |
| PagamentoService.PassoGrupos | src/services/PagamentoService.js:86-99 | After the step, every group still summarises its method's payments. |
| PagamentoService.PassoGruposOutros | src/services/PagamentoService.js:86-99 | The step leaves the summaries of the other methods correct. |
| PagamentoService.ObterPagamentosPorFormaPagamento | src/services/PagamentoService.js:83-102 | The result groups the payments by method. Each group holds exactly its method's payments in order, its count is its length, and its value is the sum of its payments' values. |
| PagamentoService.GruposParticionam | src/services/PagamentoService.js:83-102 | The groups partition the payments: each payment is in its own method's group only. The group counts add up to the number of payments and the group values to the total value. |
| PagamentoService.ObterPagamentosPorPeriodo | src/services/PagamentoService.js:104-113 | Returns exactly the payments with start ≤ date ≤ end, in order. |
| PagamentoService.PeriodoDescartaOutrosFiltros | src/services/PagamentoService.js:115-130 | With both dates given, the report covers exactly the period over the whole collection. The status and method filters are discarded. |
| PagamentoService.SelecionadosRelatorio | src/services/PagamentoService.js:115-130 | The report covers only payments from the collection. |
| PagamentoService.SemPeriodoAplicaFiltros | src/services/PagamentoService.js:115-130 | Without both dates, the report covers exactly the payments that pass the status and method filters given, in order. |
| PagamentoService.Media | src/services/PagamentoService.js:139-140 | The average is 0 for no payments and sum/count otherwise. |
| PagamentoService.GerarRelatorioPagamentos | src/services/PagamentoService.js:115-148 | The report's payments are a permutation of the selection, sorted newest first. The summary counts, sums and averages the selection. `porFormaPagamento` groups the whole collection. The period labels default to "Desde o início" and "Até agora". |
| PagamentoService.ValidarPagamento | src/services/PagamentoService.js:150-169 | The errors are exactly the failed checks in the order charge, method, value. The result is valid iff there are no errors, iff the payment is acceptable. |
| PagamentoService.ErrosPagamento | src/services/PagamentoService.js:150-169 | There are at most three errors. There are none exactly when the charge and method are given and the value is positive. |
| NotaFiscalService.EmitirNotaFiscal | src/services/NotaFiscalService.js:6-9 | The new invoice is built by the constructor, so it is "emitida", and is appended. |
| NotaFiscalService.PrimeiraNota | src/services/NotaFiscalService.js:15-33 | `find` returns the first invoice satisfying the test, and nothing exactly when none does. |
| NotaFiscalService.PegarNotaFiscalPorId | src/services/NotaFiscalService.js:15-18 | Returns the first invoice with the id, and nothing exactly when none has it. |
| NotaFiscalService.PegarNotaFiscalPorCobranca | src/services/NotaFiscalService.js:20-23 | Returns the first invoice of the charge, and nothing exactly when none has it. |
| NotaFiscalService.PegarNotaFiscalPorPagamento | src/services/NotaFiscalService.js:25-28 | Returns the first invoice of the payment, and nothing exactly when none has it. |
| NotaFiscalService.PegarNotaFiscalPorNumero | src/services/NotaFiscalService.js:30-33 | Returns the first invoice with the number, and nothing exactly when none has it. |
| NotaFiscalService.NumeroRepetido | src/services/NotaFiscalService.js:30-33 | Two invoices issued on the same day with the same sequence draw get the same number, so a lookup by number returns the earlier one. |
| NotaFiscalService.AtualizarNaoRecalcula | src/services/NotaFiscalService.js:35-37 | An update never recomputes taxes, net value, number or key. Doubling the value of a Lucro Presumido invoice leaves taxes that no longer match it. |
| NotaFiscalService.AtualizarNotaFiscal | src/services/NotaFiscalService.js:35-37 | The fields given overwrite those of the records with the id. A missing id changes nothing. |
| NotaFiscalService.CancelarSoAlteraStatus | src/services/NotaFiscalService.js:39-45 | Cancelling writes the status "cancelada", the reason and the instant, and nothing else. |
| NotaFiscalService.EnviarSoAlteraStatus | src/services/NotaFiscalService.js:47-53 | Sending writes the status "enviada", the address and the instant, and nothing else. A cancelled invoice can be sent and keeps its reason. |
| NotaFiscalService.CancelarNotaFiscal | src/services/NotaFiscalService.js:39-45 | The store's records with the id get the cancellation patch, with the reason defaulting to "". |
| NotaFiscalService.EnviarNotaFiscal | src/services/NotaFiscalService.js:47-53 | The store's records with the id get the sending patch, with the address defaulting to "". |
| NotaFiscalService.DeletarNotaFiscal | src/services/NotaFiscalService.js:55-57 | The store loses exactly the records with the id. |
| NotaFiscalService.NovaNotaCoerente | src/models/NotaFiscal.js:24 | A new invoice's net value is its value minus its total tax. |
| NotaFiscalService.ObterEstatisticasNotasFiscais | src/services/NotaFiscalService.js:59-73 | The counts are per status. emitidas + enviadas + canceladas ≤ total, with equality when every status is one of the three. The three value totals are sums, and net = gross − tax over coherent invoices. |
| NotaFiscalService.RegimePasso | src/services/NotaFiscalService.js:78-93 | An invoice extends its own regime's group and leaves the others. |
| NotaFiscalService.PassoRegimes | src/services/NotaFiscalService.js:78-93 | After the step, every regime group still summarises its invoices. |
| NotaFiscalService.PassoRegimesOutros | src/services/NotaFiscalService.js:78-93 | The step leaves the other regimes' summaries correct. |
| NotaFiscalService.PassoAgrupamentoRegime | src/services/NotaFiscalService.js:78-93 | One `forEach` step keeps the grouping invariant. |
| NotaFiscalService.ObterNotasPorRegimeTributario | src/services/NotaFiscalService.js:75-96 | The result groups the invoices by regime, with each group's count, service total and tax total. |
| NotaFiscalService.RegimesParticionam | src/services/NotaFiscalService.js:75-96 | The regime groups partition the invoices. Their counts, service totals and tax totals add up to the overall ones. |
| NotaFiscalService.TipoPasso | src/services/NotaFiscalService.js:101-114 | An invoice extends its own type's group and leaves the others. |
| NotaFiscalService.PassoTipos | src/services/NotaFiscalService.js:101-114 | After the step, every type group still summarises its invoices. |
| NotaFiscalService.PassoTiposOutros | src/services/NotaFiscalService.js:101-114 | The step leaves the other types' summaries correct. |
| NotaFiscalService.PassoAgrupamentoTipo | src/services/NotaFiscalService.js:101-114 | One `forEach` step keeps the grouping invariant. |
| NotaFiscalService.ObterNotasPorTipoServico | src/services/NotaFiscalService.js:98-117 | The result groups the invoices by service type, with each group's count and service total. |
| NotaFiscalService.TiposParticionam | src/services/NotaFiscalService.js:98-117 | The type groups partition the invoices. Their counts and service totals add up to the overall ones. |
| NotaFiscalService.ObterNotasPorPeriodo | src/services/NotaFiscalService.js:119-128 | Returns exactly the invoices with start ≤ issue date ≤ end, in order. |
| NotaFiscalService.PeriodoDescartaOutrosFiltros | src/services/NotaFiscalService.js:130-150 | With both dates given, the report covers exactly the period over the whole collection. The status, regime and type filters are discarded. |
| NotaFiscalService.SelecionadasRelatorio | src/services/NotaFiscalService.js:130-150 | The report covers only invoices from the collection. |
| NotaFiscalService.SemPeriodoAplicaFiltros | src/services/NotaFiscalService.js:130-150 | Without both dates, the report covers exactly the invoices passing the filters given. |
| NotaFiscalService.Media | src/services/NotaFiscalService.js:156-157 | The average is 0 for no invoices and sum/count otherwise. |
| NotaFiscalService.GerarRelatorioFiscal | src/services/NotaFiscalService.js:130-178 | The report's invoices are a permutation of the selection, newest first. The summary and the per-tax totals are sums over the selection. `porRegime` and `porTipoServico` group the whole collection. The period labels default. |
| NotaFiscalService.RelatorioLiquidoCoerente | src/services/NotaFiscalService.js:152-160 | Over coherent invoices, the report's net total is gross minus tax. |
| NotaFiscalService.ValidarNotaFiscal | src/services/NotaFiscalService.js:180-203 | The errors are exactly the failed checks in the order charge, client, value, description. The result is valid iff there are no errors, iff the invoice is acceptable. |
| NotaFiscalService.ErrosNotaFiscal | src/services/NotaFiscalService.js:180-203 | There are at most four errors. There are none exactly when the charge and client are given, the value is positive and the description is long enough. |
| NotaFiscalService.ErrosDistintos | src/services/NotaFiscalService.js:184-196 | The description message differs from the other three. |
| NotaFiscalService.DescricaoDeDezPassa | src/services/NotaFiscalService.js:195 | A description of exactly ten characters passes. |
| NotaFiscalService.DescricaoCurtaFalha | src/services/NotaFiscalService.js:195 | Nine characters fail, and so do ten that include a leading space. |
| NotaFiscalService.TrimSemEspacos | src/services/NotaFiscalService.js:195 | `trim` leaves a string with no space at either end unchanged. |
| NotaFiscalService.TrimTiraInicio | src/services/NotaFiscalService.js:195 | `trim` shortens a string that starts with a space. |
| NotaFiscalService.Centavos | src/services/NotaFiscalService.js:267 | ⌊v·100⌋ is the whole number of cents, rounded down. |
| NotaFiscalService.CodigoRegime | src/services/NotaFiscalService.js:268 | The regime code is "01" for Simples Nacional and "02" otherwise. |
| NotaFiscalService.MontarCodigo | src/services/NotaFiscalService.js:266-270 | The code has 2 to 47 characters and starts with the regime code. |
| NotaFiscalService.CortePreservaRegime | src/services/NotaFiscalService.js:270 | Cutting at 47 keeps the two-character regime code. |
| NotaFiscalService.GerarCodigoBarras | src/services/NotaFiscalService.js:264-271 | The bar code has 2 to 47 characters and starts with the regime code. |
| NotaFiscalService.CodigoBarrasCampos | src/services/NotaFiscalService.js:264-271 | With a clock reading of at least ten digits and a tax below a million, the code is 20 digits: the regime code, the last ten clock digits, and eight digits that read back as ⌊tax·100⌋. |
| NotaFiscalService.MontagemVinteDigitos | src/services/NotaFiscalService.js:266-270 | The same, for the assembly from its three parts. |
| NotaFiscalService.RelogioDezDigitos | src/services/NotaFiscalService.js:266 | The last ten characters of a clock reading of ten or more digits are ten digits. |
| NotaFiscalService.GerarGuiaRecolhimento | src/services/NotaFiscalService.js:243-262 | Returns nothing exactly for an unknown id. Otherwise the slip is for the first invoice with the id: its number, its due date, its taxes, `valorTotal` = its total tax, and its bar code. |
| HookCobrancas.UseCobrancas.constructor | src/hooks/useCobrancas.js:5-7 | The hook starts with an empty list and no error, over the given store. |
| HookCobrancas.UseCobrancas.CarregarCobrancas | src/hooks/useCobrancas.js:14-26 | The list becomes the store's list. |
| HookCobrancas.UseCobrancas.AdicionarCobranca | src/hooks/useCobrancas.js:28-39 | No validation. The created charge is stored, appended to the list and returned. |
| HookCobrancas.UseCobrancas.RemoverCobranca | src/hooks/useCobrancas.js:41-51 | The store and the list lose exactly the entries with the id, and the mirror invariant holds. |
| HookCobrancas.UseCobrancas.AtualizarCobranca | src/hooks/useCobrancas.js:53-68 | Only the entries with the id are replaced by the updated record. The store is patched, and the mirror invariant holds. |
| HookCobrancas.UseCobrancas.MarcarComo | src/hooks/useCobrancas.js:70-102 | `marcarComoPaga` and `marcarComoPendente` replace only the entries with the id by the re-marked record, with the status set. |
| HookCobrancas.UseCobrancas.Estatisticas | src/hooks/useCobrancas.js:116-123 | `pagas` + `pendentes` = `total`, and `cobrancasPagas` + `cobrancasPendentes` = `totalCobrancas`. The totals are status-filtered sums. |
| HookPagamentos.TaxaDe | src/hooks/usePagamentos.js:139-142 | The rate is the table rate of the method, or 0 for an unlisted method, and always in [0, 100]. |
| HookPagamentos.CalcularTaxa | src/hooks/usePagamentos.js:139-142 | The fee is the method fee at the table rate, and 0 for an unlisted method. For a value ≥ 0 it lies in [0, value]. |
| HookPagamentos.CalcularValorLiquido | src/hooks/usePagamentos.js:144-147 | Net + fee = value. An unlisted method or a zero rate returns the value. |
| HookPagamentos.ExemplosDeTaxa | src/hooks/usePagamentos.js:139-147 | 1000 by cartao_credito costs 35 in fees and nets 965. By pix it nets 1000. |
| HookPagamentos.MensagemNaoVazia | src/hooks/usePagamentos.js:34-36 | A rejected payment's joined message is never empty. |
| HookPagamentos.UsePagamentos.constructor | src/hooks/usePagamentos.js:6-8 | The hook starts with an empty list and no error, over the given store. |
| HookPagamentos.UsePagamentos.CarregarPagamentos | src/hooks/usePagamentos.js:15-27 | The list becomes the store's list. |
| HookPagamentos.UsePagamentos.RegistrarPagamento | src/hooks/usePagamentos.js:29-46 | Fails exactly when validation fails. The message is then the errors joined by ", ", it is recorded, and nothing changes. Otherwise the payment is stored, appended at the end and returned. |
| HookPagamentos.UsePagamentos.AtualizarPagamento | src/hooks/usePagamentos.js:48-63 | Only the entries with the id are replaced, keeping length and order. The store is patched, and the mirror invariant holds. |
| HookPagamentos.UsePagamentos.ConfirmarPagamento | src/hooks/usePagamentos.js:65-80 | The entries with the id are replaced by the confirmed record. |
| HookPagamentos.UsePagamentos.CancelarPagamento | src/hooks/usePagamentos.js:82-97 | The entries with the id are replaced by the cancelled record. |
| HookPagamentos.UsePagamentos.RemoverPagamento | src/hooks/usePagamentos.js:99-109 | The store and the list lose exactly the entries with the id. |
| HookPagamentos.UsePagamentos.Estatisticas | src/hooks/usePagamentos.js:149-152 | The hook's statistics are the service's statistics over the store, together with its grouping by method. |
| HookNotasFiscais.MensagemNaoVazia | src/hooks/useNotasFiscais.js:34-36 | A rejected invoice's joined message is never empty. |
| HookNotasFiscais.UseNotasFiscais.constructor | src/hooks/useNotasFiscais.js:6-8 | The hook starts with an empty list and no error, over the given store. |
| HookNotasFiscais.UseNotasFiscais.CarregarNotasFiscais | src/hooks/useNotasFiscais.js:15-27 | The list becomes the store's list. |
| HookNotasFiscais.UseNotasFiscais.EmitirNotaFiscal | src/hooks/useNotasFiscais.js:29-46 | Fails exactly when validation fails. The message is then the errors joined by ", ", it is recorded, and nothing is persisted. Otherwise the invoice, "emitida", is stored, appended and returned. |
| HookNotasFiscais.UseNotasFiscais.AtualizarNotaFiscal | src/hooks/useNotasFiscais.js:48-63 | Only the entries with the id are replaced, keeping length and order. |
| HookNotasFiscais.UseNotasFiscais.CancelarNotaFiscal | src/hooks/useNotasFiscais.js:65-80 | The entries with the id are replaced by the cancelled record. |
| HookNotasFiscais.UseNotasFiscais.EnviarNotaFiscal | src/hooks/useNotasFiscais.js:82-97 | The entries with the id are replaced by the sent record. |
| HookNotasFiscais.UseNotasFiscais.RemoverNotaFiscal | src/hooks/useNotasFiscais.js:99-109 | The store and the list lose exactly the entries with the id. |
| ClienteForm.SoDigitos | src/components/ClienteForm.jsx:40 | `replace(/\D/g, '')` yields digits only. |
| ClienteForm.BuscaQuatroDigitos | src/components/ClienteForm.jsx:42-43 | Finds the first run of four digits (`(\d{3})(\d)`), or reports that there is none. |
| ClienteForm.BuscaCauda | src/components/ClienteForm.jsx:45 | Finds the first dash followed by two digits and at least one more digit running to the end, or reports that there is none. |
| ClienteForm.InsercaoEmDigitos | src/components/ClienteForm.jsx:42 | On digits, the first `replace` puts the separator after the third digit. |
| ClienteForm.InsercaoAposPrefixo | src/components/ClienteForm.jsx:43-44 | With no run of four digits in the prefix, the insertion happens inside the rest. |
| ClienteForm.UmSeparador | src/components/ClienteForm.jsx:43 | No run of four digits starts in "ddd.". |
| ClienteForm.DoisSeparadores | src/components/ClienteForm.jsx:44 | No run of four digits starts in "ddd.ddd.". |
| ClienteForm.CorteSemTraco | src/components/ClienteForm.jsx:45 | Without a dash, the last `replace` changes nothing. |
| ClienteForm.CorteAposTraco | src/components/ClienteForm.jsx:45 | After the only dash, at most two digits are kept. |
| ClienteForm.PassoAposUmSeparador | src/components/ClienteForm.jsx:43-44 | The insertion after "ddd." goes after the next three digits. |
| ClienteForm.PassoAposDoisSeparadores | src/components/ClienteForm.jsx:44 | The dash goes after the third group. |
| ClienteForm.CadeiaCurta | src/components/ClienteForm.jsx:41-45 | Up to three digits are left as typed. |
| ClienteForm.CadeiaUmPonto | src/components/ClienteForm.jsx:41-45 | Four to six digits become "ddd.d…". |
| ClienteForm.DoisPontos | src/components/ClienteForm.jsx:42-43 | Seven or more digits get two points after the first two `replace` calls. |
| ClienteForm.CadeiaDoisPontos | src/components/ClienteForm.jsx:41-45 | Seven to nine digits become "ddd.ddd.d…". |
| ClienteForm.CadeiaComTraco | src/components/ClienteForm.jsx:41-45 | Ten or more digits become "ddd.ddd.ddd-d(d)", with digits past the eleventh dropped. |
| ClienteForm.CadeiaAgrupa | src/components/ClienteForm.jsx:38-45 | The four `replace` calls on a string of digits group its first eleven digits as `ddd.ddd.ddd-dd`, as far as they go. |
| ClienteForm.MascaraCpf | src/components/ClienteForm.jsx:38-45 | The mask is the grouping of the first eleven digits typed, whatever else was typed. |
| ClienteForm.DigitosEmTorno | src/components/ClienteForm.jsx:40 | A non-digit between two strings is removed. |
| ClienteForm.DigitosDeDigitos | src/components/ClienteForm.jsx:40 | Digits are kept as they are. |
| ClienteForm.DigitosDeDoisGrupos | src/components/ClienteForm.jsx:40 | The digits of "a.b" are a + b. |
| ClienteForm.DigitosDeTresGrupos | src/components/ClienteForm.jsx:40 | The digits of "a.b.e" are a + b + e. |
| ClienteForm.DigitosDeQuatroGrupos | src/components/ClienteForm.jsx:40 | The digits of "a.b.e-g" are a + b + e + g. |
| ClienteForm.Partes | src/components/ClienteForm.jsx:41-45 | The four groups put back together are the prefix they came from. |
| ClienteForm.DigitosAgrupadoComTraco | src/components/ClienteForm.jsx:38-45 | With ten digits or more, the digits of the grouping are the first eleven. |
| ClienteForm.DigitosDoAgrupado | src/components/ClienteForm.jsx:38-45 | The digits of the grouping are the first min(n, 11) digits. |
| ClienteForm.DigitosAgrupadoDois | src/components/ClienteForm.jsx:38-45 | The same, for four to six digits. |
| ClienteForm.DigitosAgrupadoTres | src/components/ClienteForm.jsx:38-45 | The same, for seven to nine digits. |
| ClienteForm.DigitosDaMascara | src/components/ClienteForm.jsx:38-45 | The digits of the masked CPF are the first min(11, n) digits of the input, in order. |
| ClienteForm.FormatoDosGrupos | src/components/ClienteForm.jsx:23 | "ddd.ddd.ddd-dd" passes the format check. |
| ClienteForm.OnzeDigitosPassam | src/components/ClienteForm.jsx:21-45 | With at least 11 digits typed, the masked value passes the format check. |
| ClienteForm.MenosDeOnzeFalham | src/components/ClienteForm.jsx:21-45 | With fewer than 11 digits, the masked value is shorter than 14 characters and fails the format check. |
| ClienteForm.AgrupadoDosOnze | src/components/ClienteForm.jsx:38-45 | Grouping all the digits and grouping the first eleven give the same result. |
| ClienteForm.MascaraIdempotente | src/components/ClienteForm.jsx:38-45 | Masking a masked value returns it unchanged. |
| ClienteForm.FormatadoFica | src/components/ClienteForm.jsx:21-45 | A well-formatted CPF is left unchanged by the mask. |
| ClienteForm.ValidarFormulario | src/components/ClienteForm.jsx:14-33 | Name, CPF and telephone are each required after trimming. A blank CPF gets the "required" message, not the format message. The form is valid iff no key was set, iff it is acceptable. |
| ClienteForm.FormatadoNaoEmBranco | src/components/ClienteForm.jsx:21-23 | A well-formatted CPF is never blank. |
| ClienteForm.OnzeDigitosAceitos | src/components/ClienteForm.jsx:14-45 | Eleven digits typed, with name and telephone filled, make an acceptable form. |
| CobrancaForm.FiltradoDigitosEVirgulas | src/components/CobrancaForm.jsx:40 | The first `replace` keeps only digits and commas. |
| CobrancaForm.TrocaPrimeiraVirgula | src/components/CobrancaForm.jsx:40 | The second `replace` puts a single point where the first comma was and keeps every other character. |
| CobrancaForm.SanitizarValorMantem | src/components/CobrancaForm.jsx:40 | The sanitised value holds digits, commas and at most one point, which stands at the first comma. |
| CobrancaForm.SanitizarValor | src/components/CobrancaForm.jsx:40 | The sanitised value is no longer than the input and holds only digits, commas and points. |
| CobrancaForm.SemOcorrencia | src/components/CobrancaForm.jsx:40 | Replacing a character that does not occur changes nothing. |
| CobrancaForm.SemVirgulaSoDigitos | src/components/CobrancaForm.jsx:40 | With no comma in the input, the result is exactly its digits in order. |
| CobrancaForm.PontoApagado | src/components/CobrancaForm.jsx:40 | As written, typing "p.q" gives "pq": the decimal point is lost. |
| CobrancaForm.DozeECinquenta | src/components/CobrancaForm.jsx:40 | "12.50" becomes "1250" as written, and "12.50" with the corrected clean-up. |
| CobrancaForm.MilDuzentosECinquenta | src/components/CobrancaForm.jsx:40-65 | As written, the field then reads as 1250. |
| CobrancaForm.DigitarLimpo | src/components/CobrancaForm.jsx:40 | Each keystroke of the corrected clean-up keeps the value clean. |
| CobrancaForm.CorrigidoLimpo | src/components/CobrancaForm.jsx:40 | The corrected clean-up yields digits with at most one point. |
| CobrancaForm.SanitizarValorCorrigido | src/components/CobrancaForm.jsx:40 | The corrected clean-up is never longer than the input. |
| CobrancaForm.CorrigidoMantemDigitos | src/components/CobrancaForm.jsx:40 | The corrected clean-up keeps every digit of the input, in order. |
| CobrancaForm.CorrigidoFixaLimpo | src/components/CobrancaForm.jsx:40 | A clean value is left unchanged. |
| CobrancaForm.CorrigidoIdempotente | src/components/CobrancaForm.jsx:40 | Cleaning twice is cleaning once. |
| CobrancaForm.DigitarNoCampo | src/components/CobrancaForm.jsx:39-41 | Typing a key into the cleaned field gives what cleaning everything typed so far gives. |
| CobrancaForm.PontoMantido | src/components/CobrancaForm.jsx:40 | With the corrected clean-up, "p.q" is kept as typed. |
| CobrancaForm.ValorDecimal | src/components/CobrancaForm.jsx:65 | `parseFloat` of a clean value is ≥ 0, and is the digits' value for a plain integer. |
| CobrancaForm.ValorDoCampo | src/components/CobrancaForm.jsx:40-65 | The number the form holds for the text typed is never negative. |
| CobrancaForm.CampoDecimal | src/components/CobrancaForm.jsx:40-65 | A decimal number typed is read as that decimal number. |
| CobrancaForm.CampoDozeECinquenta | src/components/CobrancaForm.jsx:40-65 | Typing "12.50" gives the form the value 12.5. |
| CobrancaForm.DozeEMeio | src/components/CobrancaForm.jsx:65 | "12.50" reads as 12.5. |
| CobrancaForm.VirgulaOuPonto | src/components/CobrancaForm.jsx:40 | The corrected clean-up reads "1,5" and "1.5" alike. |
| CobrancaForm.ValidarFormulario | src/components/CobrancaForm.jsx:16-33 | A description (after trimming), a value > 0 and a client are required, each keyed with its message. The form is valid iff no key was set, iff it is acceptable. |
| CobrancaForm.AlteracaoDoFormulario | src/components/CobrancaForm.jsx:61-69 | The update sends neither the date nor the status. |
| CobrancaForm.DadosDoFormulario | src/components/CobrancaForm.jsx:61-71 | The new charge's data carries neither a status nor a date. |
| CobrancaForm.EdicaoMantemDataEStatus | src/components/CobrancaForm.jsx:68-69 | Editing overwrites description, value and client, and keeps the date and status. |
| CobrancaForm.NovaDoFormulario | src/components/CobrancaForm.jsx:70-71 | An added charge carries the form's fields, is unpaid and has a positive value. |
| CobrancaForm.Salvar | src/components/CobrancaForm.jsx:52-72 | The errors returned are empty exactly when the form is valid. An invalid form changes nothing. A valid one updates the edited charge by id, or appends a new charge, and the hook stays in step with the store. |
| Formularios.OuNumero | src/components/PagamentoForm.jsx:13 | JavaScript's logical or on numbers: the first argument when present and non-zero, otherwise the second. |
| PagamentoForm.ValorInicial | src/components/PagamentoForm.jsx:13 | The initial value is `pagamento.valor`, else `cobranca.valorPendente`, else `cobranca.valor`, skipping zeros. The result is never 0. |
| PagamentoForm.PendenteZeroUsaValorTotal | src/components/PagamentoForm.jsx:13 | A pending value of 0, or none, falls through to the charge's full value. A non-zero pending value wins. |
| PagamentoForm.FormularioInicial | src/components/PagamentoForm.jsx:10-17 | The initial fields: the charge id, the payment's fields when editing or empty ones otherwise, an empty receipt read as none, and the initial value. |
| PagamentoForm.ValidarFormulario | src/components/PagamentoForm.jsx:42-63 | The charge and the method are required, and the value must be > 0. An overpayment replaces the value message under the same key. The form is valid iff no key was set, iff it is acceptable. |
| PagamentoForm.PendenteEhOLimite | src/components/PagamentoForm.jsx:57-59 | Paying exactly the pending value is accepted, and any value above it is rejected. |
| PagamentoForm.AlteracaoDoFormulario | src/components/PagamentoForm.jsx:95-101 | The update does not touch the status, the cancellation fields or the confirmation fields. |
| PagamentoForm.FormularioAceitoPeloServico | src/components/PagamentoForm.jsx:42-104 | A form the form accepts passes the service's payment check. |
| PagamentoForm.EdicaoMantemStatus | src/components/PagamentoForm.jsx:100-101 | Editing writes the six form fields and keeps status, dates and cancellation data. |
| PagamentoForm.NovoDoFormulario | src/components/PagamentoForm.jsx:102-103 | A registered payment is confirmed and carries the form's fields. An empty identifier is generated. |
| PagamentoForm.Salvar | src/components/PagamentoForm.jsx:85-104 | The errors returned are empty exactly when the form is valid. An invalid form changes nothing. A valid one updates the edited payment or registers a new one, which then always passes the hook's check. |
| NotaFiscalForm.FormularioInicial | src/components/NotaFiscalForm.jsx:10-18 | The initial fields: ids, client and description from the charge; value from the charge, else the payment; type from the charge, else "consultoria"; regime Simples Nacional. |
| NotaFiscalForm.CalcularImpostosPreview | src/components/NotaFiscalForm.jsx:28-59 | The preview is null exactly when the value or the regime is empty. Otherwise it equals the invoice model's taxes for the same value and regime, and is all zeros for other regimes. |
| NotaFiscalForm.ValorLiquidoExibido | src/components/NotaFiscalForm.jsx:310 | The displayed net value is in (0, value] for a positive value. |
| NotaFiscalForm.AceitavelSemErros | src/components/NotaFiscalForm.jsx:61-90 | An error object keyed by the failed checks is empty iff the form is acceptable. |
| NotaFiscalForm.ValidarFormulario | src/components/NotaFiscalForm.jsx:61-90 | The form requires charge, client, value > 0, a description of at least 10 characters after trimming, type and regime, each keyed with its message. It is valid iff no key was set, iff it is acceptable. |
| NotaFiscalForm.FormularioAceitoPeloServico | src/components/NotaFiscalForm.jsx:61-127 | A form the form accepts passes the service's invoice check. |
| NotaFiscalForm.PreviaIgualANota | src/components/NotaFiscalForm.jsx:28-59 | The invoice issued from the form has the previewed taxes and the displayed net value. |
| NotaFiscalForm.Salvar | src/components/NotaFiscalForm.jsx:111-127 | The errors returned are empty exactly when the form is valid. An invalid form changes nothing. A valid one issues the invoice, which always passes the hook's check, so the store gains it. |
| CobrancasList.CobrancasFiltradas | src/components/CobrancasList.jsx:31-42 | The result is an order-preserving subsequence, and a charge is kept iff it matches, with multiplicities kept. An empty term keeps every charge. |
| CobrancasList.BuscaPeloId | src/components/CobrancasList.jsx:41 | Searching for a charge's id finds it. |
| CobrancasList.BuscaPelaDescricao | src/components/CobrancasList.jsx:31-42 | Searching for a lower-case description finds its charge. |
| CobrancasList.AlternarStatus | src/components/CobrancasList.jsx:16-22 | A paid charge is marked pending and a pending one paid, through the hook. Only the status of the records with the id changes, and a missing id changes nothing. |
| CobrancasList.AlternarDuasVezes | src/components/CobrancasList.jsx:16-22 | Toggling twice restores the store. |

## Left out

- The guidance texts are not modelled: `gerarObservacoes`, `obterDiretrizes`, `obterDiretrizesCompletas`, the slip's `instrucoesRecolhimento`, and the lists `getTiposServico` and `getRegimesTributarios`. They are constant text with no behaviour to prove.
- `src/services/BancoDados.js` is not part of this model. The store is an abstract class; localStorage and JSON persistence, its id rule and its error behaviour are not modelled.
  - The new id is a parameter.
  - An update leaves absent fields as they are.
  - An update of a missing id yields `None`. The hook records no error, as it would if the store returned null without throwing. The hooks' catch blocks run only on store exceptions, which are not modelled.
  - With `None`, the hook leaves its list as it is. The source would put null in place of any list entry with the id. The two agree whenever the list mirrors the store, which is the invariant `Sincronizado`.
  - Whether a stored invoice still has its `formatarNumero` method after persistence is not modelled. `gerarGuiaRecolhimento` is modelled as if it has.
- PagamentoModel.NovoPagamento: an explicit null `observacoes` is kept as null by the source, because the default `''` at Pagamento.js:8 applies only to undefined. The model has no null observation and writes "". No caller passes null: the payment form always sends a string.
- PagamentoService.PegarPagamentoPorIdentificador: the lookup is modelled as if stored payments still carry `formatarIdentificador`. If they are plain data after persistence, the source throws at the first record whose raw identifier does not match, and a match on the formatted identifier can never succeed.
- `parseFloat` and `parseInt` on form text are not modelled. Form numbers are `Option<real>` and `int` values already parsed, and NaN is not modelled.
- Floating point is not modelled: money is exact `real`, so the sums and rates have no IEEE rounding.
- Time and randomness are parameters: `Date.now`, `new Date()` and its local fields, `Math.random()` and its `toString` forms.
- ISO date strings are epoch milliseconds. The report filters' date strings are read by a parameter.
- Locale formatting is a parameter: currency (`formatCurrency`) and `toLocaleDateString('pt-BR')`.
- Unicode `toLowerCase` is a parameter.
- Lengths count Dafny characters, not UTF-16 code units.
- React machinery is not modelled: state setters, `useEffect`, `setTimeout`, loading flags, `console.error`, re-throwing to the caller, and the clearing of a field's error in `handleChange`.
- In the hooks, an error is a `Result` failure or the recorded `erro` field, not a thrown exception.
- The store's own exceptions are not modelled. Neither are the catch blocks that record 'Erro ao atualizar pagamento', 'Erro ao atualizar cobrança', 'Erro ao atualizar nota fiscal', 'Erro ao cancelar nota fiscal' and the like for them.
- `buscarClientePorId` in the charge list is a parameter, because `src/hooks/useClientes.js` and `src/services/ClienteService.js` are not part of this model.
- The file upload of the payment form (FileReader) is not modelled.
- `handleDelete`'s `window.confirm` and the empty-state rendering of the charge list are not modelled.
- The sort in the reports is specified as a permutation sorted by date, with no claim about the relative order of equal dates. JavaScript's `sort` is stable.
- NotaFiscalService.GerarRelatorioFiscal: the per-tax `|| 0` fallback is not modelled. Every stored invoice carries all seven tax fields, as the constructor writes them.
- PagamentoForm.ValorInicial: the payment form's charge object may lack `valorPendente` or hold null there. Both are modelled as `None`. For the initial value this makes no difference, since null and undefined both fall through `||`.
- PagamentoForm.ValidarFormulario: a `valorPendente` of null is modelled as `None`, the same as undefined. In the source, `parseFloat(valor) > null` compares with 0, so any positive value gets the overpayment message. Comparing with undefined is always false. The model never gives that message for `None`, so it follows the undefined case only.
- PagamentoService.ObterPagamentosPorFormaPagamento: the `{}` of groups is a Dafny map. A method key that names an inherited property of a JavaScript object, such as "constructor" or "toString", is not modelled. In the source such a key finds a function, so that group is never created and the counting goes into the function object.
- NotaFiscalService.ObterNotasPorRegimeTributario: the same inherited-key case for the regime key is not modelled.
- NotaFiscalService.ObterNotasPorTipoServico: the same inherited-key case for the service-type key is not modelled.
- NotaFiscalModel.ObterStatusDescricao: the label table is a Dafny map. A status such as "constructor" or "toString" would return an inherited function in the source, not "Status Desconhecido". That case is not modelled.
- Charges have no payment application (`adicionarPagamento`, `valorPago`, `valorPendente`). The charge model does not have those fields.

## Findings

| source | as written | input that shows it | evidently intended | confidence | as-written member | corrected member |
|---|---|---|---|---|---|---|
| src/components/CobrancaForm.jsx:40 | `value.replace(/[^\d,]/g, '').replace(',', '.')` drops every '.'. The value field is a number input, which reports its decimal separator as '.'. | Typing "12.50" stores "1250", so the charge is created with a value a hundred times too large. | Keep the decimal separator, whether it is written ',' or '.', so that "12.50" stays 12.5. | high; not executed | CobrancaForm.DozeECinquenta, CobrancaForm.PontoApagado | CobrancaForm.SanitizarValorCorrigido, with CobrancaForm.PontoMantido, CobrancaForm.CorrigidoIdempotente and CobrancaForm.CampoDozeECinquenta |
