/** Payment methods and their percentage fees (src/models/FormaPagamento.js). */
module FormaPagamentoModel {
  import opened Wrappers
  import Seqs

  /** One row of the fixed method table: key, label, percentage fee and icon. */
  datatype TipoPagamento = TipoPagamento(chave: string, rotulo: string, taxa: real, icone: string)

  /** A payment-method object; `criadoEm` is the creation instant in epoch milliseconds. */
  datatype FormaPagamento = FormaPagamento(
    tipo: string, nome: string, descricao: string, taxa: real, ativo: bool, criadoEm: int)

  /** The constructor. `taxa` and `ativo` are JavaScript default parameters, so they take effect only when the
      argument is absent (`None`); `agora` is the clock reading behind `new Date().toISOString()`. */
  function NovaFormaPagamento(
    tipo: string, nome: string, descricao: string, taxa: Option<real>, ativo: Option<bool>, agora: int
  ): (f: FormaPagamento)
    ensures f.tipo == tipo && f.nome == nome && f.descricao == descricao && f.criadoEm == agora
    ensures taxa.None? ==> f.taxa == 0.0
    ensures taxa.Some? ==> f.taxa == taxa.value
    ensures ativo.None? ==> f.ativo
    ensures ativo.Some? ==> f.ativo == ativo.value
  {
    FormaPagamento(tipo, nome, descricao, taxa.GetOr(0.0), ativo.GetOr(true), agora)
  }

  /** `getTiposPagamento()`: the six methods the application offers. */
  function TiposPagamento(): (r: seq<TipoPagamento>)
    ensures |r| == 6
  {
    [ TipoPagamento("dinheiro", "Dinheiro", 0.0, "💰"),
      TipoPagamento("pix", "PIX", 0.0, "📱"),
      TipoPagamento("cartao_debito", "Cartão de Débito", 1.5, "💳"),
      TipoPagamento("cartao_credito", "Cartão de Crédito", 3.5, "💳"),
      TipoPagamento("boleto", "Boleto Bancário", 2.5, "📄"),
      TipoPagamento("transferencia", "Transferência Bancária", 0.0, "🏦") ]
  }

  /** The table row for a method key, the first row whose key is `forma`. */
  function BuscarTipo(forma: string): (r: Option<TipoPagamento>)
    ensures r.Some? ==> r.value in TiposPagamento() && r.value.chave == forma
    ensures r.None? <==> forall t :: t in TiposPagamento() ==> t.chave != forma
  {
    Seqs.FindFirst(TiposPagamento(), (t: TipoPagamento) => t.chave == forma)
  }

  /** The table has six rows; each key finds its own row, with these fees. */
  lemma TabelaDeTipos(chave: string)
    ensures chave == "dinheiro" ==> BuscarTipo(chave) == Some(TiposPagamento()[0]) && TiposPagamento()[0].taxa == 0.0
    ensures chave == "pix" ==> BuscarTipo(chave) == Some(TiposPagamento()[1]) && TiposPagamento()[1].taxa == 0.0
    ensures chave == "cartao_debito" ==> BuscarTipo(chave) == Some(TiposPagamento()[2]) && TiposPagamento()[2].taxa == 1.5
    ensures chave == "cartao_credito" ==> BuscarTipo(chave) == Some(TiposPagamento()[3]) && TiposPagamento()[3].taxa == 3.5
    ensures chave == "boleto" ==> BuscarTipo(chave) == Some(TiposPagamento()[4]) && TiposPagamento()[4].taxa == 2.5
    ensures chave == "transferencia" ==> BuscarTipo(chave) == Some(TiposPagamento()[5]) && TiposPagamento()[5].taxa == 0.0
  {
    if chave == "dinheiro" {
      Linha(0, chave, 0.0);
    } else if chave == "pix" {
      Linha(1, chave, 0.0);
    } else if chave == "cartao_debito" {
      Linha(2, chave, 1.5);
    } else if chave == "cartao_credito" {
      Linha(3, chave, 3.5);
    } else if chave == "boleto" {
      Linha(4, chave, 2.5);
    } else if chave == "transferencia" {
      Linha(5, chave, 0.0);
    }
  }

  /** The row at `i` is the one its key finds. */
  lemma Linha(i: nat, chave: string, taxa: real)
    requires i < 6 && TiposPagamento()[i].chave == chave && TiposPagamento()[i].taxa == taxa
    ensures BuscarTipo(chave) == Some(TiposPagamento()[i]) && TiposPagamento()[i].taxa == taxa
  {
    BuscarPrimeiro(i);
  }

  /** No two rows share a key. */
  lemma ChavesDistintas()
    ensures forall i, j :: 0 <= i < j < 6 ==> TiposPagamento()[i].chave != TiposPagamento()[j].chave
  {
    var t := TiposPagamento();
    var c := [t[0].chave, t[1].chave, t[2].chave, t[3].chave, t[4].chave, t[5].chave];
    assert c == ["dinheiro", "pix", "cartao_debito", "cartao_credito", "boleto", "transferencia"];
    forall i, j | 0 <= i < j < 6 ensures t[i].chave != t[j].chave {
      assert t[i].chave == c[i] && t[j].chave == c[j];
      assert |c[i]| != |c[j]| || c[i][0] != c[j][0];
    }
  }

  /** With distinct keys, a row is the one its own key finds. */
  lemma BuscarPrimeiro(i: nat)
    requires i < 6
    ensures BuscarTipo(TiposPagamento()[i].chave) == Some(TiposPagamento()[i])
  {
    ChavesDistintas();
    var t := TiposPagamento();
    assert forall j :: 0 <= j < i ==> t[j].chave != t[i].chave;
  }

  /** Every fee in the table is a percentage between 0 and 100. */
  lemma TaxasDaTabelaSaoPercentuais()
    ensures forall t :: t in TiposPagamento() ==> 0.0 <= t.taxa <= 100.0
  {
  }

  /** `FormaPagamento.calcularTaxa(valor, taxa)`: `taxa` percent of `valor`. */
  function CalcularTaxa(valor: real, taxa: real): (r: real)
    ensures r * 100.0 == valor * taxa
    ensures taxa == 0.0 ==> r == 0.0
    ensures 0.0 <= valor && 0.0 <= taxa <= 100.0 ==> 0.0 <= r <= valor
  {
    (valor * taxa) / 100.0
  }

  /** `calcularValorComTaxa(valor)`: the value with this method's fee added. */
  function CalcularValorComTaxa(f: FormaPagamento, valor: real): (r: real)
    ensures f.taxa == 0.0 ==> r == valor
    ensures 0.0 <= valor && 0.0 <= f.taxa <= 100.0 ==> valor <= r <= 2.0 * valor
  {
    valor + CalcularTaxa(valor, f.taxa)
  }

  /** `calcularValorLiquido(valor)`: the value with this method's fee taken off. */
  function CalcularValorLiquido(f: FormaPagamento, valor: real): (r: real)
    ensures f.taxa == 0.0 ==> r == valor
    ensures 0.0 <= valor && 0.0 <= f.taxa <= 100.0 ==> 0.0 <= r <= valor
  {
    valor - CalcularTaxa(valor, f.taxa)
  }

  /** The gross and the net value lie one fee on either side of the value, so they differ by twice the fee;
      a fee between 0 and 100 percent keeps the net value between 0 and the value. */
  lemma ComTaxaELiquido(f: FormaPagamento, valor: real)
    ensures CalcularValorComTaxa(f, valor) - CalcularValorLiquido(f, valor) == 2.0 * CalcularTaxa(valor, f.taxa)
    ensures CalcularValorComTaxa(f, valor) + CalcularValorLiquido(f, valor) == 2.0 * valor
    ensures 0.0 <= valor && 0.0 <= f.taxa <= 100.0 ==>
              0.0 <= CalcularValorLiquido(f, valor) <= valor <= CalcularValorComTaxa(f, valor) <= 2.0 * valor
  {
  }

  /** 1000 at 3.5 percent is a fee of 35; at 0 percent there is no fee. */
  lemma ExemplosDeTaxa()
    ensures CalcularTaxa(1000.0, 3.5) == 35.0
    ensures CalcularTaxa(1000.0, 0.0) == 0.0
  {
  }
}
