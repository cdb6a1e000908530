/** The payments hook (src/hooks/usePagamentos.js): a local copy of the payment list and the last error message,
    kept next to the store through the payment service. */
module HookPagamentos {
  import opened Wrappers
  import opened BancoDados
  import Text
  import Relogio
  import FormaPagamentoModel
  import opened PagamentoModel
  import opened PagamentoService

  /** The table rate of a payment method, and 0 for a method the table does not list. */
  function TaxaDe(formaPagamento: string): (taxa: real)
    ensures FormaPagamentoModel.BuscarTipo(formaPagamento).None? ==> taxa == 0.0
    ensures FormaPagamentoModel.BuscarTipo(formaPagamento).Some? ==>
              taxa == FormaPagamentoModel.BuscarTipo(formaPagamento).value.taxa
    ensures 0.0 <= taxa <= 100.0
  {
    var forma := FormaPagamentoModel.BuscarTipo(formaPagamento);
    if forma.Some? then
      FormaPagamentoModel.TaxasDaTabelaSaoPercentuais();
      forma.value.taxa
    else 0.0
  }

  /** `calcularTaxa(valor, formaPagamento)`: the fee at the table rate of the method, and 0 for a method the table
      does not list. */
  function CalcularTaxa(valor: real, formaPagamento: string): (r: real)
    ensures r == FormaPagamentoModel.CalcularTaxa(valor, TaxaDe(formaPagamento))
    ensures FormaPagamentoModel.BuscarTipo(formaPagamento).None? ==> r == 0.0
    ensures valor >= 0.0 ==> 0.0 <= r <= valor
  {
    var forma := FormaPagamentoModel.BuscarTipo(formaPagamento);
    if forma.Some? then FormaPagamentoModel.CalcularTaxa(valor, forma.value.taxa) else 0.0
  }

  /** `calcularValorLiquido(valor, formaPagamento)`: the value less the fee; a method without a fee, or one the
      table does not list, leaves the value as it is. */
  function CalcularValorLiquido(valor: real, formaPagamento: string): (r: real)
    ensures r + CalcularTaxa(valor, formaPagamento) == valor
    ensures TaxaDe(formaPagamento) == 0.0 ==> r == valor
    ensures FormaPagamentoModel.BuscarTipo(formaPagamento).None? ==> r == valor
    ensures valor >= 0.0 ==> 0.0 <= r <= valor
  {
    valor - CalcularTaxa(valor, formaPagamento)
  }

  /** 1000 by credit card costs 35 in fees; by PIX it costs nothing. */
  lemma ExemplosDeTaxa(forma: string)
    ensures forma == "cartao_credito" ==> CalcularTaxa(1000.0, forma) == 35.0 && CalcularValorLiquido(1000.0, forma) == 965.0
    ensures forma == "pix" ==> CalcularValorLiquido(1000.0, forma) == 1000.0
  {
    FormaPagamentoModel.TabelaDeTipos(forma);
  }

  /** A rejected payment always has a message to show: the last error is one of the fixed, non-empty messages. */
  lemma MensagemNaoVazia(d: DadosPagamento)
    requires !PagamentoAceitavel(d)
    ensures Text.Join(ErrosPagamento(d), ", ") != ""
  {
    var e := ErrosPagamento(d);
    assert e[|e| - 1] in {ERRO_COBRANCA, ERRO_FORMA, ERRO_VALOR};
    Text.JoinNaoVazio(e, ", ");
  }

  class UsePagamentos {
    var pagamentos: seq<Pag>
    var erro: Option<string>
    const banco: Colecao<Pagamento>

    /** The local list mirrors the store, and the store's ids are unique. */
    predicate Sincronizado()
      reads this, banco
    {
      pagamentos == banco.registros && IdsUnicos(banco.registros)
    }

    constructor (banco: Colecao<Pagamento>)
      ensures this.banco == banco && pagamentos == [] && erro == None
    {
      this.banco := banco;
      pagamentos := [];
      erro := None;
    }

    /** `carregarPagamentos()`: the local list becomes the store's list. */
    method CarregarPagamentos()
      modifies this
      ensures pagamentos == banco.registros && erro == None
    {
      erro := None;
      pagamentos := banco.Get();
    }

    /** `registrarPagamento(dadosPagamento)`: a payment that fails validation is reported, with the errors joined
        by ", ", and neither the store nor the list changes; a valid one is stored and appended to the list. */
    method RegistrarPagamento(dados: DadosPagamento, agora: Relogio.Instante, aleatorio36: string, novoId: int)
      returns (r: Result<Pag, string>)
      modifies this, banco
      ensures r.Failure? <==> !PagamentoAceitavel(dados)
      ensures r.Failure? ==> (r.error == Text.Join(ErrosPagamento(dados), ", ") && erro == Some(r.error) &&
                pagamentos == old(pagamentos) && banco.registros == old(banco.registros))
      ensures r.Success? ==> (r.value == Registro(novoId, NovoPagamento(dados, agora, aleatorio36)) && erro == None &&
                pagamentos == old(pagamentos) + [r.value] && banco.registros == old(banco.registros) + [r.value])
      ensures old(Sincronizado()) && !TemId(old(banco.registros), novoId) ==> Sincronizado()
    {
      erro := None;
      var validacao := ValidarPagamento(dados);
      if !validacao.valido {
        MensagemNaoVazia(dados);
        var juntos := Text.Join(validacao.erros, ", ");
        var mensagem := if juntos != "" then juntos else "Erro ao registrar pagamento";
        erro := Some(mensagem);
        r := Failure(mensagem);
        return;
      }
      var novo := PagamentoService.RegistrarPagamento(banco, dados, agora, aleatorio36, novoId);
      pagamentos := pagamentos + [novo];
      r := Success(novo);
      if old(Sincronizado()) && !TemId(old(banco.registros), novoId) {
        AcrescentarMantemUnicos(old(banco.registros), novo);
      }
    }

    /** `atualizarPagamento(id, dadosAtualizados)`: the entries of the list with the id become the updated record,
        and nothing else in the list moves; when the store has no such id nothing changes. */
    method AtualizarPagamento(id: int, a: AlteracaoPagamento) returns (r: Option<Pag>)
      modifies this, banco
      ensures erro == None
      ensures r.None? <==> !TemId(old(banco.registros), id)
      ensures r.None? ==> pagamentos == old(pagamentos) && banco.registros == old(banco.registros)
      ensures r.Some? ==> (r.value.id == id && banco.registros == AplicarPorId(old(banco.registros), id, Aplicacao(a)) &&
                pagamentos == SubstituirPorId(old(pagamentos), id, r.value))
      ensures old(Sincronizado()) ==> Sincronizado()
    {
      erro := None;
      ghost var antes := banco.registros;
      r := PagamentoService.AtualizarPagamento(banco, id, a);
      if r.Some? {
        pagamentos := SubstituirPorId(pagamentos, id, r.value);
        if old(Sincronizado()) {
          SubstituirAplicado(antes, id, Aplicacao(a), r.value);
        }
      }
    }

    /** `confirmarPagamento(id)`: the same replacement with the confirmed record. */
    method ConfirmarPagamento(id: int, agora: int) returns (r: Option<Pag>)
      modifies this, banco
      ensures erro == None
      ensures r.None? <==> !TemId(old(banco.registros), id)
      ensures r.None? ==> pagamentos == old(pagamentos) && banco.registros == old(banco.registros)
      ensures r.Some? ==> (r.value.id == id && r.value.dados.status == "confirmado" &&
                banco.registros == AplicarPorId(old(banco.registros), id, Aplicacao(Confirmacao(agora))) &&
                pagamentos == SubstituirPorId(old(pagamentos), id, r.value))
      ensures old(Sincronizado()) ==> Sincronizado()
    {
      erro := None;
      ghost var antes := banco.registros;
      r := PagamentoService.ConfirmarPagamento(banco, id, agora);
      if r.Some? {
        pagamentos := SubstituirPorId(pagamentos, id, r.value);
        if old(Sincronizado()) {
          SubstituirAplicado(antes, id, Aplicacao(Confirmacao(agora)), r.value);
        }
      }
    }

    /** `cancelarPagamento(id, motivo)`: the same replacement with the cancelled record. */
    method CancelarPagamento(id: int, motivo: Option<string>, agora: int) returns (r: Option<Pag>)
      modifies this, banco
      ensures erro == None
      ensures r.None? <==> !TemId(old(banco.registros), id)
      ensures r.None? ==> pagamentos == old(pagamentos) && banco.registros == old(banco.registros)
      ensures r.Some? ==> (r.value.id == id && r.value.dados.status == "cancelado" &&
                banco.registros == AplicarPorId(old(banco.registros), id, Aplicacao(Cancelamento(motivo.GetOr(""), agora))) &&
                pagamentos == SubstituirPorId(old(pagamentos), id, r.value))
      ensures old(Sincronizado()) ==> Sincronizado()
    {
      erro := None;
      ghost var antes := banco.registros;
      r := PagamentoService.CancelarPagamento(banco, id, motivo, agora);
      if r.Some? {
        pagamentos := SubstituirPorId(pagamentos, id, r.value);
        if old(Sincronizado()) {
          SubstituirAplicado(antes, id, Aplicacao(Cancelamento(motivo.GetOr(""), agora)), r.value);
        }
      }
    }

    /** `removerPagamento(id)`: the store and the list both lose every entry with the id, and nothing else. */
    method RemoverPagamento(id: int)
      modifies this, banco
      ensures erro == None
      ensures banco.registros == RemoverPorId(old(banco.registros), id)
      ensures pagamentos == RemoverPorId(old(pagamentos), id)
      ensures old(Sincronizado()) ==> Sincronizado()
    {
      erro := None;
      ghost var antes := banco.registros;
      PagamentoService.DeletarPagamento(banco, id);
      pagamentos := RemoverPorId(pagamentos, id);
      if old(Sincronizado()) {
        RemoverMantemUnicos(antes, id);
      }
    }

    /** `estatisticas`: the service statistics over the store, with its grouping by payment method. */
    method Estatisticas() returns (e: EstatisticasPagamentos, porForma: PorFormaPagamento)
      ensures e == ObterEstatisticasPagamentos(banco.registros)
      ensures AgrupaPorForma(banco.registros, porForma)
    {
      var ps := banco.Get();
      e := ObterEstatisticasPagamentos(ps);
      porForma := ObterPagamentosPorFormaPagamento(ps);
    }
  }
}
