/** The invoices hook (src/hooks/useNotasFiscais.js): a local copy of the invoice list and the last error message,
    kept next to the store through the invoice service. */
module HookNotasFiscais {
  import opened Wrappers
  import opened BancoDados
  import Text
  import Relogio
  import opened NotaFiscalModel
  import opened NotaFiscalService

  /** A rejected invoice always has a message to show: the last error is one of the fixed, non-empty messages. */
  lemma MensagemNaoVazia(d: DadosNotaFiscal)
    requires !NotaAceitavel(d)
    ensures Text.Join(ErrosNotaFiscal(d), ", ") != ""
  {
    var e := ErrosNotaFiscal(d);
    assert e[|e| - 1] in {ERRO_COBRANCA, ERRO_CLIENTE, ERRO_VALOR, ERRO_DESCRICAO};
    Text.JoinNaoVazio(e, ", ");
  }

  class UseNotasFiscais {
    var notasFiscais: seq<NF>
    var erro: Option<string>
    const banco: Colecao<NotaFiscal>

    /** The local list mirrors the store, and the store's ids are unique. */
    predicate Sincronizado()
      reads this, banco
    {
      notasFiscais == banco.registros && IdsUnicos(banco.registros)
    }

    constructor (banco: Colecao<NotaFiscal>)
      ensures this.banco == banco && notasFiscais == [] && erro == None
    {
      this.banco := banco;
      notasFiscais := [];
      erro := None;
    }

    /** `carregarNotasFiscais()`: the local list becomes the store's list. */
    method CarregarNotasFiscais()
      modifies this
      ensures notasFiscais == banco.registros && erro == None
    {
      erro := None;
      notasFiscais := banco.Get();
    }

    /** `emitirNotaFiscal(dadosNota)`: an invoice that fails validation is reported, with the errors joined by
        ", ", the message is recorded and nothing is stored; a valid one is issued, stored and appended. */
    method EmitirNotaFiscal(d: DadosNotaFiscal, agora: Relogio.Instante, rnd: Aleatorios, novoId: int)
      returns (r: Result<NF, string>)
      requires AleatoriosValidos(rnd)
      modifies this, banco
      ensures r.Failure? <==> !NotaAceitavel(d)
      ensures r.Failure? ==> (r.error == Text.Join(ErrosNotaFiscal(d), ", ") && erro == Some(r.error) &&
                notasFiscais == old(notasFiscais) && banco.registros == old(banco.registros))
      ensures r.Success? ==> (r.value == Registro(novoId, NovaNotaFiscal(d, agora, rnd)) && erro == None &&
                r.value.dados.status == "emitida" &&
                notasFiscais == old(notasFiscais) + [r.value] && banco.registros == old(banco.registros) + [r.value])
      ensures old(Sincronizado()) && !TemId(old(banco.registros), novoId) ==> Sincronizado()
    {
      erro := None;
      var validacao := ValidarNotaFiscal(d);
      if !validacao.valido {
        MensagemNaoVazia(d);
        var juntos := Text.Join(validacao.erros, ", ");
        var mensagem := if juntos != "" then juntos else "Erro ao emitir nota fiscal";
        erro := Some(mensagem);
        r := Failure(mensagem);
        return;
      }
      var nova := NotaFiscalService.EmitirNotaFiscal(banco, d, agora, rnd, novoId);
      notasFiscais := notasFiscais + [nova];
      r := Success(nova);
      if old(Sincronizado()) && !TemId(old(banco.registros), novoId) {
        AcrescentarMantemUnicos(old(banco.registros), nova);
      }
    }

    /** `atualizarNotaFiscal(id, dadosAtualizados)`: the entries of the list with the id become the updated record,
        and nothing else in the list moves; when the store has no such id nothing changes. */
    method AtualizarNotaFiscal(id: int, a: AlteracaoNotaFiscal) returns (r: Option<NF>)
      modifies this, banco
      ensures erro == None
      ensures r.None? <==> !TemId(old(banco.registros), id)
      ensures r.None? ==> notasFiscais == old(notasFiscais) && banco.registros == old(banco.registros)
      ensures r.Some? ==> (r.value.id == id && banco.registros == AplicarPorId(old(banco.registros), id, Aplicacao(a)) &&
                notasFiscais == SubstituirPorId(old(notasFiscais), id, r.value))
      ensures old(Sincronizado()) ==> Sincronizado()
    {
      erro := None;
      ghost var antes := banco.registros;
      r := NotaFiscalService.AtualizarNotaFiscal(banco, id, a);
      if r.Some? {
        notasFiscais := SubstituirPorId(notasFiscais, id, r.value);
        if old(Sincronizado()) {
          SubstituirAplicado(antes, id, Aplicacao(a), r.value);
        }
      }
    }

    /** `cancelarNotaFiscal(id, motivo)`: the same replacement with the cancelled record. */
    method CancelarNotaFiscal(id: int, motivo: Option<string>, agora: int) returns (r: Option<NF>)
      modifies this, banco
      ensures erro == None
      ensures r.None? <==> !TemId(old(banco.registros), id)
      ensures r.None? ==> notasFiscais == old(notasFiscais) && banco.registros == old(banco.registros)
      ensures r.Some? ==> (r.value.id == id && r.value.dados.status == "cancelada" &&
                banco.registros == AplicarPorId(old(banco.registros), id, Aplicacao(Cancelamento(motivo.GetOr(""), agora))) &&
                notasFiscais == SubstituirPorId(old(notasFiscais), id, r.value))
      ensures old(Sincronizado()) ==> Sincronizado()
    {
      erro := None;
      ghost var antes := banco.registros;
      r := NotaFiscalService.CancelarNotaFiscal(banco, id, motivo, agora);
      if r.Some? {
        notasFiscais := SubstituirPorId(notasFiscais, id, r.value);
        if old(Sincronizado()) {
          SubstituirAplicado(antes, id, Aplicacao(Cancelamento(motivo.GetOr(""), agora)), r.value);
        }
      }
    }

    /** `enviarNotaFiscal(id, email)`: the same replacement with the sent record. */
    method EnviarNotaFiscal(id: int, email: Option<string>, agora: int) returns (r: Option<NF>)
      modifies this, banco
      ensures erro == None
      ensures r.None? <==> !TemId(old(banco.registros), id)
      ensures r.None? ==> notasFiscais == old(notasFiscais) && banco.registros == old(banco.registros)
      ensures r.Some? ==> (r.value.id == id && r.value.dados.status == "enviada" &&
                banco.registros == AplicarPorId(old(banco.registros), id, Aplicacao(Envio(email.GetOr(""), agora))) &&
                notasFiscais == SubstituirPorId(old(notasFiscais), id, r.value))
      ensures old(Sincronizado()) ==> Sincronizado()
    {
      erro := None;
      ghost var antes := banco.registros;
      r := NotaFiscalService.EnviarNotaFiscal(banco, id, email, agora);
      if r.Some? {
        notasFiscais := SubstituirPorId(notasFiscais, id, r.value);
        if old(Sincronizado()) {
          SubstituirAplicado(antes, id, Aplicacao(Envio(email.GetOr(""), agora)), r.value);
        }
      }
    }

    /** `removerNotaFiscal(id)`: the store and the list both lose every entry with the id, and nothing else. */
    method RemoverNotaFiscal(id: int)
      modifies this, banco
      ensures erro == None
      ensures banco.registros == RemoverPorId(old(banco.registros), id)
      ensures notasFiscais == RemoverPorId(old(notasFiscais), id)
      ensures old(Sincronizado()) ==> Sincronizado()
    {
      erro := None;
      ghost var antes := banco.registros;
      DeletarNotaFiscal(banco, id);
      notasFiscais := RemoverPorId(notasFiscais, id);
      if old(Sincronizado()) {
        RemoverMantemUnicos(antes, id);
      }
    }
  }
}
