/** The payment form (src/components/PagamentoForm.jsx): the fields it opens with, its validation with the
    overpayment check, and the choice between updating and registering on submit. */
module PagamentoForm {
  import opened Wrappers
  import Seqs
  import opened BancoDados
  import Relogio
  import opened PagamentoModel
  import PagamentoService
  import HookPagamentos
  import opened Formularios

  /** The form's fields. `cobrancaId` is 0 while no charge is set; `valor` is the field's number, `None` while it
      is empty. */
  datatype FormularioPagamento = FormularioPagamento(
    cobrancaId: int, formaPagamento: string, valor: Option<real>, observacoes: string,
    comprovante: Option<string>, identificadorPagamento: string)

  /** `pagamento?.valor || cobranca?.valorPendente || cobranca?.valor || ''`: the first of the three that is
      present and not zero; so a pending value of 0 falls through to the charge's full value. */
  function ValorInicial(pagamento: Option<PagamentoService.Pag>, cobranca: Option<CobrancaDoFormulario>): (v: Option<real>)
    ensures v.Some? ==> v.value != 0.0
    ensures pagamento.Some? && pagamento.value.dados.valor != 0.0 ==> v == Some(pagamento.value.dados.valor)
    ensures (pagamento.None? || pagamento.value.dados.valor == 0.0) && cobranca.None? ==> v.None?
    ensures (pagamento.None? || pagamento.value.dados.valor == 0.0) && cobranca.Some? ==>
              v == OuNumero(cobranca.value.valorPendente, NaoNulo(Some(cobranca.value.valor)))
  {
    var doPagamento := if pagamento.Some? then Some(pagamento.value.dados.valor) else None;
    var pendente := if cobranca.Some? then cobranca.value.valorPendente else None;
    var daCobranca := if cobranca.Some? then Some(cobranca.value.valor) else None;
    OuNumero(doPagamento, OuNumero(pendente, NaoNulo(daCobranca)))
  }

  /** A new payment for a charge whose pending value is 0, or not recorded, starts from the charge's full value;
      with a non-zero pending value it starts from that. */
  lemma PendenteZeroUsaValorTotal(c: CobrancaDoFormulario)
    requires c.valor != 0.0
    ensures c.valorPendente.None? || c.valorPendente == Some(0.0) ==> ValorInicial(None, Some(c)) == Some(c.valor)
    ensures c.valorPendente.Some? && c.valorPendente.value != 0.0 ==> ValorInicial(None, Some(c)) == c.valorPendente
  {
  }

  /** `formData` as the form opens: the charge's id, the payment's fields when one is edited, and the initial
      value. `||` turns an empty string into an empty field and an empty receipt into none. */
  function FormularioInicial(cobranca: Option<CobrancaDoFormulario>, pagamento: Option<PagamentoService.Pag>): (f: FormularioPagamento)
    ensures f.cobrancaId == (if cobranca.Some? then cobranca.value.id else 0)
    ensures f.valor == ValorInicial(pagamento, cobranca)
    ensures pagamento.None? ==>
              f.formaPagamento == "" && f.observacoes == "" && f.comprovante.None? && f.identificadorPagamento == ""
    ensures pagamento.Some? ==>
              var p := pagamento.value.dados;
              f.formaPagamento == p.formaPagamento && f.observacoes == p.observacoes &&
              f.identificadorPagamento == p.identificadorPagamento &&
              f.comprovante == (if p.comprovante == Some("") then None else p.comprovante)
  {
    var id := if cobranca.Some? then cobranca.value.id else 0;
    var valor := ValorInicial(pagamento, cobranca);
    if pagamento.None? then FormularioPagamento(id, "", valor, "", None, "")
    else
      var p := pagamento.value.dados;
      FormularioPagamento(id, p.formaPagamento, valor, p.observacoes,
                          if p.comprovante == Some("") then None else p.comprovante, p.identificadorPagamento)
  }

  const ERRO_COBRANCA: string := "Cobrança é obrigatória"
  const ERRO_FORMA: string := "Forma de pagamento é obrigatória"
  const ERRO_VALOR: string := "Valor deve ser maior que zero"

  /** The overpayment message; `moeda` is the pt-BR currency formatter, which is not modelled. */
  function ErroExcede(pendente: real, moeda: real -> string): string {
    "Valor não pode ser maior que o pendente (" + moeda(pendente) + ")"
  }

  /** The keys of the error object. */
  datatype Campo = CobrancaId | FormaPagamento | Valor

  /** The field's value is missing or not positive. */
  predicate ValorInvalido(valor: Option<real>) {
    valor.None? || valor.value <= 0.0
  }

  /** The form was opened for a charge with a recorded pending value, and the value typed is above it. A charge
      without `valorPendente` never triggers the check, since comparing with `undefined` is false. */
  predicate Excede(valor: Option<real>, cobranca: Option<CobrancaDoFormulario>) {
    cobranca.Some? && cobranca.value.valorPendente.Some? && valor.Some? &&
    valor.value > cobranca.value.valorPendente.value
  }

  /** What the form accepts: a charge, a payment method, and a positive value no greater than what is pending. */
  predicate FormularioAceitavel(f: FormularioPagamento, cobranca: Option<CobrancaDoFormulario>) {
    f.cobrancaId != 0 && f.formaPagamento != "" && !ValorInvalido(f.valor) && !Excede(f.valor, cobranca)
  }

  /** `validateForm()`: one error per field; an overpayment replaces the "> 0" message under the same key. The
      form is valid exactly when no key was set. */
  method ValidarFormulario(f: FormularioPagamento, cobranca: Option<CobrancaDoFormulario>, moeda: real -> string)
    returns (erros: map<Campo, string>, valido: bool)
    ensures CobrancaId in erros <==> f.cobrancaId == 0
    ensures CobrancaId in erros ==> erros[CobrancaId] == ERRO_COBRANCA
    ensures FormaPagamento in erros <==> f.formaPagamento == ""
    ensures FormaPagamento in erros ==> erros[FormaPagamento] == ERRO_FORMA
    ensures Valor in erros <==> ValorInvalido(f.valor) || Excede(f.valor, cobranca)
    ensures Excede(f.valor, cobranca) ==>
              Valor in erros && erros[Valor] == ErroExcede(cobranca.value.valorPendente.value, moeda)
    ensures ValorInvalido(f.valor) && !Excede(f.valor, cobranca) ==> Valor in erros && erros[Valor] == ERRO_VALOR
    ensures valido <==> erros == map[]
    ensures valido <==> FormularioAceitavel(f, cobranca)
  {
    erros := map[];
    if f.cobrancaId == 0 {
      erros := erros[CobrancaId := ERRO_COBRANCA];
    }
    if f.formaPagamento == "" {
      erros := erros[FormaPagamento := ERRO_FORMA];
    }
    if ValorInvalido(f.valor) {
      erros := erros[Valor := ERRO_VALOR];
    }
    if Excede(f.valor, cobranca) {
      erros := erros[Valor := ErroExcede(cobranca.value.valorPendente.value, moeda)];
    }
    valido := |erros.Keys| == 0;
    Seqs.SemChaves(erros);
  }

  /** Paying exactly what is pending is accepted, and paying more is rejected, whatever else the form holds. */
  lemma PendenteEhOLimite(f: FormularioPagamento, c: CobrancaDoFormulario, p: real)
    requires f.cobrancaId != 0 && f.formaPagamento != "" && c.valorPendente == Some(p) && p > 0.0
    ensures FormularioAceitavel(f.(valor := Some(p)), Some(c))
    ensures forall v :: v > p ==> !FormularioAceitavel(f.(valor := Some(v)), Some(c))
  {
  }

  /** The update `handleSubmit` sends for the payment being edited: every field of the form, with the value as a
      number; the status and the cancellation and confirmation fields are not touched. */
  function AlteracaoDoFormulario(f: FormularioPagamento): (a: PagamentoService.AlteracaoPagamento)
    requires !ValorInvalido(f.valor)
    ensures a.status.None? && a.motivoCancelamento.None? && a.dataCancelamento.None? && a.dataConfirmacao.None?
  {
    PagamentoService.AlteracaoPagamento(
      Some(f.cobrancaId), Some(f.formaPagamento), Some(f.valor.value), Some(f.observacoes), Some(f.comprovante),
      Some(f.identificadorPagamento), None, None, None, None)
  }

  /** The new payment `handleSubmit` registers when none is being edited. */
  function DadosDoFormulario(f: FormularioPagamento): (d: DadosPagamento)
    requires !ValorInvalido(f.valor)
  {
    DadosPagamento(f.cobrancaId, f.formaPagamento, f.valor.value, Some(f.observacoes), f.comprovante,
                   Some(f.identificadorPagamento))
  }

  /** A form the form's own check accepts also passes the service's payment check. */
  lemma FormularioAceitoPeloServico(f: FormularioPagamento, cobranca: Option<CobrancaDoFormulario>)
    requires FormularioAceitavel(f, cobranca)
    ensures PagamentoService.PagamentoAceitavel(DadosDoFormulario(f))
  {
  }

  /** Editing a payment writes the form's six fields and keeps its status, dates and cancellation data. */
  lemma EdicaoMantemStatus(p: Pagamento, f: FormularioPagamento)
    requires !ValorInvalido(f.valor)
    ensures var q := PagamentoService.Mesclar(p, AlteracaoDoFormulario(f));
            q == p.(cobrancaId := f.cobrancaId, formaPagamento := f.formaPagamento, valor := f.valor.value,
                    observacoes := f.observacoes, comprovante := f.comprovante,
                    identificadorPagamento := f.identificadorPagamento)
  {
  }

  /** A payment registered from the form is confirmed and carries the form's fields; an empty identifier field
      makes the model generate one. */
  lemma NovoDoFormulario(f: FormularioPagamento, agora: Relogio.Instante, aleatorio36: string)
    requires !ValorInvalido(f.valor)
    ensures var p := NovoPagamento(DadosDoFormulario(f), agora, aleatorio36);
            p.status == "confirmado" && p.cobrancaId == f.cobrancaId && p.formaPagamento == f.formaPagamento &&
            p.valor == f.valor.value && p.observacoes == f.observacoes && p.comprovante == f.comprovante &&
            p.identificadorPagamento ==
              (if f.identificadorPagamento != "" then f.identificadorPagamento
               else GerarIdentificador(agora.epochMs, aleatorio36))
  {
  }

  /** `handleSubmit`: an invalid form sends nothing; a valid one updates the payment being edited or registers a
      new one through the payments hook, and a registration then always passes the hook's check. */
  method Salvar(
    hook: HookPagamentos.UsePagamentos, f: FormularioPagamento, cobranca: Option<CobrancaDoFormulario>,
    pagamento: Option<PagamentoService.Pag>, moeda: real -> string, agora: Relogio.Instante, aleatorio36: string, novoId: int)
    returns (valido: bool, erros: map<Campo, string>)
    modifies hook, hook.banco
    ensures valido <==> FormularioAceitavel(f, cobranca)
    ensures erros == map[] <==> valido
    ensures !valido ==> unchanged(hook) && unchanged(hook.banco)
    ensures valido && pagamento.None? ==>
              hook.banco.registros ==
                old(hook.banco.registros) + [Registro(novoId, NovoPagamento(DadosDoFormulario(f), agora, aleatorio36))]
    ensures valido && pagamento.Some? ==>
              if TemId(old(hook.banco.registros), pagamento.value.id) then
                hook.banco.registros == AplicarPorId(old(hook.banco.registros), pagamento.value.id,
                                                     PagamentoService.Aplicacao(AlteracaoDoFormulario(f)))
              else hook.banco.registros == old(hook.banco.registros)
    ensures old(hook.Sincronizado()) && !TemId(old(hook.banco.registros), novoId) ==> hook.Sincronizado()
  {
    erros, valido := ValidarFormulario(f, cobranca, moeda);
    if !valido {
      return;
    }
    if pagamento.Some? {
      var _ := hook.AtualizarPagamento(pagamento.value.id, AlteracaoDoFormulario(f));
    } else {
      FormularioAceitoPeloServico(f, cobranca);
      var _ := hook.RegistrarPagamento(DadosDoFormulario(f), agora, aleatorio36, novoId);
    }
  }
}
