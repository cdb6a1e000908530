/** The invoice form (src/components/NotaFiscalForm.jsx): the fields it opens with, its tax preview, its
    validation, the net value it displays and the invoice it asks the hook to issue. */
module NotaFiscalForm {
  import opened Wrappers
  import Seqs
  import Text
  import Relogio
  import opened BancoDados
  import opened NotaFiscalModel
  import NotaFiscalService
  import PagamentoService
  import HookNotasFiscais
  import opened Formularios

  /** The form's fields. An id that is not set is 0; `valorServico` is the field's number, `None` while it is
      empty. */
  datatype FormularioNota = FormularioNota(
    cobrancaId: int, pagamentoId: int, clienteId: int, valorServico: Option<real>, descricaoServico: string,
    tipoServico: string, regime: string)

  /** `formData` as the form opens: the ids, client and description of the charge and payment it was opened for,
      the charge's value (else the payment's), the charge's service type (else "consultoria") and Simples
      Nacional. */
  function FormularioInicial(cobranca: Option<CobrancaDoFormulario>, pagamento: Option<PagamentoService.Pag>)
    : (f: FormularioNota)
    ensures f.cobrancaId == (if cobranca.Some? then cobranca.value.id else 0)
    ensures f.pagamentoId == (if pagamento.Some? then pagamento.value.id else 0)
    ensures f.clienteId == (if cobranca.Some? then cobranca.value.cliente else 0)
    ensures f.descricaoServico == (if cobranca.Some? then cobranca.value.descricao else "")
    ensures f.regime == SIMPLES_NACIONAL
    ensures cobranca.Some? && cobranca.value.tipoServico.Some? && cobranca.value.tipoServico.value != "" ==>
              f.tipoServico == cobranca.value.tipoServico.value
    ensures cobranca.None? || cobranca.value.tipoServico.None? || cobranca.value.tipoServico.value == "" ==>
              f.tipoServico == "consultoria"
    ensures f.valorServico.Some? ==> f.valorServico.value != 0.0
    ensures cobranca.Some? && cobranca.value.valor != 0.0 ==> f.valorServico == Some(cobranca.value.valor)
    ensures (cobranca.None? || cobranca.value.valor == 0.0) && pagamento.Some? ==>
              f.valorServico == NaoNulo(Some(pagamento.value.dados.valor))
    ensures (cobranca.None? || cobranca.value.valor == 0.0) && pagamento.None? ==> f.valorServico.None?
  {
    var daCobranca := if cobranca.Some? then Some(cobranca.value.valor) else None;
    var doPagamento := if pagamento.Some? then Some(pagamento.value.dados.valor) else None;
    var tipo :=
      if cobranca.Some? && cobranca.value.tipoServico.Some? && cobranca.value.tipoServico.value != "" then
        cobranca.value.tipoServico.value
      else "consultoria";
    FormularioNota(
      if cobranca.Some? then cobranca.value.id else 0,
      if pagamento.Some? then pagamento.value.id else 0,
      if cobranca.Some? then cobranca.value.cliente else 0,
      OuNumero(daCobranca, NaoNulo(doPagamento)),
      if cobranca.Some? then cobranca.value.descricao else "",
      tipo, SIMPLES_NACIONAL)
  }

  /** `calcularImpostosPreview()`: nothing while the value or the regime is empty; otherwise all zeros, with the
      fields of Simples Nacional (at the fixed rate of 6%) or of Lucro Presumido filled in one at a time. The
      preview is the invoice model's own tax computation for the same value and regime. */
  method CalcularImpostosPreview(f: FormularioNota) returns (r: Option<Impostos>)
    ensures r.None? <==> f.valorServico.None? || f.regime == ""
    ensures r.Some? ==> r.value == ImpostosDe(f.valorServico.value, f.regime)
    ensures r.Some? && f.regime != SIMPLES_NACIONAL && f.regime != LUCRO_PRESUMIDO ==> r.value == ZEROS
  {
    if f.valorServico.None? || f.regime == "" {
      return None;
    }
    var valor := f.valorServico.value;
    var impostos := ZEROS;
    if f.regime == SIMPLES_NACIONAL {
      var aliquota := 6.0;
      impostos := impostos.(total := (valor * aliquota) / 100.0);
      impostos := impostos.(iss := impostos.total * 0.4);
      AliquotaSimplesNacionalSeis();
    } else if f.regime == LUCRO_PRESUMIDO {
      impostos := impostos.(iss := (valor * 5.0) / 100.0);
      impostos := impostos.(inss := (valor * 11.0) / 100.0);
      impostos := impostos.(ir := (valor * 1.5) / 100.0);
      impostos := impostos.(cofins := (valor * 3.0) / 100.0);
      impostos := impostos.(pis := (valor * 0.65) / 100.0);
      impostos := impostos.(csll := (valor * 1.0) / 100.0);
      impostos := impostos.(total := impostos.iss + impostos.inss + impostos.ir + impostos.cofins +
                                     impostos.pis + impostos.csll);
    } else {
      ImpostosOutroRegime(valor, f.regime);
    }
    r := Some(impostos);
  }

  /** The "Valor Líquido" line under the preview: the service value less the previewed total. On a positive value
      it is positive and no more than the value. */
  function ValorLiquidoExibido(valorServico: real, regime: string): (r: real)
    ensures valorServico > 0.0 ==> 0.0 < r <= valorServico
  {
    if valorServico >= 0.0 then
      ImpostosLimitados(valorServico, regime);
      valorServico - ImpostosDe(valorServico, regime).total
    else valorServico - ImpostosDe(valorServico, regime).total
  }

  const ERRO_COBRANCA: string := "Cobrança é obrigatória"
  const ERRO_CLIENTE: string := "Cliente é obrigatório"
  const ERRO_VALOR: string := "Valor do serviço deve ser maior que zero"
  const ERRO_DESCRICAO: string := "Descrição deve ter pelo menos 10 caracteres"
  const ERRO_TIPO: string := "Tipo de serviço é obrigatório"
  const ERRO_REGIME: string := "Regime tributário é obrigatório"

  /** The keys of the error object. */
  datatype Campo = CobrancaId | ClienteId | ValorServico | DescricaoServico | TipoServico | Regime

  /** What the form accepts: a charge, a client, a positive value, a description of at least ten characters once
      trimmed, a service type and a regime. */
  predicate FormularioAceitavel(f: FormularioNota) {
    f.cobrancaId != 0 && f.clienteId != 0 && f.valorServico.Some? && f.valorServico.value > 0.0 &&
    NotaFiscalService.DescricaoSuficiente(f.descricaoServico) && f.tipoServico != "" && f.regime != ""
  }

  /** An error object with exactly the keys of the failed checks is empty exactly when the form is acceptable. */
  lemma AceitavelSemErros(f: FormularioNota, erros: map<Campo, string>)
    requires CobrancaId in erros <==> f.cobrancaId == 0
    requires ClienteId in erros <==> f.clienteId == 0
    requires ValorServico in erros <==> f.valorServico.None? || f.valorServico.value <= 0.0
    requires DescricaoServico in erros <==> !NotaFiscalService.DescricaoSuficiente(f.descricaoServico)
    requires TipoServico in erros <==> f.tipoServico == ""
    requires Regime in erros <==> f.regime == ""
    ensures erros == map[] <==> FormularioAceitavel(f)
  {
    if erros != map[] {
      var k :| k in erros;
      assert !FormularioAceitavel(f) by {
        match k
        case CobrancaId =>
        case ClienteId =>
        case ValorServico =>
        case DescricaoServico =>
        case TipoServico =>
        case Regime =>
      }
    }
  }

  /** `validateForm()`: one error per field, keyed by the field's name; valid exactly when no key was set. */
  method ValidarFormulario(f: FormularioNota) returns (erros: map<Campo, string>, valido: bool)
    ensures CobrancaId in erros <==> f.cobrancaId == 0
    ensures ClienteId in erros <==> f.clienteId == 0
    ensures ValorServico in erros <==> f.valorServico.None? || f.valorServico.value <= 0.0
    ensures DescricaoServico in erros <==> !NotaFiscalService.DescricaoSuficiente(f.descricaoServico)
    ensures TipoServico in erros <==> f.tipoServico == ""
    ensures Regime in erros <==> f.regime == ""
    ensures CobrancaId in erros ==> erros[CobrancaId] == ERRO_COBRANCA
    ensures ClienteId in erros ==> erros[ClienteId] == ERRO_CLIENTE
    ensures ValorServico in erros ==> erros[ValorServico] == ERRO_VALOR
    ensures DescricaoServico in erros ==> erros[DescricaoServico] == ERRO_DESCRICAO
    ensures TipoServico in erros ==> erros[TipoServico] == ERRO_TIPO
    ensures Regime in erros ==> erros[Regime] == ERRO_REGIME
    ensures valido <==> erros == map[]
    ensures valido <==> FormularioAceitavel(f)
  {
    var semCobranca, semCliente := f.cobrancaId == 0, f.clienteId == 0;
    var semValor := f.valorServico.None? || f.valorServico.value <= 0.0;
    var curta := !NotaFiscalService.DescricaoSuficiente(f.descricaoServico);
    var semTipo, semRegime := f.tipoServico == "", f.regime == "";
    erros := map[];
    if semCobranca {
      erros := erros[CobrancaId := ERRO_COBRANCA];
    }
    if semCliente {
      erros := erros[ClienteId := ERRO_CLIENTE];
    }
    if semValor {
      erros := erros[ValorServico := ERRO_VALOR];
    }
    if curta {
      erros := erros[DescricaoServico := ERRO_DESCRICAO];
    }
    if semTipo {
      erros := erros[TipoServico := ERRO_TIPO];
    }
    if semRegime {
      erros := erros[Regime := ERRO_REGIME];
    }
    valido := |erros.Keys| == 0;
    Seqs.SemChaves(erros);
    AceitavelSemErros(f, erros);
  }

  /** The invoice data `handleSubmit` sends: the form's fields, with the value as a number. */
  function DadosDoFormulario(f: FormularioNota): (d: DadosNotaFiscal)
    requires f.valorServico.Some?
  {
    DadosNotaFiscal(f.cobrancaId, f.pagamentoId, f.clienteId, f.valorServico.value, f.descricaoServico,
                    Some(f.tipoServico), Some(f.regime))
  }

  /** A form the form's own check accepts also passes the service's invoice check. */
  lemma FormularioAceitoPeloServico(f: FormularioNota)
    requires FormularioAceitavel(f)
    ensures NotaFiscalService.NotaAceitavel(DadosDoFormulario(f))
  {
  }

  /** What the form previews is what is issued: the invoice made from the form carries the form's regime and
      service type, the taxes the preview computes for its value and regime, and the net value the form
      displays. */
  lemma PreviaIgualANota(f: FormularioNota, agora: Relogio.Instante, rnd: Aleatorios)
    requires f.valorServico.Some? && AleatoriosValidos(rnd)
    ensures var nf := NovaNotaFiscal(DadosDoFormulario(f), agora, rnd);
            nf.regime == f.regime && nf.tipoServico == f.tipoServico &&
            nf.impostos == ImpostosDe(f.valorServico.value, f.regime) &&
            nf.valorLiquido == ValorLiquidoExibido(f.valorServico.value, f.regime)
  {
  }

  /** `handleSubmit`: an invalid form sends nothing; a valid one is issued through the invoices hook, whose own
      check it then always passes, so the store gains the invoice made from the form. */
  method Salvar(hook: HookNotasFiscais.UseNotasFiscais, f: FormularioNota, agora: Relogio.Instante, rnd: Aleatorios,
                novoId: int)
    returns (valido: bool, erros: map<Campo, string>)
    requires AleatoriosValidos(rnd)
    modifies hook, hook.banco
    ensures valido <==> FormularioAceitavel(f)
    ensures erros == map[] <==> valido
    ensures !valido ==> unchanged(hook) && unchanged(hook.banco)
    ensures valido ==>
              hook.banco.registros ==
                old(hook.banco.registros) + [Registro(novoId, NovaNotaFiscal(DadosDoFormulario(f), agora, rnd))]
    ensures old(hook.Sincronizado()) && !TemId(old(hook.banco.registros), novoId) ==> hook.Sincronizado()
  {
    erros, valido := ValidarFormulario(f);
    if !valido {
      return;
    }
    FormularioAceitoPeloServico(f);
    var _ := hook.EmitirNotaFiscal(DadosDoFormulario(f), agora, rnd, novoId);
  }
}
