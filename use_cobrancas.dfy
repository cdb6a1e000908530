/** The charges hook (src/hooks/useCobrancas.js): a local copy of the charge list and the last error message, kept
    next to the store through the charge service. */
module HookCobrancas {
  import opened Wrappers
  import opened BancoDados
  import Seqs
  import Relogio
  import opened CobrancaModel
  import opened CobrancaService

  /** The figures the hook shows: money totals read from the store, counts taken from the local list. */
  datatype EstatisticasCobrancas = EstatisticasCobrancas(
    total: real, pagas: real, pendentes: real, totalCobrancas: nat, cobrancasPagas: nat, cobrancasPendentes: nat)

  class UseCobrancas {
    var cobrancas: seq<Cob>
    var erro: Option<string>
    const banco: Colecao<Cobranca>

    /** The local list mirrors the store, and the store's ids are unique. */
    predicate Sincronizado()
      reads this, banco
    {
      cobrancas == banco.registros && IdsUnicos(banco.registros)
    }

    constructor (banco: Colecao<Cobranca>)
      ensures this.banco == banco && cobrancas == [] && erro == None
    {
      this.banco := banco;
      cobrancas := [];
      erro := None;
    }

    /** `carregarCobrancas()`: the local list becomes the store's list. */
    method CarregarCobrancas()
      modifies this
      ensures cobrancas == banco.registros && erro == None
    {
      erro := None;
      cobrancas := banco.Get();
    }

    /** `adicionarCobranca(dadosCobranca)`: no validation; the new charge is stored and appended to the list. */
    method AdicionarCobranca(d: DadosCobranca, agora: Relogio.Instante, dataLocal: Relogio.Instante -> string, novoId: int)
      returns (r: Cob)
      modifies this, banco
      ensures r == Registro(novoId, NovaCobranca(d, agora, dataLocal)) && erro == None
      ensures cobrancas == old(cobrancas) + [r] && banco.registros == old(banco.registros) + [r]
      ensures old(Sincronizado()) && !TemId(old(banco.registros), novoId) ==> Sincronizado()
    {
      erro := None;
      r := CadastrarCobranca(banco, d, agora, dataLocal, novoId);
      cobrancas := cobrancas + [r];
      if old(Sincronizado()) && !TemId(old(banco.registros), novoId) {
        AcrescentarMantemUnicos(old(banco.registros), r);
      }
    }

    /** `removerCobranca(id)`: the store and the list both lose every entry with the id, and nothing else. */
    method RemoverCobranca(id: int)
      modifies this, banco
      ensures erro == None
      ensures banco.registros == RemoverPorId(old(banco.registros), id)
      ensures cobrancas == RemoverPorId(old(cobrancas), id)
      ensures old(Sincronizado()) ==> Sincronizado()
    {
      erro := None;
      ghost var antes := banco.registros;
      DeletarCobranca(banco, id);
      cobrancas := RemoverPorId(cobrancas, id);
      if old(Sincronizado()) {
        RemoverMantemUnicos(antes, id);
      }
    }

    /** `atualizarCobranca(id, dadosAtualizados)`: the entries of the list with the id become the updated record,
        and nothing else in the list moves; when the store has no such id nothing changes. */
    method AtualizarCobranca(id: int, a: AlteracaoCobranca) returns (r: Option<Cob>)
      modifies this, banco
      ensures erro == None
      ensures r.None? <==> !TemId(old(banco.registros), id)
      ensures r.None? ==> cobrancas == old(cobrancas) && banco.registros == old(banco.registros)
      ensures r.Some? ==> (r.value.id == id && banco.registros == AplicarPorId(old(banco.registros), id, Aplicacao(a)) &&
                cobrancas == SubstituirPorId(old(cobrancas), id, r.value))
      ensures old(Sincronizado()) ==> Sincronizado()
    {
      erro := None;
      ghost var antes := banco.registros;
      r := CobrancaService.AtualizarCobranca(banco, id, a);
      if r.Some? {
        cobrancas := SubstituirPorId(cobrancas, id, r.value);
        if old(Sincronizado()) {
          SubstituirAplicado(antes, id, Aplicacao(a), r.value);
        }
      }
    }

    /** `marcarComoPaga(id)` (`status` true) and `marcarComoPendente(id)` (`status` false): the same replacement
        with the re-marked record. */
    method MarcarComo(id: int, status: bool) returns (r: Option<Cob>)
      modifies this, banco
      ensures erro == None
      ensures r.None? <==> !TemId(old(banco.registros), id)
      ensures r.None? ==> cobrancas == old(cobrancas) && banco.registros == old(banco.registros)
      ensures r.Some? ==> (r.value.id == id && r.value.dados.status == status &&
                banco.registros == AplicarPorId(old(banco.registros), id, Aplicacao(SoStatus(status))) &&
                cobrancas == SubstituirPorId(old(cobrancas), id, r.value))
      ensures old(Sincronizado()) ==> Sincronizado()
    {
      erro := None;
      ghost var antes := banco.registros;
      r := MarcarStatus(banco, id, status);
      if r.Some? {
        cobrancas := SubstituirPorId(cobrancas, id, r.value);
        if old(Sincronizado()) {
          SubstituirAplicado(antes, id, Aplicacao(SoStatus(status)), r.value);
        }
      }
    }

    /** `estatisticas`: the paid and pending totals add up to the overall total, and so do the paid and pending
        counts. */
    function Estatisticas(): (e: EstatisticasCobrancas)
      reads this, banco
      ensures e.total == Seqs.Sum(banco.registros, Valor)
      ensures e.pagas == Seqs.Sum(Seqs.Filter(banco.registros, ComStatus(true)), Valor)
      ensures e.pendentes == Seqs.Sum(Seqs.Filter(banco.registros, ComStatus(false)), Valor)
      ensures e.pagas + e.pendentes == e.total
      ensures e.totalCobrancas == |cobrancas|
      ensures e.cobrancasPagas == |Seqs.Filter(cobrancas, ComStatus(true))|
      ensures e.cobrancasPagas + e.cobrancasPendentes == e.totalCobrancas
    {
      PagoMaisPendente(banco.registros);
      Seqs.CountSplit(cobrancas, ComStatus(true), ComStatus(false));
      EstatisticasCobrancas(
        CalcularTotal(banco.registros, None),
        CalcularTotal(banco.registros, Some(true)),
        CalcularTotal(banco.registros, Some(false)),
        |cobrancas|,
        |Seqs.Filter(cobrancas, ComStatus(true))|,
        |Seqs.Filter(cobrancas, ComStatus(false))|)
    }
  }
}
