/** The payment service (src/services/PagamentoService.js) over the "pagamentos" collection of the store.
    Queries take the collection's current records, as `pegarPagamentos()` returns them. */
module PagamentoService {
  import opened Wrappers
  import opened BancoDados
  import Seqs
  import Relogio
  import opened PagamentoModel

  type Pag = Registro<Pagamento>

  function Valor(x: Pag): real { x.dados.valor }
  function Forma(x: Pag): string { x.dados.formaPagamento }
  function Status(x: Pag): string { x.dados.status }
  function DataPagamento(x: Pag): int { x.dados.dataPagamento }

  /** `registrarPagamento(dados)`: builds the payment and appends it to the collection under the id the store
      assigns. */
  method RegistrarPagamento(
    banco: Colecao<Pagamento>, dados: DadosPagamento, agora: Relogio.Instante, aleatorio36: string, novoId: int
  ) returns (r: Pag)
    modifies banco
    ensures r == Registro(novoId, NovoPagamento(dados, agora, aleatorio36)) && r.dados.status == "confirmado"
    ensures banco.registros == old(banco.registros) + [r]
  {
    r := banco.Post(NovoPagamento(dados, agora, aleatorio36), novoId);
  }

  /** `pegarPagamentosPorCobranca(cobrancaId)`: the payments of one charge, in collection order. */
  function PegarPagamentosPorCobranca(ps: seq<Pag>, cobrancaId: int): (r: seq<Pag>)
    ensures forall x :: x in r ==> x in ps && x.dados.cobrancaId == cobrancaId
    ensures forall x :: x in ps && x.dados.cobrancaId == cobrancaId ==> x in r
    ensures Seqs.Subsequence(r, ps)
  {
    Seqs.FilterIsSubsequence(ps, (x: Pag) => x.dados.cobrancaId == cobrancaId);
    Seqs.Filter(ps, (x: Pag) => x.dados.cobrancaId == cobrancaId)
  }

  /** `pegarPagamentoPorId(id)`: the first payment with the id, if any. */
  function PegarPagamentoPorId(ps: seq<Pag>, id: int): (r: Option<Pag>)
    ensures r.None? <==> forall i :: 0 <= i < |ps| ==> ps[i].id != id
    ensures r.Some? ==> (r.value.id == id &&
              exists k :: 0 <= k < |ps| && ps[k] == r.value && forall j :: 0 <= j < k ==> ps[j].id != id)
  {
    BuscarPorId(ps, id)
  }

  /** A payment answers to an identifier given either raw or in its displayed form. */
  predicate Corresponde(p: Pagamento, identificador: string) {
    p.identificadorPagamento == identificador || FormatarIdentificador(p.identificadorPagamento) == identificador
  }

  /** `pegarPagamentoPorIdentificador(identificador)`: the first payment that answers to the identifier. */
  function PegarPagamentoPorIdentificador(ps: seq<Pag>, identificador: string): (r: Option<Pag>)
    ensures r.None? <==> forall i :: 0 <= i < |ps| ==> !Corresponde(ps[i].dados, identificador)
    ensures r.Some? ==> (Corresponde(r.value.dados, identificador) &&
              exists k :: 0 <= k < |ps| && ps[k] == r.value &&
                forall j :: 0 <= j < k ==> !Corresponde(ps[j].dados, identificador))
  {
    Seqs.FindFirst(ps, (x: Pag) => Corresponde(x.dados, identificador))
  }

  /** Because the displayed form keeps only twelve timestamp digits, looking up the displayed identifier of a
      payment generated within ten milliseconds after an earlier one returns the earlier payment. */
  lemma BuscaPorFormatadoAmbigua(a: Pag, b: Pag, msA: nat, msB: nat, rndA: string, rndB: string)
    requires |Text.NatToString(msA)| >= 12 && |Text.NatToString(msB)| >= 12
    requires Text.NatToString(msA)[..12] == Text.NatToString(msB)[..12]
    requires a.dados.identificadorPagamento == GerarIdentificador(msA, rndA)
    requires b.dados.identificadorPagamento == GerarIdentificador(msB, rndB)
    ensures PegarPagamentoPorIdentificador([a, b], FormatarIdentificador(b.dados.identificadorPagamento)) == Some(a)
  {
    FormatadoNaoDistingue(msA, msB, rndA, rndB);
    assert Corresponde([a, b][0].dados, FormatarIdentificador(b.dados.identificadorPagamento));
  }

  /** The fields an update writes; `None` leaves a field as it is. */
  datatype AlteracaoPagamento = AlteracaoPagamento(
    cobrancaId: Option<int>, formaPagamento: Option<string>, valor: Option<real>, observacoes: Option<string>,
    comprovante: Option<Option<string>>, identificadorPagamento: Option<string>, status: Option<string>,
    motivoCancelamento: Option<string>, dataCancelamento: Option<int>, dataConfirmacao: Option<int>)

  /** Overwrites the fields the update carries. */
  function Mesclar(p: Pagamento, a: AlteracaoPagamento): Pagamento {
    p.(cobrancaId := a.cobrancaId.GetOr(p.cobrancaId),
       formaPagamento := a.formaPagamento.GetOr(p.formaPagamento),
       valor := a.valor.GetOr(p.valor),
       observacoes := a.observacoes.GetOr(p.observacoes),
       comprovante := a.comprovante.GetOr(p.comprovante),
       identificadorPagamento := a.identificadorPagamento.GetOr(p.identificadorPagamento),
       status := a.status.GetOr(p.status),
       motivoCancelamento := if a.motivoCancelamento.Some? then a.motivoCancelamento else p.motivoCancelamento,
       dataCancelamento := if a.dataCancelamento.Some? then a.dataCancelamento else p.dataCancelamento,
       dataConfirmacao := if a.dataConfirmacao.Some? then a.dataConfirmacao else p.dataConfirmacao)
  }

  /** The update as the patch the store applies to each record with the id. */
  function Aplicacao(a: AlteracaoPagamento): Pagamento -> Pagamento {
    (p: Pagamento) => Mesclar(p, a)
  }

  /** `atualizarPagamento(id, dados)`: the store's update with the given fields. */
  method AtualizarPagamento(banco: Colecao<Pagamento>, id: int, a: AlteracaoPagamento) returns (r: Option<Pag>)
    modifies banco
    ensures r.None? <==> !TemId(old(banco.registros), id)
    ensures r.None? ==> banco.registros == old(banco.registros)
    ensures r.Some? ==> banco.registros == AplicarPorId(old(banco.registros), id, Aplicacao(a))
    ensures r.Some? ==> r.value.id == id && r.value in banco.registros
  {
    r := banco.Update(id, Aplicacao(a));
  }

  /** The update `cancelarPagamento` sends: status "cancelado", the reason and the instant. */
  function Cancelamento(motivo: string, agora: int): AlteracaoPagamento {
    AlteracaoPagamento(None, None, None, None, None, None, Some("cancelado"), Some(motivo), Some(agora), None)
  }

  /** The update `confirmarPagamento` sends: status "confirmado" and the instant. */
  function Confirmacao(agora: int): AlteracaoPagamento {
    AlteracaoPagamento(None, None, None, None, None, None, Some("confirmado"), None, None, Some(agora))
  }

  /** Cancelling writes the status, the reason and the instant and nothing else, whatever the payment's status. */
  lemma CancelarSoAlteraStatus(p: Pagamento, motivo: string, agora: int)
    ensures var q := Mesclar(p, Cancelamento(motivo, agora));
            q.status == "cancelado" && q.motivoCancelamento == Some(motivo) && q.dataCancelamento == Some(agora) &&
            q.(status := p.status, motivoCancelamento := p.motivoCancelamento, dataCancelamento := p.dataCancelamento) == p
  {
  }

  /** Confirming writes the status and the instant and nothing else. A cancelled payment can be confirmed: it
      becomes "confirmado" again and keeps its cancellation reason. */
  lemma ConfirmarSoAlteraStatus(p: Pagamento, agora: int)
    ensures var q := Mesclar(p, Confirmacao(agora));
            q.status == "confirmado" && q.dataConfirmacao == Some(agora) &&
            q.(status := p.status, dataConfirmacao := p.dataConfirmacao) == p
    ensures p.status == "cancelado" ==> Mesclar(p, Confirmacao(agora)).motivoCancelamento == p.motivoCancelamento
  {
  }

  /** `cancelarPagamento(id, motivo)`: `motivo` defaults to the empty string. */
  method CancelarPagamento(banco: Colecao<Pagamento>, id: int, motivo: Option<string>, agora: int)
    returns (r: Option<Pag>)
    modifies banco
    ensures r.None? <==> !TemId(old(banco.registros), id)
    ensures r.None? ==> banco.registros == old(banco.registros)
    ensures r.Some? ==> (banco.registros ==
              AplicarPorId(old(banco.registros), id, Aplicacao(Cancelamento(motivo.GetOr(""), agora))))
    ensures r.Some? ==> r.value.id == id && r.value in banco.registros && r.value.dados.status == "cancelado"
  {
    r := AtualizarPagamento(banco, id, Cancelamento(motivo.GetOr(""), agora));
    if r.Some? {
      ghost var k :| 0 <= k < |banco.registros| && banco.registros[k] == r.value;
      assert old(banco.registros)[k].id == id;
    }
  }

  /** `confirmarPagamento(id)`. */
  method ConfirmarPagamento(banco: Colecao<Pagamento>, id: int, agora: int) returns (r: Option<Pag>)
    modifies banco
    ensures r.None? <==> !TemId(old(banco.registros), id)
    ensures r.None? ==> banco.registros == old(banco.registros)
    ensures r.Some? ==> (banco.registros ==
              AplicarPorId(old(banco.registros), id, Aplicacao(Confirmacao(agora))))
    ensures r.Some? ==> r.value.id == id && r.value in banco.registros && r.value.dados.status == "confirmado"
  {
    r := AtualizarPagamento(banco, id, Confirmacao(agora));
    if r.Some? {
      ghost var k :| 0 <= k < |banco.registros| && banco.registros[k] == r.value;
      assert old(banco.registros)[k].id == id;
    }
  }

  /** `deletarPagamento(id)`. */
  method DeletarPagamento(banco: Colecao<Pagamento>, id: int)
    modifies banco
    ensures banco.registros == RemoverPorId(old(banco.registros), id)
  {
    banco.Delete(id);
  }

  /** The payments with a status. */
  function ComStatus(status: string): Pag -> bool {
    (x: Pag) => x.dados.status == status
  }

  /** `calcularTotalPagamentos(filtroStatus)`: the sum of the values, over the payments with the status when a
      non-empty status is given and over all payments otherwise. */
  function CalcularTotalPagamentos(ps: seq<Pag>, filtroStatus: Option<string>): (r: real)
    ensures filtroStatus.None? || filtroStatus.value == "" ==> r == Seqs.Sum(ps, Valor)
    ensures filtroStatus.Some? && filtroStatus.value != "" ==>
              r == Seqs.Sum(Seqs.Filter(ps, ComStatus(filtroStatus.value)), Valor)
  {
    if filtroStatus.Some? && filtroStatus.value != "" then Seqs.Sum(Seqs.Filter(ps, ComStatus(filtroStatus.value)), Valor)
    else Seqs.Sum(ps, Valor)
  }

  /** A status total and the total of every other status add up to the unfiltered total; with non-negative values
      no status total exceeds it. */
  lemma {:induction false} TotalPorStatus(ps: seq<Pag>, status: string)
    requires status != ""
    ensures CalcularTotalPagamentos(ps, Some(status)) +
            Seqs.Sum(Seqs.Filter(ps, (x: Pag) => x.dados.status != status), Valor) == CalcularTotalPagamentos(ps, None)
    ensures (forall x :: x in ps ==> x.dados.valor >= 0.0) ==>
              CalcularTotalPagamentos(ps, Some(status)) <= CalcularTotalPagamentos(ps, None)
  {
    var outros := (x: Pag) => x.dados.status != status;
    Seqs.SumSplit(ps, ComStatus(status), outros, Valor);
    if forall x :: x in ps ==> x.dados.valor >= 0.0 {
      Seqs.SumNonNegative(Seqs.Filter(ps, outros), Valor);
    }
  }

  datatype EstatisticasPagamentos = EstatisticasPagamentos(
    total: nat, confirmados: nat, pendentes: nat, cancelados: nat,
    valorTotal: real, valorConfirmado: real, valorPendente: real)

  /** `obterEstatisticasPagamentos()`. The three status counts never exceed the number of payments and reach it
      when every status is one of the three; with non-negative values the confirmed and pending totals together
      never exceed the overall total. */
  function ObterEstatisticasPagamentos(ps: seq<Pag>): (e: EstatisticasPagamentos)
    ensures e.total == |ps|
    ensures e.confirmados == |Seqs.Filter(ps, ComStatus("confirmado"))|
    ensures e.pendentes == |Seqs.Filter(ps, ComStatus("pendente"))|
    ensures e.cancelados == |Seqs.Filter(ps, ComStatus("cancelado"))|
    ensures e.confirmados + e.pendentes + e.cancelados <= e.total
    ensures (forall x :: x in ps ==> x.dados.status in {"confirmado", "pendente", "cancelado"}) ==>
              e.confirmados + e.pendentes + e.cancelados == e.total
    ensures e.valorTotal == CalcularTotalPagamentos(ps, None)
    ensures e.valorConfirmado == CalcularTotalPagamentos(ps, Some("confirmado"))
    ensures e.valorPendente == CalcularTotalPagamentos(ps, Some("pendente"))
    ensures (forall x :: x in ps ==> x.dados.valor >= 0.0) ==> e.valorConfirmado + e.valorPendente <= e.valorTotal
  {
    Seqs.CountThree(ps, ComStatus("confirmado"), ComStatus("pendente"), ComStatus("cancelado"));
    ConfirmadoMaisPendente(ps);
    EstatisticasPagamentos(
      |ps|,
      |Seqs.Filter(ps, ComStatus("confirmado"))|,
      |Seqs.Filter(ps, ComStatus("pendente"))|,
      |Seqs.Filter(ps, ComStatus("cancelado"))|,
      CalcularTotalPagamentos(ps, None),
      CalcularTotalPagamentos(ps, Some("confirmado")),
      CalcularTotalPagamentos(ps, Some("pendente")))
  }

  lemma ConfirmadoMaisPendente(ps: seq<Pag>)
    ensures (forall x :: x in ps ==> x.dados.valor >= 0.0) ==>
              CalcularTotalPagamentos(ps, Some("confirmado")) + CalcularTotalPagamentos(ps, Some("pendente")) <=
              CalcularTotalPagamentos(ps, None)
  {
    if forall x :: x in ps ==> x.dados.valor >= 0.0 {
      var nc := (x: Pag) => x.dados.status != "confirmado";
      var resto := Seqs.Filter(ps, nc);
      Seqs.SumSplit(ps, ComStatus("confirmado"), nc, Valor);
      Seqs.SumSplit(resto, ComStatus("pendente"), (x: Pag) => x.dados.status != "pendente", Valor);
      Seqs.SumNonNegative(Seqs.Filter(resto, (x: Pag) => x.dados.status != "pendente"), Valor);
      assert Seqs.Filter(resto, ComStatus("pendente")) == Seqs.Filter(ps, ComStatus("pendente")) by {
        FiltroPendenteSemConfirmados(ps);
      }
    }
  }

  /** Taking out the confirmed payments first does not change which payments are pending. */
  lemma FiltroPendenteSemConfirmados(ps: seq<Pag>)
    ensures Seqs.Filter(Seqs.Filter(ps, (x: Pag) => x.dados.status != "confirmado"), ComStatus("pendente")) ==
            Seqs.Filter(ps, ComStatus("pendente"))
  {
    var nc := (x: Pag) => x.dados.status != "confirmado";
    Seqs.FilterFilter(ps, nc, ComStatus("pendente"));
    Seqs.FilterExt(ps, Seqs.Ambos(nc, ComStatus("pendente")), ComStatus("pendente"));
  }

  /** One group of `obterPagamentosPorFormaPagamento()`. */
  datatype GrupoForma = GrupoForma(quantidade: nat, valor: real, pagamentos: seq<Pag>)

  /** The grouping object: its keys in insertion order, and the group under each key. */
  datatype PorFormaPagamento = PorFormaPagamento(chaves: seq<string>, grupos: map<string, GrupoForma>)

  /** `g` groups `ps` by payment method: one group per method that occurs, holding exactly that method's
      payments in collection order, their number and the sum of their values. */
  predicate AgrupaPorForma(ps: seq<Pag>, g: PorFormaPagamento) {
    Seqs.ChavesCoerentes(g.chaves, g.grupos) && Seqs.CobreChaves(ps, Forma, g.grupos) && GruposResumem(ps, g.grupos)
  }

  /** Every group summarises its method's payments and is not empty. */
  predicate GruposResumem(ps: seq<Pag>, grupos: map<string, GrupoForma>) {
    forall k :: k in grupos ==> ResumeGrupo(ps, k, grupos[k]) && grupos[k].quantidade > 0
  }

  /** `gr` holds exactly the payments of `ps` made with method `k`, in order, with their number and total. */
  predicate ResumeGrupo(ps: seq<Pag>, k: string, gr: GrupoForma) {
    gr.pagamentos == Seqs.Filter(ps, Seqs.ComChave(Forma, k)) &&
    gr.quantidade == |gr.pagamentos| &&
    gr.valor == Seqs.Sum(gr.pagamentos, Valor)
  }

  /** A payment extends the summary of its own method's group and leaves the others as they are. */
  lemma GrupoPasso(s: seq<Pag>, p: Pag, k: string, gr: GrupoForma)
    requires ResumeGrupo(s, k, gr)
    ensures ResumeGrupo(s + [p], k,
              if Forma(p) == k then ComPagamento(gr, p) else gr)
  {
    Seqs.FilterSnoc(s, p, Seqs.ComChave(Forma, k));
    Seqs.SumSnoc(gr.pagamentos, p, Valor);
  }

  /** `obterPagamentosPorFormaPagamento()`: a pass over the payments that opens a group the first time a method
      is seen and then counts, sums and appends the payment to its group. */
  method ObterPagamentosPorFormaPagamento(ps: seq<Pag>) returns (g: PorFormaPagamento)
    ensures AgrupaPorForma(ps, g)
  {
    var chaves: seq<string> := [];
    var grupos: map<string, GrupoForma> := map[];
    for i := 0 to |ps|
      invariant AgrupaPorForma(ps[..i], PorFormaPagamento(chaves, grupos))
    {
      var p := ps[i];
      var forma := p.dados.formaPagamento;
      PassoAgrupamento(ps, i, PorFormaPagamento(chaves, grupos));
      if forma !in grupos {
        chaves := chaves + [forma];
      }
      grupos := grupos[forma := ComPagamento(GrupoAtual(grupos, forma), p)];
    }
    assert ps[..|ps|] == ps;
    g := PorFormaPagamento(chaves, grupos);
  }

  /** The group a payment method has so far, empty before its first payment. */
  function GrupoAtual(grupos: map<string, GrupoForma>, k: string): GrupoForma {
    if k in grupos then grupos[k] else GrupoForma(0, 0.0, [])
  }

  /** A group with one more payment counted, added and appended. */
  function ComPagamento(gr: GrupoForma, p: Pag): GrupoForma {
    GrupoForma(gr.quantidade + 1, gr.valor + Valor(p), gr.pagamentos + [p])
  }

  /** One step of the pass: adding a payment to a grouping of the payments before it gives a grouping of the
      longer list. */
  lemma PassoAgrupamento(ps: seq<Pag>, i: nat, g: PorFormaPagamento)
    requires i < |ps| && AgrupaPorForma(ps[..i], g)
    ensures AgrupaPorForma(ps[..i + 1], PorFormaPagamento(
              if Forma(ps[i]) in g.grupos then g.chaves else g.chaves + [Forma(ps[i])],
              g.grupos[Forma(ps[i]) := ComPagamento(GrupoAtual(g.grupos, Forma(ps[i])), ps[i])]))
  {
    var s, p := ps[..i], ps[i];
    Seqs.PrefixoSnoc(ps, i);
    var f := Forma(p);
    var novo := ComPagamento(GrupoAtual(g.grupos, f), p);
    Seqs.ChavesPasso(g.chaves, g.grupos, f, novo);
    Seqs.CobrePasso(s, p, Forma, g.grupos, novo);
    PassoGrupos(s, p, g.grupos);
  }

  lemma PassoGrupos(s: seq<Pag>, p: Pag, grupos: map<string, GrupoForma>)
    requires Seqs.CobreChaves(s, Forma, grupos) && GruposResumem(s, grupos)
    ensures GruposResumem(s + [p], grupos[Forma(p) := ComPagamento(GrupoAtual(grupos, Forma(p)), p)])
  {
    var f := Forma(p);
    if f !in grupos {
      Seqs.FilterNenhum(s, Forma, f);
    }
    GrupoPasso(s, p, f, GrupoAtual(grupos, f));
    PassoGruposOutros(s, p, grupos);
    var novo := ComPagamento(GrupoAtual(grupos, f), p);
    var m := grupos[f := novo];
    forall k | k in m
      ensures ResumeGrupo(s + [p], k, m[k]) && m[k].quantidade > 0
    {
      if k == f {
        assert m[k] == novo;
      } else {
        assert m[k] == grupos[k];
      }
    }
  }

  lemma PassoGruposOutros(s: seq<Pag>, p: Pag, grupos: map<string, GrupoForma>)
    requires GruposResumem(s, grupos)
    ensures forall k :: k in grupos && k != Forma(p) ==> ResumeGrupo(s + [p], k, grupos[k])
  {
    forall k | k in grupos && k != Forma(p)
      ensures ResumeGrupo(s + [p], k, grupos[k])
    {
      GrupoPasso(s, p, k, grupos[k]);
    }
  }

  /** The grouping is a partition: every payment is in the group of its own method and in no other, the group
      sizes add up to the number of payments and the group sums to the total value. */
  lemma GruposParticionam(ps: seq<Pag>, g: PorFormaPagamento)
    requires AgrupaPorForma(ps, g)
    ensures forall x, k :: x in ps && k in g.grupos ==> (x in g.grupos[k].pagamentos <==> Forma(x) == k)
    ensures Seqs.ContaGrupos(g.chaves, g.grupos, (gr: GrupoForma) => gr.quantidade) == |ps|
    ensures Seqs.SomaGrupos(g.chaves, g.grupos, (gr: GrupoForma) => gr.valor) == Seqs.Sum(ps, Valor)
  {
    Seqs.ContaGruposPorChave(ps, g.chaves, g.grupos, Forma, (gr: GrupoForma) => gr.quantidade);
    Seqs.SomaGruposPorChave(ps, g.chaves, g.grupos, Forma, (gr: GrupoForma) => gr.valor, Valor);
    Seqs.ParticaoContagem(ps, g.chaves, Forma);
    Seqs.ParticaoSoma(ps, g.chaves, Forma, Valor);
  }

  /** `obterPagamentosPorPeriodo(inicio, fim)`: the payments made between the two instants, both included, in
      collection order. */
  function ObterPagamentosPorPeriodo(ps: seq<Pag>, inicio: int, fim: int): (r: seq<Pag>)
    ensures forall x :: x in r ==> x in ps && inicio <= x.dados.dataPagamento <= fim
    ensures forall x :: x in ps && inicio <= x.dados.dataPagamento <= fim ==> x in r
    ensures Seqs.Subsequence(r, ps)
  {
    Seqs.FilterIsSubsequence(ps, (x: Pag) => inicio <= x.dados.dataPagamento <= fim);
    Seqs.Filter(ps, (x: Pag) => inicio <= x.dados.dataPagamento <= fim)
  }

  /** The report filters; an empty string is an absent filter. */
  datatype FiltrosPagamento = FiltrosPagamento(status: string, formaPagamento: string, dataInicio: string, dataFim: string)

  datatype ResumoPagamentos = ResumoPagamentos(totalPagamentos: nat, valorTotal: real, ticketMedio: real)

  datatype RelatorioPagamentos = RelatorioPagamentos(
    inicio: string, fim: string, resumo: ResumoPagamentos, porFormaPagamento: PorFormaPagamento, pagamentos: seq<Pag>)

  /** The payments the report covers: the status filter, then the method filter, unless both dates are given, in
      which case the period filter is applied to the whole collection instead. `lerData` is `new Date(texto)`. */
  function SelecionadosRelatorio(ps: seq<Pag>, f: FiltrosPagamento, lerData: string -> int): (r: seq<Pag>)
    ensures forall x :: x in r ==> x in ps
  {
    var porStatus := if f.status != "" then Seqs.Filter(ps, ComStatus(f.status)) else ps;
    var porForma := if f.formaPagamento != "" then Seqs.Filter(porStatus, Seqs.ComChave(Forma, f.formaPagamento)) else porStatus;
    if f.dataInicio != "" && f.dataFim != "" then ObterPagamentosPorPeriodo(ps, lerData(f.dataInicio), lerData(f.dataFim))
    else porForma
  }

  /** With both dates given the report covers exactly the period, whatever status or method was asked for. */
  lemma PeriodoDescartaOutrosFiltros(ps: seq<Pag>, f: FiltrosPagamento, lerData: string -> int)
    requires f.dataInicio != "" && f.dataFim != ""
    ensures forall x :: x in SelecionadosRelatorio(ps, f, lerData) <==>
              x in ps && lerData(f.dataInicio) <= x.dados.dataPagamento <= lerData(f.dataFim)
    ensures SelecionadosRelatorio(ps, f, lerData) == SelecionadosRelatorio(ps, f.(status := "", formaPagamento := ""), lerData)
  {
  }

  /** Without both dates the report covers exactly the payments that pass the status and method filters that
      were given, in collection order. */
  lemma SemPeriodoAplicaFiltros(ps: seq<Pag>, f: FiltrosPagamento, lerData: string -> int)
    requires f.dataInicio == "" || f.dataFim == ""
    ensures forall x :: x in SelecionadosRelatorio(ps, f, lerData) <==>
              x in ps && (f.status != "" ==> x.dados.status == f.status) &&
              (f.formaPagamento != "" ==> x.dados.formaPagamento == f.formaPagamento)
    ensures Seqs.Subsequence(SelecionadosRelatorio(ps, f, lerData), ps)
  {
    var st, fm := ComStatus(f.status), Seqs.ComChave(Forma, f.formaPagamento);
    var sel := SelecionadosRelatorio(ps, f, lerData);
    var porStatus := if f.status != "" then Seqs.Filter(ps, st) else ps;
    assert sel == if f.formaPagamento != "" then Seqs.Filter(porStatus, fm) else porStatus;
    forall x
      ensures x in porStatus <==> x in ps && (f.status != "" ==> x.dados.status == f.status)
      ensures x in sel <==> x in porStatus && (f.formaPagamento != "" ==> x.dados.formaPagamento == f.formaPagamento)
    {
      assert st(x) == (x.dados.status == f.status);
      assert fm(x) == (Forma(x) == f.formaPagamento);
    }
    if f.status != "" && f.formaPagamento != "" {
      Seqs.FilterFilter(ps, st, fm);
      Seqs.FilterIsSubsequence(ps, Seqs.Ambos(st, fm));
    } else if f.status != "" {
      Seqs.FilterIsSubsequence(ps, st);
    } else if f.formaPagamento != "" {
      Seqs.FilterIsSubsequence(ps, fm);
    } else {
      Seqs.SubsequenceRefl(ps);
    }
  }

  /** `ticketMedio`: the mean value, or 0 for no payments. */
  function Media(n: nat, soma: real): (m: real)
    ensures n == 0 ==> m == 0.0
    ensures n > 0 ==> m * (n as real) == soma
  {
    if n > 0 then soma / (n as real) else 0.0
  }

  /** `gerarRelatorioPagamentos(filtros)`: narrows the payment list filter by filter, then summarises it, groups the
      whole collection by method and sorts the selection by payment date, newest first. */
  method GerarRelatorioPagamentos(ps: seq<Pag>, filtros: FiltrosPagamento, lerData: string -> int)
    returns (rel: RelatorioPagamentos)
    ensures var sel := SelecionadosRelatorio(ps, filtros, lerData);
            multiset(rel.pagamentos) == multiset(sel) && Seqs.SortedDesc(rel.pagamentos, DataPagamento) &&
            rel.resumo.totalPagamentos == |sel| && rel.resumo.valorTotal == Seqs.Sum(sel, Valor) &&
            rel.resumo.ticketMedio == Media(|sel|, Seqs.Sum(sel, Valor))
    ensures AgrupaPorForma(ps, rel.porFormaPagamento)
    ensures rel.inicio == if filtros.dataInicio != "" then filtros.dataInicio else "Desde o início"
    ensures rel.fim == if filtros.dataFim != "" then filtros.dataFim else "Até agora"
  {
    var pagamentos := ps;
    if filtros.status != "" {
      pagamentos := Seqs.Filter(pagamentos, ComStatus(filtros.status));
    }
    if filtros.formaPagamento != "" {
      pagamentos := Seqs.Filter(pagamentos, Seqs.ComChave(Forma, filtros.formaPagamento));
    }
    if filtros.dataInicio != "" && filtros.dataFim != "" {
      pagamentos := ObterPagamentosPorPeriodo(ps, lerData(filtros.dataInicio), lerData(filtros.dataFim));
    }
    var valorTotal := Seqs.Sum(pagamentos, Valor);
    var resumo := ResumoPagamentos(|pagamentos|, valorTotal, Media(|pagamentos|, valorTotal));
    var porForma := ObterPagamentosPorFormaPagamento(ps);
    rel := RelatorioPagamentos(
      if filtros.dataInicio != "" then filtros.dataInicio else "Desde o início",
      if filtros.dataFim != "" then filtros.dataFim else "Até agora",
      resumo, porForma, Seqs.SortDesc(pagamentos, DataPagamento));
  }

  const ERRO_COBRANCA: string := "Cobrança é obrigatória"
  const ERRO_FORMA: string := "Forma de pagamento é obrigatória"
  const ERRO_VALOR: string := "Valor deve ser maior que zero"

  datatype Validacao = Validacao(valido: bool, erros: seq<string>)

  /** What a payment needs: a charge, a payment method and a positive value. */
  predicate PagamentoAceitavel(d: DadosPagamento) {
    d.cobrancaId != 0 && d.formaPagamento != "" && d.valor > 0.0
  }

  /** The errors `validarPagamento` reports: one per failed check, in the order charge, method, value. */
  function ErrosPagamento(d: DadosPagamento): (r: seq<string>)
    ensures |r| <= 3
    ensures r == [] <==> PagamentoAceitavel(d)
  {
    (if d.cobrancaId == 0 then [ERRO_COBRANCA] else []) +
    (if d.formaPagamento == "" then [ERRO_FORMA] else []) +
    (if d.valor <= 0.0 then [ERRO_VALOR] else [])
  }

  /** `validarPagamento(dados)`. */
  method ValidarPagamento(d: DadosPagamento) returns (v: Validacao)
    ensures v.erros == ErrosPagamento(d)
    ensures v.valido <==> v.erros == []
    ensures v.valido <==> PagamentoAceitavel(d)
    ensures ERRO_VALOR in v.erros <==> d.valor <= 0.0
  {
    var erros: seq<string> := [];
    if d.cobrancaId == 0 {
      erros := erros + [ERRO_COBRANCA];
    }
    if d.formaPagamento == "" {
      erros := erros + [ERRO_FORMA];
    }
    if d.valor <= 0.0 {
      erros := erros + [ERRO_VALOR];
    }
    v := Validacao(|erros| == 0, erros);
  }
}
