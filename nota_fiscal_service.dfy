/** The invoice service (src/services/NotaFiscalService.js) over the "notasFiscais" collection of the store. */
module NotaFiscalService {
  import opened Wrappers
  import opened BancoDados
  import Seqs
  import Text
  import Relogio
  import opened NotaFiscalModel

  type NF = Registro<NotaFiscal>

  function ValorServico(x: NF): real { x.dados.valorServico }
  function TotalImpostos(x: NF): real { x.dados.impostos.total }
  function ValorLiquido(x: NF): real { x.dados.valorLiquido }
  function Regime(x: NF): string { x.dados.regime }
  function TipoServico(x: NF): string { x.dados.tipoServico }
  function DataEmissao(x: NF): int { x.dados.dataEmissao }

  /** `emitirNotaFiscal(dadosNota)`: builds the invoice and appends it under the id the store assigns. */
  method EmitirNotaFiscal(
    banco: Colecao<NotaFiscal>, d: DadosNotaFiscal, agora: Relogio.Instante, rnd: Aleatorios, novoId: int
  ) returns (r: NF)
    requires AleatoriosValidos(rnd)
    modifies banco
    ensures r == Registro(novoId, NovaNotaFiscal(d, agora, rnd)) && r.dados.status == "emitida"
    ensures banco.registros == old(banco.registros) + [r]
  {
    r := banco.Post(NovaNotaFiscal(d, agora, rnd), novoId);
  }

  /** `find`: the first invoice that satisfies `p`. */
  function PrimeiraNota(ns: seq<NF>, p: NF -> bool): (r: Option<NF>)
    ensures r.None? <==> forall i :: 0 <= i < |ns| ==> !p(ns[i])
    ensures r.Some? ==> (p(r.value) &&
              exists k :: 0 <= k < |ns| && ns[k] == r.value && forall j :: 0 <= j < k ==> !p(ns[j]))
  {
    Seqs.FindFirst(ns, p)
  }

  /** `pegarNotaFiscalPorId(id)`. */
  function PegarNotaFiscalPorId(ns: seq<NF>, id: int): (r: Option<NF>)
    ensures r.None? <==> forall i :: 0 <= i < |ns| ==> ns[i].id != id
    ensures r.Some? ==> (r.value.id == id &&
              exists k :: 0 <= k < |ns| && ns[k] == r.value && forall j :: 0 <= j < k ==> ns[j].id != id)
  {
    BuscarPorId(ns, id)
  }

  /** `pegarNotaFiscalPorCobranca(cobrancaId)`: the first invoice of the charge; a charge may have several. */
  function PegarNotaFiscalPorCobranca(ns: seq<NF>, cobrancaId: int): (r: Option<NF>)
    ensures r.None? <==> forall i :: 0 <= i < |ns| ==> ns[i].dados.cobrancaId != cobrancaId
    ensures r.Some? ==> (r.value.dados.cobrancaId == cobrancaId &&
              exists k :: 0 <= k < |ns| && ns[k] == r.value &&
                forall j :: 0 <= j < k ==> ns[j].dados.cobrancaId != cobrancaId)
  {
    PrimeiraNota(ns, (x: NF) => x.dados.cobrancaId == cobrancaId)
  }

  /** `pegarNotaFiscalPorPagamento(pagamentoId)`: the first invoice of the payment. */
  function PegarNotaFiscalPorPagamento(ns: seq<NF>, pagamentoId: int): (r: Option<NF>)
    ensures r.None? <==> forall i :: 0 <= i < |ns| ==> ns[i].dados.pagamentoId != pagamentoId
    ensures r.Some? ==> (r.value.dados.pagamentoId == pagamentoId &&
              exists k :: 0 <= k < |ns| && ns[k] == r.value &&
                forall j :: 0 <= j < k ==> ns[j].dados.pagamentoId != pagamentoId)
  {
    PrimeiraNota(ns, (x: NF) => x.dados.pagamentoId == pagamentoId)
  }

  /** `pegarNotaFiscalPorNumero(numero)`: the first invoice with the number. Numbers are not unique: two
      invoices issued on the same day can draw the same sequence number. */
  function PegarNotaFiscalPorNumero(ns: seq<NF>, numero: string): (r: Option<NF>)
    ensures r.None? <==> forall i :: 0 <= i < |ns| ==> ns[i].dados.numero != numero
    ensures r.Some? ==> (r.value.dados.numero == numero &&
              exists k :: 0 <= k < |ns| && ns[k] == r.value &&
                forall j :: 0 <= j < k ==> ns[j].dados.numero != numero)
  {
    PrimeiraNota(ns, (x: NF) => x.dados.numero == numero)
  }

  /** Two invoices issued on the same day whose random draws fall in the same sequence slot get the same
      number, so a lookup by that number always returns the earlier one. */
  lemma NumeroRepetido(a: NF, b: NF, agora: Relogio.Instante, outro: Relogio.Instante, ra: real, rb: real)
    requires 0.0 <= ra < 1.0 && 0.0 <= rb < 1.0 && Sequencial(ra) == Sequencial(rb)
    requires outro.ano == agora.ano && outro.mes == agora.mes && outro.dia == agora.dia
    requires a.dados.numero == GerarNumeroNF(agora, ra) && b.dados.numero == GerarNumeroNF(outro, rb)
    ensures a.dados.numero == b.dados.numero
    ensures PegarNotaFiscalPorNumero([a, b], b.dados.numero) == Some(a)
  {
  }

  /** The fields an update writes; `None` leaves a field as it is. */
  datatype AlteracaoNotaFiscal = AlteracaoNotaFiscal(
    cobrancaId: Option<int>, pagamentoId: Option<int>, clienteId: Option<int>, valorServico: Option<real>,
    descricaoServico: Option<string>, tipoServico: Option<string>, regime: Option<string>, status: Option<string>,
    motivoCancelamento: Option<string>, dataCancelamento: Option<int>, emailEnvio: Option<string>,
    dataEnvio: Option<int>)

  /** Overwrites the fields the update carries. Nothing is recomputed from them. */
  function Mesclar(n: NotaFiscal, a: AlteracaoNotaFiscal): NotaFiscal {
    n.(cobrancaId := a.cobrancaId.GetOr(n.cobrancaId),
       pagamentoId := a.pagamentoId.GetOr(n.pagamentoId),
       clienteId := a.clienteId.GetOr(n.clienteId),
       valorServico := a.valorServico.GetOr(n.valorServico),
       descricaoServico := a.descricaoServico.GetOr(n.descricaoServico),
       tipoServico := a.tipoServico.GetOr(n.tipoServico),
       regime := a.regime.GetOr(n.regime),
       status := a.status.GetOr(n.status),
       motivoCancelamento := if a.motivoCancelamento.Some? then a.motivoCancelamento else n.motivoCancelamento,
       dataCancelamento := if a.dataCancelamento.Some? then a.dataCancelamento else n.dataCancelamento,
       emailEnvio := if a.emailEnvio.Some? then a.emailEnvio else n.emailEnvio,
       dataEnvio := if a.dataEnvio.Some? then a.dataEnvio else n.dataEnvio)
  }

  /** The update as the patch the store applies to each record with the id. */
  function Aplicacao(a: AlteracaoNotaFiscal): NotaFiscal -> NotaFiscal {
    (n: NotaFiscal) => Mesclar(n, a)
  }

  /** An update never recomputes the taxes: changing the service value or the regime leaves the taxes, the total
      and the net value as they were, so they no longer follow from the new value. */
  lemma AtualizarNaoRecalcula(n: NotaFiscal, a: AlteracaoNotaFiscal)
    ensures Mesclar(n, a).impostos == n.impostos
    ensures Mesclar(n, a).valorTotal == n.valorTotal && Mesclar(n, a).valorLiquido == n.valorLiquido
    ensures Mesclar(n, a).numero == n.numero && Mesclar(n, a).chaveAcesso == n.chaveAcesso
    ensures n.impostos == ImpostosDe(n.valorServico, n.regime) && a.valorServico == Some(2.0 * n.valorServico) &&
            a.regime.None? && n.valorServico > 0.0 && n.regime == LUCRO_PRESUMIDO ==>
              Mesclar(n, a).impostos != ImpostosDe(Mesclar(n, a).valorServico, Mesclar(n, a).regime)
  {
    if n.impostos == ImpostosDe(n.valorServico, n.regime) && a.valorServico == Some(2.0 * n.valorServico) &&
       a.regime.None? && n.valorServico > 0.0 && n.regime == LUCRO_PRESUMIDO {
      ImpostosLucroPresumido(n.valorServico);
      ImpostosLucroPresumido(2.0 * n.valorServico);
    }
  }

  /** `atualizarNotaFiscal(id, dadosAtualizados)`. */
  method AtualizarNotaFiscal(banco: Colecao<NotaFiscal>, id: int, a: AlteracaoNotaFiscal) returns (r: Option<NF>)
    modifies banco
    ensures r.None? <==> !TemId(old(banco.registros), id)
    ensures r.None? ==> banco.registros == old(banco.registros)
    ensures r.Some? ==> banco.registros == AplicarPorId(old(banco.registros), id, Aplicacao(a))
    ensures r.Some? ==> r.value.id == id && r.value in banco.registros
  {
    r := banco.Update(id, Aplicacao(a));
  }

  /** The update `cancelarNotaFiscal` sends: status "cancelada", the reason and the instant. */
  function Cancelamento(motivo: string, agora: int): AlteracaoNotaFiscal {
    AlteracaoNotaFiscal(None, None, None, None, None, None, None, Some("cancelada"), Some(motivo), Some(agora),
                        None, None)
  }

  /** The update `enviarNotaFiscal` sends: status "enviada", the address and the instant. */
  function Envio(email: string, agora: int): AlteracaoNotaFiscal {
    AlteracaoNotaFiscal(None, None, None, None, None, None, None, Some("enviada"), None, None, Some(email), Some(agora))
  }

  /** Cancelling writes the status, the reason and the instant and nothing else. */
  lemma CancelarSoAlteraStatus(n: NotaFiscal, motivo: string, agora: int)
    ensures var m := Mesclar(n, Cancelamento(motivo, agora));
            m.status == "cancelada" && m.motivoCancelamento == Some(motivo) && m.dataCancelamento == Some(agora) &&
            m.(status := n.status, motivoCancelamento := n.motivoCancelamento, dataCancelamento := n.dataCancelamento) == n
  {
  }

  /** Sending writes the status, the address and the instant and nothing else. Nothing checks the status first: a
      cancelled invoice can be sent, and becomes "enviada" while keeping its cancellation reason. */
  lemma EnviarSoAlteraStatus(n: NotaFiscal, email: string, agora: int)
    ensures var m := Mesclar(n, Envio(email, agora));
            m.status == "enviada" && m.emailEnvio == Some(email) && m.dataEnvio == Some(agora) &&
            m.(status := n.status, emailEnvio := n.emailEnvio, dataEnvio := n.dataEnvio) == n
    ensures n.status == "cancelada" ==> Mesclar(n, Envio(email, agora)).motivoCancelamento == n.motivoCancelamento
  {
  }

  /** `cancelarNotaFiscal(id, motivo)`: `motivo` defaults to the empty string. */
  method CancelarNotaFiscal(banco: Colecao<NotaFiscal>, id: int, motivo: Option<string>, agora: int)
    returns (r: Option<NF>)
    modifies banco
    ensures r.None? <==> !TemId(old(banco.registros), id)
    ensures r.None? ==> banco.registros == old(banco.registros)
    ensures r.Some? ==> (banco.registros ==
              AplicarPorId(old(banco.registros), id, Aplicacao(Cancelamento(motivo.GetOr(""), agora))))
    ensures r.Some? ==> r.value.id == id && r.value in banco.registros && r.value.dados.status == "cancelada"
  {
    r := AtualizarNotaFiscal(banco, id, Cancelamento(motivo.GetOr(""), agora));
    if r.Some? {
      ghost var k :| 0 <= k < |banco.registros| && banco.registros[k] == r.value;
      assert old(banco.registros)[k].id == id;
    }
  }

  /** `enviarNotaFiscal(id, email)`: `email` defaults to the empty string. */
  method EnviarNotaFiscal(banco: Colecao<NotaFiscal>, id: int, email: Option<string>, agora: int)
    returns (r: Option<NF>)
    modifies banco
    ensures r.None? <==> !TemId(old(banco.registros), id)
    ensures r.None? ==> banco.registros == old(banco.registros)
    ensures r.Some? ==> (banco.registros ==
              AplicarPorId(old(banco.registros), id, Aplicacao(Envio(email.GetOr(""), agora))))
    ensures r.Some? ==> r.value.id == id && r.value in banco.registros && r.value.dados.status == "enviada"
  {
    r := AtualizarNotaFiscal(banco, id, Envio(email.GetOr(""), agora));
    if r.Some? {
      ghost var k :| 0 <= k < |banco.registros| && banco.registros[k] == r.value;
      assert old(banco.registros)[k].id == id;
    }
  }

  /** `deletarNotaFiscal(id)`. */
  method DeletarNotaFiscal(banco: Colecao<NotaFiscal>, id: int)
    modifies banco
    ensures banco.registros == RemoverPorId(old(banco.registros), id)
  {
    banco.Delete(id);
  }

  function ComStatus(status: string): NF -> bool {
    (x: NF) => x.dados.status == status
  }

  /** An invoice whose net value is its service value less its total tax, as every new invoice is. */
  predicate LiquidoCoerente(x: NF) {
    x.dados.valorLiquido == x.dados.valorServico - x.dados.impostos.total
  }

  lemma NovaNotaCoerente(d: DadosNotaFiscal, agora: Relogio.Instante, rnd: Aleatorios, id: int)
    requires AleatoriosValidos(rnd)
    ensures LiquidoCoerente(Registro(id, NovaNotaFiscal(d, agora, rnd)))
  {
  }

  datatype EstatisticasNotas = EstatisticasNotas(
    total: nat, emitidas: nat, enviadas: nat, canceladas: nat,
    valorTotalServicos: real, valorTotalImpostos: real, valorTotalLiquido: real)

  /** `obterEstatisticasNotasFiscais()`. The three status counts never exceed the number of invoices and reach it
      when every status is one of the three; over invoices whose net value is coherent the net total is the
      service total less the tax total. */
  function ObterEstatisticasNotasFiscais(ns: seq<NF>): (e: EstatisticasNotas)
    ensures e.total == |ns|
    ensures e.emitidas == |Seqs.Filter(ns, ComStatus("emitida"))|
    ensures e.enviadas == |Seqs.Filter(ns, ComStatus("enviada"))|
    ensures e.canceladas == |Seqs.Filter(ns, ComStatus("cancelada"))|
    ensures e.emitidas + e.enviadas + e.canceladas <= e.total
    ensures (forall x :: x in ns ==> x.dados.status in {"emitida", "enviada", "cancelada"}) ==>
              e.emitidas + e.enviadas + e.canceladas == e.total
    ensures e.valorTotalServicos == Seqs.Sum(ns, ValorServico)
    ensures e.valorTotalImpostos == Seqs.Sum(ns, TotalImpostos)
    ensures e.valorTotalLiquido == Seqs.Sum(ns, ValorLiquido)
    ensures (forall x :: x in ns ==> LiquidoCoerente(x)) ==>
              e.valorTotalLiquido == e.valorTotalServicos - e.valorTotalImpostos
  {
    Seqs.CountThree(ns, ComStatus("emitida"), ComStatus("enviada"), ComStatus("cancelada"));
    var e := EstatisticasNotas(
      |ns|,
      |Seqs.Filter(ns, ComStatus("emitida"))|,
      |Seqs.Filter(ns, ComStatus("enviada"))|,
      |Seqs.Filter(ns, ComStatus("cancelada"))|,
      Seqs.Sum(ns, ValorServico), Seqs.Sum(ns, TotalImpostos), Seqs.Sum(ns, ValorLiquido));
    if forall x :: x in ns ==> LiquidoCoerente(x) then
      Seqs.SumDiferenca(ns, ValorLiquido, ValorServico, TotalImpostos);
      e
    else
      e
  }

  // Grouping by tax regime.

  /** One group of `obterNotasPorRegimeTributario()`. */
  datatype GrupoRegime = GrupoRegime(quantidade: nat, valorServicos: real, valorImpostos: real, notas: seq<NF>)

  datatype PorRegime = PorRegime(chaves: seq<string>, grupos: map<string, GrupoRegime>)

  /** `gr` holds exactly the invoices of `ns` under regime `k`, in order, with their number, service total and
      tax total. */
  predicate ResumeRegime(ns: seq<NF>, k: string, gr: GrupoRegime) {
    gr.notas == Seqs.Filter(ns, Seqs.ComChave(Regime, k)) &&
    gr.quantidade == |gr.notas| &&
    gr.valorServicos == Seqs.Sum(gr.notas, ValorServico) &&
    gr.valorImpostos == Seqs.Sum(gr.notas, TotalImpostos)
  }

  predicate RegimesResumem(ns: seq<NF>, grupos: map<string, GrupoRegime>) {
    forall k :: k in grupos ==> ResumeRegime(ns, k, grupos[k]) && grupos[k].quantidade > 0
  }

  /** `g` groups `ns` by regime: one non-empty group per regime that occurs. */
  predicate AgrupaPorRegime(ns: seq<NF>, g: PorRegime) {
    Seqs.ChavesCoerentes(g.chaves, g.grupos) && Seqs.CobreChaves(ns, Regime, g.grupos) && RegimesResumem(ns, g.grupos)
  }

  function RegimeAtual(grupos: map<string, GrupoRegime>, k: string): GrupoRegime {
    if k in grupos then grupos[k] else GrupoRegime(0, 0.0, 0.0, [])
  }

  /** The group with one more invoice counted, added and appended. */
  function ComNotaRegime(gr: GrupoRegime, x: NF): GrupoRegime {
    GrupoRegime(gr.quantidade + 1, gr.valorServicos + ValorServico(x), gr.valorImpostos + TotalImpostos(x), gr.notas + [x])
  }

  lemma RegimePasso(s: seq<NF>, x: NF, k: string, gr: GrupoRegime)
    requires ResumeRegime(s, k, gr)
    ensures ResumeRegime(s + [x], k, if Regime(x) == k then ComNotaRegime(gr, x) else gr)
  {
    Seqs.FilterSnoc(s, x, Seqs.ComChave(Regime, k));
    Seqs.SumSnoc(gr.notas, x, ValorServico);
    Seqs.SumSnoc(gr.notas, x, TotalImpostos);
  }

  lemma PassoRegimes(s: seq<NF>, x: NF, grupos: map<string, GrupoRegime>)
    requires Seqs.CobreChaves(s, Regime, grupos) && RegimesResumem(s, grupos)
    ensures RegimesResumem(s + [x], grupos[Regime(x) := ComNotaRegime(RegimeAtual(grupos, Regime(x)), x)])
  {
    var r := Regime(x);
    if r !in grupos {
      Seqs.FilterNenhum(s, Regime, r);
    }
    RegimePasso(s, x, r, RegimeAtual(grupos, r));
    PassoRegimesOutros(s, x, grupos);
    var novo := ComNotaRegime(RegimeAtual(grupos, r), x);
    var m := grupos[r := novo];
    forall k | k in m
      ensures ResumeRegime(s + [x], k, m[k]) && m[k].quantidade > 0
    {
      if k == r {
        assert m[k] == novo;
      } else {
        assert m[k] == grupos[k];
      }
    }
  }

  lemma PassoRegimesOutros(s: seq<NF>, x: NF, grupos: map<string, GrupoRegime>)
    requires RegimesResumem(s, grupos)
    ensures forall k :: k in grupos && k != Regime(x) ==> ResumeRegime(s + [x], k, grupos[k])
  {
    forall k | k in grupos && k != Regime(x)
      ensures ResumeRegime(s + [x], k, grupos[k])
    {
      RegimePasso(s, x, k, grupos[k]);
    }
  }

  lemma PassoAgrupamentoRegime(ns: seq<NF>, i: nat, g: PorRegime)
    requires i < |ns| && AgrupaPorRegime(ns[..i], g)
    ensures AgrupaPorRegime(ns[..i + 1], PorRegime(
              if Regime(ns[i]) in g.grupos then g.chaves else g.chaves + [Regime(ns[i])],
              g.grupos[Regime(ns[i]) := ComNotaRegime(RegimeAtual(g.grupos, Regime(ns[i])), ns[i])]))
  {
    var s, x := ns[..i], ns[i];
    Seqs.PrefixoSnoc(ns, i);
    var novo := ComNotaRegime(RegimeAtual(g.grupos, Regime(x)), x);
    Seqs.ChavesPasso(g.chaves, g.grupos, Regime(x), novo);
    Seqs.CobrePasso(s, x, Regime, g.grupos, novo);
    PassoRegimes(s, x, g.grupos);
  }

  /** `obterNotasPorRegimeTributario()`: a pass over the invoices that opens a group the first time a regime is
      seen and then counts, sums and appends the invoice to its group. */
  method ObterNotasPorRegimeTributario(ns: seq<NF>) returns (g: PorRegime)
    ensures AgrupaPorRegime(ns, g)
  {
    var chaves: seq<string> := [];
    var grupos: map<string, GrupoRegime> := map[];
    for i := 0 to |ns|
      invariant AgrupaPorRegime(ns[..i], PorRegime(chaves, grupos))
    {
      var nota := ns[i];
      var regime := nota.dados.regime;
      PassoAgrupamentoRegime(ns, i, PorRegime(chaves, grupos));
      if regime !in grupos {
        chaves := chaves + [regime];
      }
      grupos := grupos[regime := ComNotaRegime(RegimeAtual(grupos, regime), nota)];
    }
    assert ns[..|ns|] == ns;
    g := PorRegime(chaves, grupos);
  }

  /** The regime grouping is a partition: each invoice is in its own regime's group only, the counts add up to
      the number of invoices and the group totals to the overall service and tax totals. */
  lemma RegimesParticionam(ns: seq<NF>, g: PorRegime)
    requires AgrupaPorRegime(ns, g)
    ensures forall x, k :: x in ns && k in g.grupos ==> (x in g.grupos[k].notas <==> Regime(x) == k)
    ensures Seqs.ContaGrupos(g.chaves, g.grupos, (gr: GrupoRegime) => gr.quantidade) == |ns|
    ensures Seqs.SomaGrupos(g.chaves, g.grupos, (gr: GrupoRegime) => gr.valorServicos) == Seqs.Sum(ns, ValorServico)
    ensures Seqs.SomaGrupos(g.chaves, g.grupos, (gr: GrupoRegime) => gr.valorImpostos) == Seqs.Sum(ns, TotalImpostos)
  {
    Seqs.ContaGruposPorChave(ns, g.chaves, g.grupos, Regime, (gr: GrupoRegime) => gr.quantidade);
    Seqs.SomaGruposPorChave(ns, g.chaves, g.grupos, Regime, (gr: GrupoRegime) => gr.valorServicos, ValorServico);
    Seqs.SomaGruposPorChave(ns, g.chaves, g.grupos, Regime, (gr: GrupoRegime) => gr.valorImpostos, TotalImpostos);
    Seqs.ParticaoContagem(ns, g.chaves, Regime);
    Seqs.ParticaoSoma(ns, g.chaves, Regime, ValorServico);
    Seqs.ParticaoSoma(ns, g.chaves, Regime, TotalImpostos);
  }

  // Grouping by service type.

  /** One group of `obterNotasPorTipoServico()`. */
  datatype GrupoTipo = GrupoTipo(quantidade: nat, valorServicos: real, notas: seq<NF>)

  datatype PorTipo = PorTipo(chaves: seq<string>, grupos: map<string, GrupoTipo>)

  predicate ResumeTipo(ns: seq<NF>, k: string, gr: GrupoTipo) {
    gr.notas == Seqs.Filter(ns, Seqs.ComChave(TipoServico, k)) &&
    gr.quantidade == |gr.notas| &&
    gr.valorServicos == Seqs.Sum(gr.notas, ValorServico)
  }

  predicate TiposResumem(ns: seq<NF>, grupos: map<string, GrupoTipo>) {
    forall k :: k in grupos ==> ResumeTipo(ns, k, grupos[k]) && grupos[k].quantidade > 0
  }

  /** `g` groups `ns` by service type: one non-empty group per type that occurs. */
  predicate AgrupaPorTipo(ns: seq<NF>, g: PorTipo) {
    Seqs.ChavesCoerentes(g.chaves, g.grupos) && Seqs.CobreChaves(ns, TipoServico, g.grupos) && TiposResumem(ns, g.grupos)
  }

  function TipoAtual(grupos: map<string, GrupoTipo>, k: string): GrupoTipo {
    if k in grupos then grupos[k] else GrupoTipo(0, 0.0, [])
  }

  function ComNotaTipo(gr: GrupoTipo, x: NF): GrupoTipo {
    GrupoTipo(gr.quantidade + 1, gr.valorServicos + ValorServico(x), gr.notas + [x])
  }

  lemma TipoPasso(s: seq<NF>, x: NF, k: string, gr: GrupoTipo)
    requires ResumeTipo(s, k, gr)
    ensures ResumeTipo(s + [x], k, if TipoServico(x) == k then ComNotaTipo(gr, x) else gr)
  {
    Seqs.FilterSnoc(s, x, Seqs.ComChave(TipoServico, k));
    Seqs.SumSnoc(gr.notas, x, ValorServico);
  }

  lemma PassoTipos(s: seq<NF>, x: NF, grupos: map<string, GrupoTipo>)
    requires Seqs.CobreChaves(s, TipoServico, grupos) && TiposResumem(s, grupos)
    ensures TiposResumem(s + [x], grupos[TipoServico(x) := ComNotaTipo(TipoAtual(grupos, TipoServico(x)), x)])
  {
    var t := TipoServico(x);
    if t !in grupos {
      Seqs.FilterNenhum(s, TipoServico, t);
    }
    TipoPasso(s, x, t, TipoAtual(grupos, t));
    PassoTiposOutros(s, x, grupos);
    var novo := ComNotaTipo(TipoAtual(grupos, t), x);
    var m := grupos[t := novo];
    forall k | k in m
      ensures ResumeTipo(s + [x], k, m[k]) && m[k].quantidade > 0
    {
      if k == t {
        assert m[k] == novo;
      } else {
        assert m[k] == grupos[k];
      }
    }
  }

  lemma PassoTiposOutros(s: seq<NF>, x: NF, grupos: map<string, GrupoTipo>)
    requires TiposResumem(s, grupos)
    ensures forall k :: k in grupos && k != TipoServico(x) ==> ResumeTipo(s + [x], k, grupos[k])
  {
    forall k | k in grupos && k != TipoServico(x)
      ensures ResumeTipo(s + [x], k, grupos[k])
    {
      TipoPasso(s, x, k, grupos[k]);
    }
  }

  lemma PassoAgrupamentoTipo(ns: seq<NF>, i: nat, g: PorTipo)
    requires i < |ns| && AgrupaPorTipo(ns[..i], g)
    ensures AgrupaPorTipo(ns[..i + 1], PorTipo(
              if TipoServico(ns[i]) in g.grupos then g.chaves else g.chaves + [TipoServico(ns[i])],
              g.grupos[TipoServico(ns[i]) := ComNotaTipo(TipoAtual(g.grupos, TipoServico(ns[i])), ns[i])]))
  {
    var s, x := ns[..i], ns[i];
    Seqs.PrefixoSnoc(ns, i);
    var novo := ComNotaTipo(TipoAtual(g.grupos, TipoServico(x)), x);
    Seqs.ChavesPasso(g.chaves, g.grupos, TipoServico(x), novo);
    Seqs.CobrePasso(s, x, TipoServico, g.grupos, novo);
    PassoTipos(s, x, g.grupos);
  }

  /** `obterNotasPorTipoServico()`: the same pass, keyed by service type. */
  method ObterNotasPorTipoServico(ns: seq<NF>) returns (g: PorTipo)
    ensures AgrupaPorTipo(ns, g)
  {
    var chaves: seq<string> := [];
    var grupos: map<string, GrupoTipo> := map[];
    for i := 0 to |ns|
      invariant AgrupaPorTipo(ns[..i], PorTipo(chaves, grupos))
    {
      var nota := ns[i];
      var tipo := nota.dados.tipoServico;
      PassoAgrupamentoTipo(ns, i, PorTipo(chaves, grupos));
      if tipo !in grupos {
        chaves := chaves + [tipo];
      }
      grupos := grupos[tipo := ComNotaTipo(TipoAtual(grupos, tipo), nota)];
    }
    assert ns[..|ns|] == ns;
    g := PorTipo(chaves, grupos);
  }

  /** The service-type grouping is a partition too. */
  lemma TiposParticionam(ns: seq<NF>, g: PorTipo)
    requires AgrupaPorTipo(ns, g)
    ensures forall x, k :: x in ns && k in g.grupos ==> (x in g.grupos[k].notas <==> TipoServico(x) == k)
    ensures Seqs.ContaGrupos(g.chaves, g.grupos, (gr: GrupoTipo) => gr.quantidade) == |ns|
    ensures Seqs.SomaGrupos(g.chaves, g.grupos, (gr: GrupoTipo) => gr.valorServicos) == Seqs.Sum(ns, ValorServico)
  {
    Seqs.ContaGruposPorChave(ns, g.chaves, g.grupos, TipoServico, (gr: GrupoTipo) => gr.quantidade);
    Seqs.SomaGruposPorChave(ns, g.chaves, g.grupos, TipoServico, (gr: GrupoTipo) => gr.valorServicos, ValorServico);
    Seqs.ParticaoContagem(ns, g.chaves, TipoServico);
    Seqs.ParticaoSoma(ns, g.chaves, TipoServico, ValorServico);
  }

  /** `obterNotasPorPeriodo(inicio, fim)`: the invoices issued between the two instants, both included. */
  function ObterNotasPorPeriodo(ns: seq<NF>, inicio: int, fim: int): (r: seq<NF>)
    ensures forall x :: x in r ==> x in ns && inicio <= x.dados.dataEmissao <= fim
    ensures forall x :: x in ns && inicio <= x.dados.dataEmissao <= fim ==> x in r
    ensures Seqs.Subsequence(r, ns)
  {
    Seqs.FilterIsSubsequence(ns, (x: NF) => inicio <= x.dados.dataEmissao <= fim);
    Seqs.Filter(ns, (x: NF) => inicio <= x.dados.dataEmissao <= fim)
  }

  /** The report filters; an empty string is an absent filter. */
  datatype FiltrosFiscais = FiltrosFiscais(
    status: string, regime: string, tipoServico: string, dataInicio: string, dataFim: string)

  /** The invoices the report covers: status, regime and type filters in turn, unless both dates are given, in
      which case the period filter is applied to the whole collection instead. */
  function SelecionadasRelatorio(ns: seq<NF>, f: FiltrosFiscais, lerData: string -> int): (r: seq<NF>)
    ensures forall x :: x in r ==> x in ns
  {
    var porStatus := if f.status != "" then Seqs.Filter(ns, ComStatus(f.status)) else ns;
    var porRegime := if f.regime != "" then Seqs.Filter(porStatus, Seqs.ComChave(Regime, f.regime)) else porStatus;
    var porTipo := if f.tipoServico != "" then Seqs.Filter(porRegime, Seqs.ComChave(TipoServico, f.tipoServico)) else porRegime;
    if f.dataInicio != "" && f.dataFim != "" then ObterNotasPorPeriodo(ns, lerData(f.dataInicio), lerData(f.dataFim))
    else porTipo
  }

  /** With both dates given the report covers exactly the period, whatever else was asked for. */
  lemma PeriodoDescartaOutrosFiltros(ns: seq<NF>, f: FiltrosFiscais, lerData: string -> int)
    requires f.dataInicio != "" && f.dataFim != ""
    ensures forall x :: x in SelecionadasRelatorio(ns, f, lerData) <==>
              x in ns && lerData(f.dataInicio) <= x.dados.dataEmissao <= lerData(f.dataFim)
    ensures SelecionadasRelatorio(ns, f, lerData) ==
            SelecionadasRelatorio(ns, f.(status := "", regime := "", tipoServico := ""), lerData)
  {
  }

  /** Without both dates the report covers exactly the invoices that pass every filter that was given. */
  lemma SemPeriodoAplicaFiltros(ns: seq<NF>, f: FiltrosFiscais, lerData: string -> int)
    requires f.dataInicio == "" || f.dataFim == ""
    ensures forall x :: x in SelecionadasRelatorio(ns, f, lerData) <==>
              x in ns && (f.status != "" ==> x.dados.status == f.status) &&
              (f.regime != "" ==> x.dados.regime == f.regime) &&
              (f.tipoServico != "" ==> x.dados.tipoServico == f.tipoServico)
  {
    var st, rg, tp := ComStatus(f.status), Seqs.ComChave(Regime, f.regime), Seqs.ComChave(TipoServico, f.tipoServico);
    var porStatus := if f.status != "" then Seqs.Filter(ns, st) else ns;
    var porRegime := if f.regime != "" then Seqs.Filter(porStatus, rg) else porStatus;
    var sel := SelecionadasRelatorio(ns, f, lerData);
    assert sel == if f.tipoServico != "" then Seqs.Filter(porRegime, tp) else porRegime;
    forall x
      ensures x in porStatus <==> x in ns && (f.status != "" ==> x.dados.status == f.status)
      ensures x in porRegime <==> x in porStatus && (f.regime != "" ==> x.dados.regime == f.regime)
      ensures x in sel <==> x in porRegime && (f.tipoServico != "" ==> x.dados.tipoServico == f.tipoServico)
    {
      assert st(x) == (x.dados.status == f.status);
      assert rg(x) == (Regime(x) == f.regime);
      assert tp(x) == (TipoServico(x) == f.tipoServico);
    }
  }

  datatype ResumoFiscal = ResumoFiscal(
    totalNotas: nat, valorBrutoServicos: real, valorTotalImpostos: real, valorLiquido: real, ticketMedio: real)

  /** The per-tax totals of the report. */
  datatype TotaisImpostos = TotaisImpostos(iss: real, inss: real, ir: real, cofins: real, pis: real, csll: real)

  datatype RelatorioFiscal = RelatorioFiscal(
    inicio: string, fim: string, resumo: ResumoFiscal, impostos: TotaisImpostos,
    porRegime: PorRegime, porTipoServico: PorTipo, notas: seq<NF>)

  function Iss(x: NF): real { x.dados.impostos.iss }
  function Inss(x: NF): real { x.dados.impostos.inss }
  function Ir(x: NF): real { x.dados.impostos.ir }
  function Cofins(x: NF): real { x.dados.impostos.cofins }
  function Pis(x: NF): real { x.dados.impostos.pis }
  function Csll(x: NF): real { x.dados.impostos.csll }

  /** `ticketMedio`: the mean service value, or 0 for no invoices. */
  function Media(n: nat, soma: real): (m: real)
    ensures n == 0 ==> m == 0.0
    ensures n > 0 ==> m * (n as real) == soma
  {
    if n > 0 then soma / (n as real) else 0.0
  }

  /** `gerarRelatorioFiscal(filtros)`: narrows the invoice list filter by filter, then summarises it, totals each
      tax, groups the whole collection by regime and by service type and sorts the selection by issue date,
      newest first. */
  method GerarRelatorioFiscal(ns: seq<NF>, filtros: FiltrosFiscais, lerData: string -> int)
    returns (rel: RelatorioFiscal)
    ensures var sel := SelecionadasRelatorio(ns, filtros, lerData);
            multiset(rel.notas) == multiset(sel) && Seqs.SortedDesc(rel.notas, DataEmissao) &&
            rel.resumo.totalNotas == |sel| &&
            rel.resumo.valorBrutoServicos == Seqs.Sum(sel, ValorServico) &&
            rel.resumo.valorTotalImpostos == Seqs.Sum(sel, TotalImpostos) &&
            rel.resumo.valorLiquido == Seqs.Sum(sel, ValorLiquido) &&
            rel.resumo.ticketMedio == Media(|sel|, Seqs.Sum(sel, ValorServico)) &&
            rel.impostos == TotaisImpostos(Seqs.Sum(sel, Iss), Seqs.Sum(sel, Inss), Seqs.Sum(sel, Ir),
                                           Seqs.Sum(sel, Cofins), Seqs.Sum(sel, Pis), Seqs.Sum(sel, Csll))
    ensures AgrupaPorRegime(ns, rel.porRegime) && AgrupaPorTipo(ns, rel.porTipoServico)
    ensures rel.inicio == if filtros.dataInicio != "" then filtros.dataInicio else "Desde o início"
    ensures rel.fim == if filtros.dataFim != "" then filtros.dataFim else "Até agora"
  {
    var notas := ns;
    if filtros.status != "" {
      notas := Seqs.Filter(notas, ComStatus(filtros.status));
    }
    if filtros.regime != "" {
      notas := Seqs.Filter(notas, Seqs.ComChave(Regime, filtros.regime));
    }
    if filtros.tipoServico != "" {
      notas := Seqs.Filter(notas, Seqs.ComChave(TipoServico, filtros.tipoServico));
    }
    if filtros.dataInicio != "" && filtros.dataFim != "" {
      notas := ObterNotasPorPeriodo(ns, lerData(filtros.dataInicio), lerData(filtros.dataFim));
    }
    var bruto := Seqs.Sum(notas, ValorServico);
    var resumo := ResumoFiscal(|notas|, bruto, Seqs.Sum(notas, TotalImpostos), Seqs.Sum(notas, ValorLiquido),
                               Media(|notas|, bruto));
    var impostos := TotaisImpostos(Seqs.Sum(notas, Iss), Seqs.Sum(notas, Inss), Seqs.Sum(notas, Ir),
                                   Seqs.Sum(notas, Cofins), Seqs.Sum(notas, Pis), Seqs.Sum(notas, Csll));
    var porRegime := ObterNotasPorRegimeTributario(ns);
    var porTipo := ObterNotasPorTipoServico(ns);
    rel := RelatorioFiscal(
      if filtros.dataInicio != "" then filtros.dataInicio else "Desde o início",
      if filtros.dataFim != "" then filtros.dataFim else "Até agora",
      resumo, impostos, porRegime, porTipo, Seqs.SortDesc(notas, DataEmissao));
  }

  /** Over invoices whose net value is coherent, the report's net total is its gross total less its tax total. */
  lemma RelatorioLiquidoCoerente(sel: seq<NF>)
    requires forall x :: x in sel ==> LiquidoCoerente(x)
    ensures Seqs.Sum(sel, ValorLiquido) == Seqs.Sum(sel, ValorServico) - Seqs.Sum(sel, TotalImpostos)
  {
    Seqs.SumDiferenca(sel, ValorLiquido, ValorServico, TotalImpostos);
  }

  const ERRO_COBRANCA: string := "Cobrança é obrigatória"
  const ERRO_CLIENTE: string := "Cliente é obrigatório"
  const ERRO_VALOR: string := "Valor do serviço deve ser maior que zero"
  const ERRO_DESCRICAO: string := "Descrição do serviço deve ter pelo menos 10 caracteres"

  datatype Validacao = Validacao(valido: bool, erros: seq<string>)

  /** A description is long enough when it has at least ten characters once trimmed. */
  predicate DescricaoSuficiente(descricao: string) {
    descricao != "" && |Text.Trim(descricao)| >= 10
  }

  /** What an invoice needs: a charge, a client, a positive value and a description of ten characters or more. */
  predicate NotaAceitavel(d: DadosNotaFiscal) {
    d.cobrancaId != 0 && d.clienteId != 0 && d.valorServico > 0.0 && DescricaoSuficiente(d.descricaoServico)
  }

  /** The errors `validarNotaFiscal` reports: one per failed check, in the order charge, client, value,
      description. */
  function ErrosNotaFiscal(d: DadosNotaFiscal): (r: seq<string>)
    ensures |r| <= 4
    ensures r == [] <==> NotaAceitavel(d)
  {
    (if d.cobrancaId == 0 then [ERRO_COBRANCA] else []) +
    (if d.clienteId == 0 then [ERRO_CLIENTE] else []) +
    (if d.valorServico <= 0.0 then [ERRO_VALOR] else []) +
    (if !DescricaoSuficiente(d.descricaoServico) then [ERRO_DESCRICAO] else [])
  }

  /** `validarNotaFiscal(dadosNota)`. */
  method ValidarNotaFiscal(d: DadosNotaFiscal) returns (v: Validacao)
    ensures v.erros == ErrosNotaFiscal(d)
    ensures v.valido <==> v.erros == []
    ensures v.valido <==> NotaAceitavel(d)
    ensures ERRO_DESCRICAO in v.erros <==> !DescricaoSuficiente(d.descricaoServico)
  {
    var erros: seq<string> := [];
    if d.cobrancaId == 0 {
      erros := erros + [ERRO_COBRANCA];
    }
    if d.clienteId == 0 {
      erros := erros + [ERRO_CLIENTE];
    }
    if d.valorServico <= 0.0 {
      erros := erros + [ERRO_VALOR];
    }
    ghost var tres := erros;
    assert tres == (if d.cobrancaId == 0 then [ERRO_COBRANCA] else []) +
                   (if d.clienteId == 0 then [ERRO_CLIENTE] else []) +
                   (if d.valorServico <= 0.0 then [ERRO_VALOR] else []);
    ErrosDistintos();
    assert ERRO_DESCRICAO !in tres;
    if d.descricaoServico == "" || |Text.Trim(d.descricaoServico)| < 10 {
      erros := erros + [ERRO_DESCRICAO];
    }
    assert erros == tres + (if !DescricaoSuficiente(d.descricaoServico) then [ERRO_DESCRICAO] else []);
    v := Validacao(|erros| == 0, erros);
  }

  /** The four messages differ, so each one names its own check. */
  lemma ErrosDistintos()
    ensures ERRO_DESCRICAO != ERRO_COBRANCA && ERRO_DESCRICAO != ERRO_CLIENTE && ERRO_DESCRICAO != ERRO_VALOR
  {
    assert |ERRO_COBRANCA| == 22 && |ERRO_CLIENTE| == 21 && |ERRO_VALOR| == 40 && |ERRO_DESCRICAO| == 54;
  }

  /** Exactly ten characters pass. */
  lemma DescricaoDeDezPassa()
    ensures DescricaoSuficiente("Consultor1")
  {
    TrimSemEspacos("Consultor1");
  }

  /** Nine characters, or ten only counting a leading space, do not. */
  lemma DescricaoCurtaFalha()
    ensures !DescricaoSuficiente("Consultor")
    ensures !DescricaoSuficiente(" Consultor")
  {
    assert |Text.Trim("Consultor")| <= 9;
    TrimTiraInicio(" Consultor");
  }

  lemma TrimSemEspacos(s: string)
    requires s != [] && !Text.IsWhitespace(s[0]) && !Text.IsWhitespace(s[|s| - 1])
    ensures Text.Trim(s) == s
  {
  }

  lemma TrimTiraInicio(s: string)
    requires s != [] && Text.IsWhitespace(s[0])
    ensures |Text.Trim(s)| < |s|
  {
  }

  /** `Math.floor(v * 100)`: a value in whole cents, rounded down. */
  function Centavos(v: real): (c: int)
    ensures c as real <= v * 100.0 < c as real + 1.0
  {
    (v * 100.0).Floor
  }

  /** `gerarCodigoBarras(nota)`: the regime code, the last ten digits of the clock in milliseconds and the tax
      total in cents left-padded with zeros to eight digits, cut at 47 characters. */
  function GerarCodigoBarras(nf: NotaFiscal, agoraMs: nat): (r: string)
    ensures 2 <= |r| <= 47 && r[..2] == CodigoRegime(nf.regime)
  {
    MontarCodigo(CodigoRegime(nf.regime), agoraMs, Centavos(nf.impostos.total))
  }

  function MontarCodigo(regime: string, agoraMs: nat, centavos: int): (r: string)
    requires |regime| == 2
    ensures 2 <= |r| <= 47 && r[..2] == regime
  {
    var timestamp := Text.LastChars(Text.NatToString(agoraMs), 10);
    var valor := Text.PadStart(Text.IntToString(centavos), 8, '0');
    CortePreservaRegime(regime, timestamp, valor);
    Text.Substring(regime + timestamp + valor, 0, 47)
  }

  /** Cutting at 47 characters keeps the two-character regime code at the front. */
  lemma CortePreservaRegime(regime: string, timestamp: string, valor: string)
    requires |regime| == 2
    ensures var r := Text.Substring(regime + timestamp + valor, 0, 47); 2 <= |r| <= 47 && r[..2] == regime
  {
    var bruto := regime + timestamp + valor;
    assert Text.Clamp(0, |bruto|) == 0 && Text.Clamp(47, |bruto|) >= 2;
    assert bruto[..2] == regime;
  }

  /** The two-digit regime code that opens a bar code: "01" for Simples Nacional and "02" for any other regime. */
  function CodigoRegime(regime: string): (r: string)
    ensures |r| == 2 && Text.AllDigits(r) && r[0] == '0'
    ensures r[1] == '1' <==> regime == SIMPLES_NACIONAL
  {
    if regime == SIMPLES_NACIONAL then "01" else "02"
  }

  /** With a clock of at least ten digits and a tax total below a million, the code is exactly twenty digits: the
      regime code, the last ten digits of the clock, and eight digits that read back as the tax in cents. */
  lemma CodigoBarrasCampos(nf: NotaFiscal, agoraMs: nat)
    requires agoraMs >= 1000000000 && 0.0 <= nf.impostos.total < 1000000.0
    ensures var r := GerarCodigoBarras(nf, agoraMs);
            var relogio := Text.NatToString(agoraMs);
            |r| == 20 && Text.AllDigits(r) && r[..2] == CodigoRegime(nf.regime) &&
            r[2..12] == Text.LastChars(relogio, 10) && Text.DigitsValue(r[12..]) == Centavos(nf.impostos.total)
  {
    var c := Centavos(nf.impostos.total);
    assert 0 <= c < 100000000;
    MontagemVinteDigitos(CodigoRegime(nf.regime), agoraMs, c);
  }

  lemma MontagemVinteDigitos(regime: string, agoraMs: nat, centavos: nat)
    requires |regime| == 2 && Text.AllDigits(regime)
    requires agoraMs >= 1000000000 && centavos < 100000000
    ensures var r := MontarCodigo(regime, agoraMs, centavos);
            var relogio := Text.NatToString(agoraMs);
            |r| == 20 && Text.AllDigits(r) && r[..2] == regime &&
            r[2..12] == Text.LastChars(relogio, 10) && Text.DigitsValue(r[12..]) == centavos
  {
    var ts := Text.LastChars(Text.NatToString(agoraMs), 10);
    var cs := Relogio.ComZeros(centavos, 8);
    assert Text.IntToString(centavos) == Text.NatToString(centavos);
    RelogioDezDigitos(agoraMs);
    PotenciasDeDez();
    Relogio.ComZerosDigitos(centavos, 8);
    Relogio.ZerosAEsquerda(centavos, 8);
    Text.DigitosConcatenados(regime, ts);
    Text.DigitosConcatenados(regime + ts, cs);
    var bruto := regime + ts + cs;
    assert |bruto| == 20;
    assert Text.Clamp(0, 20) == 0 && Text.Clamp(47, 20) == 20;
    assert bruto[0..20] == bruto;
    assert bruto[2..12] == ts && bruto[12..] == cs;
  }

  /** The last ten digits of a clock reading of ten digits or more. */
  lemma RelogioDezDigitos(agoraMs: nat)
    requires agoraMs >= 1000000000
    ensures |Text.LastChars(Text.NatToString(agoraMs), 10)| == 10
    ensures Text.AllDigits(Text.LastChars(Text.NatToString(agoraMs), 10))
  {
    PotenciasDeDez();
    Text.NatToStringLength(agoraMs, 9);
    var s := Text.NatToString(agoraMs);
    var ts := Text.LastChars(s, 10);
    forall i | 0 <= i < |ts| ensures Text.IsDigit(ts[i]) {
      assert ts[i] == s[|s| - |ts| + i];
    }
  }

  lemma PotenciasDeDez()
    ensures Text.Pow10(8) == 100000000 && Text.Pow10(9) == 1000000000
  {
    assert Text.Pow10(1) == 10;
    assert Text.Pow10(4) == 10000;
  }

  /** A tax-payment slip. */
  datatype Guia = Guia(notaFiscal: string, dataVencimento: int, impostos: Impostos, valorTotal: real, codigoBarras: string)

  /** `gerarGuiaRecolhimento(notaFiscalId)`: nothing for an unknown id; otherwise a slip for the first invoice with
      the id, due when the invoice is due, for the invoice's total tax. */
  function GerarGuiaRecolhimento(ns: seq<NF>, id: int, agoraMs: nat): (r: Option<Guia>)
    ensures r.None? <==> forall i :: 0 <= i < |ns| ==> ns[i].id != id
    ensures r.Some? ==> (exists k ::
                           0 <= k < |ns| && ns[k].id == id && (forall j :: 0 <= j < k ==> ns[j].id != id) &&
                           r.value == Guia(FormatarNumero(ns[k].dados), ns[k].dados.dataVencimento,
                                           ns[k].dados.impostos, ns[k].dados.impostos.total,
                                           GerarCodigoBarras(ns[k].dados, agoraMs)))
  {
    match PegarNotaFiscalPorId(ns, id)
    case None => None
    case Some(x) =>
      var nf := x.dados;
      Some(Guia(FormatarNumero(nf), nf.dataVencimento, nf.impostos, nf.impostos.total, GerarCodigoBarras(nf, agoraMs)))
  }
}
