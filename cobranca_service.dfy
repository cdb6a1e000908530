/** The charge service (src/services/CobrancaService.js) over the "cobrancas" collection of the store. */
module CobrancaService {
  import opened Wrappers
  import opened BancoDados
  import Seqs
  import Relogio
  import opened CobrancaModel

  type Cob = Registro<Cobranca>

  function Valor(x: Cob): real { x.dados.valor }

  /** `cadastrarCobranca(cobranca)`: builds the charge (unpaid, dated by the clock) and appends it under the id the
      store assigns. Nothing is validated here. */
  method CadastrarCobranca(
    banco: Colecao<Cobranca>, d: DadosCobranca, agora: Relogio.Instante, dataLocal: Relogio.Instante -> string,
    novoId: int
  ) returns (r: Cob)
    modifies banco
    ensures r == Registro(novoId, NovaCobranca(d, agora, dataLocal)) && !r.dados.status
    ensures banco.registros == old(banco.registros) + [r]
  {
    r := banco.Post(NovaCobranca(d, agora, dataLocal), novoId);
  }

  /** `deletarCobranca(id)`. */
  method DeletarCobranca(banco: Colecao<Cobranca>, id: int)
    modifies banco
    ensures banco.registros == RemoverPorId(old(banco.registros), id)
  {
    banco.Delete(id);
  }

  /** The fields an update writes; `None` leaves a field as it is. */
  datatype AlteracaoCobranca = AlteracaoCobranca(
    data: Option<string>, descricao: Option<string>, valor: Option<real>, cliente: Option<int>, status: Option<bool>)

  /** Overwrites the fields the update carries. */
  function Mesclar(c: Cobranca, a: AlteracaoCobranca): Cobranca {
    Cobranca(a.data.GetOr(c.data), a.descricao.GetOr(c.descricao), a.valor.GetOr(c.valor),
             a.cliente.GetOr(c.cliente), a.status.GetOr(c.status))
  }

  /** The update as the patch the store applies to each record with the id. */
  function Aplicacao(a: AlteracaoCobranca): Cobranca -> Cobranca {
    (c: Cobranca) => Mesclar(c, a)
  }

  /** An update that only carries the status. */
  function SoStatus(status: bool): AlteracaoCobranca {
    AlteracaoCobranca(None, None, None, None, Some(status))
  }

  /** Marking a charge sets its status and changes nothing else. */
  lemma MarcarSoAlteraStatus(c: Cobranca, status: bool)
    ensures Mesclar(c, SoStatus(status)).status == status
    ensures Mesclar(c, SoStatus(status)).(status := c.status) == c
  {
  }

  /** `atualizarCobranca(id, dadosAtualizados)`. */
  method AtualizarCobranca(banco: Colecao<Cobranca>, id: int, a: AlteracaoCobranca) returns (r: Option<Cob>)
    modifies banco
    ensures r.None? <==> !TemId(old(banco.registros), id)
    ensures r.None? ==> banco.registros == old(banco.registros)
    ensures r.Some? ==> banco.registros == AplicarPorId(old(banco.registros), id, Aplicacao(a))
    ensures r.Some? ==> r.value.id == id && r.value in banco.registros
  {
    r := banco.Update(id, Aplicacao(a));
  }

  /** `marcarComoPaga(id)` (`status` true) and `marcarComoPendente(id)` (`status` false). */
  method MarcarStatus(banco: Colecao<Cobranca>, id: int, status: bool) returns (r: Option<Cob>)
    modifies banco
    ensures r.None? <==> !TemId(old(banco.registros), id)
    ensures r.None? ==> banco.registros == old(banco.registros)
    ensures r.Some? ==> (banco.registros ==
              AplicarPorId(old(banco.registros), id, Aplicacao(SoStatus(status))))
    ensures r.Some? ==> r.value.id == id && r.value in banco.registros && r.value.dados.status == status
  {
    r := AtualizarCobranca(banco, id, SoStatus(status));
    if r.Some? {
      ghost var k :| 0 <= k < |banco.registros| && banco.registros[k] == r.value;
      assert old(banco.registros)[k].id == id;
    }
  }

  /** `buscarCobrancaPorId(id)`: the first charge with the id, if any. */
  function BuscarCobrancaPorId(cs: seq<Cob>, id: int): (r: Option<Cob>)
    ensures r.None? <==> forall i :: 0 <= i < |cs| ==> cs[i].id != id
    ensures r.Some? ==> (r.value.id == id &&
              exists k :: 0 <= k < |cs| && cs[k] == r.value && forall j :: 0 <= j < k ==> cs[j].id != id)
  {
    BuscarPorId(cs, id)
  }

  /** `buscarCobrancasPorCliente(clienteId)`: the client's charges, in collection order. */
  function BuscarCobrancasPorCliente(cs: seq<Cob>, clienteId: int): (r: seq<Cob>)
    ensures forall x :: x in r ==> x in cs && x.dados.cliente == clienteId
    ensures forall x :: x in cs && x.dados.cliente == clienteId ==> x in r
    ensures Seqs.Subsequence(r, cs)
  {
    Seqs.FilterIsSubsequence(cs, (x: Cob) => x.dados.cliente == clienteId);
    Seqs.Filter(cs, (x: Cob) => x.dados.cliente == clienteId)
  }

  /** The charges with a status. */
  function ComStatus(status: bool): Cob -> bool {
    (x: Cob) => x.dados.status == status
  }

  /** `calcularTotal(filtroStatus)`: the sum of the values, over the charges with the status when one is given
      (`false` included: the test is against `null`) and over all charges otherwise. */
  function CalcularTotal(cs: seq<Cob>, filtroStatus: Option<bool>): (r: real)
    ensures filtroStatus.None? ==> r == Seqs.Sum(cs, Valor)
    ensures filtroStatus.Some? ==> r == Seqs.Sum(Seqs.Filter(cs, ComStatus(filtroStatus.value)), Valor)
  {
    match filtroStatus
    case None => Seqs.Sum(cs, Valor)
    case Some(s) => Seqs.Sum(Seqs.Filter(cs, ComStatus(s)), Valor)
  }

  /** The paid total and the pending total add up to the overall total. */
  lemma {:induction false} PagoMaisPendente(cs: seq<Cob>)
    ensures CalcularTotal(cs, Some(true)) + CalcularTotal(cs, Some(false)) == CalcularTotal(cs, None)
  {
    Seqs.SumSplit(cs, ComStatus(true), ComStatus(false), Valor);
  }
}
