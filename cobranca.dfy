/** A charge to a client (src/models/Cobranca.js). */
module CobrancaModel {
  import opened Wrappers
  import Relogio

  /** A charge. `data` is the issue date as a local date string, `cliente` the client's id and `status` true once
      the charge is paid. */
  datatype Cobranca = Cobranca(data: string, descricao: string, valor: real, cliente: int, status: bool)

  /** The constructor's argument object. Callers may also pass `status` and `data` (src/app.js does); the
      constructor never reads them. */
  datatype DadosCobranca = DadosCobranca(
    descricao: string, valor: real, cliente: int, status: Option<bool>, data: Option<string>)

  /** `new Cobranca({...})`. `agora` is the clock reading and `dataLocal` the pt-BR date formatter behind
      `Cobranca.getData()`. */
  function NovaCobranca(d: DadosCobranca, agora: Relogio.Instante, dataLocal: Relogio.Instante -> string): (c: Cobranca)
    ensures !c.status
    ensures c.descricao == d.descricao && c.valor == d.valor && c.cliente == d.cliente
    ensures c.data == dataLocal(agora)
  {
    Cobranca(dataLocal(agora), d.descricao, d.valor, d.cliente, false)
  }

  /** Only the description, value and client of the argument matter: whatever `status` or `data` it carries, the
      new charge is the same, unpaid and dated by the clock. */
  lemma NovaCobrancaIgnoraStatusEData(
    d1: DadosCobranca, d2: DadosCobranca, agora: Relogio.Instante, dataLocal: Relogio.Instante -> string)
    requires d1.descricao == d2.descricao && d1.valor == d2.valor && d1.cliente == d2.cliente
    ensures NovaCobranca(d1, agora, dataLocal) == NovaCobranca(d2, agora, dataLocal)
    ensures d1.status == Some(true) ==> !NovaCobranca(d1, agora, dataLocal).status
    ensures d1.data.Some? ==> NovaCobranca(d1, agora, dataLocal).data == dataLocal(agora)
  {
  }
}
