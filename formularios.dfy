/** What the payment and invoice forms receive from the pages around them. */
module Formularios {
  import opened Wrappers

  /** The charge object a form is opened with: a stored charge's id and fields, together with the two fields the
      forms read besides them, `valorPendente` and `tipoServico`, which the charge model does not define and which
      are `None` (JavaScript's `undefined`) unless an update has written them into the record. */
  datatype CobrancaDoFormulario = CobrancaDoFormulario(
    id: int, cliente: int, descricao: string, valor: real, valorPendente: Option<real>, tipoServico: Option<string>)

  /** `a || b` on two numbers that may be absent: a present, non-zero `a`, otherwise `b`. */
  function OuNumero(a: Option<real>, b: Option<real>): (r: Option<real>)
    ensures a.Some? && a.value != 0.0 ==> r == a
    ensures a.None? || a.value == 0.0 ==> r == b
  {
    if a.Some? && a.value != 0.0 then a else b
  }

  /** A number that may be absent, with 0 read as absent. */
  function NaoNulo(v: Option<real>): Option<real> {
    OuNumero(v, None)
  }
}
