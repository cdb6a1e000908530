/** A payment of a charge (src/models/Pagamento.js). */
module PagamentoModel {
  import opened Wrappers
  import opened Text
  import Relogio
  import FormaPagamentoModel

  /** A payment. Instants are epoch milliseconds. `status` is one of "pendente", "confirmado" and "cancelado" in
      practice, but any string can be stored. The last three fields are written only by the service's cancel and
      confirm operations. */
  datatype Pagamento = Pagamento(
    cobrancaId: int, formaPagamento: string, valor: real, observacoes: string,
    comprovante: Option<string>, identificadorPagamento: string,
    dataPagamento: int, dataRegistro: int, status: string,
    motivoCancelamento: Option<string>, dataCancelamento: Option<int>, dataConfirmacao: Option<int>)

  /** The constructor's argument object. For `comprovante` and `identificadorPagamento`, `None` is an argument
      that is absent or null; for `observacoes` it is an absent argument only. A missing charge id is 0. */
  datatype DadosPagamento = DadosPagamento(
    cobrancaId: int, formaPagamento: string, valor: real, observacoes: Option<string>,
    comprovante: Option<string>, identificadorPagamento: Option<string>)

  /** A base-36 character as `toString(36)` writes it. */
  predicate Base36(c: char) {
    IsDigit(c) || 'a' <= c <= 'z'
  }

  /** The random part of an identifier: characters 2 to 7 of `Math.random().toString(36)`, upper-cased. */
  function SufixoAleatorio(aleatorio36: string): (r: string)
    ensures |r| <= 6
  {
    ToUpperAscii(Substring(aleatorio36, 2, 8))
  }

  /** `gerarIdentificador()`: "PAG", the decimal timestamp `agoraMs`, and the random part. */
  function GerarIdentificador(agoraMs: nat, aleatorio36: string): (r: string)
    ensures |r| == 3 + |NatToString(agoraMs)| + |SufixoAleatorio(aleatorio36)|
    ensures r[..3] == "PAG"
    ensures r[3..3 + |NatToString(agoraMs)|] == NatToString(agoraMs)
    ensures r[3 + |NatToString(agoraMs)|..] == SufixoAleatorio(aleatorio36)
  {
    "PAG" + NatToString(agoraMs) + SufixoAleatorio(aleatorio36)
  }

  /** When the random string is a base-36 numeral "0.xxxx…", the random part of the identifier is made of decimal
      digits and upper-case letters only. */
  lemma SufixoMaiusculo(aleatorio36: string)
    requires |aleatorio36| >= 2 && aleatorio36[..2] == "0."
    requires forall i :: 2 <= i < |aleatorio36| ==> Base36(aleatorio36[i])
    ensures forall c :: c in SufixoAleatorio(aleatorio36) ==> IsDigit(c) || 'A' <= c <= 'Z'
  {
    var m := Substring(aleatorio36, 2, 8);
    var r := SufixoAleatorio(aleatorio36);
    forall i | 0 <= i < |r| ensures IsDigit(r[i]) || 'A' <= r[i] <= 'Z' {
      assert m[i] == aleatorio36[2 + i];
    }
  }

  /** `new Pagamento({...})`. `agora` is the single clock reading behind its `Date.now()` and `new Date()` calls. */
  function NovoPagamento(d: DadosPagamento, agora: Relogio.Instante, aleatorio36: string): (p: Pagamento)
    ensures p.status == "confirmado"
    ensures p.cobrancaId == d.cobrancaId && p.formaPagamento == d.formaPagamento && p.valor == d.valor
    ensures p.observacoes == (if d.observacoes.Some? then d.observacoes.value else "")
    ensures p.comprovante == d.comprovante
    ensures d.identificadorPagamento.Some? && d.identificadorPagamento.value != "" ==>
              p.identificadorPagamento == d.identificadorPagamento.value
    ensures d.identificadorPagamento.None? || d.identificadorPagamento.value == "" ==>
              p.identificadorPagamento == GerarIdentificador(agora.epochMs, aleatorio36)
    ensures p.dataPagamento == agora.epochMs && p.dataRegistro == agora.epochMs
    ensures p.motivoCancelamento.None? && p.dataCancelamento.None? && p.dataConfirmacao.None?
  {
    var ident :=
      if d.identificadorPagamento.Some? && d.identificadorPagamento.value != "" then d.identificadorPagamento.value
      else GerarIdentificador(agora.epochMs, aleatorio36);
    Pagamento(d.cobrancaId, d.formaPagamento, d.valor, d.observacoes.GetOr(""), d.comprovante, ident,
              agora.epochMs, agora.epochMs, "confirmado", None, None, None)
  }

  /** Decimal digits are kept by `slice(-k)`. */
  lemma UltimosDigitos(s: string, k: nat)
    requires AllDigits(s)
    ensures AllDigits(LastChars(s, k))
  {
    var r := LastChars(s, k);
    forall i | 0 <= i < |r| ensures IsDigit(r[i]) {
      assert r[i] == s[|s| - |r| + i];
    }
  }

  /** The twelve-character date and time part of a transaction number: two-digit year, month, day, hour, minute
      and second. */
  function Carimbo(agora: Relogio.Instante): (r: string)
    ensures Relogio.Valido(agora) ==> |r| == 12
  {
    CamposDoCarimbo(agora);
    LastChars(NatToString(agora.ano), 2) + Relogio.Dois(agora.mes) + Relogio.Dois(agora.dia) +
    Relogio.Dois(agora.hora) + Relogio.Dois(agora.minuto) + Relogio.Dois(agora.segundo)
  }

  /** On a valid clock reading every field of the date and time part has two characters. */
  lemma CamposDoCarimbo(agora: Relogio.Instante)
    ensures Relogio.Valido(agora) ==>
              |LastChars(NatToString(agora.ano), 2)| == 2 && |Relogio.Dois(agora.mes)| == 2 &&
              |Relogio.Dois(agora.dia)| == 2 && |Relogio.Dois(agora.hora)| == 2 &&
              |Relogio.Dois(agora.minuto)| == 2 && |Relogio.Dois(agora.segundo)| == 2
  {
    if Relogio.Valido(agora) {
      NatToStringLength(agora.ano, 3);
      Relogio.DoisDigitos(agora.mes);
      Relogio.DoisDigitos(agora.dia);
      Relogio.DoisDigitos(agora.hora);
      Relogio.DoisDigitos(agora.minuto);
      Relogio.DoisDigitos(agora.segundo);
    }
  }

  /** Six two-digit fields written one after the other make twelve digits, each field in its place. */
  lemma SeisCampos(a: string, b: string, c: string, d: string, e: string, f: string)
    requires |a| == 2 && |b| == 2 && |c| == 2 && |d| == 2 && |e| == 2 && |f| == 2
    requires AllDigits(a) && AllDigits(b) && AllDigits(c) && AllDigits(d) && AllDigits(e) && AllDigits(f)
    ensures var s := a + b + c + d + e + f;
            |s| == 12 && AllDigits(s) &&
            s[..2] == a && s[2..4] == b && s[4..6] == c && s[6..8] == d && s[8..10] == e && s[10..12] == f
  {
    var s := a + b + c + d + e + f;
    forall i | 0 <= i < 12 ensures IsDigit(s[i]) {
      if i < 2 { assert s[i] == a[i]; }
      else if i < 4 { assert s[i] == b[i - 2]; }
      else if i < 6 { assert s[i] == c[i - 4]; }
      else if i < 8 { assert s[i] == d[i - 6]; }
      else if i < 10 { assert s[i] == e[i - 8]; }
      else { assert s[i] == f[i - 10]; }
    }
  }

  /** For a valid clock reading the date and time part is twelve decimal digits, the fields in order. */
  lemma CarimboDigitos(agora: Relogio.Instante)
    requires Relogio.Valido(agora)
    ensures var c := Carimbo(agora);
            |c| == 12 && AllDigits(c) &&
            c[..2] == LastChars(NatToString(agora.ano), 2) &&
            c[2..4] == Relogio.Dois(agora.mes) && c[4..6] == Relogio.Dois(agora.dia) &&
            c[6..8] == Relogio.Dois(agora.hora) && c[8..10] == Relogio.Dois(agora.minuto) &&
            c[10..12] == Relogio.Dois(agora.segundo)
  {
    NatToStringLength(agora.ano, 3);
    UltimosDigitos(NatToString(agora.ano), 2);
    Relogio.DoisDigitos(agora.mes);
    Relogio.DoisDigitos(agora.dia);
    Relogio.DoisDigitos(agora.hora);
    Relogio.DoisDigitos(agora.minuto);
    Relogio.DoisDigitos(agora.segundo);
    SeisCampos(LastChars(NatToString(agora.ano), 2), Relogio.Dois(agora.mes), Relogio.Dois(agora.dia),
               Relogio.Dois(agora.hora), Relogio.Dois(agora.minuto), Relogio.Dois(agora.segundo));
  }

  /** `Pagamento.gerarNumeroTransacao()`: the date and time part, then the last four characters of
      `Math.random().toString()`. */
  function GerarNumeroTransacao(agora: Relogio.Instante, aleatorio: string): (r: string)
    ensures Relogio.Valido(agora) ==>
              |r| == 12 + |LastChars(aleatorio, 4)| && AllDigits(r[..12]) &&
              r[..12] == Carimbo(agora) && r[12..] == LastChars(aleatorio, 4)
  {
    var c, t := Carimbo(agora), LastChars(aleatorio, 4);
    if Relogio.Valido(agora) then
      CarimboDigitos(agora);
      assert (c + t)[..|c|] == c && (c + t)[|c|..] == t;
      c + t
    else
      c + t
  }

  /** `calcularTaxa(forma)`: no fee without a payment-method object, otherwise the method's fee on the value. */
  function CalcularTaxa(p: Pagamento, forma: Option<FormaPagamentoModel.FormaPagamento>): (r: real)
    ensures forma.None? ==> r == 0.0
    ensures forma.Some? ==> r == FormaPagamentoModel.CalcularTaxa(p.valor, forma.value.taxa)
  {
    if forma.None? then 0.0 else FormaPagamentoModel.CalcularTaxa(p.valor, forma.value.taxa)
  }

  /** `calcularValorLiquido(forma)`: the value without a payment-method object, otherwise the value less the fee. */
  function CalcularValorLiquido(p: Pagamento, forma: Option<FormaPagamentoModel.FormaPagamento>): (r: real)
    ensures forma.None? ==> r == p.valor
    ensures r + CalcularTaxa(p, forma) == p.valor
  {
    if forma.None? then p.valor else p.valor - CalcularTaxa(p, forma)
  }

  /** A fee between 0 and 100 percent keeps the net value of a non-negative payment between 0 and its value, and
      agrees with the payment method's own net-value formula. */
  lemma ValorLiquidoLimitado(p: Pagamento, forma: FormaPagamentoModel.FormaPagamento)
    requires 0.0 <= p.valor && 0.0 <= forma.taxa <= 100.0
    ensures 0.0 <= CalcularValorLiquido(p, Some(forma)) <= p.valor
    ensures CalcularValorLiquido(p, Some(forma)) == FormaPagamentoModel.CalcularValorLiquido(forma, p.valor)
  {
  }

  /** `formatarIdentificador()`: "PAG-" and three groups of up to four characters taken from the identifier with
      its first "PAG" removed. */
  function FormatarIdentificador(identificador: string): (r: string)
    ensures 6 <= |r| <= 18 && r[..4] == "PAG-"
  {
    var id := ReplaceFirst(identificador, "PAG", "");
    "PAG-" + Substring(id, 0, 4) + "-" + Substring(id, 4, 8) + "-" + Substring(id, 8, 12)
  }

  /** A generated identifier whose timestamp has at least 12 digits is shown as its first twelve timestamp digits:
      the random part and any later digits do not appear. */
  lemma FormatarGerado(agoraMs: nat, aleatorio36: string)
    requires |NatToString(agoraMs)| >= 12
    ensures var ts := NatToString(agoraMs);
            FormatarIdentificador(GerarIdentificador(agoraMs, aleatorio36)) ==
              "PAG-" + ts[0..4] + "-" + ts[4..8] + "-" + ts[8..12]
  {
    RecorteDoCarimbo(NatToString(agoraMs), SufixoAleatorio(aleatorio36));
  }

  /** An identifier "PAG" + `ts` + `resto` with at least twelve characters in `ts` is shown as the first twelve of
      them, in groups of four. */
  lemma RecorteDoCarimbo(ts: string, resto: string)
    requires |ts| >= 12
    ensures FormatarIdentificador("PAG" + ts + resto) == "PAG-" + ts[0..4] + "-" + ts[4..8] + "-" + ts[8..12]
  {
    var g := "PAG" + ts + resto;
    assert "PAG" <= g;
    assert IndexOf(g, "PAG") == 0;
    var id := ReplaceFirst(g, "PAG", "");
    assert id == g[3..];
    assert id[..|ts|] == ts;
    assert Substring(id, 0, 4) == ts[0..4];
    assert Substring(id, 4, 8) == ts[4..8];
    assert Substring(id, 8, 12) == ts[8..12];
  }

  /** Two payments generated within the same ten milliseconds share their displayed identifier, whatever their
      random parts. */
  lemma FormatadoNaoDistingue(ms1: nat, ms2: nat, a1: string, a2: string)
    requires |NatToString(ms1)| >= 12 && |NatToString(ms2)| >= 12
    requires NatToString(ms1)[..12] == NatToString(ms2)[..12]
    ensures FormatarIdentificador(GerarIdentificador(ms1, a1)) == FormatarIdentificador(GerarIdentificador(ms2, a2))
  {
    var t1, t2 := NatToString(ms1), NatToString(ms2);
    FormatarGerado(ms1, a1);
    FormatarGerado(ms2, a2);
    assert t1[0..4] == t1[..12][0..4] == t2[0..4];
    assert t1[4..8] == t1[..12][4..8] == t2[4..8];
    assert t1[8..12] == t1[..12][8..12] == t2[8..12];
  }
}
