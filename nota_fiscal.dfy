/** A service invoice and its tax computation (src/models/NotaFiscal.js). */
module NotaFiscalModel {
  import opened Wrappers
  import opened Text
  import Relogio

  /** The seven tax fields of an invoice. */
  datatype Impostos = Impostos(iss: real, inss: real, ir: real, cofins: real, pis: real, csll: real, total: real)

  const ZEROS: Impostos := Impostos(0.0, 0.0, 0.0, 0.0, 0.0, 0.0, 0.0)

  const SIMPLES_NACIONAL: string := "simples_nacional"
  const LUCRO_PRESUMIDO: string := "lucro_presumido"

  function SomaComponentes(i: Impostos): real {
    i.iss + i.inss + i.ir + i.cofins + i.pis + i.csll
  }

  /** A Simples Nacional bracket: annual revenue ceiling and rate in percent. */
  datatype Faixa = Faixa(ate: int, aliquota: real)

  function FaixasSimplesNacional(): seq<Faixa> {
    [ Faixa(180000, 6.0), Faixa(360000, 8.5), Faixa(720000, 10.5),
      Faixa(1800000, 14.0), Faixa(3600000, 17.5), Faixa(4800000, 19.0) ]
  }

  /** `obterAliquotaSimplesNacional()`: always the first bracket's rate, the lowest of all. */
  function ObterAliquotaSimplesNacional(): (a: real)
    ensures a == FaixasSimplesNacional()[0].aliquota
    ensures forall f :: f in FaixasSimplesNacional() ==> a <= f.aliquota
  {
    FaixasSimplesNacional()[0].aliquota
  }

  lemma AliquotaSimplesNacionalSeis()
    ensures ObterAliquotaSimplesNacional() == 6.0
  {
  }

  /** The effective rate of each tax field under a regime, in percent. Under Simples Nacional 40% of the total rate
      is attributed to ISS; under Lucro Presumido the total is the sum of six statutory rates; any other regime
      (Lucro Real included) is charged nothing. */
  function Aliquotas(regime: string): Impostos {
    assert LUCRO_PRESUMIDO[0] != SIMPLES_NACIONAL[0];
    if regime == SIMPLES_NACIONAL then
      Impostos(0.4 * ObterAliquotaSimplesNacional(), 0.0, 0.0, 0.0, 0.0, 0.0, ObterAliquotaSimplesNacional())
    else if regime == LUCRO_PRESUMIDO then
      Impostos(5.0, 11.0, 1.5, 3.0, 0.65, 1.0, 22.15)
    else ZEROS
  }

  /** The taxes on a service value under a regime: each field is its rate applied to the value. */
  function ImpostosDe(valorServico: real, regime: string): Impostos {
    var a := Aliquotas(regime);
    Impostos(valorServico * a.iss / 100.0, valorServico * a.inss / 100.0, valorServico * a.ir / 100.0,
             valorServico * a.cofins / 100.0, valorServico * a.pis / 100.0, valorServico * a.csll / 100.0,
             valorServico * a.total / 100.0)
  }

  /** `calcularImpostos()`: starts from all zeros and fills in the fields of the regime, one at a time. */
  method CalcularImpostos(valorServico: real, regime: string) returns (impostos: Impostos)
    ensures impostos == ImpostosDe(valorServico, regime)
  {
    impostos := ZEROS;
    if regime == SIMPLES_NACIONAL {
      var aliquota := ObterAliquotaSimplesNacional();
      impostos := impostos.(total := (valorServico * aliquota) / 100.0);
      impostos := impostos.(iss := impostos.total * 0.4);
    } else if regime == LUCRO_PRESUMIDO {
      impostos := impostos.(iss := (valorServico * 5.0) / 100.0);
      impostos := impostos.(inss := (valorServico * 11.0) / 100.0);
      impostos := impostos.(ir := (valorServico * 1.5) / 100.0);
      impostos := impostos.(cofins := (valorServico * 3.0) / 100.0);
      impostos := impostos.(pis := (valorServico * 0.65) / 100.0);
      impostos := impostos.(csll := (valorServico * 1.0) / 100.0);
      impostos := impostos.(total := impostos.iss + impostos.inss + impostos.ir + impostos.cofins +
                                     impostos.pis + impostos.csll);
    }
  }

  /** Under Simples Nacional the total is the bracket rate of the value, ISS is 40% of it, the other five taxes are
      zero, and ISS is therefore all of the itemised tax. */
  lemma ImpostosSimplesNacional(v: real)
    ensures var i := ImpostosDe(v, SIMPLES_NACIONAL);
            i.total == v * ObterAliquotaSimplesNacional() / 100.0 && i.iss == 0.4 * i.total &&
            i.inss == 0.0 && i.ir == 0.0 && i.cofins == 0.0 && i.pis == 0.0 && i.csll == 0.0 &&
            SomaComponentes(i) == i.iss
  {
  }

  /** Under Lucro Presumido the six taxes are 5, 11, 1.5, 3, 0.65 and 1 percent and the total is their sum,
      22.15 percent of the value. */
  lemma ImpostosLucroPresumido(v: real)
    ensures var i := ImpostosDe(v, LUCRO_PRESUMIDO);
            i.iss == v * 5.0 / 100.0 && i.inss == v * 11.0 / 100.0 && i.ir == v * 1.5 / 100.0 &&
            i.cofins == v * 3.0 / 100.0 && i.pis == v * 0.65 / 100.0 && i.csll == v * 1.0 / 100.0 &&
            i.total == SomaComponentes(i) && i.total == v * 22.15 / 100.0
  {
  }

  /** A regime other than the two recognised ones is charged no tax at all. */
  lemma ImpostosOutroRegime(v: real, regime: string)
    requires regime != SIMPLES_NACIONAL && regime != LUCRO_PRESUMIDO
    ensures ImpostosDe(v, regime) == ZEROS
  {
  }

  /** On a non-negative value every tax is non-negative, the itemised taxes never exceed the total, and the total
      stays below a quarter of the value, so the net value is positive for a positive value. */
  lemma ImpostosLimitados(v: real, regime: string)
    requires v >= 0.0
    ensures var i := ImpostosDe(v, regime);
            0.0 <= i.iss && 0.0 <= i.inss && 0.0 <= i.ir && 0.0 <= i.cofins && 0.0 <= i.pis &&
            0.0 <= i.csll && SomaComponentes(i) <= i.total && i.total <= v / 4.0
    ensures v > 0.0 ==> v - ImpostosDe(v, regime).total > 0.0
  {
  }

  /** 1000 under Simples Nacional: 60 of tax, 24 of it ISS, 940 net; under Lucro Presumido: 221.5 of tax. */
  lemma ExemplosDeImpostos()
    ensures ImpostosDe(1000.0, SIMPLES_NACIONAL).total == 60.0
    ensures ImpostosDe(1000.0, SIMPLES_NACIONAL).iss == 24.0
    ensures 1000.0 - ImpostosDe(1000.0, SIMPLES_NACIONAL).total == 940.0
    ensures ImpostosDe(1000.0, LUCRO_PRESUMIDO).total == 221.5
    ensures 1000.0 - ImpostosDe(1000.0, LUCRO_PRESUMIDO).total == 778.5
  {
    AliquotaSimplesNacionalSeis();
    assert Aliquotas(SIMPLES_NACIONAL).total == 6.0 && Aliquotas(SIMPLES_NACIONAL).iss == 2.4;
    var sn := ImpostosDe(1000.0, SIMPLES_NACIONAL);
    assert sn.total == 1000.0 * Aliquotas(SIMPLES_NACIONAL).total / 100.0;
    assert sn.iss == 1000.0 * Aliquotas(SIMPLES_NACIONAL).iss / 100.0;
    ImpostosLucroPresumido(1000.0);
  }

  /** The sequence part of an invoice number, `Math.floor(aleatorio * 999) + 1`, for `aleatorio` in [0, 1). */
  function Sequencial(aleatorio: real): (n: nat)
    requires 0.0 <= aleatorio < 1.0
    ensures 1 <= n <= 999
  {
    (aleatorio * 999.0).Floor + 1
  }

  /** `gerarNumeroNF()`: the year, two-digit month, two-digit day and three-digit sequence number. */
  function GerarNumeroNF(agora: Relogio.Instante, aleatorio: real): (r: string)
    requires 0.0 <= aleatorio < 1.0
    ensures Relogio.Valido(agora) ==> |r| == 11 && AllDigits(r)
    ensures Relogio.Valido(agora) ==>
              r[..4] == NatToString(agora.ano) && r[4..6] == Relogio.Dois(agora.mes) &&
              r[6..8] == Relogio.Dois(agora.dia) && DigitsValue(r[8..]) == Sequencial(aleatorio)
  {
    var a, m, d := NatToString(agora.ano), Relogio.Dois(agora.mes), Relogio.Dois(agora.dia);
    var s := Relogio.ComZeros(Sequencial(aleatorio), 3);
    if Relogio.Valido(agora) then
      NumeroNFCampos(agora, aleatorio);
      a + m + d + s
    else
      a + m + d + s
  }

  lemma NumeroNFCampos(agora: Relogio.Instante, aleatorio: real)
    requires 0.0 <= aleatorio < 1.0 && Relogio.Valido(agora)
    ensures var a, m, d := NatToString(agora.ano), Relogio.Dois(agora.mes), Relogio.Dois(agora.dia);
            var s := Relogio.ComZeros(Sequencial(aleatorio), 3);
            var r := a + m + d + s;
            |r| == 11 && AllDigits(r) && r[..4] == a && r[4..6] == m && r[6..8] == d && r[8..] == s &&
            DigitsValue(s) == Sequencial(aleatorio)
  {
    var n := Sequencial(aleatorio);
    NatToStringLength(agora.ano, 3);
    NatToStringLength(agora.ano, 4);
    Relogio.DoisDigitos(agora.mes);
    Relogio.DoisDigitos(agora.dia);
    Relogio.ComZerosDigitos(n, 3);
    QuatroCampos(NatToString(agora.ano), Relogio.Dois(agora.mes), Relogio.Dois(agora.dia), Relogio.ComZeros(n, 3));
  }

  /** Fields of four, two, two and three digits written one after the other make eleven digits in place. */
  lemma QuatroCampos(a: string, m: string, d: string, s: string)
    requires |a| == 4 && |m| == 2 && |d| == 2 && |s| == 3
    requires AllDigits(a) && AllDigits(m) && AllDigits(d) && AllDigits(s)
    ensures var r := a + m + d + s;
            |r| == 11 && AllDigits(r) && r[..4] == a && r[4..6] == m && r[6..8] == d && r[8..] == s
  {
    var r := a + m + d + s;
    forall i | 0 <= i < 11 ensures IsDigit(r[i]) {
      if i < 4 { assert r[i] == a[i]; }
      else if i < 6 { assert r[i] == m[i - 4]; }
      else if i < 8 { assert r[i] == d[i - 6]; }
      else { assert r[i] == s[i - 8]; }
    }
  }

  /** `gerarChaveAcesso()`: the decimal timestamp followed by the random number's digits after "0.", cut to 44
      characters and right-padded with "0" to 44. */
  function GerarChaveAcesso(agoraMs: nat, aleatorio: string): (r: string)
    ensures |r| == 44
    ensures var x := NatToString(agoraMs) + ReplaceFirst(aleatorio, "0.", "");
            var n := if |x| < 44 then |x| else 44;
            r[..n] == x[..n] && forall i :: n <= i < 44 ==> r[i] == '0'
  {
    var x := NatToString(agoraMs) + ReplaceFirst(aleatorio, "0.", "");
    PadEnd(Substring(x, 0, 44), 44, '0')
  }

  /** When the random number is written "0." followed by decimal digits, the access key is 44 decimal digits. */
  lemma ChaveAcessoDigitos(agoraMs: nat, aleatorio: string)
    requires |aleatorio| >= 2 && aleatorio[..2] == "0." && AllDigits(aleatorio[2..])
    ensures AllDigits(GerarChaveAcesso(agoraMs, aleatorio))
  {
    var ts := NatToString(agoraMs);
    SemZeroPonto(aleatorio);
    DigitosConcatenados(ts, aleatorio[2..]);
    ChaveDeDigitos(ts + aleatorio[2..]);
  }

  /** Removing the first "0." of a numeral that starts with it leaves what follows. */
  lemma SemZeroPonto(aleatorio: string)
    requires |aleatorio| >= 2 && aleatorio[..2] == "0."
    ensures ReplaceFirst(aleatorio, "0.", "") == aleatorio[2..]
  {
    assert "0." <= aleatorio;
    assert IndexOf(aleatorio, "0.") == 0;
  }

  /** Cutting a string of digits to 44 and padding it with "0" to 44 gives digits only. */
  lemma ChaveDeDigitos(x: string)
    requires AllDigits(x)
    ensures AllDigits(PadEnd(Substring(x, 0, 44), 44, '0'))
  {
    var c := Substring(x, 0, 44);
    var n := if |x| < 44 then |x| else 44;
    assert Clamp(0, |x|) == 0 && Clamp(44, |x|) == n;
    assert c == x[..n];
    var r := PadEnd(c, 44, '0');
    forall i | 0 <= i < |r| ensures IsDigit(r[i]) {
      if i < |c| {
        assert r[i] == c[i] == x[i];
      }
    }
  }

  /** `gerarProtocolo()`: "PROT", the decimal timestamp, and characters 2 to 5 of a base-36 random numeral,
      upper-cased. */
  function GerarProtocolo(agoraMs: nat, aleatorio36: string): (r: string)
    ensures 4 + |NatToString(agoraMs)| <= |r| <= 4 + |NatToString(agoraMs)| + 4
    ensures r[..4] == "PROT" && r[4..4 + |NatToString(agoraMs)|] == NatToString(agoraMs)
  {
    "PROT" + NatToString(agoraMs) + ToUpperAscii(Substring(aleatorio36, 2, 6))
  }

  /** A day, in milliseconds; the due date is thirty of them after issue. */
  const DIA_MS: int := 86400000

  /** An invoice. Instants are epoch milliseconds. The guidance texts (`observacoes`, `diretrizes`) are not part of
      this model. The last four fields are written only by the service's cancel and send operations. */
  datatype NotaFiscal = NotaFiscal(
    cobrancaId: int, pagamentoId: int, clienteId: int, numero: string, serie: string,
    valorServico: real, descricaoServico: string, tipoServico: string, regime: string,
    impostos: Impostos, valorTotal: real, valorLiquido: real,
    dataEmissao: int, dataVencimento: int, status: string, chaveAcesso: string, protocolo: string,
    motivoCancelamento: Option<string>, dataCancelamento: Option<int>, emailEnvio: Option<string>,
    dataEnvio: Option<int>)

  /** The constructor's argument object; `None` is an absent argument, for which the defaults apply. */
  datatype DadosNotaFiscal = DadosNotaFiscal(
    cobrancaId: int, pagamentoId: int, clienteId: int, valorServico: real, descricaoServico: string,
    tipoServico: Option<string>, regime: Option<string>)

  /** The random inputs of one construction: `Math.random()` for the number, the access key and the protocol. */
  datatype Aleatorios = Aleatorios(numero: real, chave: string, protocolo36: string)

  predicate AleatoriosValidos(a: Aleatorios) {
    0.0 <= a.numero < 1.0
  }

  /** `new NotaFiscal({...})`, with one clock reading `agora` for all its `Date.now()` and `new Date()` calls. */
  function NovaNotaFiscal(d: DadosNotaFiscal, agora: Relogio.Instante, rnd: Aleatorios): (nf: NotaFiscal)
    requires AleatoriosValidos(rnd)
    ensures nf.tipoServico == (if d.tipoServico.Some? then d.tipoServico.value else "consultoria")
    ensures nf.regime == (if d.regime.Some? then d.regime.value else SIMPLES_NACIONAL)
    ensures nf.serie == "001" && nf.status == "emitida"
    ensures nf.impostos == ImpostosDe(d.valorServico, nf.regime)
    ensures nf.valorTotal == d.valorServico && nf.valorLiquido == d.valorServico - nf.impostos.total
    ensures nf.cobrancaId == d.cobrancaId && nf.pagamentoId == d.pagamentoId && nf.clienteId == d.clienteId
    ensures nf.valorServico == d.valorServico && nf.descricaoServico == d.descricaoServico
    ensures nf.numero == GerarNumeroNF(agora, rnd.numero) && |nf.chaveAcesso| == 44
    ensures nf.chaveAcesso == GerarChaveAcesso(agora.epochMs, rnd.chave) && nf.protocolo == GerarProtocolo(agora.epochMs, rnd.protocolo36)
    ensures nf.dataEmissao == agora.epochMs && nf.dataVencimento == agora.epochMs + 30 * DIA_MS
    ensures nf.motivoCancelamento.None? && nf.dataCancelamento.None? && nf.emailEnvio.None? && nf.dataEnvio.None?
  {
    var tipo := d.tipoServico.GetOr("consultoria");
    var regime := d.regime.GetOr(SIMPLES_NACIONAL);
    var impostos := ImpostosDe(d.valorServico, regime);
    NotaFiscal(d.cobrancaId, d.pagamentoId, d.clienteId, GerarNumeroNF(agora, rnd.numero), "001",
               d.valorServico, d.descricaoServico, tipo, regime,
               impostos, d.valorServico, d.valorServico - impostos.total,
               agora.epochMs, agora.epochMs + 30 * DIA_MS, "emitida",
               GerarChaveAcesso(agora.epochMs, rnd.chave), GerarProtocolo(agora.epochMs, rnd.protocolo36),
               None, None, None, None)
  }

  /** A fresh invoice of 1000 with no regime given is taxed under Simples Nacional and nets 940. */
  lemma ExemploNotaPadrao(d: DadosNotaFiscal, agora: Relogio.Instante, rnd: Aleatorios)
    requires AleatoriosValidos(rnd) && d.valorServico == 1000.0 && d.regime.None?
    ensures NovaNotaFiscal(d, agora, rnd).impostos.total == 60.0
    ensures NovaNotaFiscal(d, agora, rnd).valorLiquido == 940.0
  {
  }

  /** `formatarNumero()`: the series, a dash and the number. */
  function FormatarNumero(nf: NotaFiscal): (r: string)
    ensures |r| == |nf.serie| + 1 + |nf.numero|
    ensures r[..|nf.serie|] == nf.serie && r[|nf.serie|] == '-' && r[|nf.serie| + 1..] == nf.numero
  {
    nf.serie + "-" + nf.numero
  }

  /** A fresh invoice reads "001-" and its eleven-digit number. */
  lemma FormatarNumeroNova(d: DadosNotaFiscal, agora: Relogio.Instante, rnd: Aleatorios)
    requires AleatoriosValidos(rnd) && Relogio.Valido(agora)
    ensures var r := FormatarNumero(NovaNotaFiscal(d, agora, rnd));
            |r| == 15 && r[..4] == "001-" && AllDigits(r[4..])
  {
    var nf := NovaNotaFiscal(d, agora, rnd);
    var r := FormatarNumero(nf);
    assert r[..3] == "001" && r[3] == '-';
    assert r[4..] == nf.numero;
  }

  /** `s.replace(/(\d{4})/g, '$1 ')`: scanning from the left, every run of four digits is followed by a space. */
  function AgruparDigitos(s: string): (r: string)
    ensures |s| <= |r| <= |s| + |s| / 4
    decreases |s|
  {
    if |s| >= 4 && AllDigits(s[..4]) then s[..4] + " " + AgruparDigitos(s[4..])
    else if s == [] then []
    else [s[0]] + AgruparDigitos(s[1..])
  }

  /** `formatarChaveAcesso()`: groups of four digits separated by spaces. */
  function FormatarChaveAcesso(chave: string): (r: string)
    ensures |r| <= |chave| + |chave| / 4
  {
    Trim(AgruparDigitos(chave))
  }

  /** A string of `4m` digits is grouped into `m` blocks of four, each followed by one space. */
  lemma {:induction false} AgruparBlocos(s: string)
    requires AllDigits(s) && |s| % 4 == 0
    ensures |AgruparDigitos(s)| == 5 * (|s| / 4)
    ensures forall i :: 0 <= i < |AgruparDigitos(s)| ==>
              AgruparDigitos(s)[i] == if i % 5 == 4 then ' ' else s[(i / 5) * 4 + i % 5]
    decreases |s|
  {
    if s != [] {
      var t := s[4..];
      assert AllDigits(t) by {
        forall i | 0 <= i < |t| ensures IsDigit(t[i]) { assert t[i] == s[i + 4]; }
      }
      AgruparBlocos(t);
      var g := AgruparDigitos(s);
      var gt := AgruparDigitos(t);
      assert g == s[..4] + " " + gt;
      forall i | 0 <= i < |g|
        ensures g[i] == if i % 5 == 4 then ' ' else s[(i / 5) * 4 + i % 5]
      {
        if i >= 5 {
          assert g[i] == gt[i - 5];
          assert (i - 5) % 5 == i % 5 && (i - 5) / 5 == i / 5 - 1;
          if i % 5 != 4 {
            assert t[((i - 5) / 5) * 4 + (i - 5) % 5] == s[(i / 5) * 4 + i % 5];
          }
        }
      }
    }
  }

  /** A 44-digit access key is shown as eleven blocks of four digits with a single space between blocks:
      54 characters, no space at either end. */
  lemma FormatarChave44(chave: string)
    requires |chave| == 44 && AllDigits(chave)
    ensures |FormatarChaveAcesso(chave)| == 54
    ensures forall i :: 0 <= i < 54 ==>
              FormatarChaveAcesso(chave)[i] == if i % 5 == 4 then ' ' else chave[(i / 5) * 4 + i % 5]
  {
    var g := AgruparDigitos(chave);
    AgruparBlocos(chave);
    assert |g| == 55;
    assert !IsWhitespace(g[0]) by { assert g[0] == chave[0]; }
    assert TrimStart(g) == g;
    assert g[54] == ' ';
    assert g[..54][..53] == g[..53];
    assert !IsWhitespace(g[53]) by { assert g[53] == chave[43]; }
    assert TrimEnd(g[..54]) == g[..54];
    assert TrimEnd(g) == g[..54];
  }

  /** `obterStatusDescricao()`: the label of each of the four statuses and "Status Desconhecido" for any other. */
  function ObterStatusDescricao(status: string): (r: string)
    ensures r == "Status Desconhecido" <==> status !in {"rascunho", "emitida", "enviada", "cancelada"}
    ensures status == "enviada" ==> r == "Enviada ao Cliente"
  {
    var rotulos := map["rascunho" := "Rascunho", "emitida" := "Emitida", "enviada" := "Enviada ao Cliente",
                       "cancelada" := "Cancelada"];
    if status in rotulos then rotulos[status] else "Status Desconhecido"
  }

  lemma DescricoesDeStatus()
    ensures ObterStatusDescricao("rascunho") == "Rascunho"
    ensures ObterStatusDescricao("emitida") == "Emitida"
    ensures ObterStatusDescricao("cancelada") == "Cancelada"
    ensures ObterStatusDescricao("paga") == "Status Desconhecido"
  {
  }
}
