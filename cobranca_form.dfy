/** The charge form (src/components/CobrancaForm.jsx): the clean-up of the value field, the validation and what
    the form sends to the charges hook. */
module CobrancaForm {
  import opened Wrappers
  import opened Text
  import Seqs
  import Relogio
  import opened BancoDados
  import opened CobrancaModel
  import opened CobrancaService
  import HookCobrancas

  // The value field as it is written.

  predicate DigitoOuVirgula(c: char) {
    IsDigit(c) || c == ','
  }

  /** `value.replace(/[^\d,]/g, '').replace(',', '.')`: keeps digits and commas, then writes the first comma as a
      point. */
  function SanitizarValor(s: string): (r: string)
    ensures |r| <= |s|
    ensures forall i :: 0 <= i < |r| ==> IsDigit(r[i]) || r[i] == ',' || r[i] == '.'
  {
    FiltradoDigitosEVirgulas(s);
    TrocaPrimeiraVirgula(Seqs.Filter(s, DigitoOuVirgula));
    ReplaceFirst(Seqs.Filter(s, DigitoOuVirgula), ",", ".")
  }

  /** Every character the first step keeps is a digit or a comma. */
  lemma FiltradoDigitosEVirgulas(s: string)
    ensures var t := Seqs.Filter(s, DigitoOuVirgula); forall i :: 0 <= i < |t| ==> DigitoOuVirgula(t[i])
  {
    var t := Seqs.Filter(s, DigitoOuVirgula);
    forall i | 0 <= i < |t| ensures DigitoOuVirgula(t[i]) {
      assert t[i] in t;
    }
  }

  /** Writing the first comma of a string of digits and commas as a point: the only point of the result stands
      where the first comma was, and every other character is kept. */
  lemma TrocaPrimeiraVirgula(t: string)
    requires forall i :: 0 <= i < |t| ==> DigitoOuVirgula(t[i])
    ensures var r := ReplaceFirst(t, ",", ".");
            |r| == |t| &&
            (forall i :: 0 <= i < |r| && r[i] != '.' ==> r[i] == t[i]) &&
            (forall i :: 0 <= i < |r| && r[i] == '.' ==> t[i] == ',' && ',' !in t[..i]) &&
            (forall i, j :: 0 <= i < j < |r| ==> !(r[i] == '.' && r[j] == '.'))
  {
    var k := IndexOf(t, ",");
    if k >= 0 {
      forall j | 0 <= j < k ensures t[j] != ',' {
        assert !("," <= t[j..]) && |t[j..]| >= 1;
      }
      var r := t[..k] + "." + t[k + 1..];
      assert forall i :: 0 <= i < |r| && i != k ==> r[i] == t[i];
      assert forall i :: 0 <= i < |r| && i != k ==> r[i] != '.';
      assert ',' !in t[..k];
    }
  }

  /** The field as written holds digits, commas and at most one point, which stands where the first comma of the
      input's digits and commas was. */
  lemma SanitizarValorMantem(s: string)
    ensures var t, r := Seqs.Filter(s, DigitoOuVirgula), SanitizarValor(s);
            |r| == |t| &&
            (forall i :: 0 <= i < |r| ==> IsDigit(r[i]) || r[i] == ',' || r[i] == '.') &&
            (forall i :: 0 <= i < |r| && r[i] == '.' ==> t[i] == ',' && ',' !in t[..i]) &&
            (forall i, j :: 0 <= i < j < |r| ==> !(r[i] == '.' && r[j] == '.'))
  {
    FiltradoDigitosEVirgulas(s);
    TrocaPrimeiraVirgula(Seqs.Filter(s, DigitoOuVirgula));
  }

  /** Replacing a character the string does not hold changes nothing. */
  lemma SemOcorrencia(t: string, c: char)
    requires c !in t
    ensures ReplaceFirst(t, [c], ".") == t
  {
  }

  /** With no comma in the input, only its digits survive. */
  lemma SemVirgulaSoDigitos(s: string)
    requires ',' !in s
    ensures SanitizarValor(s) == Seqs.Filter(s, IsDigit)
  {
    Seqs.FilterExt(s, DigitoOuVirgula, IsDigit);
    var t := Seqs.Filter(s, DigitoOuVirgula);
    assert ',' !in t;
    SemOcorrencia(t, ',');
  }

  // The value field as intended.

  /** One keystroke of the intended clean-up: a digit is kept, the first decimal separator (`,` or `.`) is
      written as a point, anything else is dropped. */
  function Digitar(r: string, c: char): string {
    if IsDigit(c) then r + [c]
    else if (c == ',' || c == '.') && '.' !in r then r + ['.']
    else r
  }

  /** A clean-up that keeps the decimal separator a number input reports: the keystrokes of `s` replayed from an
      empty field. */
  function SanitizarValorCorrigido(s: string): (r: string)
    ensures |r| <= |s|
    decreases |s|
  {
    if s == [] then [] else Digitar(SanitizarValorCorrigido(s[..|s| - 1]), s[|s| - 1])
  }

  /** A cleaned value is made of digits and at most one point. */
  predicate ValorLimpo(r: string) {
    (forall i :: 0 <= i < |r| ==> IsDigit(r[i]) || r[i] == '.') &&
    (forall i, j :: 0 <= i < j < |r| ==> !(r[i] == '.' && r[j] == '.'))
  }

  lemma DigitarLimpo(r: string, c: char)
    requires ValorLimpo(r)
    ensures ValorLimpo(Digitar(r, c))
  {
    var q := Digitar(r, c);
    if q != r {
      assert q[..|r|] == r;
      if q[|r|] == '.' {
        assert forall i :: 0 <= i < |r| ==> q[i] != '.' by {
          forall i | 0 <= i < |r| ensures q[i] != '.' {
            assert q[i] == r[i] && r[i] in r;
          }
        }
      }
    }
  }

  /** The intended clean-up always yields digits with at most one point. */
  lemma {:induction false} CorrigidoLimpo(s: string)
    ensures ValorLimpo(SanitizarValorCorrigido(s))
    decreases |s|
  {
    if s != [] {
      CorrigidoLimpo(s[..|s| - 1]);
      DigitarLimpo(SanitizarValorCorrigido(s[..|s| - 1]), s[|s| - 1]);
    }
  }

  /** The intended clean-up keeps every digit of the input, in order. */
  lemma {:induction false} CorrigidoMantemDigitos(s: string)
    ensures Seqs.Filter(SanitizarValorCorrigido(s), IsDigit) == Seqs.Filter(s, IsDigit)
    decreases |s|
  {
    if s != [] {
      var p, c := s[..|s| - 1], s[|s| - 1];
      assert s == p + [c];
      CorrigidoMantemDigitos(p);
      Seqs.FilterSnoc(p, c, IsDigit);
      var r := SanitizarValorCorrigido(p);
      if Digitar(r, c) != r {
        Seqs.FilterSnoc(r, Digitar(r, c)[|r|], IsDigit);
        assert Digitar(r, c) == r + [Digitar(r, c)[|r|]];
      }
    }
  }

  /** A clean value is left as it is. */
  lemma {:induction false} CorrigidoFixaLimpo(s: string)
    requires ValorLimpo(s)
    ensures SanitizarValorCorrigido(s) == s
    decreases |s|
  {
    if s != [] {
      var p, c := s[..|s| - 1], s[|s| - 1];
      assert ValorLimpo(p);
      CorrigidoFixaLimpo(p);
      if c == '.' {
        assert '.' !in p;
      }
    }
  }

  /** Cleaning a cleaned value changes nothing. */
  lemma CorrigidoIdempotente(s: string)
    ensures SanitizarValorCorrigido(SanitizarValorCorrigido(s)) == SanitizarValorCorrigido(s)
  {
    CorrigidoLimpo(s);
    CorrigidoFixaLimpo(SanitizarValorCorrigido(s));
  }

  /** The field is cleaned on every change: typing a key into the cleaned field gives what cleaning all the keys
      typed so far gives. */
  lemma DigitarNoCampo(s: string, c: char)
    ensures SanitizarValorCorrigido(SanitizarValorCorrigido(s) + [c]) == SanitizarValorCorrigido(s + [c])
  {
    var r := SanitizarValorCorrigido(s);
    assert (r + [c])[..|r|] == r && (s + [c])[..|s|] == s;
    CorrigidoIdempotente(s);
  }

  // Reading the cleaned field as a number.

  predicate Ponto(c: char) {
    c == '.'
  }

  /** A run of digits with at most one point, read as a decimal number; `None` when there is no digit at all. */
  function ValorDecimal(r: string): (v: Option<real>)
    requires ValorLimpo(r)
    ensures v.Some? ==> v.value >= 0.0
    ensures AllDigits(r) && r != [] ==> v == Some(DigitsValue(r) as real)
  {
    var k := Seqs.FirstIndex(r, Ponto);
    if k == |r| then
      if r == [] then None else Some(DigitsValue(r) as real)
    else
      var inteira, fracao := r[..k], r[k + 1..];
      if inteira == [] && fracao == [] then None
      else Some(DigitsValue(inteira) as real + DigitsValue(fracao) as real / Pow10(|fracao|) as real)
  }

  /** Typing a decimal number into the number input: the field as written drops its point and keeps the digits
      run together. */
  lemma PontoApagado(p: string, q: string)
    requires AllDigits(p) && AllDigits(q)
    ensures SanitizarValor(p + "." + q) == p + q
  {
    var s := p + "." + q;
    assert ',' !in s by {
      assert forall i :: 0 <= i < |s| ==> s[i] == '.' || IsDigit(s[i]);
    }
    SemVirgulaSoDigitos(s);
    Seqs.FilterConcat(p + ".", q, IsDigit);
    Seqs.FilterConcat(p, ".", IsDigit);
    Seqs.FilterSnoc([], '.', IsDigit);
    assert [] + "." == ".";
    var ponto := Seqs.Filter(".", IsDigit);
    assert ponto == [];
    Seqs.FilterTodos(p, IsDigit);
    Seqs.FilterTodos(q, IsDigit);
    assert Seqs.Filter(p + ".", IsDigit) == p;
  }

  /** The intended clean-up keeps a decimal number as it was typed. */
  lemma PontoMantido(p: string, q: string)
    requires AllDigits(p) && AllDigits(q)
    ensures SanitizarValorCorrigido(p + "." + q) == p + "." + q
  {
    var s := p + "." + q;
    assert forall i :: 0 <= i < |s| && i != |p| ==> IsDigit(s[i]);
    CorrigidoFixaLimpo(s);
  }

  /** `12.50` typed into the number input: the field as written keeps `1250`, a hundred times the value typed;
      the intended clean-up keeps `12.50`. */
  lemma DozeECinquenta()
    ensures SanitizarValor("12.50") == "1250" && SanitizarValorCorrigido("12.50") == "12.50"
  {
    assert "12" + "." + "50" == "12.50" && "12" + "50" == "1250";
    PontoApagado("12", "50");
    PontoMantido("12", "50");
  }

  /** Read as a number, the field as written holds 1250. */
  lemma MilDuzentosECinquenta()
    ensures ValorLimpo("1250") && ValorDecimal("1250") == Some(1250.0)
  {
    assert "1250"[..3] == "125" && "125"[..2] == "12" && "12"[..1] == "1" && "1"[..0] == [];
    assert AllDigits("1250");
  }

  /** Read as a number, the intended field holds 12.5. */
  lemma DozeEMeio()
    ensures ValorLimpo("12.50") && ValorDecimal("12.50") == Some(12.5)
  {
    assert Seqs.FirstIndex("12.50", Ponto) == 2;
    assert "12.50"[..2] == "12" && "12.50"[3..] == "50";
    assert "12"[..1] == "1" && "1"[..0] == [] && "50"[..1] == "5" && "5"[..0] == [];
  }

  /** The number the form holds for the text typed into the value field, cleaned up as intended. */
  function ValorDoCampo(digitado: string): (v: Option<real>)
    ensures v.Some? ==> v.value >= 0.0
  {
    CorrigidoLimpo(digitado);
    ValorDecimal(SanitizarValorCorrigido(digitado))
  }

  /** A decimal number typed into the field is the number the form holds. */
  lemma CampoDecimal(p: string, q: string)
    requires AllDigits(p) && AllDigits(q)
    ensures ValorLimpo(p + "." + q) && ValorDoCampo(p + "." + q) == ValorDecimal(p + "." + q)
  {
    PontoMantido(p, q);
    CorrigidoLimpo(p + "." + q);
  }

  /** Typing `12.50` gives the form the value 12.5. */
  lemma CampoDozeECinquenta()
    ensures ValorDoCampo("12.50") == Some(12.5)
  {
    assert "12" + "." + "50" == "12.50";
    CampoDecimal("12", "50");
    DozeEMeio();
  }

  /** The intended clean-up reads a comma and a point alike. */
  lemma VirgulaOuPonto()
    ensures SanitizarValorCorrigido("1,5") == "1.5" && SanitizarValorCorrigido("1.5") == "1.5"
  {
    assert "1,5"[..2] == "1," && "1,"[..1] == "1" && "1.5"[..2] == "1." && "1."[..1] == "1" && "1"[..0] == [];
  }

  // Validation and submission.

  const ERRO_DESCRICAO: string := "Descrição é obrigatória"
  const ERRO_VALOR: string := "Valor deve ser maior que zero"
  const ERRO_CLIENTE: string := "Cliente é obrigatório"

  /** The keys of the error object. */
  datatype Campo = Descricao | Valor | Cliente

  /** The form's fields. `valor` is the field's number, `None` while it is empty; `cliente` is the id of the
      selected client, 0 while none is selected. */
  datatype FormularioCobranca = FormularioCobranca(descricao: string, valor: Option<real>, cliente: int)

  /** What the form accepts: a description, a positive value and a client. */
  predicate CobrancaAceitavel(f: FormularioCobranca) {
    !EmBranco(f.descricao) && f.valor.Some? && f.valor.value > 0.0 && f.cliente != 0
  }

  /** `validateForm()`: one error per field, keyed by the field's name; valid exactly when no key was set. */
  method ValidarFormulario(f: FormularioCobranca) returns (erros: map<Campo, string>, valido: bool)
    ensures Descricao in erros <==> EmBranco(f.descricao)
    ensures Descricao in erros ==> erros[Descricao] == ERRO_DESCRICAO
    ensures Valor in erros <==> f.valor.None? || f.valor.value <= 0.0
    ensures Valor in erros ==> erros[Valor] == ERRO_VALOR
    ensures Cliente in erros <==> f.cliente == 0
    ensures Cliente in erros ==> erros[Cliente] == ERRO_CLIENTE
    ensures valido <==> erros == map[]
    ensures valido <==> CobrancaAceitavel(f)
  {
    erros := map[];
    if EmBranco(f.descricao) {
      erros := erros[Descricao := ERRO_DESCRICAO];
    }
    if f.valor.None? || f.valor.value <= 0.0 {
      erros := erros[Valor := ERRO_VALOR];
    }
    if f.cliente == 0 {
      erros := erros[Cliente := ERRO_CLIENTE];
    }
    valido := |erros.Keys| == 0;
    Seqs.SemChaves(erros);
  }

  /** The update `handleSubmit` sends for the charge being edited: the form's description, value and client. */
  function AlteracaoDoFormulario(f: FormularioCobranca): (a: AlteracaoCobranca)
    requires CobrancaAceitavel(f)
    ensures a.data.None? && a.status.None?
  {
    AlteracaoCobranca(None, Some(f.descricao), Some(f.valor.value), Some(f.cliente), None)
  }

  /** The new charge `handleSubmit` sends when nothing is being edited. */
  function DadosDoFormulario(f: FormularioCobranca): (d: DadosCobranca)
    requires CobrancaAceitavel(f)
    ensures d.status.None? && d.data.None?
  {
    DadosCobranca(f.descricao, f.valor.value, f.cliente, None, None)
  }

  /** Editing a charge overwrites its description, value and client with the form's and keeps its date and its
      status. */
  lemma EdicaoMantemDataEStatus(c: Cobranca, f: FormularioCobranca)
    requires CobrancaAceitavel(f)
    ensures Mesclar(c, AlteracaoDoFormulario(f)) == Cobranca(c.data, f.descricao, f.valor.value, f.cliente, c.status)
  {
  }

  /** A new charge from the form carries the form's fields and is not paid. */
  lemma NovaDoFormulario(f: FormularioCobranca, agora: Relogio.Instante, dataLocal: Relogio.Instante -> string)
    requires CobrancaAceitavel(f)
    ensures var c := NovaCobranca(DadosDoFormulario(f), agora, dataLocal);
            c.descricao == f.descricao && c.valor == f.valor.value && c.cliente == f.cliente && !c.status &&
            c.valor > 0.0
  {
  }

  /** `handleSubmit`: an invalid form sends nothing; a valid one updates the charge being edited or adds a new
      one through the charges hook. */
  method Salvar(
    hook: HookCobrancas.UseCobrancas, f: FormularioCobranca, cobranca: Option<Cob>,
    agora: Relogio.Instante, dataLocal: Relogio.Instante -> string, novoId: int)
    returns (valido: bool, erros: map<Campo, string>)
    modifies hook, hook.banco
    ensures valido <==> CobrancaAceitavel(f)
    ensures erros == map[] <==> valido
    ensures !valido ==> unchanged(hook) && unchanged(hook.banco)
    ensures valido && cobranca.None? ==>
              hook.banco.registros == old(hook.banco.registros) + [Registro(novoId, NovaCobranca(DadosDoFormulario(f), agora, dataLocal))]
    ensures valido && cobranca.Some? ==>
              if TemId(old(hook.banco.registros), cobranca.value.id) then
                hook.banco.registros ==
                  AplicarPorId(old(hook.banco.registros), cobranca.value.id, Aplicacao(AlteracaoDoFormulario(f)))
              else hook.banco.registros == old(hook.banco.registros)
    ensures old(hook.Sincronizado()) && !TemId(old(hook.banco.registros), novoId) ==> hook.Sincronizado()
  {
    erros, valido := ValidarFormulario(f);
    if !valido {
      return;
    }
    if cobranca.Some? {
      var _ := hook.AtualizarCobranca(cobranca.value.id, AlteracaoDoFormulario(f));
    } else {
      var _ := hook.AdicionarCobranca(DadosDoFormulario(f), agora, dataLocal, novoId);
    }
  }
}
