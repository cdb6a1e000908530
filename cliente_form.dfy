/** The client form (src/components/ClienteForm.jsx): the mask typed CPF numbers go through, and the form's
    validation. */
module ClienteForm {
  import opened Text
  import Seqs

  /** `value.replace(/\D/g, '')`: the ASCII digits of the input, in order. */
  function SoDigitos(s: string): (r: string)
    ensures AllDigits(r)
  {
    Seqs.Filter(s, IsDigit)
  }

  /** Four digits in a row start at `k`. */
  predicate QuatroDigitos(s: string, k: nat) {
    k + 4 <= |s| && AllDigits(s[k..k + 4])
  }

  /** The first position at or after `i` where four digits in a row start, or -1: where `/(\d{3})(\d)/` and
      `/(\d{3})(\d{1,2})/` match. */
  function BuscaQuatroDigitos(s: string, i: nat): (j: int)
    requires i <= |s|
    ensures j == -1 || (i <= j && QuatroDigitos(s, j))
    ensures forall k :: i <= k && (j == -1 || k < j) ==> !QuatroDigitos(s, k)
    decreases |s| - i
  {
    if i + 4 > |s| then -1
    else if AllDigits(s[i..i + 4]) then i
    else BuscaQuatroDigitos(s, i + 1)
  }

  /** `s.replace(/(\d{3})(\d)/, '$1.$2')` for `c == '.'`, and `s.replace(/(\d{3})(\d{1,2})/, '$1-$2')` for
      `c == '-'`: both put `c` after the first three digits of the leftmost run of four, because the second group
      is written back as it was captured. Without such a run the string is unchanged. */
  function InserirAposTres(s: string, c: char): string {
    var j := BuscaQuatroDigitos(s, 0);
    if j < 0 then s else s[..j + 3] + [c] + s[j + 3..]
  }

  /** At `k` starts a `-`, two digits and at least one more digit up to the end: a match of `/(-\d{2})\d+?$/`. */
  predicate Cauda(s: string, k: nat) {
    k + 4 <= |s| && s[k] == '-' && AllDigits(s[k + 1..])
  }

  function BuscaCauda(s: string, i: nat): (j: int)
    requires i <= |s|
    ensures j == -1 || (i <= j && Cauda(s, j))
    ensures forall k :: i <= k < |s| && (j == -1 || k < j) ==> !Cauda(s, k)
    decreases |s| - i
  {
    if i == |s| then -1
    else if Cauda(s, i) then i
    else BuscaCauda(s, i + 1)
  }

  /** `s.replace(/(-\d{2})\d+?$/, '$1')`: the digits after the first two that follow the dash are dropped. */
  function CortarCauda(s: string): string {
    var j := BuscaCauda(s, 0);
    if j < 0 then s else s[..j + 3]
  }

  /** The CPF input's `handleChange`: the digits of what was typed, through the four `replace` calls in order. */
  function MascaraCpf(valor: string): (r: string)
    ensures r == Agrupado(SoDigitos(valor))
  {
    CadeiaAgrupa(SoDigitos(valor));
    Cadeia(SoDigitos(valor))
  }

  function Min(a: nat, b: nat): nat {
    if a <= b then a else b
  }

  /** The grouping the mask produces from a string of digits: the first eleven, as `ddd.ddd.ddd-dd` as far as
      they go. */
  function Agrupado(d: string): (r: string)
    requires AllDigits(d)
  {
    if |d| <= 3 then d
    else if |d| <= 6 then d[..3] + "." + d[3..]
    else if |d| <= 9 then d[..3] + "." + d[3..6] + "." + d[6..]
    else d[..3] + "." + d[3..6] + "." + d[6..9] + "-" + d[9..Min(|d|, 11)]
  }

  /** `/^\d{3}\.\d{3}\.\d{3}-\d{2}$/.test(s)`. */
  predicate FormatoCpf(s: string) {
    |s| == 14 && AllDigits(s[0..3]) && s[3] == '.' && AllDigits(s[4..7]) && s[7] == '.' &&
    AllDigits(s[8..11]) && s[11] == '-' && AllDigits(s[12..14])
  }

  /** On a string of digits the first run of four starts at 0. */
  lemma InsercaoEmDigitos(d: string, c: char)
    requires AllDigits(d)
    ensures InserirAposTres(d, c) == if |d| >= 4 then d[..3] + [c] + d[3..] else d
  {
    if |d| >= 4 {
      assert QuatroDigitos(d, 0);
    }
  }

  /** When no run of four digits starts inside `p` and `b` is all digits, the first run starts where `b` does,
      if `b` has four digits. */
  lemma InsercaoAposPrefixo(p: string, b: string, c: char)
    requires AllDigits(b)
    requires forall k :: 0 <= k < |p| ==> !QuatroDigitos(p + b, k)
    ensures InserirAposTres(p + b, c) == if |b| >= 4 then p + b[..3] + [c] + b[3..] else p + b
  {
    var s := p + b;
    var j := BuscaQuatroDigitos(s, 0);
    if |b| >= 4 {
      assert s[|p|..|p| + 4] == b[..4];
      assert AllDigits(b[..4]);
      assert QuatroDigitos(s, |p|);
      assert j == |p|;
      assert s[..j + 3] == p + b[..3];
      assert s[j + 3..] == b[3..];
    } else {
      assert j == -1;
    }
  }

  /** After `ddd.` no run of four digits starts in the first four positions. */
  lemma UmSeparador(a: string, c0: char, b: string)
    requires |a| == 3 && !IsDigit(c0)
    ensures forall k :: 0 <= k < |a + [c0]| ==> !QuatroDigitos(a + [c0] + b, k)
  {
    var s := a + [c0] + b;
    forall k | 0 <= k < |a + [c0]| && k + 4 <= |s|
      ensures !QuatroDigitos(s, k)
    {
      assert s[k..k + 4][3 - k] == c0;
    }
  }

  /** After `ddd.ddd.` no run of four digits starts in the first eight positions. */
  lemma DoisSeparadores(p: string, b: string)
    requires |p| == 8 && !IsDigit(p[3]) && !IsDigit(p[7])
    ensures forall k :: 0 <= k < |p| ==> !QuatroDigitos(p + b, k)
  {
    var s := p + b;
    forall k | 0 <= k < |p| && k + 4 <= |s|
      ensures !QuatroDigitos(s, k)
    {
      if k <= 3 {
        assert s[k..k + 4][3 - k] == p[3];
      } else {
        assert s[k..k + 4][7 - k] == p[7];
      }
    }
  }

  /** Without a dash the final `replace` changes nothing. */
  lemma CorteSemTraco(s: string)
    requires '-' !in s
    ensures CortarCauda(s) == s
  {
  }

  /** After the only dash, only the first two digits stay. */
  lemma CorteAposTraco(p: string, g: string)
    requires '-' !in p && AllDigits(g)
    ensures CortarCauda(p + "-" + g) == if |g| >= 3 then p + "-" + g[..2] else p + "-" + g
  {
    var s := p + "-" + g;
    var j := BuscaCauda(s, 0);
    assert s[|p| + 1..] == g;
    forall k | 0 <= k < |s| && k != |p|
      ensures s[k] != '-'
    {
      if k < |p| {
        assert s[k] == p[k];
        assert p[k] in p;
      } else {
        assert s[k] == g[k - |p| - 1];
      }
    }
    if |g| >= 3 {
      assert Cauda(s, |p|);
      assert j == |p|;
      assert s[..j + 3] == p + "-" + g[..2];
    } else {
      assert !Cauda(s, |p|);
      assert j == -1;
    }
  }

  lemma SemTracoEmDigitos(d: string)
    requires AllDigits(d)
    ensures '-' !in d
  {
  }

  /** The second and third `replace` calls after `ddd<sep>`: the first run of four digits starts after the
      separator, if there is one. */
  lemma PassoAposUmSeparador(a: string, b: string, c: char)
    requires |a| == 3 && AllDigits(b)
    ensures InserirAposTres(a + "." + b, c) == if |b| >= 4 then a + "." + b[..3] + [c] + b[3..] else a + "." + b
  {
    UmSeparador(a, '.', b);
    InsercaoAposPrefixo(a + ".", b, c);
  }

  /** The third `replace` call after `ddd.ddd.`. */
  lemma PassoAposDoisSeparadores(a: string, b: string, e: string, c: char)
    requires |a| == 3 && |b| == 3 && AllDigits(e)
    ensures InserirAposTres(a + "." + b + "." + e, c) ==
            if |e| >= 4 then a + "." + b + "." + e[..3] + [c] + e[3..] else a + "." + b + "." + e
  {
    var p := a + "." + b + ".";
    assert p[3] == '.' && p[7] == '.';
    DoisSeparadores(p, e);
    InsercaoAposPrefixo(p, e, c);
  }

  /** The four `replace` calls on a string of digits. */
  function Cadeia(d: string): string {
    CortarCauda(InserirAposTres(InserirAposTres(InserirAposTres(d, '.'), '.'), '-'))
  }

  lemma CadeiaCurta(d: string)
    requires AllDigits(d) && |d| <= 3
    ensures Cadeia(d) == d
  {
    InsercaoEmDigitos(d, '.');
    InsercaoEmDigitos(d, '-');
    CorteSemTraco(d);
  }

  lemma CadeiaUmPonto(d: string)
    requires AllDigits(d) && 4 <= |d| <= 6
    ensures Cadeia(d) == d[..3] + "." + d[3..]
  {
    var a, b := d[..3], d[3..];
    InsercaoEmDigitos(d, '.');
    PassoAposUmSeparador(a, b, '.');
    PassoAposUmSeparador(a, b, '-');
    SemTracoEmDigitos(a);
    SemTracoEmDigitos(b);
    CorteSemTraco(a + "." + b);
  }

  /** Up to the third `replace` call, for seven digits or more. */
  lemma DoisPontos(d: string)
    requires AllDigits(d) && |d| >= 7
    ensures InserirAposTres(InserirAposTres(d, '.'), '.') == d[..3] + "." + d[3..6] + "." + d[6..]
  {
    var a, b := d[..3], d[3..];
    InsercaoEmDigitos(d, '.');
    PassoAposUmSeparador(a, b, '.');
    assert b[..3] == d[3..6] && b[3..] == d[6..];
  }

  lemma CadeiaDoisPontos(d: string)
    requires AllDigits(d) && 7 <= |d| <= 9
    ensures Cadeia(d) == d[..3] + "." + d[3..6] + "." + d[6..]
  {
    var a, b, e := d[..3], d[3..6], d[6..];
    DoisPontos(d);
    PassoAposDoisSeparadores(a, b, e, '-');
    SemTracoEmDigitos(a);
    SemTracoEmDigitos(b);
    SemTracoEmDigitos(e);
    CorteSemTraco(a + "." + b + "." + e);
  }

  lemma CadeiaComTraco(d: string)
    requires AllDigits(d) && |d| >= 10
    ensures Cadeia(d) == d[..3] + "." + d[3..6] + "." + d[6..9] + "-" + d[9..Min(|d|, 11)]
  {
    var a, b, e := d[..3], d[3..6], d[6..];
    DoisPontos(d);
    PassoAposDoisSeparadores(a, b, e, '-');
    assert e[..3] == d[6..9] && e[3..] == d[9..];
    var q, g := a + "." + b + "." + d[6..9], d[9..];
    SemTracoEmDigitos(a);
    SemTracoEmDigitos(b);
    SemTracoEmDigitos(d[6..9]);
    CorteAposTraco(q, g);
    if |d| >= 12 {
      assert g[..2] == d[9..11];
    }
  }

  /** The four `replace` calls on a string of digits produce its grouping `Agrupado`. */
  lemma CadeiaAgrupa(d: string)
    requires AllDigits(d)
    ensures Cadeia(d) == Agrupado(d)
  {
    if |d| <= 3 {
      CadeiaCurta(d);
    } else if |d| <= 6 {
      CadeiaUmPonto(d);
    } else if |d| <= 9 {
      CadeiaDoisPontos(d);
    } else {
      CadeiaComTraco(d);
    }
  }

  /** Removing one non-digit between two strings leaves the digits of both. */
  lemma DigitosEmTorno(x: string, c: char, y: string)
    requires !IsDigit(c)
    ensures SoDigitos(x + [c] + y) == SoDigitos(x) + SoDigitos(y)
  {
    Seqs.FilterConcat(x + [c], y, IsDigit);
    Seqs.FilterSnoc(x, c, IsDigit);
  }

  lemma DigitosDeDigitos(d: string)
    requires AllDigits(d)
    ensures SoDigitos(d) == d
  {
    Seqs.FilterTodos(d, IsDigit);
  }

  lemma DigitosDeDoisGrupos(a: string, b: string)
    requires AllDigits(a) && AllDigits(b)
    ensures SoDigitos(a + "." + b) == a + b
  {
    DigitosEmTorno(a, '.', b);
    DigitosDeDigitos(a);
    DigitosDeDigitos(b);
  }

  lemma DigitosDeTresGrupos(a: string, b: string, e: string)
    requires AllDigits(a) && AllDigits(b) && AllDigits(e)
    ensures SoDigitos(a + "." + b + "." + e) == a + b + e
  {
    DigitosDeDoisGrupos(a, b);
    DigitosEmTorno(a + "." + b, '.', e);
    DigitosDeDigitos(e);
  }

  lemma DigitosDeQuatroGrupos(a: string, b: string, e: string, g: string)
    requires AllDigits(a) && AllDigits(b) && AllDigits(e) && AllDigits(g)
    ensures SoDigitos(a + "." + b + "." + e + "-" + g) == a + b + e + g
  {
    DigitosDeTresGrupos(a, b, e);
    DigitosEmTorno(a + "." + b + "." + e, '-', g);
    DigitosDeDigitos(g);
  }

  lemma Partes(d: string, m: nat)
    requires 9 <= m <= |d|
    ensures d[..3] + d[3..6] + d[6..9] + d[9..m] == d[..m]
  {
  }

  lemma DigitosAgrupadoComTraco(d: string)
    requires AllDigits(d) && |d| >= 10
    ensures SoDigitos(Agrupado(d)) == d[..Min(|d|, 11)]
  {
    var m := Min(|d|, 11);
    DigitosDeQuatroGrupos(d[..3], d[3..6], d[6..9], d[9..m]);
    Partes(d, m);
  }

  /** The grouping keeps the first eleven digits and adds only separators. */
  lemma DigitosDoAgrupado(d: string)
    requires AllDigits(d)
    ensures SoDigitos(Agrupado(d)) == d[..Min(|d|, 11)]
  {
    if |d| <= 3 {
      DigitosDeDigitos(d);
      assert d[..|d|] == d;
    } else if |d| <= 6 {
      DigitosAgrupadoDois(d);
    } else if |d| <= 9 {
      DigitosAgrupadoTres(d);
    } else {
      DigitosAgrupadoComTraco(d);
    }
  }

  lemma DigitosAgrupadoDois(d: string)
    requires AllDigits(d) && 3 < |d| <= 6
    ensures SoDigitos(Agrupado(d)) == d[..Min(|d|, 11)]
  {
    assert Agrupado(d) == d[..3] + "." + d[3..] && Min(|d|, 11) == |d|;
    DigitosDeDoisGrupos(d[..3], d[3..]);
    assert d[..3] + d[3..] == d;
  }

  lemma DigitosAgrupadoTres(d: string)
    requires AllDigits(d) && 6 < |d| <= 9
    ensures SoDigitos(Agrupado(d)) == d[..Min(|d|, 11)]
  {
    assert Agrupado(d) == d[..3] + "." + d[3..6] + "." + d[6..] && Min(|d|, 11) == |d|;
    DigitosDeTresGrupos(d[..3], d[3..6], d[6..]);
    assert d[..3] + d[3..6] + d[6..] == d;
  }

  /** The digits of the masked CPF are the first eleven digits typed (all of them when fewer), in order; every
      other character typed is gone. */
  lemma DigitosDaMascara(valor: string)
    ensures SoDigitos(MascaraCpf(valor)) == SoDigitos(valor)[..Min(|SoDigitos(valor)|, 11)]
  {
    DigitosDoAgrupado(SoDigitos(valor));
  }

  /** Groups of three, three, three and two digits between the separators pass the format check. */
  lemma FormatoDosGrupos(a: string, b: string, e: string, g: string)
    requires AllDigits(a) && AllDigits(b) && AllDigits(e) && AllDigits(g)
    requires |a| == 3 && |b| == 3 && |e| == 3 && |g| == 2
    ensures FormatoCpf(a + "." + b + "." + e + "-" + g)
  {
    var r := a + "." + b + "." + e + "-" + g;
    assert r[0..3] == a && r[4..7] == b && r[8..11] == e && r[12..14] == g;
  }

  /** Eleven digits or more typed give `ddd.ddd.ddd-dd`, which passes the format check. */
  lemma OnzeDigitosPassam(valor: string)
    requires |SoDigitos(valor)| >= 11
    ensures FormatoCpf(MascaraCpf(valor))
  {
    var d := SoDigitos(valor);
    FormatoDosGrupos(d[..3], d[3..6], d[6..9], d[9..11]);
  }

  /** Fewer than eleven digits give a shorter string, which fails the format check. */
  lemma MenosDeOnzeFalham(valor: string)
    requires |SoDigitos(valor)| < 11
    ensures !FormatoCpf(MascaraCpf(valor))
    ensures |MascaraCpf(valor)| < 14
  {
  }

  /** The grouping looks only at the first eleven digits. */
  lemma AgrupadoDosOnze(d: string)
    requires AllDigits(d)
    ensures AllDigits(d[..Min(|d|, 11)])
    ensures Agrupado(d[..Min(|d|, 11)]) == Agrupado(d)
  {
    var t := d[..Min(|d|, 11)];
    if |d| > 11 {
      assert t[..3] == d[..3] && t[3..6] == d[3..6] && t[6..9] == d[6..9] && t[9..11] == d[9..11];
    } else {
      assert t == d;
    }
  }

  /** Masking a masked CPF changes nothing. */
  lemma {:induction false} MascaraIdempotente(valor: string)
    ensures MascaraCpf(MascaraCpf(valor)) == MascaraCpf(valor)
  {
    var m := MascaraCpf(valor);
    DigitosDaMascara(valor);
    AgrupadoDosOnze(SoDigitos(valor));
  }

  /** A CPF already written as `000.000.000-00` is left as it is. */
  lemma FormatadoFica(cpf: string)
    requires FormatoCpf(cpf)
    ensures MascaraCpf(cpf) == cpf
  {
    var a, b, e, g := cpf[0..3], cpf[4..7], cpf[8..11], cpf[12..14];
    assert cpf == a + "." + b + "." + e + "-" + g;
    DigitosDeQuatroGrupos(a, b, e, g);
    var d := SoDigitos(cpf);
    assert d[..3] == a && d[3..6] == b && d[6..9] == e && d[9..11] == g;
  }

  const ERRO_NOME: string := "Nome é obrigatório"
  const ERRO_CPF: string := "CPF é obrigatório"
  const ERRO_FORMATO_CPF: string := "CPF deve estar no formato 000.000.000-00"
  const ERRO_TELEFONE: string := "Telefone é obrigatório"

  /** The keys of the error object: the names of the fields. */
  datatype Campo = Nome | Cpf | Telefone

  /** The form's three text fields. */
  datatype DadosCliente = DadosCliente(nome: string, cpf: string, telefone: string)

  /** What the form accepts: a name, a CPF in the `000.000.000-00` format and a telephone. */
  predicate ClienteAceitavel(f: DadosCliente) {
    !EmBranco(f.nome) && !EmBranco(f.cpf) && FormatoCpf(f.cpf) && !EmBranco(f.telefone)
  }

  /** `validateForm()`: one error per field, keyed by the field's name. A blank CPF is reported as missing, not as
      badly formatted. The form is valid exactly when no key was set. */
  method ValidarFormulario(f: DadosCliente) returns (erros: map<Campo, string>, valido: bool)
    ensures Nome in erros <==> EmBranco(f.nome)
    ensures Nome in erros ==> erros[Nome] == ERRO_NOME
    ensures Cpf in erros <==> EmBranco(f.cpf) || !FormatoCpf(f.cpf)
    ensures EmBranco(f.cpf) ==> Cpf in erros && erros[Cpf] == ERRO_CPF
    ensures !EmBranco(f.cpf) && !FormatoCpf(f.cpf) ==> Cpf in erros && erros[Cpf] == ERRO_FORMATO_CPF
    ensures Telefone in erros <==> EmBranco(f.telefone)
    ensures Telefone in erros ==> erros[Telefone] == ERRO_TELEFONE
    ensures valido <==> erros == map[]
    ensures valido <==> ClienteAceitavel(f)
  {
    erros := map[];
    if EmBranco(f.nome) {
      erros := erros[Nome := ERRO_NOME];
    }
    if EmBranco(f.cpf) {
      erros := erros[Cpf := ERRO_CPF];
    } else if !FormatoCpf(f.cpf) {
      erros := erros[Cpf := ERRO_FORMATO_CPF];
    }
    if EmBranco(f.telefone) {
      erros := erros[Telefone := ERRO_TELEFONE];
    }
    valido := |erros.Keys| == 0;
    Seqs.SemChaves(erros);
  }

  /** A CPF in the expected format starts with a digit, so it is never blank. */
  lemma FormatadoNaoEmBranco(cpf: string)
    requires FormatoCpf(cpf)
    ensures !EmBranco(cpf)
  {
    assert IsDigit(cpf[0..3][0]);
    TrimNaoVazio(cpf);
  }

  /** Typing eleven digits into the CPF field, with a name and a telephone filled in, yields an acceptable
      form. */
  lemma OnzeDigitosAceitos(nome: string, digitado: string, telefone: string)
    requires !EmBranco(nome) && !EmBranco(telefone) && |SoDigitos(digitado)| >= 11
    ensures ClienteAceitavel(DadosCliente(nome, MascaraCpf(digitado), telefone))
  {
    OnzeDigitosPassam(digitado);
    FormatadoNaoEmBranco(MascaraCpf(digitado));
  }
}
