/** The charge list (src/components/CobrancasList.jsx): the search over the hook's charges and the button that
    switches a charge between paid and pending. */
module CobrancasList {
  import opened Wrappers
  import opened BancoDados
  import Text
  import Seqs
  import opened CobrancaModel
  import opened CobrancaService
  import HookCobrancas

  /** The search test for one charge. With no term every charge passes; otherwise the lower-cased term must occur
      in the lower-cased name of the charge's client, in the lower-cased description or in the id written in
      decimal. `nomeCliente` stands for `buscarClientePorId(id)?.nome` (`None` when no client has the id) and
      `minusculas` for `toLowerCase`. */
  predicate Corresponde(termo: string, nomeCliente: int -> Option<string>, minusculas: string -> string, c: Cob) {
    if termo == "" then true
    else
      var busca := minusculas(termo);
      var nome := if nomeCliente(c.dados.cliente).Some? then minusculas(nomeCliente(c.dados.cliente).value) else "";
      Text.Contains(nome, busca) || Text.Contains(minusculas(c.dados.descricao), busca) ||
      Text.Contains(Text.IntToString(c.id), busca)
  }

  /** The search test as the callback handed to `filter`. */
  function Criterio(termo: string, nomeCliente: int -> Option<string>, minusculas: string -> string): Cob -> bool {
    (c: Cob) => Corresponde(termo, nomeCliente, minusculas, c)
  }

  /** `cobrancasFiltradas`: the charges that pass the search, in the list's order and each as often as it occurs
      there; with no term, the whole list. */
  function CobrancasFiltradas(
    cobrancas: seq<Cob>, termo: string, nomeCliente: int -> Option<string>, minusculas: string -> string)
    : (r: seq<Cob>)
    ensures Seqs.Subsequence(r, cobrancas)
    ensures forall c :: c in r <==> c in cobrancas && Corresponde(termo, nomeCliente, minusculas, c)
    ensures forall c :: multiset(r)[c] == if Corresponde(termo, nomeCliente, minusculas, c) then multiset(cobrancas)[c] else 0
    ensures termo == "" ==> r == cobrancas
  {
    var p := Criterio(termo, nomeCliente, minusculas);
    Seqs.FilterIsSubsequence(cobrancas, p);
    forall c ensures multiset(Seqs.Filter(cobrancas, p))[c] == if p(c) then multiset(cobrancas)[c] else 0 {
      Seqs.FilterMultiset(cobrancas, p, c);
    }
    if termo == "" then
      Seqs.FilterTodos(cobrancas, p);
      Seqs.Filter(cobrancas, p)
    else Seqs.Filter(cobrancas, p)
  }

  /** A text always contains itself. */
  lemma ContemASi(s: string)
    ensures Text.Contains(s, s)
  {
  }

  /** Searching for a charge's id finds it, when lower-casing leaves the digits as they are. */
  lemma BuscaPeloId(c: Cob, nomeCliente: int -> Option<string>, minusculas: string -> string)
    requires minusculas(Text.IntToString(c.id)) == Text.IntToString(c.id)
    ensures Corresponde(Text.IntToString(c.id), nomeCliente, minusculas, c)
  {
    ContemASi(Text.IntToString(c.id));
  }

  /** Searching for a charge's description, when lower-casing is the identity on it, finds the charge. */
  lemma BuscaPelaDescricao(c: Cob, nomeCliente: int -> Option<string>, minusculas: string -> string)
    requires minusculas(c.dados.descricao) == c.dados.descricao
    ensures Corresponde(c.dados.descricao, nomeCliente, minusculas, c)
  {
    ContemASi(c.dados.descricao);
  }

  /** `handleStatusToggle(cobranca)`: a paid charge is marked pending and a pending one paid, through the charges
      hook. The store's records with the id get the opposite status and nothing else changes; without such a
      record nothing changes at all. */
  method AlternarStatus(hook: HookCobrancas.UseCobrancas, c: Cob) returns (r: Option<Cob>)
    modifies hook, hook.banco
    ensures r.None? <==> !TemId(old(hook.banco.registros), c.id)
    ensures r.None? ==> hook.cobrancas == old(hook.cobrancas) && hook.banco.registros == old(hook.banco.registros)
    ensures r.Some? ==> (r.value.id == c.id && r.value.dados.status == !c.dados.status &&
              hook.banco.registros == AplicarPorId(old(hook.banco.registros), c.id, Aplicacao(SoStatus(!c.dados.status))))
    ensures old(hook.Sincronizado()) ==> hook.Sincronizado()
  {
    if c.dados.status {
      r := hook.MarcarComo(c.id, false);
    } else {
      r := hook.MarcarComo(c.id, true);
    }
  }

  /** Pressing the toggle twice on a charge restores the store: when every record with the id has status `s`,
      marking them `!s` and then `s` gives back the records as they were. */
  lemma {:induction false} AlternarDuasVezes(registros: seq<Cob>, id: int, s: bool)
    requires forall i :: 0 <= i < |registros| && registros[i].id == id ==> registros[i].dados.status == s
    ensures AplicarPorId(AplicarPorId(registros, id, Aplicacao(SoStatus(!s))), id, Aplicacao(SoStatus(s))) == registros
  {
    var meio := AplicarPorId(registros, id, Aplicacao(SoStatus(!s)));
    var fim := AplicarPorId(meio, id, Aplicacao(SoStatus(s)));
    forall i | 0 <= i < |registros|
      ensures fim[i] == registros[i]
    {
      if registros[i].id == id {
        MarcarSoAlteraStatus(registros[i].dados, !s);
        MarcarSoAlteraStatus(meio[i].dados, s);
      }
    }
  }
}
