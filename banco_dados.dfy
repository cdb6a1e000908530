/** The keyed record store the services persist through (`BancoDados`), reduced to what its callers rely on:
    one collection of records that carry an id, read whole, appended to, patched by id and deleted by id.
    How ids are chosen and how records are persisted belong to the store and are not part of this model. */
module BancoDados {
  import opened Wrappers
  import Seqs

  /** A stored record: the id the store gave it and its fields. */
  datatype Registro<T> = Registro(id: int, dados: T)

  predicate TemId<T>(s: seq<Registro<T>>, id: int) {
    exists i :: 0 <= i < |s| && s[i].id == id
  }

  /** `s.map(x => x.id === id ? novo : x)`: every record with the id becomes `novo`. */
  function SubstituirPorId<T>(s: seq<Registro<T>>, id: int, novo: Registro<T>): (r: seq<Registro<T>>)
    ensures |r| == |s|
    ensures forall i :: 0 <= i < |s| && s[i].id == id ==> r[i] == novo
    ensures forall i :: 0 <= i < |s| && s[i].id != id ==> r[i] == s[i]
  {
    if s == [] then []
    else SubstituirPorId(s[..|s| - 1], id, novo) + [if s[|s| - 1].id == id then novo else s[|s| - 1]]
  }

  /** The fields of every record with the id are rewritten by `patch`; the id and every other record stay. */
  function AplicarPorId<T>(s: seq<Registro<T>>, id: int, patch: T -> T): (r: seq<Registro<T>>)
    ensures |r| == |s| && forall i :: 0 <= i < |s| ==> r[i].id == s[i].id
    ensures forall i :: 0 <= i < |s| && s[i].id == id ==> r[i] == Registro(id, patch(s[i].dados))
    ensures forall i :: 0 <= i < |s| && s[i].id != id ==> r[i] == s[i]
  {
    if s == [] then []
    else
      var last := s[|s| - 1];
      AplicarPorId(s[..|s| - 1], id, patch) + [if last.id == id then Registro(id, patch(last.dados)) else last]
  }

  function OutroId<T>(id: int): Registro<T> -> bool {
    (x: Registro<T>) => x.id != id
  }

  /** `s.filter(x => x.id !== id)`. */
  function RemoverPorId<T>(s: seq<Registro<T>>, id: int): (r: seq<Registro<T>>)
    ensures !TemId(r, id)
    ensures forall x :: x in r ==> x in s && x.id != id
    ensures forall x :: x in s && x.id != id ==> x in r
  {
    var r := Seqs.Filter(s, OutroId(id));
    assert forall i :: 0 <= i < |r| ==> r[i] in r;
    r
  }

  /** Removing by id keeps every other record as often as it occurred and in its original order. */
  lemma RemoverPorIdPreserva<T>(s: seq<Registro<T>>, id: int, x: Registro<T>)
    ensures Seqs.Subsequence(RemoverPorId(s, id), s)
    ensures multiset(RemoverPorId(s, id))[x] == if x.id == id then 0 else multiset(s)[x]
  {
    Seqs.FilterIsSubsequence(s, OutroId(id));
    Seqs.FilterMultiset(s, OutroId(id), x);
  }

  /** `s.find(x => x.id === id)`. */
  function BuscarPorId<T>(s: seq<Registro<T>>, id: int): (r: Option<Registro<T>>)
    ensures r.None? <==> !TemId(s, id)
    ensures r.Some? ==> r.value in s && r.value.id == id
    ensures r.Some? ==> exists k :: 0 <= k < |s| && s[k] == r.value && forall j :: 0 <= j < k ==> s[j].id != id
  {
    Seqs.FindFirst(s, (x: Registro<T>) => x.id == id)
  }

  /** After a replacement by id with a record of that id, a lookup of the id finds the new record. */
  lemma {:induction false} BuscarAposSubstituir<T>(s: seq<Registro<T>>, id: int, novo: Registro<T>)
    requires novo.id == id && TemId(s, id)
    ensures BuscarPorId(SubstituirPorId(s, id, novo), id) == Some(novo)
  {
    var r := SubstituirPorId(s, id, novo);
    var k := Seqs.FirstIndex(r, (x: Registro<T>) => x.id == id);
    assert TemId(r, id);
    assert r[k].id == id;
  }

  /** No two records share an id. */
  predicate IdsUnicos<T>(s: seq<Registro<T>>) {
    forall i, j :: 0 <= i < j < |s| ==> s[i].id != s[j].id
  }

  /** With unique ids, replacing the record that has the id by its patched version is the same as patching by id:
      a copy of the store that mirrors it by replacement stays equal to it. */
  lemma SubstituirAplicado<T>(s: seq<Registro<T>>, id: int, patch: T -> T, novo: Registro<T>)
    requires IdsUnicos(s) && novo.id == id && novo in AplicarPorId(s, id, patch)
    ensures SubstituirPorId(s, id, novo) == AplicarPorId(s, id, patch)
    ensures IdsUnicos(AplicarPorId(s, id, patch))
  {
    var a := AplicarPorId(s, id, patch);
    var b := SubstituirPorId(s, id, novo);
    var k :| 0 <= k < |a| && a[k] == novo;
    forall i | 0 <= i < |s|
      ensures b[i] == a[i]
    {
      if s[i].id == id {
        assert i == k;
      }
    }
  }

  /** Appending a record under an id not yet used keeps ids unique. */
  lemma AcrescentarMantemUnicos<T>(s: seq<Registro<T>>, x: Registro<T>)
    requires IdsUnicos(s) && !TemId(s, x.id)
    ensures IdsUnicos(s + [x])
  {
  }

  /** Removing by id keeps ids unique. */
  lemma {:induction false} RemoverMantemUnicos<T>(s: seq<Registro<T>>, id: int)
    requires IdsUnicos(s)
    ensures IdsUnicos(RemoverPorId(s, id))
  {
    if s != [] {
      var init, x := s[..|s| - 1], s[|s| - 1];
      assert s == init + [x];
      RemoverMantemUnicos(init, id);
      Seqs.FilterSnoc(init, x, OutroId(id));
      var ri := RemoverPorId(init, id);
      if x.id != id {
        forall k | 0 <= k < |ri| ensures ri[k].id != x.id {
          assert ri[k] in ri;
          var j :| 0 <= j < |init| && init[j] == ri[k];
          assert s[j] == ri[k];
        }
        AcrescentarMantemUnicos(ri, x);
      }
    }
  }

  /** One collection of the store. */
  class Colecao<T> {
    var registros: seq<Registro<T>>

    constructor (inicial: seq<Registro<T>>)
      ensures registros == inicial
    {
      registros := inicial;
    }

    /** `get`: the records, in store order. */
    method Get() returns (r: seq<Registro<T>>)
      ensures r == registros
    {
      r := registros;
    }

    /** `post`: stores `dados` under the id the store chose (`novoId`) at the end and returns the record. */
    method Post(dados: T, novoId: int) returns (r: Registro<T>)
      modifies this
      ensures r == Registro(novoId, dados)
      ensures registros == old(registros) + [r]
    {
      r := Registro(novoId, dados);
      registros := registros + [r];
    }

    /** `update`: overwrites the given fields of the records with the id and returns the first updated record;
        `None`, with nothing changed, when no record has the id. */
    method Update(id: int, patch: T -> T) returns (r: Option<Registro<T>>)
      modifies this
      ensures r.None? <==> !TemId(old(registros), id)
      ensures r.None? ==> registros == old(registros)
      ensures r.Some? ==> registros == AplicarPorId(old(registros), id, patch)
      ensures r.Some? ==> r.value.id == id && r.value in registros
    {
      var antes := BuscarPorId(registros, id);
      if antes.None? {
        r := None;
      } else {
        registros := AplicarPorId(registros, id, patch);
        r := Some(Registro(id, patch(antes.value.dados)));
        ghost var k :| 0 <= k < |old(registros)| && old(registros)[k] == antes.value;
        assert registros[k] == r.value;
      }
    }

    /** `delete`: drops every record with the id. */
    method Delete(id: int)
      modifies this
      ensures registros == RemoverPorId(old(registros), id)
    {
      registros := RemoverPorId(registros, id);
    }
  }
}
