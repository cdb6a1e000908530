/** Sequence operations that stand for JavaScript's `filter`, `reduce`, `find` and `sort` on arrays. */
module Seqs {
  import opened Wrappers

  /** `s.filter(p)`: the elements of `s` that satisfy `p`, in their original order. */
  function Filter<T>(s: seq<T>, p: T -> bool): (r: seq<T>)
    ensures |r| <= |s|
    ensures forall x :: x in r ==> x in s && p(x)
    ensures forall x :: x in s && p(x) ==> x in r
  {
    if s == [] then []
    else
      assert s == s[..|s| - 1] + [s[|s| - 1]];
      Filter(s[..|s| - 1], p) + (if p(s[|s| - 1]) then [s[|s| - 1]] else [])
  }

  /** `r` is obtained from `s` by deleting elements, the rest keeping their order. */
  predicate Subsequence<T(==)>(r: seq<T>, s: seq<T>)
    decreases |s|
  {
    if r == [] then true
    else if s == [] then false
    else if r[|r| - 1] == s[|s| - 1] then Subsequence(r[..|r| - 1], s[..|s| - 1])
    else Subsequence(r, s[..|s| - 1])
  }

  /** Filtering keeps the order of what it keeps. */
  lemma {:induction false} FilterIsSubsequence<T>(s: seq<T>, p: T -> bool)
    ensures Subsequence(Filter(s, p), s)
  {
    if s != [] {
      var init, last := s[..|s| - 1], s[|s| - 1];
      FilterIsSubsequence(init, p);
      var r := Filter(s, p);
      if p(last) {
        assert r[..|r| - 1] == Filter(init, p);
      } else {
        assert r == Filter(init, p);
        if r != [] {
          assert r[|r| - 1] in r;
          assert p(r[|r| - 1]);
          assert r[|r| - 1] != last;
        }
      }
    }
  }

  /** Filtering keeps every element that satisfies the predicate as many times as it occurs, and no other. */
  lemma {:induction false} FilterMultiset<T>(s: seq<T>, p: T -> bool, x: T)
    ensures multiset(Filter(s, p))[x] == if p(x) then multiset(s)[x] else 0
  {
    if s != [] {
      var init, last := s[..|s| - 1], s[|s| - 1];
      assert s == init + [last];
      FilterMultiset(init, p, x);
      assert multiset(s) == multiset(init) + multiset{last};
    }
  }

  /** `s.reduce((total, x) => total + f(x), 0)` over exact reals. */
  function Sum<T>(s: seq<T>, f: T -> real): real
  {
    if s == [] then 0.0 else Sum(s[..|s| - 1], f) + f(s[|s| - 1])
  }

  lemma {:induction false} SumConcat<T>(a: seq<T>, b: seq<T>, f: T -> real)
    ensures Sum(a + b, f) == Sum(a, f) + Sum(b, f)
  {
    if b != [] {
      assert (a + b)[..|a + b| - 1] == a + b[..|b| - 1];
      SumConcat(a, b[..|b| - 1], f);
    } else {
      assert a + b == a;
    }
  }

  /** Summing the elements that satisfy `p` and those that satisfy its complement `q` gives the whole sum. */
  lemma {:induction false} SumSplit<T>(s: seq<T>, p: T -> bool, q: T -> bool, f: T -> real)
    requires forall x :: x in s ==> (q(x) <==> !p(x))
    ensures Sum(Filter(s, p), f) + Sum(Filter(s, q), f) == Sum(s, f)
  {
    if s != [] {
      var init, last := s[..|s| - 1], s[|s| - 1];
      assert forall x :: x in init ==> x in s;
      SumSplit(init, p, q, f);
      SumConcat(Filter(init, p), if p(last) then [last] else [], f);
      SumConcat(Filter(init, q), if q(last) then [last] else [], f);
      assert Sum([last], f) == f(last) by {
        assert [last][..0] == [];
      }
    }
  }

  /** When `q` holds exactly where `p` does not, the two filters together count every element. */
  lemma {:induction false} CountSplit<T>(s: seq<T>, p: T -> bool, q: T -> bool)
    requires forall x :: x in s ==> (q(x) <==> !p(x))
    ensures |Filter(s, p)| + |Filter(s, q)| == |s|
  {
    if s != [] {
      CountSplit(s[..|s| - 1], p, q);
      assert s[|s| - 1] in s;
    }
  }

  /** Three pairwise exclusive filters select at most all elements, and exactly all when every element satisfies one. */
  lemma {:induction false} CountThree<T>(s: seq<T>, p1: T -> bool, p2: T -> bool, p3: T -> bool)
    requires forall x :: x in s ==> !(p1(x) && p2(x)) && !(p1(x) && p3(x)) && !(p2(x) && p3(x))
    ensures |Filter(s, p1)| + |Filter(s, p2)| + |Filter(s, p3)| <= |s|
    ensures (forall x :: x in s ==> p1(x) || p2(x) || p3(x)) ==>
              |Filter(s, p1)| + |Filter(s, p2)| + |Filter(s, p3)| == |s|
  {
    if s != [] {
      var init := s[..|s| - 1];
      assert forall x :: x in init ==> x in s;
      CountThree(init, p1, p2, p3);
    }
  }

  /** The number of elements before the first one that satisfies `p` (`|s|` when none does). */
  function FirstIndex<T>(s: seq<T>, p: T -> bool): (k: nat)
    ensures k <= |s|
    ensures forall j :: 0 <= j < k ==> !p(s[j])
    ensures k < |s| ==> p(s[k])
  {
    if s == [] then 0 else if p(s[0]) then 0 else 1 + FirstIndex(s[1..], p)
  }

  /** `s.find(p)`: the first element that satisfies `p`, or `None` (JavaScript's `undefined`). */
  function FindFirst<T>(s: seq<T>, p: T -> bool): (r: Option<T>)
    ensures r.None? <==> forall i :: 0 <= i < |s| ==> !p(s[i])
    ensures r.Some? ==> FirstIndex(s, p) < |s| && r.value == s[FirstIndex(s, p)] && p(r.value)
    ensures r.Some? ==> exists k :: 0 <= k < |s| && s[k] == r.value && forall j :: 0 <= j < k ==> !p(s[j])
  {
    var k := FirstIndex(s, p);
    if k < |s| then Some(s[k]) else None
  }

  /** `s` is ordered by non-increasing `key`. */
  predicate SortedDesc<T>(s: seq<T>, key: T -> int)
  {
    forall i, j :: 0 <= i < j < |s| ==> key(s[i]) >= key(s[j])
  }

  /** Inserts `x` after every leading element whose key is at least `key(x)`. */
  function InsertDesc<T>(x: T, s: seq<T>, key: T -> int): (r: seq<T>)
    ensures multiset(r) == multiset(s) + multiset{x}
  {
    if s == [] then [x]
    else if key(s[0]) >= key(x) then
      assert s == [s[0]] + s[1..];
      [s[0]] + InsertDesc(x, s[1..], key)
    else
      [x] + s
  }

  lemma {:induction false} InsertDescSorted<T>(x: T, s: seq<T>, key: T -> int)
    requires SortedDesc(s, key)
    ensures SortedDesc(InsertDesc(x, s, key), key)
    ensures |InsertDesc(x, s, key)| == |s| + 1
    ensures InsertDesc(x, s, key)[0] == x || (s != [] && InsertDesc(x, s, key)[0] == s[0])
  {
    var r := InsertDesc(x, s, key);
    assert |r| == |s| + 1 by {
      assert |multiset(r)| == |multiset(s)| + 1;
    }
    if s != [] && key(s[0]) >= key(x) {
      var rest := InsertDesc(x, s[1..], key);
      InsertDescSorted(x, s[1..], key);
      assert r == [s[0]] + rest;
      forall j | 0 < j < |r| ensures key(r[0]) >= key(r[j]) {
        assert r[j] == rest[j - 1];
        assert rest[j - 1] in multiset(rest);
        assert rest[j - 1] in multiset(s[1..]) || rest[j - 1] == x;
        if rest[j - 1] != x {
          assert rest[j - 1] in s[1..];
        }
      }
    }
  }

  /** `s.sort((a, b) => key(b) - key(a))`: a sort that puts larger keys first (insertion, keeping earlier
      elements ahead of later ones with the same key). */
  function SortDesc<T>(s: seq<T>, key: T -> int): (r: seq<T>)
    ensures multiset(r) == multiset(s)
    ensures SortedDesc(r, key)
  {
    if s == [] then []
    else
      assert s == s[..|s| - 1] + [s[|s| - 1]];
      InsertDescSorted(s[|s| - 1], SortDesc(s[..|s| - 1], key), key);
      InsertDesc(s[|s| - 1], SortDesc(s[..|s| - 1], key), key)
  }

  /** Filtering one more element adds it at the end exactly when it passes. */
  lemma FilterSnoc<T>(s: seq<T>, x: T, p: T -> bool)
    ensures Filter(s + [x], p) == Filter(s, p) + (if p(x) then [x] else [])
  {
    assert (s + [x])[..|s|] == s;
  }

  lemma SumSnoc<T>(s: seq<T>, x: T, f: T -> real)
    ensures Sum(s + [x], f) == Sum(s, f) + f(x)
  {
    assert (s + [x])[..|s|] == s;
  }

  /** The elements whose key is `k`. */
  function ComChave<T, K(==)>(chave: T -> K, k: K): T -> bool {
    (x: T) => chave(x) == k
  }

  /** No key occurs twice. */
  predicate Distintas<K(==)>(c: seq<K>) {
    forall i, j :: 0 <= i < j < |c| ==> c[i] != c[j]
  }

  /** How many times `k` occurs in `c`. */
  function Ocorrencias<K(==)>(c: seq<K>, k: K): nat {
    if c == [] then 0 else Ocorrencias(c[..|c| - 1], k) + (if c[|c| - 1] == k then 1 else 0)
  }

  lemma {:induction false} OcorrenciasAusente<K>(c: seq<K>, k: K)
    requires k !in c
    ensures Ocorrencias(c, k) == 0
  {
    if c != [] {
      assert forall y :: y in c[..|c| - 1] ==> y in c;
      OcorrenciasAusente(c[..|c| - 1], k);
    }
  }

  /** A key of a list without repetitions occurs in it exactly once. */
  lemma {:induction false} OcorrenciasDistintas<K>(c: seq<K>, k: K)
    requires Distintas(c) && k in c
    ensures Ocorrencias(c, k) == 1
  {
    var init := c[..|c| - 1];
    assert Distintas(init);
    if c[|c| - 1] == k {
      assert forall i :: 0 <= i < |init| ==> init[i] == c[i] && c[i] != c[|c| - 1];
      OcorrenciasAusente(init, k);
    } else {
      assert k in init by {
        var i :| 0 <= i < |c| && c[i] == k;
        assert init[i] == k;
      }
      OcorrenciasDistintas(init, k);
    }
  }

  /** The sizes of the groups of `s` by key, added up over the keys in `chaves`. */
  function ContagemPorChave<T, K(==)>(s: seq<T>, chaves: seq<K>, chave: T -> K): nat {
    if chaves == [] then 0
    else ContagemPorChave(s, chaves[..|chaves| - 1], chave) + |Filter(s, ComChave(chave, chaves[|chaves| - 1]))|
  }

  lemma {:induction false} ContagemSnoc<T, K>(s: seq<T>, x: T, chaves: seq<K>, chave: T -> K)
    ensures ContagemPorChave(s + [x], chaves, chave) == ContagemPorChave(s, chaves, chave) + Ocorrencias(chaves, chave(x))
  {
    if chaves != [] {
      ContagemSnoc(s, x, chaves[..|chaves| - 1], chave);
      FilterSnoc(s, x, ComChave(chave, chaves[|chaves| - 1]));
    }
  }

  /** Grouping by a key partitions the elements: when the keys are distinct and cover every element, the group
      sizes add up to the length of the sequence. */
  lemma {:induction false} ParticaoContagem<T, K>(s: seq<T>, chaves: seq<K>, chave: T -> K)
    requires Distintas(chaves)
    requires forall x :: x in s ==> chave(x) in chaves
    ensures ContagemPorChave(s, chaves, chave) == |s|
  {
    if s == [] {
      ContagemVazia(chaves, chave);
    } else {
      var init, last := s[..|s| - 1], s[|s| - 1];
      assert s == init + [last];
      assert forall x :: x in init ==> x in s;
      ParticaoContagem(init, chaves, chave);
      ContagemSnoc(init, last, chaves, chave);
      OcorrenciasDistintas(chaves, chave(last));
    }
  }

  lemma {:induction false} ContagemVazia<T, K>(chaves: seq<K>, chave: T -> K)
    ensures ContagemPorChave([], chaves, chave) == 0
  {
    if chaves != [] {
      ContagemVazia(chaves[..|chaves| - 1], chave);
    }
  }

  /** The sums of `f` over the groups of `s` by key, added up over the keys in `chaves`. */
  function SomaPorChave<T, K(==)>(s: seq<T>, chaves: seq<K>, chave: T -> K, f: T -> real): real {
    if chaves == [] then 0.0
    else SomaPorChave(s, chaves[..|chaves| - 1], chave, f) + Sum(Filter(s, ComChave(chave, chaves[|chaves| - 1])), f)
  }

  lemma {:induction false} SomaSnoc<T, K>(s: seq<T>, x: T, chaves: seq<K>, chave: T -> K, f: T -> real)
    requires Distintas(chaves)
    ensures SomaPorChave(s + [x], chaves, chave, f) ==
            SomaPorChave(s, chaves, chave, f) + (if chave(x) in chaves then f(x) else 0.0)
  {
    if chaves != [] {
      var init, k := chaves[..|chaves| - 1], chaves[|chaves| - 1];
      assert Distintas(init);
      SomaSnoc(s, x, init, chave, f);
      var g, g' := Sum(Filter(s, ComChave(chave, k)), f), Sum(Filter(s + [x], ComChave(chave, k)), f);
      GrupoSnoc(s, x, chave, k, f);
      assert g' == g + (if chave(x) == k then f(x) else 0.0);
      assert chave(x) in chaves <==> chave(x) in init || chave(x) == k;
      assert chave(x) == k ==> chave(x) !in init by {
        assert forall i :: 0 <= i < |init| ==> init[i] == chaves[i] && chaves[i] != k;
      }
    }
  }

  /** One more element adds its value to its own group's sum and leaves the other groups' sums alone. */
  lemma GrupoSnoc<T, K>(s: seq<T>, x: T, chave: T -> K, k: K, f: T -> real)
    ensures Sum(Filter(s + [x], ComChave(chave, k)), f) ==
            Sum(Filter(s, ComChave(chave, k)), f) + (if chave(x) == k then f(x) else 0.0)
  {
    var p := ComChave(chave, k);
    FilterSnoc(s, x, p);
    if chave(x) == k {
      assert p(x);
      SumSnoc(Filter(s, p), x, f);
    } else {
      assert !p(x);
      assert Filter(s + [x], p) == Filter(s, p);
    }
  }

  lemma {:induction false} SomaVazia<T, K>(chaves: seq<K>, chave: T -> K, f: T -> real)
    ensures SomaPorChave([], chaves, chave, f) == 0.0
  {
    if chaves != [] {
      SomaVazia(chaves[..|chaves| - 1], chave, f);
    }
  }

  /** Grouping by a key partitions the elements: the group sums of `f` add up to the sum over the sequence. */
  lemma {:induction false} ParticaoSoma<T, K>(s: seq<T>, chaves: seq<K>, chave: T -> K, f: T -> real)
    requires Distintas(chaves)
    requires forall x :: x in s ==> chave(x) in chaves
    ensures SomaPorChave(s, chaves, chave, f) == Sum(s, f)
  {
    if s == [] {
      SomaVazia(chaves, chave, f);
    } else {
      var init, last := s[..|s| - 1], s[|s| - 1];
      assert s == init + [last];
      assert forall x :: x in init ==> x in s;
      ParticaoSoma(init, chaves, chave, f);
      SomaSnoc(init, last, chaves, chave, f);
      SumSnoc(init, last, f);
    }
  }

  /** A sum of non-negative terms is non-negative. */
  lemma {:induction false} SumNonNegative<T>(s: seq<T>, f: T -> real)
    requires forall x :: x in s ==> f(x) >= 0.0
    ensures Sum(s, f) >= 0.0
  {
    if s != [] {
      assert forall x :: x in s[..|s| - 1] ==> x in s;
      SumNonNegative(s[..|s| - 1], f);
    }
  }

  /** Filtering distributes over concatenation. */
  lemma {:induction false} FilterConcat<T>(a: seq<T>, b: seq<T>, p: T -> bool)
    ensures Filter(a + b, p) == Filter(a, p) + Filter(b, p)
    decreases |b|
  {
    if b != [] {
      var init, last := b[..|b| - 1], b[|b| - 1];
      assert b == init + [last];
      assert a + b == (a + init) + [last];
      FilterConcat(a, init, p);
      FilterSnoc(a + init, last, p);
      FilterSnoc(init, last, p);
    } else {
      assert a + b == a;
    }
  }

  /** When every element passes, filtering keeps the whole sequence. */
  lemma {:induction false} FilterTodos<T>(s: seq<T>, p: T -> bool)
    requires forall i :: 0 <= i < |s| ==> p(s[i])
    ensures Filter(s, p) == s
  {
    if s != [] {
      var init, last := s[..|s| - 1], s[|s| - 1];
      assert s == init + [last];
      FilterTodos(init, p);
      FilterSnoc(init, last, p);
    }
  }

  /** Both conditions hold. */
  function Ambos<T>(p: T -> bool, q: T -> bool): T -> bool {
    (x: T) => p(x) && q(x)
  }

  /** Filtering twice is filtering once by both conditions. */
  lemma {:induction false} FilterFilter<T>(s: seq<T>, p: T -> bool, q: T -> bool)
    ensures Filter(Filter(s, p), q) == Filter(s, Ambos(p, q))
  {
    if s != [] {
      var init, last := s[..|s| - 1], s[|s| - 1];
      assert s == init + [last];
      FilterFilter(init, p, q);
      FilterSnoc(init, last, p);
      FilterSnoc(init, last, Ambos(p, q));
      if p(last) {
        FilterSnoc(Filter(init, p), last, q);
        assert Filter(s, p) == Filter(init, p) + [last];
      } else {
        assert Filter(s, p) == Filter(init, p);
        assert !Ambos(p, q)(last);
      }
    }
  }

  /** Conditions that agree on every element select the same elements. */
  lemma {:induction false} FilterExt<T>(s: seq<T>, p: T -> bool, q: T -> bool)
    requires forall x :: x in s ==> p(x) == q(x)
    ensures Filter(s, p) == Filter(s, q)
  {
    if s != [] {
      var init, last := s[..|s| - 1], s[|s| - 1];
      assert s == init + [last];
      assert forall x :: x in init ==> x in s;
      FilterExt(init, p, q);
      FilterSnoc(init, last, p);
      FilterSnoc(init, last, q);
    }
  }

  /** No element has the key: its group is empty. */
  lemma FilterNenhum<T, K>(s: seq<T>, chave: T -> K, k: K)
    requires forall x :: x in s ==> chave(x) != k
    ensures Filter(s, ComChave(chave, k)) == []
  {
  }

  /** A new key keeps the keys distinct. */
  lemma DistintasSnoc<K>(c: seq<K>, k: K)
    requires Distintas(c) && k !in c
    ensures Distintas(c + [k])
  {
  }

  lemma {:induction false} SubsequenceRefl<T>(s: seq<T>)
    ensures Subsequence(s, s)
  {
    if s != [] {
      SubsequenceRefl(s[..|s| - 1]);
    }
  }

  /** The keys of a grouping object: distinct, in insertion order, and exactly the keys of its map. */
  predicate ChavesCoerentes<K(==), V>(chaves: seq<K>, grupos: map<K, V>) {
    Distintas(chaves) && (forall k :: k in chaves ==> k in grupos) && (forall k :: k in grupos ==> k in chaves)
  }

  /** Writing a group under a key keeps the keys coherent, appending the key when it is new. */
  lemma ChavesPasso<K, V>(chaves: seq<K>, grupos: map<K, V>, k: K, v: V)
    requires ChavesCoerentes(chaves, grupos)
    ensures ChavesCoerentes(if k in grupos then chaves else chaves + [k], grupos[k := v])
  {
    if k !in grupos {
      DistintasSnoc(chaves, k);
    }
  }

  /** Every element's key has a group. */
  predicate CobreChaves<T(==), K(==), V>(s: seq<T>, chave: T -> K, grupos: map<K, V>) {
    forall x :: x in s ==> chave(x) in grupos
  }

  lemma CobrePasso<T, K, V>(s: seq<T>, x: T, chave: T -> K, grupos: map<K, V>, v: V)
    requires CobreChaves(s, chave, grupos)
    ensures CobreChaves(s + [x], chave, grupos[chave(x) := v])
  {
    assert forall y :: y in s + [x] ==> y in s || y == x;
  }

  lemma PrefixoSnoc<T>(s: seq<T>, i: nat)
    requires i < |s|
    ensures s[..i + 1] == s[..i] + [s[i]]
  {
  }

  /** A measure of the groups, added up over the keys in order. */
  function SomaGrupos<K(==), V>(chaves: seq<K>, grupos: map<K, V>, medida: V -> real): real
    requires forall k :: k in chaves ==> k in grupos
  {
    if chaves == [] then 0.0
    else SomaGrupos(chaves[..|chaves| - 1], grupos, medida) + medida(grupos[chaves[|chaves| - 1]])
  }

  /** A count of the groups, added up over the keys in order. */
  function ContaGrupos<K(==), V>(chaves: seq<K>, grupos: map<K, V>, medida: V -> nat): nat
    requires forall k :: k in chaves ==> k in grupos
  {
    if chaves == [] then 0
    else ContaGrupos(chaves[..|chaves| - 1], grupos, medida) + medida(grupos[chaves[|chaves| - 1]])
  }

  /** When each group's measure is the sum over its elements, the measures add up to the sum per key. */
  lemma {:induction false} SomaGruposPorChave<T, K, V>(
    s: seq<T>, chaves: seq<K>, grupos: map<K, V>, chave: T -> K, medida: V -> real, f: T -> real)
    requires forall k :: k in chaves ==> k in grupos && medida(grupos[k]) == Sum(Filter(s, ComChave(chave, k)), f)
    ensures SomaGrupos(chaves, grupos, medida) == SomaPorChave(s, chaves, chave, f)
  {
    if chaves != [] {
      assert forall k :: k in chaves[..|chaves| - 1] ==> k in chaves;
      SomaGruposPorChave(s, chaves[..|chaves| - 1], grupos, chave, medida, f);
    }
  }

  /** When each group's count is the size of its elements, the counts add up to the count per key. */
  lemma {:induction false} ContaGruposPorChave<T, K, V>(
    s: seq<T>, chaves: seq<K>, grupos: map<K, V>, chave: T -> K, medida: V -> nat)
    requires forall k :: k in chaves ==> k in grupos && medida(grupos[k]) == |Filter(s, ComChave(chave, k))|
    ensures ContaGrupos(chaves, grupos, medida) == ContagemPorChave(s, chaves, chave)
  {
    if chaves != [] {
      assert forall k :: k in chaves[..|chaves| - 1] ==> k in chaves;
      ContaGruposPorChave(s, chaves[..|chaves| - 1], grupos, chave, medida);
    }
  }

  /** A sum of differences is the difference of the sums. */
  lemma {:induction false} SumDiferenca<T>(s: seq<T>, f: T -> real, g: T -> real, h: T -> real)
    requires forall x :: x in s ==> f(x) == g(x) - h(x)
    ensures Sum(s, f) == Sum(s, g) - Sum(s, h)
  {
    if s != [] {
      assert forall x :: x in s[..|s| - 1] ==> x in s;
      SumDiferenca(s[..|s| - 1], f, g, h);
    }
  }

  /** `Object.keys(m).length === 0`: a map has no keys exactly when it is empty. */
  lemma SemChaves<K, V>(m: map<K, V>)
    ensures |m.Keys| == 0 <==> m == map[]
  {
    if m != map[] {
      var k :| k in m;
      assert k in m.Keys;
    }
  }
}
