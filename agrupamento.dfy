/** The dictionary pattern the analytics share: a `Record<string, number>`
    filled inside a `forEach` (`if (!r[k]) r[k] = 0; r[k] += w`), then read
    back with `Object.entries`, whose order is the order in which the keys
    were first inserted. Generic in the element type `T`, the key `f` and the
    weight `w` (the sale's value, or 1 to count). */
module Agrupamento {
  import opened Colecoes
  import opened Ordenacao

  /** One `[chave, valor]` entry of `Object.entries`. */
  datatype Par = Par(chave: string, valor: int)

  function ChavePar(p: Par): string {
    p.chave
  }

  /** The weight that counts elements. */
  function Um<T>(x: T): int {
    1
  }

  /** `reduce((total, x) => total + w(x), 0)`. */
  function Somar<T>(d: seq<T>, w: T -> int): int {
    if d == [] then 0 else Somar(d[..|d| - 1], w) + w(d[|d| - 1])
  }

  /** The keys of the dictionary, in insertion order: a key joins the end
      when the first element that has it is seen. */
  function Chaves<T>(d: seq<T>, f: T -> string): seq<string> {
    if d == [] then []
    else
      var p := Chaves(d[..|d| - 1], f);
      if f(d[|d| - 1]) in p then p else p + [f(d[|d| - 1])]
  }

  /** The total weight of the elements with key `k`. */
  function SomaChave<T>(d: seq<T>, f: T -> string, w: T -> int, k: string): int {
    if d == [] then 0
    else SomaChave(d[..|d| - 1], f, w, k) + (if f(d[|d| - 1]) == k then w(d[|d| - 1]) else 0)
  }

  /** `Object.entries` of the filled dictionary. */
  function Somas<T>(d: seq<T>, f: T -> string, w: T -> int): seq<Par> {
    var ks := Chaves(d, f);
    seq(|ks|, i requires 0 <= i < |ks| => Par(ks[i], SomaChave(d, f, w, ks[i])))
  }

  function SomaValores(ps: seq<Par>): int {
    if ps == [] then 0 else ps[0].valor + SomaValores(ps[1..])
  }

  /** Reading a dictionary with `|| 0`: a missing key counts as zero. */
  function ValorOuZero(m: map<string, int>, k: string): int {
    if k in m then m[k] else 0
  }

  // ---------------------------------------------------------------------------
  // Keys
  // ---------------------------------------------------------------------------

  /** A key is listed exactly when some element has it, and none twice. */
  lemma ChavesMembro<T>(d: seq<T>, f: T -> string, k: string)
    ensures SemRepeticao(Chaves(d, f))
    ensures k in Chaves(d, f) <==> exists i :: 0 <= i < |d| && f(d[i]) == k
  {
    ChavesDistintos(d, f);
    var p := Projetar(d, f);
    if k in Chaves(d, f) {
      var j :| 0 <= j < |Chaves(d, f)| && Chaves(d, f)[j] == k;
      assert k in p;
    }
    if exists i :: 0 <= i < |d| && f(d[i]) == k {
      var i :| 0 <= i < |d| && f(d[i]) == k;
      assert p[i] == k;
    }
  }

  /** One more element adds its key at the end, if the key is new. */
  lemma ChavesAnexar<T>(d: seq<T>, x: T, f: T -> string)
    ensures Chaves(d + [x], f) ==
      if f(x) in Chaves(d, f) then Chaves(d, f) else Chaves(d, f) + [f(x)]
  {
    assert (d + [x])[..|d|] == d;
  }

  /** The keys are the Set of the mapped values: `Array.from(new Set(d.map(f)))`. */
  lemma {:induction false} ChavesDistintos<T>(d: seq<T>, f: T -> string)
    ensures Chaves(d, f) == Distintos(Projetar(d, f))
  {
    if d != [] {
      var p := d[..|d| - 1];
      ChavesDistintos(p, f);
      var s := Projetar(d, f);
      assert d == p + [d[|d| - 1]];
      ProjetarAnexar(p, d[|d| - 1], f);
      assert s[..|s| - 1] == Projetar(p, f);
    }
  }

  /** The keys come in the order in which they are first seen. */
  lemma ChavesOrdem<T>(d: seq<T>, f: T -> string)
    ensures var ks := Chaves(d, f);
      forall i, j :: 0 <= i < j < |ks| ==>
        ks[i] in Projetar(d, f) && ks[j] in Projetar(d, f) &&
        Primeira(Projetar(d, f), ks[i]) < Primeira(Projetar(d, f), ks[j])
  {
    ChavesDistintos(d, f);
    DistintosOrdem(Projetar(d, f));
  }

  lemma SomaChaveAnexar<T>(d: seq<T>, x: T, f: T -> string, w: T -> int, k: string)
    ensures SomaChave(d + [x], f, w, k) == SomaChave(d, f, w, k) + (if f(x) == k then w(x) else 0)
  {
    assert (d + [x])[..|d|] == d;
  }

  lemma SomarAnexar<T>(d: seq<T>, x: T, w: T -> int)
    ensures Somar(d + [x], w) == Somar(d, w) + w(x)
  {
    assert (d + [x])[..|d|] == d;
  }

  /** A key nobody has weighs nothing. */
  lemma {:induction false} SomaChaveAusente<T>(d: seq<T>, f: T -> string, w: T -> int, k: string)
    requires k !in Chaves(d, f)
    ensures SomaChave(d, f, w, k) == 0
  {
    if d != [] {
      var p := d[..|d| - 1];
      assert d == p + [d[|d| - 1]];
      ChavesAnexar(p, d[|d| - 1], f);
      SomaChaveAusente(p, f, w, k);
    }
  }

  // ---------------------------------------------------------------------------
  // Conservation: the entries add up to the whole
  // ---------------------------------------------------------------------------

  /** The weight of the elements whose key is in `ks`, key by key. */
  function SomaSobre<T>(ks: seq<string>, d: seq<T>, f: T -> string, w: T -> int): int {
    if ks == [] then 0 else SomaChave(d, f, w, ks[0]) + SomaSobre(ks[1..], d, f, w)
  }

  lemma {:induction false} SomaSobreAnexar<T>(ks: seq<string>, d: seq<T>, x: T, f: T -> string, w: T -> int)
    requires SemRepeticao(ks)
    ensures SomaSobre(ks, d + [x], f, w) == SomaSobre(ks, d, f, w) + (if f(x) in ks then w(x) else 0)
  {
    if ks != [] {
      SomaChaveAnexar(d, x, f, w, ks[0]);
      SomaSobreAnexar(ks[1..], d, x, f, w);
      assert f(x) in ks <==> f(x) == ks[0] || f(x) in ks[1..];
      if f(x) == ks[0] {
        assert f(x) !in ks[1..];
      }
    }
  }

  /** Key by key over a repetition-free list that holds every element's key,
      the weights add up to the total weight. */
  lemma {:induction false} SomaSobreTotal<T>(ks: seq<string>, d: seq<T>, f: T -> string, w: T -> int)
    requires SemRepeticao(ks)
    requires forall i :: 0 <= i < |d| ==> f(d[i]) in ks
    ensures SomaSobre(ks, d, f, w) == Somar(d, w)
  {
    if d == [] {
      SomaSobreVazio(ks, f, w);
    } else {
      var p, x := d[..|d| - 1], d[|d| - 1];
      assert d == p + [x];
      SomaSobreTotal(ks, p, f, w);
      SomaSobreAnexar(ks, p, x, f, w);
      SomarAnexar(p, x, w);
    }
  }

  lemma {:induction false} SomaSobreVazio<T>(ks: seq<string>, f: T -> string, w: T -> int)
    ensures SomaSobre(ks, [], f, w) == 0
  {
    if ks != [] {
      SomaSobreVazio(ks[1..], f, w);
    }
  }

  /** Entries whose values are the key sums of `ks` add up to `SomaSobre`. */
  lemma {:induction false} SomaValoresSobre<T>(ps: seq<Par>, ks: seq<string>, d: seq<T>, f: T -> string, w: T -> int)
    requires |ps| == |ks|
    requires forall i :: 0 <= i < |ps| ==> ps[i].valor == SomaChave(d, f, w, ks[i])
    ensures SomaValores(ps) == SomaSobre(ks, d, f, w)
  {
    if ps != [] {
      SomaValoresSobre(ps[1..], ks[1..], d, f, w);
    }
  }

  /** The entries of the dictionary add up to the total weight: nothing is
      lost or counted twice. */
  lemma SomasConservam<T>(d: seq<T>, f: T -> string, w: T -> int)
    ensures SomaValores(Somas(d, f, w)) == Somar(d, w)
  {
    var ks := Chaves(d, f);
    ChavesMembro(d, f, "");
    forall i | 0 <= i < |d|
      ensures f(d[i]) in ks
    {
      ChavesMembro(d, f, f(d[i]));
    }
    SomaValoresSobre(Somas(d, f, w), ks, d, f, w);
    SomaSobreTotal(ks, d, f, w);
  }

  /** The entries list every key of the data once, in the order in which
      the keys were first seen, each with the total weight of its elements. */
  lemma SomasCorretas<T>(d: seq<T>, f: T -> string, w: T -> int)
    ensures var r := Somas(d, f, w);
      SemRepeticao(Projetar(r, ChavePar))
    ensures var r := Somas(d, f, w);
      forall i :: 0 <= i < |r| ==> r[i].valor == SomaChave(d, f, w, r[i].chave)
    ensures var r := Somas(d, f, w);
      forall i :: 0 <= i < |r| ==> exists j :: 0 <= j < |d| && f(d[j]) == r[i].chave
    ensures var r := Somas(d, f, w);
      forall j :: 0 <= j < |d| ==> f(d[j]) in Projetar(r, ChavePar)
    ensures var r := Somas(d, f, w);
      forall i, j :: 0 <= i < j < |r| ==>
        r[i].chave in Projetar(d, f) && r[j].chave in Projetar(d, f) &&
        Primeira(Projetar(d, f), r[i].chave) < Primeira(Projetar(d, f), r[j].chave)
  {
    var r, ks := Somas(d, f, w), Chaves(d, f);
    ChavesSomas(d, f, w);
    ChavesMembro(d, f, "");
    ChavesDistintos(d, f);
    DistintosOrdem(Projetar(d, f));
    forall i | 0 <= i < |r|
      ensures exists j :: 0 <= j < |d| && f(d[j]) == r[i].chave
    {
      ChavesMembro(d, f, ks[i]);
    }
    forall j | 0 <= j < |d|
      ensures f(d[j]) in Projetar(r, ChavePar)
    {
      ChavesMembro(d, f, f(d[j]));
    }
  }

  /** Two keyings that pick out the same elements give the same sum. */
  lemma {:induction false} SomaChaveEquivalente<T>(d: seq<T>, f: T -> string, k: string,
                                                   g: T -> string, l: string, w: T -> int)
    requires forall i :: 0 <= i < |d| ==> (f(d[i]) == k <==> g(d[i]) == l)
    ensures SomaChave(d, f, w, k) == SomaChave(d, g, w, l)
  {
    if d != [] {
      var p := d[..|d| - 1];
      assert forall i :: 0 <= i < |p| ==> p[i] == d[i];
      SomaChaveEquivalente(p, f, k, g, l, w);
    }
  }

  lemma {:induction false} SomaValoresConcat(a: seq<Par>, b: seq<Par>)
    ensures SomaValores(a + b) == SomaValores(a) + SomaValores(b)
  {
    if a == [] {
      assert a + b == b;
    } else {
      assert (a + b)[0] == a[0];
      assert (a + b)[1..] == a[1..] + b;
      SomaValoresConcat(a[1..], b);
    }
  }

  lemma SomaValoresRemover(b: seq<Par>, i: nat)
    requires i < |b|
    ensures SomaValores(b) == b[i].valor + SomaValores(b[..i] + b[i + 1..])
  {
    assert b == b[..i] + ([b[i]] + b[i + 1..]);
    SomaValoresConcat(b[..i], [b[i]] + b[i + 1..]);
    assert ([b[i]] + b[i + 1..])[1..] == b[i + 1..];
    SomaValoresConcat(b[..i], b[i + 1..]);
  }

  lemma MultisetRemover<T>(a: seq<T>, b: seq<T>, i: nat)
    requires a != [] && i < |b| && b[i] == a[0]
    requires multiset(a) == multiset(b)
    ensures multiset(a[1..]) == multiset(b[..i] + b[i + 1..])
  {
    assert a == [a[0]] + a[1..];
    assert b == b[..i] + [b[i]] + b[i + 1..];
    assert multiset(b) == multiset(b[..i]) + multiset{b[i]} + multiset(b[i + 1..]);
    assert multiset(a) == multiset{a[0]} + multiset(a[1..]);
    var resto := b[..i] + b[i + 1..];
    assert multiset(resto) == multiset(b[..i]) + multiset(b[i + 1..]);
    forall z
      ensures multiset(a[1..])[z] == multiset(resto)[z]
    {
      assert multiset(a)[z] == multiset(b)[z];
    }
  }

  /** Reordering entries does not change their sum. */
  lemma {:induction false} SomaValoresPermutacao(a: seq<Par>, b: seq<Par>)
    requires multiset(a) == multiset(b)
    ensures SomaValores(a) == SomaValores(b)
    decreases |a|
  {
    if a == [] {
      assert |multiset(b)| == 0;
    } else {
      assert a[0] in multiset(b);
      var i :| 0 <= i < |b| && b[i] == a[0];
      MultisetRemover(a, b, i);
      SomaValoresPermutacao(a[1..], b[..i] + b[i + 1..]);
      SomaValoresRemover(b, i);
    }
  }

  // ---------------------------------------------------------------------------
  // The loop
  // ---------------------------------------------------------------------------

  /** The dictionary `soma`, with key order `ordem`, holds the key sums of `d`. */
  ghost predicate Acumulado<T>(d: seq<T>, f: T -> string, w: T -> int, ordem: seq<string>, soma: map<string, int>) {
    && ordem == Chaves(d, f)
    && (forall k :: k in soma <==> k in ordem)
    && (forall k :: k in soma ==> soma[k] == SomaChave(d, f, w, k))
  }

  /** One iteration: the key of `x` is appended if new, and its sum grows. */
  lemma AcumuladoPasso<T>(d: seq<T>, x: T, f: T -> string, w: T -> int, ordem: seq<string>, soma: map<string, int>)
    requires Acumulado(d, f, w, ordem, soma)
    ensures Acumulado(d + [x], f, w,
      if f(x) in soma then ordem else ordem + [f(x)],
      soma[f(x) := ValorOuZero(soma, f(x)) + w(x)])
  {
    var k := f(x);
    ChavesAnexar(d, x, f);
    if k !in soma {
      SomaChaveAusente(d, f, w, k);
    }
    var soma' := soma[k := ValorOuZero(soma, k) + w(x)];
    forall k' | k' in soma'
      ensures soma'[k'] == SomaChave(d + [x], f, w, k')
    {
      SomaChaveAnexar(d, x, f, w, k');
    }
  }

  /** The same, stated for the prefixes of `dados` the loop walks through. */
  lemma AcumuladoPrefixo<T>(dados: seq<T>, i: nat, f: T -> string, w: T -> int, ordem: seq<string>, soma: map<string, int>)
    requires i < |dados|
    requires Acumulado(dados[..i], f, w, ordem, soma)
    ensures Acumulado(dados[..i + 1], f, w,
      if f(dados[i]) in soma then ordem else ordem + [f(dados[i])],
      soma[f(dados[i]) := ValorOuZero(soma, f(dados[i])) + w(dados[i])])
  {
    assert dados[..i + 1] == dados[..i] + [dados[i]];
    AcumuladoPasso(dados[..i], dados[i], f, w, ordem, soma);
  }

  /** Reading back the dictionary in key order gives `Somas`. */
  lemma EntradasAcumuladas<T>(d: seq<T>, f: T -> string, w: T -> int, ordem: seq<string>,
                              soma: map<string, int>, r: seq<Par>)
    requires Acumulado(d, f, w, ordem, soma)
    requires |r| == |ordem| && forall j :: 0 <= j < |r| ==> r[j] == Par(ordem[j], soma[ordem[j]])
    ensures r == Somas(d, f, w)
  {
  }

  /** `forEach(x => { if (!r[f(x)]) r[f(x)] = 0; r[f(x)] += w(x); })` and
      then `Object.entries(r)`. A key is appended to the insertion order when
      it is first assigned; resetting a key that holds 0 changes nothing. */
  method SomarPorChave<T>(dados: seq<T>, f: T -> string, w: T -> int) returns (r: seq<Par>)
    ensures r == Somas(dados, f, w)
  {
    var ordem: seq<string> := [];
    var soma: map<string, int> := map[];
    for i := 0 to |dados|
      invariant Acumulado(dados[..i], f, w, ordem, soma)
    {
      var x := dados[i];
      var k := f(x);
      AcumuladoPrefixo(dados, i, f, w, ordem, soma);
      ghost var depois := soma[k := ValorOuZero(soma, k) + w(x)];
      if k !in soma || soma[k] == 0 {
        if k !in soma {
          ordem := ordem + [k];
        }
        soma := soma[k := 0];
      }
      soma := soma[k := soma[k] + w(x)];
      assert soma == depois;
    }
    assert dados[..|dados|] == dados;
    r := seq(|ordem|, j requires 0 <= j < |ordem| => Par(ordem[j], soma[ordem[j]]));
    EntradasAcumuladas(dados, f, w, ordem, soma, r);
  }

  // ---------------------------------------------------------------------------
  // A dictionary of Sets: the distinct members `g` of each key
  // ---------------------------------------------------------------------------

  /** `s.add(m)` on a Set kept in insertion order. */
  function Adicionar(s: seq<string>, m: string): (r: seq<string>)
    ensures SemRepeticao(s) ==> SemRepeticao(r)
    ensures forall x :: x in r <==> x in s || x == m
  {
    if m in s then s else s + [m]
  }

  /** The Set of members `g` of the elements with key `k`, in insertion order. */
  function Membros<T>(d: seq<T>, f: T -> string, g: T -> string, k: string): seq<string> {
    if d == [] then []
    else
      var x := d[|d| - 1];
      var p := Membros(d[..|d| - 1], f, g, k);
      if f(x) == k then Adicionar(p, g(x)) else p
  }

  /** The Sets hold no member twice and exactly the members of their key. */
  lemma {:induction false} MembrosCorretos<T>(d: seq<T>, f: T -> string, g: T -> string, k: string, m: string)
    ensures SemRepeticao(Membros(d, f, g, k))
    ensures m in Membros(d, f, g, k) <==> exists i :: 0 <= i < |d| && f(d[i]) == k && g(d[i]) == m
  {
    if d != [] {
      var p, x := d[..|d| - 1], d[|d| - 1];
      MembrosCorretos(p, f, g, k, m);
      assert forall i :: 0 <= i < |p| ==> d[i] == p[i];
      if exists i :: 0 <= i < |d| && f(d[i]) == k && g(d[i]) == m {
        var i :| 0 <= i < |d| && f(d[i]) == k && g(d[i]) == m;
        if i < |p| {
          assert f(p[i]) == k && g(p[i]) == m;
        }
      }
    }
  }

  /** A key nobody has has an empty Set. */
  lemma {:induction false} MembrosAusente<T>(d: seq<T>, f: T -> string, g: T -> string, k: string)
    requires k !in Chaves(d, f)
    ensures Membros(d, f, g, k) == []
  {
    if d != [] {
      var p := d[..|d| - 1];
      assert d == p + [d[|d| - 1]];
      ChavesAnexar(p, d[|d| - 1], f);
      MembrosAusente(p, f, g, k);
    }
  }

  lemma MembrosAnexar<T>(d: seq<T>, x: T, f: T -> string, g: T -> string, k: string)
    ensures Membros(d + [x], f, g, k) ==
      if f(x) == k then Adicionar(Membros(d, f, g, k), g(x)) else Membros(d, f, g, k)
  {
    assert (d + [x])[..|d|] == d;
  }

  /** No key has more members than there are distinct members in all. */
  lemma MembrosLimite<T>(d: seq<T>, f: T -> string, g: T -> string, k: string)
    ensures |Membros(d, f, g, k)| <= |Chaves(d, g)|
  {
    var ms := Membros(d, f, g, k);
    MembrosCorretos(d, f, g, k, "");
    ChavesMembro(d, g, "");
    forall m | m in ms
      ensures m in Chaves(d, g)
    {
      MembrosCorretos(d, f, g, k, m);
      ChavesMembro(d, g, m);
    }
    TamanhoSubconjunto(ms, Chaves(d, g));
  }

  /** `Object.entries(r).map(([k, s]) => [k, s.size])`. */
  function Contagens<T>(d: seq<T>, f: T -> string, g: T -> string): seq<Par> {
    var ks := Chaves(d, f);
    seq(|ks|, i requires 0 <= i < |ks| => Par(ks[i], |Membros(d, f, g, ks[i])|))
  }

  /** The dictionary of Sets `conj`, with key order `ordem`, holds the
      members of each key of `d`. */
  ghost predicate AcumuladoMembros<T>(d: seq<T>, f: T -> string, g: T -> string,
                                      ordem: seq<string>, conj: map<string, seq<string>>) {
    && ordem == Chaves(d, f)
    && (forall k :: k in conj <==> k in ordem)
    && (forall k :: k in conj ==> conj[k] == Membros(d, f, g, k))
  }

  /** `if (!r[k]) r[k] = new Set(); r[k].add(m);` */
  function ConjOuVazio(conj: map<string, seq<string>>, k: string): seq<string> {
    if k in conj then conj[k] else []
  }

  /** One step of the loop: create the key's Set when it is missing, then
      add the member to it. */
  method RegistrarMembro(ordem: seq<string>, conj: map<string, seq<string>>, k: string, m: string)
      returns (ordem': seq<string>, conj': map<string, seq<string>>)
    ensures ordem' == if k in conj then ordem else ordem + [k]
    ensures conj' == conj[k := Adicionar(ConjOuVazio(conj, k), m)]
  {
    ordem', conj' := ordem, conj;
    if k !in conj' {
      ordem' := ordem' + [k];
      conj' := conj'[k := []];
    }
    conj' := conj'[k := Adicionar(conj'[k], m)];
  }

  lemma AcumuladoMembrosPrefixo<T>(dados: seq<T>, i: nat, f: T -> string, g: T -> string,
                                   ordem: seq<string>, conj: map<string, seq<string>>)
    requires i < |dados|
    requires AcumuladoMembros(dados[..i], f, g, ordem, conj)
    ensures AcumuladoMembros(dados[..i + 1], f, g,
      if f(dados[i]) in conj then ordem else ordem + [f(dados[i])],
      conj[f(dados[i]) := Adicionar(ConjOuVazio(conj, f(dados[i])), g(dados[i]))])
  {
    var d, x := dados[..i], dados[i];
    assert dados[..i + 1] == d + [x];
    var k := f(x);
    ChavesAnexar(d, x, f);
    if k !in conj {
      MembrosAusente(d, f, g, k);
    }
    var conj' := conj[k := Adicionar(ConjOuVazio(conj, k), g(x))];
    forall k' | k' in conj'
      ensures conj'[k'] == Membros(d + [x], f, g, k')
    {
      MembrosAnexar(d, x, f, g, k');
    }
  }

  /** Reading back the dictionary of Sets in key order, with their sizes. */
  lemma ContagensAcumuladas<T>(d: seq<T>, f: T -> string, g: T -> string, ordem: seq<string>,
                               conj: map<string, seq<string>>, r: seq<Par>)
    requires AcumuladoMembros(d, f, g, ordem, conj)
    requires |r| == |ordem| && forall j :: 0 <= j < |r| ==> r[j] == Par(ordem[j], |conj[ordem[j]]|)
    ensures r == Contagens(d, f, g)
  {
  }

  // ---------------------------------------------------------------------------
  // Ranking: sort by value, descending, and keep the first `limite`
  // ---------------------------------------------------------------------------

  /** The comparator `(a, b) => b.valor - a.valor`, as "`a` may stay in
      front of `b`". */
  function MaiorValor(a: Par, b: Par): bool {
    b.valor - a.valor <= 0
  }

  /** `Object.entries(r).sort((a, b) => b.valor - a.valor).slice(0, limite)`. */
  function Ranking<T>(d: seq<T>, f: T -> string, w: T -> int, limite: int): seq<Par> {
    Fatiar(Ordenar(Somas(d, f, w), MaiorValor), limite)
  }

  lemma MaiorValorPreordem(dom: set<Par>)
    ensures PreordemTotal(dom, MaiorValor)
  {
  }

  lemma ChavesSomas<T>(d: seq<T>, f: T -> string, w: T -> int)
    ensures Projetar(Somas(d, f, w), ChavePar) == Chaves(d, f)
  {
  }

  /** What the ranking is cut from: the entries sorted by value, a
      permutation of the entries. */
  lemma RankingBase<T>(d: seq<T>, f: T -> string, w: T -> int, limite: int)
    ensures var s, o := Somas(d, f, w), Ordenar(Somas(d, f, w), MaiorValor);
      && |o| == |s| == |Chaves(d, f)|
      && multiset(o) == multiset(s)
      && Ordenado(o, MaiorValor)
      && Estavel(s, o, MaiorValor)
      && Ranking(d, f, w, limite) <= o
  {
    var s := Somas(d, f, w);
    var o := Ordenar(s, MaiorValor);
    MaiorValorPreordem(Elementos(s));
    OrdenarCorreto(s, MaiorValor, Elementos(s));
    assert |multiset(o)| == |multiset(s)|;
  }

  /** The ranking is as long as the limit allows (`slice` semantics). */
  lemma RankingTamanho<T>(d: seq<T>, f: T -> string, w: T -> int, limite: int)
    ensures var r, n := Ranking(d, f, w, limite), |Chaves(d, f)|;
      |r| == if limite >= 0 then (if limite < n then limite else n)
             else (if n + limite > 0 then n + limite else 0)
  {
    RankingBase(d, f, w, limite);
  }

  /** No key is ranked twice. */
  lemma RankingSemRepeticao<T>(d: seq<T>, f: T -> string, w: T -> int, limite: int)
    ensures SemRepeticao(Projetar(Ranking(d, f, w, limite), ChavePar))
  {
    var s := Somas(d, f, w);
    var o := Ordenar(s, MaiorValor);
    var r := Ranking(d, f, w, limite);
    RankingBase(d, f, w, limite);
    ChavesSomas(d, f, w);
    ChavesMembro(d, f, "");
    OrdenarSemRepeticao(s, MaiorValor, ChavePar);
    var po, pr := Projetar(o, ChavePar), Projetar(r, ChavePar);
    assert forall i :: 0 <= i < |pr| ==> pr[i] == po[i];
  }

  /** Every ranked key occurs in the data and carries its total weight, and
      the values never increase down the list. */
  lemma RankingValores<T>(d: seq<T>, f: T -> string, w: T -> int, limite: int)
    ensures var r := Ranking(d, f, w, limite);
      forall i :: 0 <= i < |r| ==>
        r[i].chave in Chaves(d, f) && r[i].valor == SomaChave(d, f, w, r[i].chave)
    ensures var r := Ranking(d, f, w, limite);
      forall i, j :: 0 <= i < j < |r| ==> r[i].valor >= r[j].valor
  {
    var s := Somas(d, f, w);
    var o := Ordenar(s, MaiorValor);
    var r := Ranking(d, f, w, limite);
    RankingBase(d, f, w, limite);
    forall i | 0 <= i < |r|
      ensures r[i].chave in Chaves(d, f) && r[i].valor == SomaChave(d, f, w, r[i].chave)
    {
      assert r[i] == o[i];
      assert o[i] in multiset(s);
    }
    forall i, j | 0 <= i < j < |r|
      ensures r[i].valor >= r[j].valor
    {
      assert r[i] == o[i] && r[j] == o[j];
    }
  }

  /** No key left out of the ranking weighs more than one that is in it. */
  lemma RankingCorte<T>(d: seq<T>, f: T -> string, w: T -> int, limite: int)
    ensures var r := Ranking(d, f, w, limite);
      forall i, k :: 0 <= i < |r| && k in Chaves(d, f) && k !in Projetar(r, ChavePar) ==>
        SomaChave(d, f, w, k) <= r[i].valor
  {
    var s := Somas(d, f, w);
    var o := Ordenar(s, MaiorValor);
    var r := Ranking(d, f, w, limite);
    var pr := Projetar(r, ChavePar);
    RankingBase(d, f, w, limite);
    forall i, k | 0 <= i < |r| && k in Chaves(d, f) && k !in pr
      ensures SomaChave(d, f, w, k) <= r[i].valor
    {
      var j :| 0 <= j < |Chaves(d, f)| && Chaves(d, f)[j] == k;
      assert s[j] == Par(k, SomaChave(d, f, w, k));
      assert s[j] in multiset(o);
      var q :| 0 <= q < |o| && o[q] == s[j];
      assert r[i] == o[i];
    }
  }

  /** Keys of equal value keep the order in which they were first seen. */
  lemma RankingEstavel<T>(d: seq<T>, f: T -> string, w: T -> int, limite: int)
    ensures var r := Ranking(d, f, w, limite);
      forall i, j :: 0 <= i < j < |r| && r[i].valor == r[j].valor ==>
        r[i].chave in Projetar(d, f) && r[j].chave in Projetar(d, f) &&
        Primeira(Projetar(d, f), r[i].chave) < Primeira(Projetar(d, f), r[j].chave)
  {
    var s := Somas(d, f, w);
    var o := Ordenar(s, MaiorValor);
    var r := Ranking(d, f, w, limite);
    var ks := Chaves(d, f);
    RankingBase(d, f, w, limite);
    ChavesDistintos(d, f);
    DistintosOrdem(Projetar(d, f));
    forall i, j | 0 <= i < j < |r| && r[i].valor == r[j].valor
      ensures r[i].chave in Projetar(d, f) && r[j].chave in Projetar(d, f)
      ensures Primeira(Projetar(d, f), r[i].chave) < Primeira(Projetar(d, f), r[j].chave)
    {
      assert r[i] == o[i] && r[j] == o[j];
      var p, q := EstavelPar(s, o, MaiorValor, i, j);
      assert ks[p] == r[i].chave && ks[q] == r[j].chave;
    }
  }
}
