/** `Array.prototype.sort(compare)`. The language has required this sort to
    be stable since ES2019, and for a consistent comparator a stable sort has
    exactly one possible result, so it is modelled by the simplest stable
    sort: insertion. `le(a, b)` stands for `compare(a, b) <= 0`, that is,
    "`a` may stay in front of `b`". */
module Ordenacao {
  import opened Opcao
  import opened Colecoes

  /** How the sort reads a comparator's result: `a` may stay in front of `b`
      when the result is not positive, and NaN (None) counts as 0. */
  predicate NaoPositivo(c: Option<int>) {
    c.None? || c.value <= 0
  }

  /** On the values in `dom`, `le` is total and transitive: what a consistent
      comparator gives. */
  ghost predicate PreordemTotal<T>(dom: set<T>, le: (T, T) -> bool) {
    && (forall a, b :: a in dom && b in dom ==> le(a, b) || le(b, a))
    && (forall a, b, c :: a in dom && b in dom && c in dom && le(a, b) && le(b, c) ==> le(a, c))
  }

  /** Every element may stay in front of every later one. */
  predicate Ordenado<T>(s: seq<T>, le: (T, T) -> bool) {
    forall i, j :: 0 <= i < j < |s| ==> le(s[i], s[j])
  }

  /** Stability: two elements the comparator calls equal come out in the
      order they went in. */
  ghost predicate Estavel<T>(entrada: seq<T>, saida: seq<T>, le: (T, T) -> bool) {
    forall i, j :: 0 <= i < j < |saida| && le(saida[i], saida[j]) && le(saida[j], saida[i]) ==>
      exists p, q :: 0 <= p < q < |entrada| && entrada[p] == saida[i] && entrada[q] == saida[j]
  }

  /** Where `x` goes: in front of the first element it may precede. */
  function PontoInsercao<T>(x: T, s: seq<T>, le: (T, T) -> bool): (k: nat)
    ensures k <= |s|
    ensures forall i :: 0 <= i < k ==> !le(x, s[i])
    ensures k < |s| ==> le(x, s[k])
  {
    if s == [] || le(x, s[0]) then 0 else 1 + PontoInsercao(x, s[1..], le)
  }

  function Inserir<T>(x: T, s: seq<T>, le: (T, T) -> bool): (r: seq<T>)
    ensures |r| == |s| + 1
  {
    if s == [] || le(x, s[0]) then [x] + s
    else
      assert s == [s[0]] + s[1..];
      [s[0]] + Inserir(x, s[1..], le)
  }

  /** `x` lands at its insertion point; the rest keep their order. */
  lemma {:induction false} InserirForma<T>(x: T, s: seq<T>, le: (T, T) -> bool)
    ensures Inserir(x, s, le) == s[..PontoInsercao(x, s, le)] + [x] + s[PontoInsercao(x, s, le)..]
  {
    if s != [] && !le(x, s[0]) {
      var t := s[1..];
      var k := PontoInsercao(x, t, le);
      InserirForma(x, t, le);
      calc {
        Inserir(x, s, le);
        [s[0]] + Inserir(x, t, le);
        [s[0]] + (t[..k] + [x] + t[k..]);
        { assert [s[0]] + t[..k] == s[..k + 1]; assert t[k..] == s[k + 1..]; }
        s[..k + 1] + [x] + s[k + 1..];
      }
    }
  }

  /** Inserting adds `x` and loses nothing. */
  lemma {:induction false} InserirMultiset<T>(x: T, s: seq<T>, le: (T, T) -> bool)
    ensures multiset(Inserir(x, s, le)) == multiset(s) + multiset{x}
  {
    if s != [] && !le(x, s[0]) {
      var t := s[1..];
      InserirMultiset(x, t, le);
      assert Inserir(x, s, le) == [s[0]] + Inserir(x, t, le);
      assert multiset(s) == multiset{s[0]} + multiset(t) by { assert s == [s[0]] + t; }
    }
  }

  /** The array sorted by the comparator. */
  function Ordenar<T>(s: seq<T>, le: (T, T) -> bool): (r: seq<T>)
    ensures multiset(r) == multiset(s)
  {
    if s == [] then []
    else
      assert s == [s[0]] + s[1..];
      InserirMultiset(s[0], Ordenar(s[1..], le), le);
      Inserir(s[0], Ordenar(s[1..], le), le)
  }

  /** `r` is `o` with `x` put at position `k`. */
  ghost predicate InseridoEm<T>(x: T, o: seq<T>, r: seq<T>, k: nat) {
    && k <= |o| && |r| == |o| + 1
    && (forall n :: 0 <= n < k ==> r[n] == o[n])
    && r[k] == x
    && (forall n :: k < n < |r| ==> r[n] == o[n - 1])
  }

  /** `Inserir` puts `x` at its insertion point, position by position. */
  lemma InserirPosicoes<T>(x: T, o: seq<T>, le: (T, T) -> bool)
    ensures InseridoEm(x, o, Inserir(x, o, le), PontoInsercao(x, o, le))
  {
    InserirForma(x, o, le);
  }

  /** Putting `x` between the elements that may precede it and those it may
      precede keeps a sorted sequence sorted. */
  lemma InseridoOrdenado<T>(x: T, o: seq<T>, r: seq<T>, k: nat, le: (T, T) -> bool)
    requires InseridoEm(x, o, r, k) && Ordenado(o, le)
    requires forall n :: 0 <= n < k ==> le(o[n], x)
    requires forall n :: k <= n < |o| ==> le(x, o[n])
    ensures Ordenado(r, le)
  {
    forall i, j | 0 <= i < j < |r|
      ensures le(r[i], r[j])
    {
      if i == k {
        assert r[j] == o[j - 1];
      } else if j == k {
        assert r[i] == o[i];
      } else {
        var i' := if i < k then i else i - 1;
        var j' := if j < k then j else j - 1;
        assert r[i] == o[i'] && r[j] == o[j'];
      }
    }
  }

  /** Inserting in front of the first element `x` may precede keeps a
      sorted sequence sorted. */
  lemma InserirOrdenado<T>(x: T, o: seq<T>, le: (T, T) -> bool, dom: set<T>)
    requires PreordemTotal(dom, le)
    requires x in dom && forall y :: y in o ==> y in dom
    requires Ordenado(o, le)
    ensures Ordenado(Inserir(x, o, le), le)
  {
    var k := PontoInsercao(x, o, le);
    InserirPosicoes(x, o, le);
    forall n | 0 <= n < k
      ensures le(o[n], x)
    {
      assert o[n] in o;
    }
    forall n | k <= n < |o|
      ensures le(x, o[n])
    {
      assert o[k] in o && o[n] in o;
    }
    InseridoOrdenado(x, o, Inserir(x, o, le), k, le);
  }

  /** A pair of equal elements of the sorted `o`, traced back to `t`. */
  lemma EstavelPar<T>(t: seq<T>, o: seq<T>, le: (T, T) -> bool, i: nat, j: nat) returns (p: nat, q: nat)
    requires Estavel(t, o, le)
    requires i < j < |o| && le(o[i], o[j]) && le(o[j], o[i])
    ensures p < q < |t| && t[p] == o[i] && t[q] == o[j]
  {
    p, q :| 0 <= p < q < |t| && t[p] == o[i] && t[q] == o[j];
  }

  /** A pair of equal elements of `r`, which is `o` with `x` put at `k` in
      front of everything `x` may precede, traced back to `[x] + t`. */
  lemma InseridoPar<T>(x: T, t: seq<T>, o: seq<T>, r: seq<T>, k: nat, le: (T, T) -> bool, i: nat, j: nat)
      returns (p: nat, q: nat)
    requires InseridoEm(x, o, r, k)
    requires forall n :: 0 <= n < k ==> !le(x, o[n])
    requires multiset(o) == multiset(t)
    requires Estavel(t, o, le)
    requires i < j < |r| && le(r[i], r[j]) && le(r[j], r[i])
    ensures p < q < |t| + 1
    ensures ([x] + t)[p] == r[i] && ([x] + t)[q] == r[j]
  {
    if i == k {
      var y := o[j - 1];
      assert y in multiset(t) by { assert y in multiset(o); }
      var q' :| 0 <= q' < |t| && t[q'] == y;
      p, q := 0, q' + 1;
    } else {
      var i' := if i < k then i else i - 1;
      var j' := if j < k then j else j - 1;
      assert r[i] == o[i'];
      var p', q' := EstavelPar(t, o, le, i', j');
      p, q := p' + 1, q' + 1;
    }
  }

  /** Inserting `x`, which came before everything in `t`, keeps the sort of
      `t` stable. */
  lemma InserirEstavel<T>(x: T, t: seq<T>, o: seq<T>, le: (T, T) -> bool)
    requires multiset(o) == multiset(t)
    requires Estavel(t, o, le)
    ensures Estavel([x] + t, Inserir(x, o, le), le)
  {
    var s, r, k := [x] + t, Inserir(x, o, le), PontoInsercao(x, o, le);
    InserirPosicoes(x, o, le);
    forall i, j | 0 <= i < j < |r| && le(r[i], r[j]) && le(r[j], r[i])
      ensures exists p, q :: 0 <= p < q < |s| && s[p] == r[i] && s[q] == r[j]
    {
      var p, q := InseridoPar(x, t, o, r, k, le, i, j);
    }
  }

  /** The sort puts the array in comparator order, loses and invents
      nothing, and keeps equal elements in their original order. */
  lemma {:induction false} OrdenarCorreto<T>(s: seq<T>, le: (T, T) -> bool, dom: set<T>)
    requires PreordemTotal(dom, le)
    requires forall x :: x in s ==> x in dom
    ensures Ordenado(Ordenar(s, le), le)
    ensures multiset(Ordenar(s, le)) == multiset(s)
    ensures Estavel(s, Ordenar(s, le), le)
  {
    if s != [] {
      var o := Ordenar(s[1..], le);
      OrdenarCorreto(s[1..], le, dom);
      forall y | y in o
        ensures y in dom
      {
        assert y in multiset(s[1..]);
      }
      InserirOrdenado(s[0], o, le, dom);
      InserirEstavel(s[0], s[1..], o, le);
      assert [s[0]] + s[1..] == s;
    }
  }

  /** Putting in an element whose projection is new keeps the projections
      free of repetitions. */
  lemma InseridoSemRepeticao<T, K>(x: T, o: seq<T>, r: seq<T>, k: nat, f: T -> K)
    requires InseridoEm(x, o, r, k)
    requires SemRepeticao(Projetar(o, f))
    requires forall y :: y in o ==> f(y) != f(x)
    ensures SemRepeticao(Projetar(r, f))
  {
    var po, pr := Projetar(o, f), Projetar(r, f);
    forall i, j | 0 <= i < j < |pr|
      ensures pr[i] != pr[j]
    {
      if i == k {
        assert o[j - 1] in o;
      } else if j == k {
        assert o[i] in o;
      } else {
        var i' := if i < k then i else i - 1;
        var j' := if j < k then j else j - 1;
        assert pr[i] == po[i'] && pr[j] == po[j'];
      }
    }
  }

  /** Sorting does not create repetitions of a projection `f`. */
  lemma {:induction false} OrdenarSemRepeticao<T, K>(s: seq<T>, le: (T, T) -> bool, f: T -> K)
    requires SemRepeticao(Projetar(s, f))
    ensures SemRepeticao(Projetar(Ordenar(s, le), f))
  {
    if s != [] {
      var t := s[1..];
      assert Projetar(t, f) == Projetar(s, f)[1..];
      OrdenarSemRepeticao(t, le, f);
      var o := Ordenar(t, le);
      forall y | y in o
        ensures f(y) != f(s[0])
      {
        assert y in multiset(t);
        var q :| 0 <= q < |t| && t[q] == y;
        assert Projetar(s, f)[q + 1] == f(y);
      }
      InserirPosicoes(s[0], o, le);
      InseridoSemRepeticao(s[0], o, Inserir(s[0], o, le), PontoInsercao(s[0], o, le), f);
    }
  }

  /** In a sorted sequence the first element may precede every other one. */
  lemma PrimeiroPrecede<T>(s: seq<T>, x: T, le: (T, T) -> bool)
    requires Ordenado(s, le) && x in s && x != s[0]
    ensures le(s[0], x)
  {
    var i :| 0 <= i < |s| && s[i] == x;
  }

  /** Two sequences sorted by an antisymmetric order, without repetitions and
      with the same elements, are the same sequence: the result of sorting
      does not depend on the order in which the elements were collected. */
  lemma {:induction false} OrdenadosIguais<T>(a: seq<T>, b: seq<T>, le: (T, T) -> bool)
    requires Ordenado(a, le) && Ordenado(b, le)
    requires SemRepeticao(a) && SemRepeticao(b)
    requires forall x :: x in a <==> x in b
    requires forall x, y :: x in a && y in a && le(x, y) && le(y, x) ==> x == y
    ensures a == b
  {
    if a != [] {
      assert a[0] in a;
      assert b != [] by { assert a[0] in b; }
      assert b[0] in b;
      assert a[0] == b[0] by {
        if a[0] != b[0] {
          PrimeiroPrecede(b, a[0], le);
          PrimeiroPrecede(a, b[0], le);
        }
      }
      forall x
        ensures x in a[1..] <==> x in b[1..]
      {
        if x in a[1..] {
          assert x != a[0];
          assert x in b;
        }
        if x in b[1..] {
          assert x != b[0];
          assert x in a;
        }
      }
      OrdenadosIguais(a[1..], b[1..], le);
      assert a == [a[0]] + a[1..] && b == [b[0]] + b[1..];
    }
  }
}
