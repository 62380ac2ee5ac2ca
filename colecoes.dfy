/** Array and Set built-ins: `Array.from(new Set(xs))` (distinct elements in
    the order they were first added), `map`, `filter` and `slice(0, end)`,
    with what they promise about order, membership and size. */
module Colecoes {

  /** No element occurs twice. */
  predicate SemRepeticao<T(==)>(s: seq<T>) {
    forall i, j :: 0 <= i < j < |s| ==> s[i] != s[j]
  }

  /** The set of elements of a sequence. */
  function Elementos<T>(s: seq<T>): set<T> {
    set x | x in s
  }

  /** Index of the first occurrence of `x` in `s`. */
  function Primeira<T(==)>(s: seq<T>, x: T): (i: nat)
    requires x in s
    ensures i < |s| && s[i] == x
    ensures forall k :: 0 <= k < i ==> s[k] != x
  {
    if s[0] == x then 0 else 1 + Primeira(s[1..], x)
  }

  /** The first occurrence of an element of `s` does not move when
      something is appended. */
  lemma PrimeiraAnexar<T>(s: seq<T>, y: T, x: T)
    requires x in s
    ensures Primeira(s + [y], x) == Primeira(s, x)
  {
    var i, j := Primeira(s, x), Primeira(s + [y], x);
    assert (s + [y])[i] == x;
    assert j <= i;
    assert s[j] == x;
  }

  /** `Array.from(new Set(s))`: a JavaScript Set keeps its elements in the
      order of their first insertion and ignores repeated insertions. */
  function Distintos<T(==)>(s: seq<T>): (r: seq<T>)
    ensures SemRepeticao(r)
    ensures forall i :: 0 <= i < |r| ==> r[i] in s
    ensures forall i :: 0 <= i < |s| ==> s[i] in r
    ensures |r| <= |s|
  {
    if s == [] then []
    else
      var p := Distintos(s[..|s| - 1]);
      if s[|s| - 1] in p then p else p + [s[|s| - 1]]
  }

  /** `Distintos` lists the elements in the order of their first occurrence. */
  lemma {:induction false} DistintosOrdem<T>(s: seq<T>)
    ensures forall i, j :: 0 <= i < j < |Distintos(s)| ==>
      Primeira(s, Distintos(s)[i]) < Primeira(s, Distintos(s)[j])
  {
    if s != [] {
      var p, y := s[..|s| - 1], s[|s| - 1];
      assert s == p + [y];
      DistintosOrdem(p);
      var d := Distintos(p);
      forall x | x in d
        ensures Primeira(s, x) == Primeira(p, x) < |p|
      {
        PrimeiraAnexar(p, y, x);
      }
      if y !in d {
        assert Primeira(s, y) == |p|;
      }
    }
  }

  /** A sequence without repetitions has as many elements as its set. */
  lemma {:induction false} CardinalidadeSemRepeticao<T>(s: seq<T>)
    requires SemRepeticao(s)
    ensures |Elementos(s)| == |s|
  {
    if s != [] {
      var p, y := s[..|s| - 1], s[|s| - 1];
      CardinalidadeSemRepeticao(p);
      assert Elementos(s) == Elementos(p) + {y};
      assert y !in Elementos(p);
    }
  }

  /** The size of the Set is the number of distinct elements. */
  lemma DistintosCardinalidade<T>(s: seq<T>)
    ensures |Distintos(s)| == |Elementos(s)|
  {
    CardinalidadeSemRepeticao(Distintos(s));
    assert Elementos(Distintos(s)) == Elementos(s);
  }

  /** `new Set(s).size`: the number of distinct elements, at most the
      length, and zero only for the empty sequence. */
  lemma TamanhoDistintos<T>(s: seq<T>)
    ensures |Distintos(s)| == |Elementos(s)|
    ensures |Distintos(s)| <= |s|
    ensures |Distintos(s)| == 0 <==> s == []
  {
    DistintosCardinalidade(s);
    if s != [] {
      assert s[0] in Distintos(s);
    }
  }

  /** The Set is as large as the sequence exactly when nothing repeats; then
      it lists the sequence unchanged. */
  lemma {:induction false} DistintosCheio<T>(s: seq<T>)
    ensures |Distintos(s)| == |s| <==> SemRepeticao(s)
    ensures SemRepeticao(s) ==> Distintos(s) == s
  {
    if s != [] {
      var p, y := s[..|s| - 1], s[|s| - 1];
      assert s == p + [y];
      DistintosCheio(p);
      if SemRepeticao(s) {
        assert SemRepeticao(p) by {
          assert forall i :: 0 <= i < |p| ==> p[i] == s[i];
        }
        forall i | 0 <= i < |p|
          ensures p[i] != y
        {
          assert p[i] == s[i];
        }
      } else if SemRepeticao(p) {
        var i, j :| 0 <= i < j < |s| && s[i] == s[j];
        assert j == |s| - 1 && s[i] in p;
      }
    }
  }

  /** Two repetition-free sequences, the elements of one among those of the
      other: the first is no longer. */
  lemma TamanhoSubconjunto<T>(a: seq<T>, b: seq<T>)
    requires SemRepeticao(a) && SemRepeticao(b)
    requires forall x :: x in a ==> x in b
    ensures |a| <= |b|
  {
    CardinalidadeSemRepeticao(a);
    CardinalidadeSemRepeticao(b);
    var ea, eb := Elementos(a), Elementos(b);
    assert eb == ea + (eb - ea);
    assert |eb| == |ea| + |eb - ea|;
  }

  /** `s.map(f)`. */
  function Projetar<T, K>(s: seq<T>, f: T -> K): (r: seq<K>)
    ensures |r| == |s|
    ensures forall i :: 0 <= i < |s| ==> r[i] == f(s[i])
  {
    seq(|s|, i requires 0 <= i < |s| => f(s[i]))
  }

  lemma ProjetarAnexar<T, K>(s: seq<T>, y: T, f: T -> K)
    ensures Projetar(s + [y], f) == Projetar(s, f) + [f(y)]
  {
  }

  /** Rearranging a sequence does not change which values its projection
      takes. */
  lemma ProjetarPermutacao<T, K>(r: seq<T>, s: seq<T>, f: T -> K, x: K)
    requires multiset(r) == multiset(s)
    requires x in Projetar(s, f)
    ensures x in Projetar(r, f)
  {
    var i :| 0 <= i < |s| && Projetar(s, f)[i] == x;
    assert s[i] in multiset(r);
    var q :| 0 <= q < |r| && r[q] == s[i];
    assert Projetar(r, f)[q] == x;
  }

  /** `s.filter(p)`. */
  function Filtrar<T>(s: seq<T>, p: T -> bool): (r: seq<T>)
    ensures |r| <= |s|
    ensures forall i :: 0 <= i < |r| ==> r[i] in s && p(r[i])
    ensures forall i :: 0 <= i < |s| && p(s[i]) ==> s[i] in r
  {
    if s == [] then []
    else
      var q := Filtrar(s[..|s| - 1], p);
      if p(s[|s| - 1]) then q + [s[|s| - 1]] else q
  }

  /** `a` is `b` with some elements left out and the others in their order. */
  predicate Subsequencia<T(==)>(a: seq<T>, b: seq<T>)
    decreases |b|
  {
    if a == [] then true
    else if b == [] then false
    else (a[|a| - 1] == b[|b| - 1] && Subsequencia(a[..|a| - 1], b[..|b| - 1]))
         || Subsequencia(a, b[..|b| - 1])
  }

  /** What `filter` keeps, it keeps in order. */
  lemma {:induction false} FiltrarSubsequencia<T>(s: seq<T>, p: T -> bool)
    ensures Subsequencia(Filtrar(s, p), s)
  {
    if s != [] {
      var q := s[..|s| - 1];
      FiltrarSubsequencia(q, p);
      var f := Filtrar(q, p);
      if p(s[|s| - 1]) {
        assert (f + [s[|s| - 1]])[..|f|] == f;
      }
    }
  }

  /** A filter whose predicate holds of every element keeps everything. */
  lemma {:induction false} FiltrarTudo<T>(s: seq<T>, p: T -> bool)
    requires forall x :: x in s ==> p(x)
    ensures Filtrar(s, p) == s
  {
    if s != [] {
      FiltrarTudo(s[..|s| - 1], p);
      assert s[..|s| - 1] + [s[|s| - 1]] == s;
    }
  }

  /** Two filters in a row are one filter on the conjunction. */
  lemma {:induction false} FiltrarComposto<T>(s: seq<T>, p: T -> bool, q: T -> bool, pq: T -> bool)
    requires forall x :: pq(x) == (p(x) && q(x))
    ensures Filtrar(Filtrar(s, p), q) == Filtrar(s, pq)
  {
    if s != [] {
      var r, y := s[..|s| - 1], s[|s| - 1];
      FiltrarComposto(r, p, q, pq);
      var fp := Filtrar(r, p);
      if p(y) {
        assert (fp + [y])[..|fp|] == fp;
      }
    }
  }

  /** Filters whose predicates agree everywhere keep the same elements. */
  lemma FiltrarExtensional<T>(s: seq<T>, p: T -> bool, q: T -> bool)
    requires forall x :: p(x) == q(x)
    ensures Filtrar(s, p) == Filtrar(s, q)
  {
    var sempre := (x: T) => true;
    FiltrarComposto(s, p, sempre, q);
    FiltrarTudo(Filtrar(s, p), sempre);
  }

  /** `s.slice(0, fim)`: the first `fim` elements; a negative end counts
      back from the last element. */
  function Fatiar<T>(s: seq<T>, fim: int): (r: seq<T>)
    ensures r <= s
    ensures |r| == if fim >= 0 then (if fim < |s| then fim else |s|)
                   else (if |s| + fim > 0 then |s| + fim else 0)
  {
    var k := if fim >= 0 then (if fim < |s| then fim else |s|)
             else (if |s| + fim > 0 then |s| + fim else 0);
    s[..k]
  }
}
