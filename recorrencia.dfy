/** `calcularRecorrenciaCompra`: purchases per customer and month, the 20
    customers with the most purchases, every month with a sale in
    chronological order, and one heatmap cell per (customer, month). */
module Recorrencia {
  import opened Colecoes
  import opened Texto
  import opened Ordenacao
  import opened Agrupamento
  import opened Vendas

  // ---------------------------------------------------------------------------
  // Reference definitions
  // ---------------------------------------------------------------------------

  /** The sales of customer `c`, in their order. */
  function DoCliente(d: seq<Venda>, c: string): seq<Venda> {
    if d == [] then []
    else
      var x := d[|d| - 1];
      DoCliente(d[..|d| - 1], c) + (if x.clienteId == c then [x] else [])
  }

  /** The number of sales of customer `c` in the month with key `m`. */
  function ComprasNoMes(d: seq<Venda>, c: string, m: string): nat {
    if d == [] then 0
    else
      var x := d[|d| - 1];
      ComprasNoMes(d[..|d| - 1], c, m) + (if x.clienteId == c && ChaveMes(x) == m then 1 else 0)
  }

  lemma DoClienteAnexar(d: seq<Venda>, x: Venda, c: string)
    ensures DoCliente(d + [x], c) == if x.clienteId == c then DoCliente(d, c) + [x] else DoCliente(d, c)
  {
    assert (d + [x])[..|d|] == d;
  }

  /** A customer with no sale has no sales to filter. */
  lemma {:induction false} DoClienteVazio(d: seq<Venda>, c: string)
    requires c !in Chaves(d, ClienteDe)
    ensures DoCliente(d, c) == []
  {
    if d != [] {
      var p, x := d[..|d| - 1], d[|d| - 1];
      assert d == p + [x];
      ChavesAnexar(p, x, ClienteDe);
      DoClienteVazio(p, c);
    }
  }

  /** The filter keeps as many sales as the customer has. */
  lemma {:induction false} DoClienteTamanho(d: seq<Venda>, c: string)
    ensures |DoCliente(d, c)| == SomaChave(d, ClienteDe, Um, c)
  {
    if d != [] {
      var p, x := d[..|d| - 1], d[|d| - 1];
      assert d == p + [x];
      DoClienteTamanho(p, c);
      DoClienteAnexar(p, x, c);
    }
  }

  /** Counting a customer's sales by month key is `ComprasNoMes`. */
  lemma {:induction false} DoClienteMes(d: seq<Venda>, c: string, m: string)
    ensures SomaChave(DoCliente(d, c), ChaveMes, Um, m) == ComprasNoMes(d, c, m)
  {
    if d != [] {
      var p, x := d[..|d| - 1], d[|d| - 1];
      assert d == p + [x];
      DoClienteMes(p, c, m);
      DoClienteAnexar(p, x, c);
      if x.clienteId == c {
        SomaChaveAnexar(DoCliente(p, c), x, ChaveMes, Um, m);
      }
    }
  }

  lemma {:induction false} SomarUm<T>(d: seq<T>)
    ensures Somar(d, Um) == |d|
  {
    if d != [] {
      SomarUm(d[..|d| - 1]);
    }
  }

  /** The number of elements of `d` that satisfy `p`. */
  function Contar<T>(d: seq<T>, p: T -> bool): nat {
    if d == [] then 0
    else Contar(d[..|d| - 1], p) + (if p(d[|d| - 1]) then 1 else 0)
  }

  /** Some element is counted exactly when some element satisfies `p`. */
  lemma {:induction false} ContarPositivo<T>(d: seq<T>, p: T -> bool)
    ensures Contar(d, p) > 0 <==> exists i :: 0 <= i < |d| && p(d[i])
  {
    if d != [] {
      var q := d[..|d| - 1];
      ContarPositivo(q, p);
      if !p(d[|d| - 1]) {
        if i :| 0 <= i < |d| && p(d[i]) {
          assert i < |q| && q[i] == d[i];
        }
        if i :| 0 <= i < |q| && p(q[i]) {
          assert d[i] == q[i];
        }
      }
    }
  }

  /** `ComprasNoMes` counts the sales of the customer in the month. */
  lemma {:induction false} ComprasNoMesContar(d: seq<Venda>, c: string, m: string)
    ensures ComprasNoMes(d, c, m) == Contar(d, (v: Venda) => v.clienteId == c && ChaveMes(v) == m)
  {
    if d != [] {
      ComprasNoMesContar(d[..|d| - 1], c, m);
    }
  }

  /** A customer bought in a month exactly when some sale of theirs is in
      that month. */
  lemma ComprasNoMesPositivo(d: seq<Venda>, c: string, m: string)
    ensures ComprasNoMes(d, c, m) > 0 <==>
      exists i :: 0 <= i < |d| && d[i].clienteId == c && ChaveMes(d[i]) == m
  {
    var p := (v: Venda) => v.clienteId == c && ChaveMes(v) == m;
    ComprasNoMesContar(d, c, m);
    ContarPositivo(d, p);
  }

  // ---------------------------------------------------------------------------
  // The dictionary `comprasPorClienteMes`
  // ---------------------------------------------------------------------------

  /** A JavaScript object used as a dictionary: its values by key, and its
      keys in the order they were first assigned. */
  datatype Registro<V> = Registro(ordem: seq<string>, valores: map<string, V>)

  /** `obj[k] = v`: a new key joins the end of the key order. */
  function Atribuir<V>(r: Registro<V>, k: string, v: V): Registro<V> {
    Registro(if k in r.valores then r.ordem else r.ordem + [k], r.valores[k := v])
  }

  /** `comprasPorClienteMes` after the sales `d`: the customers in the order
      first seen, and for each the purchases per month key of their sales. */
  ghost predicate AcumuladoCompras(d: seq<Venda>, compras: Registro<Registro<int>>) {
    && compras.ordem == Chaves(d, ClienteDe)
    && (forall c :: c in compras.valores <==> c in compras.ordem)
    && (forall c :: c in compras.valores ==>
          Acumulado(DoCliente(d, c), ChaveMes, Um, compras.valores[c].ordem, compras.valores[c].valores))
  }

  /** `r[c] || {}`: a customer's month dictionary, empty when missing. */
  function MesesDe(compras: Registro<Registro<int>>, c: string): Registro<int> {
    if c in compras.valores then compras.valores[c] else Registro([], map[])
  }

  /** What one iteration of the loop leaves in `comprasPorClienteMes`. */
  function RegistrarCompra(compras: Registro<Registro<int>>, x: Venda): Registro<Registro<int>> {
    var meses := MesesDe(compras, x.clienteId);
    Atribuir(compras, x.clienteId, Atribuir(meses, ChaveMes(x), ValorOuZero(meses.valores, ChaveMes(x)) + 1))
  }

  /** Each customer's month dictionary, present or not, counts their sales. */
  lemma MesesDeAcumulado(d: seq<Venda>, compras: Registro<Registro<int>>, c: string)
    requires AcumuladoCompras(d, compras)
    ensures Acumulado(DoCliente(d, c), ChaveMes, Um, MesesDe(compras, c).ordem, MesesDe(compras, c).valores)
  {
    if c !in compras.valores {
      DoClienteVazio(d, c);
    }
  }

  /** `r[k] = (r[k] || 0) + w(x)` on a dictionary that sums `w` per key of
      `d`: it then sums `w` per key of `d + [x]`. */
  lemma AtribuirAcumulado<T>(d: seq<T>, d': seq<T>, x: T, f: T -> string, w: T -> int, r: Registro<int>, novo: Registro<int>)
    requires Acumulado(d, f, w, r.ordem, r.valores)
    requires d' == d + [x]
    requires novo == Atribuir(r, f(x), ValorOuZero(r.valores, f(x)) + w(x))
    ensures Acumulado(d', f, w, novo.ordem, novo.valores)
  {
    AcumuladoPasso(d, x, f, w, r.ordem, r.valores);
  }

  /** The customer of the new sale: their month dictionary takes one step. */
  lemma {:induction false} ClienteDaVendaPasso(d: seq<Venda>, x: Venda, meses: Registro<int>, novo: Registro<int>)
    requires Acumulado(DoCliente(d, x.clienteId), ChaveMes, Um, meses.ordem, meses.valores)
    requires novo == Atribuir(meses, ChaveMes(x), ValorOuZero(meses.valores, ChaveMes(x)) + 1)
    ensures Acumulado(DoCliente(d + [x], x.clienteId), ChaveMes, Um, novo.ordem, novo.valores)
  {
    AtribuirAcumulado(DoCliente(d, x.clienteId), DoCliente(d, x.clienteId) + [x], x, ChaveMes, Um, meses, novo);
    DoClienteAnexar(d, x, x.clienteId);
  }

  /** The other customers: nothing changes for them. */
  lemma OutroClientePasso(d: seq<Venda>, x: Venda, compras: Registro<Registro<int>>, c: string)
    requires AcumuladoCompras(d, compras)
    requires c in compras.valores && c != x.clienteId
    ensures var novo := RegistrarCompra(compras, x);
      && c in novo.valores
      && Acumulado(DoCliente(d + [x], c), ChaveMes, Um, novo.valores[c].ordem, novo.valores[c].valores)
  {
    DoClienteAnexar(d, x, c);
  }

  /** The key order of the outer dictionary follows the customers as first seen. */
  lemma OrdemComprasPasso(d: seq<Venda>, x: Venda, compras: Registro<Registro<int>>)
    requires AcumuladoCompras(d, compras)
    ensures var novo := RegistrarCompra(compras, x);
      && novo.ordem == Chaves(d + [x], ClienteDe)
      && (forall c :: c in novo.valores <==> c in novo.ordem)
  {
    ChavesAnexar(d, x, ClienteDe);
  }

  /** The customer of the new sale, read back from the outer dictionary. */
  lemma MesmoClientePasso(d: seq<Venda>, x: Venda, compras: Registro<Registro<int>>)
    requires Acumulado(DoCliente(d, x.clienteId), ChaveMes, Um, MesesDe(compras, x.clienteId).ordem, MesesDe(compras, x.clienteId).valores)
    ensures var novo := RegistrarCompra(compras, x).valores[x.clienteId];
      Acumulado(DoCliente(d + [x], x.clienteId), ChaveMes, Um, novo.ordem, novo.valores)
  {
    var meses := MesesDe(compras, x.clienteId);
    ClienteDaVendaPasso(d, x, meses, RegistrarCompra(compras, x).valores[x.clienteId]);
  }

  /** One customer's month dictionary after the step. */
  lemma ClienteComprasPasso(d: seq<Venda>, x: Venda, compras: Registro<Registro<int>>, c: string)
    requires AcumuladoCompras(d, compras)
    requires c in RegistrarCompra(compras, x).valores
    ensures var novo := RegistrarCompra(compras, x);
      Acumulado(DoCliente(d + [x], c), ChaveMes, Um, novo.valores[c].ordem, novo.valores[c].valores)
  {
    if c == x.clienteId {
      MesesDeAcumulado(d, compras, c);
      MesmoClientePasso(d, x, compras);
    } else {
      OutroClientePasso(d, x, compras, c);
    }
  }

  /** Every customer's month dictionary counts their sales after the step. */
  lemma ValoresComprasPasso(d: seq<Venda>, x: Venda, compras: Registro<Registro<int>>)
    requires AcumuladoCompras(d, compras)
    ensures var novo := RegistrarCompra(compras, x);
      forall c :: c in novo.valores ==>
        Acumulado(DoCliente(d + [x], c), ChaveMes, Um, novo.valores[c].ordem, novo.valores[c].valores)
  {
    var novo := RegistrarCompra(compras, x);
    forall c | c in novo.valores
      ensures Acumulado(DoCliente(d + [x], c), ChaveMes, Um, novo.valores[c].ordem, novo.valores[c].valores)
    {
      ClienteComprasPasso(d, x, compras, c);
    }
  }

  lemma AcumuladoComprasPasso(d: seq<Venda>, x: Venda, compras: Registro<Registro<int>>)
    requires AcumuladoCompras(d, compras)
    ensures AcumuladoCompras(d + [x], RegistrarCompra(compras, x))
  {
    OrdemComprasPasso(d, x, compras);
    ValoresComprasPasso(d, x, compras);
  }

  /** The body of the first loop: `if (!r[c]) r[c] = {}; if (!r[c][k])
      r[c][k] = 0; r[c][k] += 1;` with `c` the customer and `k` the month key. */
  method RegistrarVenda(compras: Registro<Registro<int>>, venda: Venda) returns (depois: Registro<Registro<int>>)
    ensures depois == RegistrarCompra(compras, venda)
  {
    var chave := ChaveMes(venda);
    ghost var antes := MesesDe(compras, venda.clienteId);
    depois := compras;
    if venda.clienteId !in depois.valores {
      depois := Atribuir(depois, venda.clienteId, Registro([], map[]));
    }
    var meses := depois.valores[venda.clienteId];
    assert meses == antes;
    if chave !in meses.valores || meses.valores[chave] == 0 {
      meses := Atribuir(meses, chave, 0);
    }
    meses := Atribuir(meses, chave, meses.valores[chave] + 1);
    assert meses == Atribuir(antes, chave, ValorOuZero(antes.valores, chave) + 1);
    depois := Atribuir(depois, venda.clienteId, meses);
  }

  /** The first loop of `calcularRecorrenciaCompra`. */
  method AcumularCompras(dados: seq<Venda>) returns (compras: Registro<Registro<int>>)
    ensures AcumuladoCompras(dados, compras)
  {
    compras := Registro([], map[]);
    for i := 0 to |dados|
      invariant AcumuladoCompras(dados[..i], compras)
    {
      assert dados[..i + 1] == dados[..i] + [dados[i]];
      AcumuladoComprasPasso(dados[..i], dados[i], compras);
      compras := RegistrarVenda(compras, dados[i]);
    }
    assert dados[..|dados|] == dados;
  }

  // ---------------------------------------------------------------------------
  // The customers with the most purchases
  // ---------------------------------------------------------------------------

  /** `Object.entries(r)` of a dictionary of numbers. */
  function Entradas(r: Registro<int>): seq<Par> {
    seq(|r.ordem|, j requires 0 <= j < |r.ordem| => Par(r.ordem[j], ValorOuZero(r.valores, r.ordem[j])))
  }

  /** `Object.values(comprasPorMes).reduce((a, b) => a + b, 0)`. */
  function TotalCompras(meses: Registro<int>): int {
    SomaValores(Entradas(meses))
  }

  /** `{ cliente, totalCompras }` for every entry of `comprasPorClienteMes`. */
  function TotaisPorCliente(compras: Registro<Registro<int>>): seq<Par> {
    seq(|compras.ordem|, j requires 0 <= j < |compras.ordem| =>
      Par(compras.ordem[j], TotalCompras(MesesDe(compras, compras.ordem[j]))))
  }

  /** A customer's total is their number of sales. */
  lemma TotalComprasCliente(d: seq<Venda>, compras: Registro<Registro<int>>, c: string)
    requires AcumuladoCompras(d, compras)
    ensures TotalCompras(MesesDe(compras, c)) == SomaChave(d, ClienteDe, Um, c)
  {
    var m := MesesDe(compras, c);
    MesesDeAcumulado(d, compras, c);
    EntradasAcumuladas(DoCliente(d, c), ChaveMes, Um, m.ordem, m.valores, Entradas(m));
    SomasConservam(DoCliente(d, c), ChaveMes, Um);
    SomarUm(DoCliente(d, c));
    DoClienteTamanho(d, c);
  }

  /** The totals are the purchase counts per customer, customers in the order
      first seen. */
  lemma TotaisCorretos(d: seq<Venda>, compras: Registro<Registro<int>>)
    requires AcumuladoCompras(d, compras)
    ensures TotaisPorCliente(compras) == Somas(d, ClienteDe, Um)
  {
    var t, e := TotaisPorCliente(compras), Somas(d, ClienteDe, Um);
    forall j | 0 <= j < |t|
      ensures t[j] == e[j]
    {
      TotalComprasCliente(d, compras, compras.ordem[j]);
    }
  }

  /** How many customers the heatmap shows. */
  const LimiteClientes := 20

  /** `clientesComMaisCompras`: the customers by purchase count, highest
      first, cut at 20. */
  function TopClientes(d: seq<Venda>): seq<string> {
    Projetar(Ranking(d, ClienteDe, Um, LimiteClientes), ChavePar)
  }

  /** The heatmap's customers: at most 20, none twice, each a customer of the
      data; purchase counts never increase down the list, and no customer
      left out bought more than one kept; customers with equal counts keep
      the order in which they first bought. */
  lemma TopClientesCorreto(d: seq<Venda>)
    ensures var t, n := TopClientes(d), |Chaves(d, ClienteDe)|;
      |t| == if n < LimiteClientes then n else LimiteClientes
    ensures SemRepeticao(TopClientes(d))
    ensures var t := TopClientes(d);
      forall i :: 0 <= i < |t| ==> exists j :: 0 <= j < |d| && d[j].clienteId == t[i]
    ensures var t := TopClientes(d);
      forall i, j :: 0 <= i < j < |t| ==> SomaChave(d, ClienteDe, Um, t[i]) >= SomaChave(d, ClienteDe, Um, t[j])
    ensures var t := TopClientes(d);
      forall i, c :: 0 <= i < |t| && c in Chaves(d, ClienteDe) && c !in t ==>
        SomaChave(d, ClienteDe, Um, c) <= SomaChave(d, ClienteDe, Um, t[i])
    ensures var t, p := TopClientes(d), Projetar(d, ClienteDe);
      forall i, j :: 0 <= i < j < |t| && SomaChave(d, ClienteDe, Um, t[i]) == SomaChave(d, ClienteDe, Um, t[j]) ==>
        t[i] in p && t[j] in p && Primeira(p, t[i]) < Primeira(p, t[j])
  {
    var r := Ranking(d, ClienteDe, Um, LimiteClientes);
    var t := TopClientes(d);
    RankingTamanho(d, ClienteDe, Um, LimiteClientes);
    RankingSemRepeticao(d, ClienteDe, Um, LimiteClientes);
    RankingValores(d, ClienteDe, Um, LimiteClientes);
    RankingCorte(d, ClienteDe, Um, LimiteClientes);
    RankingEstavel(d, ClienteDe, Um, LimiteClientes);
    forall i | 0 <= i < |t|
      ensures exists j :: 0 <= j < |d| && d[j].clienteId == t[i]
    {
      ChavesMembro(d, ClienteDe, t[i]);
      var j :| 0 <= j < |d| && ClienteDe(d[j]) == t[i];
      assert d[j].clienteId == t[i];
    }
  }

  // ---------------------------------------------------------------------------
  // The months
  // ---------------------------------------------------------------------------

  /** `Array.from(mesesUnicos).sort()`: every month key of the data, in the
      default (code unit) order. */
  function MesesOrdenados(d: seq<Venda>): seq<string> {
    Ordenar(Chaves(d, ChaveMes), OrdemTexto)
  }

  lemma OrdemTextoPreordem(dom: set<string>)
    ensures PreordemTotal(dom, OrdemTexto)
  {
    forall a, b | a in dom && b in dom
      ensures OrdemTexto(a, b) || OrdemTexto(b, a)
    {
      OrdemTextoTotal(a, b);
    }
    forall a, b, c | a in dom && b in dom && c in dom && OrdemTexto(a, b) && OrdemTexto(b, c)
      ensures OrdemTexto(a, c)
    {
      OrdemTextoTransitiva(a, b, c);
    }
  }

  /** Sorting strings without repetitions: sorted, no repetitions, the same
      elements. */
  lemma OrdenarTextos(s: seq<string>)
    requires SemRepeticao(s)
    ensures Ordenado(Ordenar(s, OrdemTexto), OrdemTexto)
    ensures SemRepeticao(Ordenar(s, OrdemTexto))
    ensures forall x :: x in Ordenar(s, OrdemTexto) <==> x in s
  {
    var o := Ordenar(s, OrdemTexto);
    OrdemTextoPreordem(Elementos(s));
    OrdenarCorreto(s, OrdemTexto, Elementos(s));
    var id := (x: string) => x;
    assert Projetar(s, id) == s;
    OrdenarSemRepeticao(s, OrdemTexto, id);
    assert Projetar(o, id) == o;
    forall x
      ensures x in o <==> x in s
    {
      assert x in o <==> x in multiset(o);
      assert x in s <==> x in multiset(s);
    }
  }

  /** The default sort of a Set's elements does not depend on the order in
      which they were added. */
  lemma {:induction false} OrdenarMesmoConjunto(a: seq<string>, b: seq<string>)
    requires SemRepeticao(a) && SemRepeticao(b)
    requires forall x :: x in a <==> x in b
    ensures Ordenar(a, OrdemTexto) == Ordenar(b, OrdemTexto)
  {
    var oa, ob := Ordenar(a, OrdemTexto), Ordenar(b, OrdemTexto);
    OrdenarTextos(a);
    OrdenarTextos(b);
    forall x, y | x in oa && y in oa && OrdemTexto(x, y) && OrdemTexto(y, x)
      ensures x == y
    {
      OrdemTextoAntissimetrica(x, y);
    }
    OrdenadosIguais(oa, ob, OrdemTexto);
  }

  /** A sale is among its customer's sales. */
  lemma {:induction false} DoClienteMembro(d: seq<Venda>, c: string, x: Venda)
    ensures x in DoCliente(d, c) <==> x in d && x.clienteId == c
  {
    if d != [] {
      var p, y := d[..|d| - 1], d[|d| - 1];
      assert d == p + [y];
      DoClienteMembro(p, c, x);
    }
  }

  /** The month keys in the dictionaries of the first `n` customers. */
  ghost function MesesAte(compras: Registro<Registro<int>>, n: nat): set<string>
    requires n <= |compras.ordem|
  {
    if n == 0 then {}
    else MesesAte(compras, n - 1) + Elementos(MesesDe(compras, compras.ordem[n - 1]).ordem)
  }

  lemma {:induction false} MesesAteMembro(compras: Registro<Registro<int>>, n: nat, m: string)
    requires n <= |compras.ordem|
    ensures m in MesesAte(compras, n) <==>
      exists p :: 0 <= p < n && m in MesesDe(compras, compras.ordem[p]).ordem
  {
    if n > 0 {
      MesesAteMembro(compras, n - 1, m);
    }
  }

  /** A customer's month keys are those of their sales. */
  lemma MesDoCliente(d: seq<Venda>, c: string, m: string)
    ensures m in Chaves(DoCliente(d, c), ChaveMes) <==>
      exists j :: 0 <= j < |d| && d[j].clienteId == c && ChaveMes(d[j]) == m
  {
    var e := DoCliente(d, c);
    ChavesMembro(e, ChaveMes, m);
    if m in Chaves(e, ChaveMes) {
      var i :| 0 <= i < |e| && ChaveMes(e[i]) == m;
      DoClienteMembro(d, c, e[i]);
      var j :| 0 <= j < |d| && d[j] == e[i];
    }
    if exists j :: 0 <= j < |d| && d[j].clienteId == c && ChaveMes(d[j]) == m {
      var j :| 0 <= j < |d| && d[j].clienteId == c && ChaveMes(d[j]) == m;
      DoClienteMembro(d, c, d[j]);
      var i :| 0 <= i < |e| && e[i] == d[j];
    }
  }

  /** All the customers' dictionaries together hold every month key of the
      data, and nothing else. */
  lemma MesesAteTodos(d: seq<Venda>, compras: Registro<Registro<int>>)
    requires AcumuladoCompras(d, compras)
    ensures MesesAte(compras, |compras.ordem|) == Elementos(Chaves(d, ChaveMes))
  {
    var n := |compras.ordem|;
    forall m
      ensures m in MesesAte(compras, n) <==> m in Chaves(d, ChaveMes)
    {
      MesesAteMembro(compras, n, m);
      ChavesMembro(d, ChaveMes, m);
      if m in MesesAte(compras, n) {
        var p :| 0 <= p < n && m in MesesDe(compras, compras.ordem[p]).ordem;
        MesesDeAcumulado(d, compras, compras.ordem[p]);
        MesDoCliente(d, compras.ordem[p], m);
      }
      if m in Chaves(d, ChaveMes) {
        var j :| 0 <= j < |d| && ChaveMes(d[j]) == m;
        var c := d[j].clienteId;
        ChavesMembro(d, ClienteDe, c);
        assert ClienteDe(d[j]) == c;
        var p :| 0 <= p < n && compras.ordem[p] == c;
        MesesDeAcumulado(d, compras, c);
        MesDoCliente(d, c, m);
      }
    }
  }

  /** `Object.values(r).forEach(m => Object.keys(m).forEach(k =>
      mesesUnicos.add(k)))`. */
  method ColetarMeses(compras: Registro<Registro<int>>) returns (mesesUnicos: seq<string>)
    requires forall c :: c in compras.ordem ==> c in compras.valores
    ensures SemRepeticao(mesesUnicos)
    ensures forall m :: m in mesesUnicos <==> m in MesesAte(compras, |compras.ordem|)
  {
    mesesUnicos := [];
    for ci := 0 to |compras.ordem|
      invariant SemRepeticao(mesesUnicos)
      invariant forall m :: m in mesesUnicos <==> m in MesesAte(compras, ci)
    {
      assert compras.ordem[ci] in compras.ordem;
      var comprasPorMes := compras.valores[compras.ordem[ci]];
      for mi := 0 to |comprasPorMes.ordem|
        invariant SemRepeticao(mesesUnicos)
        invariant forall m :: m in mesesUnicos <==> m in MesesAte(compras, ci) || m in comprasPorMes.ordem[..mi]
      {
        assert comprasPorMes.ordem[..mi + 1] == comprasPorMes.ordem[..mi] + [comprasPorMes.ordem[mi]];
        mesesUnicos := Adicionar(mesesUnicos, comprasPorMes.ordem[mi]);
      }
      assert comprasPorMes.ordem[..|comprasPorMes.ordem|] == comprasPorMes.ordem;
    }
  }

  /** `mesesOrdenados`: the collected months, sorted. */
  method MesesUnicos(dados: seq<Venda>, compras: Registro<Registro<int>>) returns (mesesOrdenados: seq<string>)
    requires AcumuladoCompras(dados, compras)
    ensures mesesOrdenados == MesesOrdenados(dados)
  {
    var mesesUnicos := ColetarMeses(compras);
    MesesAteTodos(dados, compras);
    ChavesMembro(dados, ChaveMes, "");
    assert forall m :: m in mesesUnicos <==> m in Chaves(dados, ChaveMes);
    OrdenarMesmoConjunto(mesesUnicos, Chaves(dados, ChaveMes));
    mesesOrdenados := Ordenar(mesesUnicos, OrdemTexto);
  }

  // ---------------------------------------------------------------------------
  // The heatmap
  // ---------------------------------------------------------------------------

  /** `{ cliente, mes, compras }`. */
  datatype Celula = Celula(cliente: string, mes: string, compras: int)

  /** `cliente.substring(0, 8)`: the first eight characters of the id. */
  function Abreviar(id: string): (r: string)
    ensures r <= id
    ensures |r| == if |id| < 8 then |id| else 8
  {
    id[..if |id| < 8 then |id| else 8]
  }

  /** Ids of the form `CLI` and six digits lose their last digit, so ten
      customers share each abbreviation: two heatmap rows can show the same id. */
  lemma AbreviarColide()
    ensures "CLI000120" != "CLI000121"
    ensures Abreviar("CLI000120") == Abreviar("CLI000121") == "CLI00012"
  {
  }

  /** The cells of one customer: one per month, labelled `MM/YYYY`, holding
      the customer's number of purchases in that month. */
  function Linha(d: seq<Venda>, c: string, meses: seq<string>): seq<Celula> {
    seq(|meses|, j requires 0 <= j < |meses| =>
      Celula(Abreviar(c), RotuloDeChave(meses[j]), ComprasNoMes(d, c, meses[j])))
  }

  /** The rows of the customers, one after the other. */
  function Grade(d: seq<Venda>, clientes: seq<string>, meses: seq<string>): seq<Celula> {
    if clientes == [] then []
    else Grade(d, clientes[..|clientes| - 1], meses) + Linha(d, clientes[|clientes| - 1], meses)
  }

  /** What `calcularRecorrenciaCompra` returns. */
  function RecorrenciaCompra(d: seq<Venda>): seq<Celula> {
    Grade(d, TopClientes(d), MesesOrdenados(d))
  }

  /** `comprasPorClienteMes[cliente][mesChave] || 0` is the number of the
      customer's purchases in that month. */
  lemma CelulaContada(d: seq<Venda>, compras: Registro<Registro<int>>, c: string, m: string)
    requires AcumuladoCompras(d, compras)
    ensures ValorOuZero(MesesDe(compras, c).valores, m) == ComprasNoMes(d, c, m)
  {
    var meses := MesesDe(compras, c);
    MesesDeAcumulado(d, compras, c);
    DoClienteMes(d, c, m);
    if m !in meses.valores {
      SomaChaveAusente(DoCliente(d, c), ChaveMes, Um, m);
    }
  }

  /** One more month adds that month's cell to the customer's row. */
  lemma LinhaPrefixo(d: seq<Venda>, c: string, meses: seq<string>, j: nat)
    requires j < |meses|
    ensures Linha(d, c, meses)[..j + 1] ==
      Linha(d, c, meses)[..j] + [Celula(Abreviar(c), RotuloDeChave(meses[j]), ComprasNoMes(d, c, meses[j]))]
  {
  }

  /** The inner `forEach`: pushes one customer's cells onto `resultado`. */
  method EmpilharLinha(dados: seq<Venda>, resultado: seq<Celula>, cliente: string,
                       comprasPorMes: Registro<int>, meses: seq<string>)
      returns (depois: seq<Celula>)
    requires forall m :: ValorOuZero(comprasPorMes.valores, m) == ComprasNoMes(dados, cliente, m)
    ensures depois == resultado + Linha(dados, cliente, meses)
  {
    depois := resultado;
    for mi := 0 to |meses|
      invariant depois == resultado + Linha(dados, cliente, meses)[..mi]
    {
      var mesChave := meses[mi];
      var mesFormatado := RotuloDeChave(mesChave);
      var compras := ValorOuZero(comprasPorMes.valores, mesChave);
      LinhaPrefixo(dados, cliente, meses, mi);
      depois := depois + [Celula(Abreviar(cliente), mesFormatado, compras)];
    }
    assert Linha(dados, cliente, meses)[..|meses|] == Linha(dados, cliente, meses);
  }

  /** The outer `forEach` over the customers. */
  method MontarGrade(dados: seq<Venda>, compras: Registro<Registro<int>>, clientes: seq<string>, meses: seq<string>)
      returns (resultado: seq<Celula>)
    requires forall c :: c in clientes ==> c in compras.valores
    requires forall c, m :: c in compras.valores ==>
      ValorOuZero(compras.valores[c].valores, m) == ComprasNoMes(dados, c, m)
    ensures resultado == Grade(dados, clientes, meses)
  {
    resultado := [];
    for ci := 0 to |clientes|
      invariant resultado == Grade(dados, clientes[..ci], meses)
    {
      var cliente := clientes[ci];
      assert cliente in clientes;
      resultado := EmpilharLinha(dados, resultado, cliente, compras.valores[cliente], meses);
      assert clientes[..ci + 1][..ci] == clientes[..ci];
    }
    assert clientes[..|clientes|] == clientes;
  }

  /** `calcularRecorrenciaCompra`. */
  method CalcularRecorrenciaCompra(dados: seq<Venda>) returns (resultado: seq<Celula>)
    ensures resultado == RecorrenciaCompra(dados)
  {
    var comprasPorClienteMes := AcumularCompras(dados);
    var totais := TotaisPorCliente(comprasPorClienteMes);
    TotaisCorretos(dados, comprasPorClienteMes);
    var clientesComMaisCompras := Projetar(Fatiar(Ordenar(totais, MaiorValor), LimiteClientes), ChavePar);
    assert clientesComMaisCompras == TopClientes(dados);
    ClientesRegistrados(dados, comprasPorClienteMes);
    forall c, m | c in comprasPorClienteMes.valores
      ensures ValorOuZero(comprasPorClienteMes.valores[c].valores, m) == ComprasNoMes(dados, c, m)
    {
      CelulaContada(dados, comprasPorClienteMes, c, m);
    }
    var mesesOrdenados := MesesUnicos(dados, comprasPorClienteMes);
    resultado := MontarGrade(dados, comprasPorClienteMes, clientesComMaisCompras, mesesOrdenados);
  }

  /** Every customer of the heatmap has a dictionary. */
  lemma ClientesRegistrados(d: seq<Venda>, compras: Registro<Registro<int>>)
    requires AcumuladoCompras(d, compras)
    ensures forall c :: c in TopClientes(d) ==> c in compras.valores
  {
    var r := Ranking(d, ClienteDe, Um, LimiteClientes);
    RankingValores(d, ClienteDe, Um, LimiteClientes);
    forall c | c in TopClientes(d)
      ensures c in compras.valores
    {
      var i :| 0 <= i < |r| && r[i].chave == c;
    }
  }

  // ---------------------------------------------------------------------------
  // Properties of the heatmap
  // ---------------------------------------------------------------------------

  lemma {:induction false} GradeTamanho(d: seq<Venda>, clientes: seq<string>, meses: seq<string>)
    ensures |Grade(d, clientes, meses)| == |clientes| * |meses|
  {
    if clientes != [] {
      var n := |clientes|;
      GradeTamanho(d, clientes[..n - 1], meses);
      assert (n - 1) * |meses| + |meses| == n * |meses|;
    }
  }

  /** Row `i` and column `j` of an `n` by `m` grid stored row after row. */
  lemma IndiceGrade(i: int, j: int, n: int, m: int)
    requires 0 <= i < n && 0 <= j < m
    ensures 0 <= i * m + j < n * m
  {
    DigitoDomina(i, n, j, 0, m);
    assert i * m >= 0;
  }

  /** The heatmap is a grid: customer `i` and month `j` meet in cell
      `i * |meses| + j`, which holds that customer's purchases in that month. */
  lemma {:induction false} GradeCelula(d: seq<Venda>, clientes: seq<string>, meses: seq<string>, i: int, j: int)
    requires 0 <= i < |clientes| && 0 <= j < |meses|
    ensures |Grade(d, clientes, meses)| == |clientes| * |meses|
    ensures 0 <= i * |meses| + j < |Grade(d, clientes, meses)|
    ensures Grade(d, clientes, meses)[i * |meses| + j] ==
      Celula(Abreviar(clientes[i]), RotuloDeChave(meses[j]), ComprasNoMes(d, clientes[i], meses[j]))
  {
    var n, m := |clientes|, |meses|;
    var p := clientes[..n - 1];
    var g, gp := Grade(d, clientes, meses), Grade(d, p, meses);
    GradeTamanho(d, clientes, meses);
    GradeTamanho(d, p, meses);
    IndiceGrade(i, j, n, m);
    assert g == gp + Linha(d, clientes[n - 1], meses);
    if i == n - 1 {
      assert g[i * m + j] == Linha(d, clientes[n - 1], meses)[j];
    } else {
      GradeCelula(d, p, meses, i, j);
      assert g[i * m + j] == gp[i * m + j];
      assert p[i] == clientes[i];
    }
  }

  /** The months of the heatmap: every month key of the data once, in
      increasing text order, which is chronological order because the keys
      are `YYYY-MM`. */
  lemma MesesOrdenadosCorretos(d: seq<Venda>)
    ensures SemRepeticao(MesesOrdenados(d))
    ensures forall m :: m in MesesOrdenados(d) <==> exists j :: 0 <= j < |d| && ChaveMes(d[j]) == m
    ensures var ms := MesesOrdenados(d);
      forall i, j :: 0 <= i < j < |ms| ==> OrdemTexto(ms[i], ms[j]) && ms[i] != ms[j]
    ensures var ms := MesesOrdenados(d);
      forall i, j, a, b ::
        (0 <= i < j < |ms| && 0 <= a < |d| && 0 <= b < |d| && ms[i] == ChaveMes(d[a]) && ms[j] == ChaveMes(d[b]))
        ==> Periodo(d[a]) < Periodo(d[b])
  {
    var ms := MesesOrdenados(d);
    ChavesMembro(d, ChaveMes, "");
    OrdenarTextos(Chaves(d, ChaveMes));
    forall m
      ensures m in ms <==> exists j :: 0 <= j < |d| && ChaveMes(d[j]) == m
    {
      ChavesMembro(d, ChaveMes, m);
    }
    forall i, j, a, b | 0 <= i < j < |ms| && 0 <= a < |d| && 0 <= b < |d| &&
        ms[i] == ChaveMes(d[a]) && ms[j] == ChaveMes(d[b])
      ensures Periodo(d[a]) < Periodo(d[b])
    {
      assert OrdemTexto(ms[i], ms[j]) && ms[i] != ms[j];
      ChaveMesOrdem(d[a], d[b]);
    }
  }

  /** The total of a list of cells. */
  function SomaCelulas(cs: seq<Celula>): int {
    if cs == [] then 0 else cs[0].compras + SomaCelulas(cs[1..])
  }

  lemma {:induction false} SomaLinhaSobre(d: seq<Venda>, c: string, ks: seq<string>)
    ensures SomaCelulas(Linha(d, c, ks)) == SomaSobre(ks, DoCliente(d, c), ChaveMes, Um)
  {
    if ks != [] {
      assert Linha(d, c, ks)[1..] == Linha(d, c, ks[1..]);
      SomaLinhaSobre(d, c, ks[1..]);
      DoClienteMes(d, c, ks[0]);
    }
  }

  /** A customer's row adds up to all of their purchases: every purchase is
      counted in exactly one month. */
  lemma LinhaSoma(d: seq<Venda>, c: string)
    ensures SomaCelulas(Linha(d, c, MesesOrdenados(d))) == SomaChave(d, ClienteDe, Um, c)
  {
    var ms, e := MesesOrdenados(d), DoCliente(d, c);
    MesesOrdenadosCorretos(d);
    forall i | 0 <= i < |e|
      ensures ChaveMes(e[i]) in ms
    {
      DoClienteMembro(d, c, e[i]);
      var j :| 0 <= j < |d| && d[j] == e[i];
    }
    SomaSobreTotal(ms, e, ChaveMes, Um);
    SomaLinhaSobre(d, c, ms);
    SomarUm(e);
    DoClienteTamanho(d, c);
  }

  /** The heatmap has one cell per (kept customer, month) pair: min(20,
      customers) times the number of months; no sales, no cells. */
  lemma RecorrenciaTamanho(d: seq<Venda>)
    ensures var n := |Chaves(d, ClienteDe)|;
      |RecorrenciaCompra(d)| == (if n < LimiteClientes then n else LimiteClientes) * |Chaves(d, ChaveMes)|
    ensures d == [] ==> RecorrenciaCompra(d) == []
  {
    GradeTamanho(d, TopClientes(d), MesesOrdenados(d));
    TopClientesCorreto(d);
    assert |MesesOrdenados(d)| == |Chaves(d, ChaveMes)| by {
      assert |multiset(MesesOrdenados(d))| == |multiset(Chaves(d, ChaveMes))|;
    }
    if d == [] {
      assert Chaves(d, ClienteDe) == [];
    }
  }
}
