/** The analytics of `mockData.ts`: total revenue, average ticket, distinct
    customers and products, revenue per month, top products, revenue per
    channel and per region, and the customer profile. Amounts are in cents. */
module Analise {
  import opened Opcao
  import opened Texto
  import opened Colecoes
  import opened Ordenacao
  import opened Agrupamento
  import opened Vendas

  // ---------------------------------------------------------------------------
  // Total revenue and average ticket
  // ---------------------------------------------------------------------------

  lemma {:induction false} SomarMinimo<T>(d: seq<T>, w: T -> int, lo: int)
    requires forall i :: 0 <= i < |d| ==> lo <= w(d[i])
    ensures |d| * lo <= Somar(d, w)
  {
    if d != [] {
      var p := d[..|d| - 1];
      assert forall i :: 0 <= i < |p| ==> p[i] == d[i];
      SomarMinimo(p, w, lo);
      assert |d| * lo == |p| * lo + lo;
    }
  }

  lemma {:induction false} SomarMaximo<T>(d: seq<T>, w: T -> int, hi: int)
    requires forall i :: 0 <= i < |d| ==> w(d[i]) <= hi
    ensures Somar(d, w) <= |d| * hi
  {
    if d != [] {
      var p := d[..|d| - 1];
      assert forall i :: 0 <= i < |p| ==> p[i] == d[i];
      SomarMaximo(p, w, hi);
      assert |d| * hi == |p| * hi + hi;
    }
  }

  lemma SomarNaoNegativo<T>(d: seq<T>, w: T -> int)
    ensures (forall i :: 0 <= i < |d| ==> w(d[i]) >= 0) ==> Somar(d, w) >= 0
  {
    if forall i :: 0 <= i < |d| ==> w(d[i]) >= 0 {
      SomarMinimo(d, w, 0);
    }
  }

  /** `calcularTotalVendas`: the sum of VALOR over all sales. */
  function CalcularTotalVendas(dados: seq<Venda>): (total: int)
    ensures dados == [] ==> total == 0
    ensures |dados| == 1 ==> total == dados[0].valor
    ensures (forall i :: 0 <= i < |dados| ==> dados[i].valor >= 0) ==> total >= 0
  {
    SomarNaoNegativo(dados, ValorDe);
    Somar(dados, ValorDe)
  }

  /** The total of two lists of sales is the sum of their totals. */
  lemma {:induction false} TotalConcat(a: seq<Venda>, b: seq<Venda>)
    ensures CalcularTotalVendas(a + b) == CalcularTotalVendas(a) + CalcularTotalVendas(b)
  {
    if b == [] {
      assert a + b == a;
    } else {
      var p, x := b[..|b| - 1], b[|b| - 1];
      assert a + b == (a + p) + [x];
      assert b == p + [x];
      TotalConcat(a, p);
      SomarAnexar(a + p, x, ValorDe);
      SomarAnexar(p, x, ValorDe);
    }
  }

  /** `calcularTicketMedio`: total / length; 0 / 0 is NaN (None). */
  function CalcularTicketMedio(dados: seq<Venda>): (r: Option<real>)
    ensures r.None? <==> dados == []
  {
    if dados == [] then None
    else Some(CalcularTotalVendas(dados) as real / (|dados| as real))
  }

  /** The ticket times the number of sales is the total. */
  lemma TicketMedioVezesVendas(dados: seq<Venda>)
    requires dados != []
    ensures CalcularTicketMedio(dados).value * (|dados| as real) == CalcularTotalVendas(dados) as real
  {
  }

  lemma QuocienteEntre(t: real, n: real, lo: real, hi: real)
    requires n > 0.0 && n * lo <= t <= n * hi
    ensures lo <= t / n <= hi
  {
    var m := t / n;
    assert t == m * n;
    assert (m - lo) * n == t - n * lo;
    assert (hi - m) * n == n * hi - t;
  }

  /** Multiplying integers, then converting, is converting, then multiplying. */
  lemma ProdutoReal(a: int, b: int)
    ensures (a * b) as real == (a as real) * (b as real)
  {
  }

  /** An average of `n` amounts whose sum is between `n * lo` and `n * hi`
      lies between `lo` and `hi`. */
  lemma MediaEntre(t: int, n: int, lo: int, hi: int)
    requires n > 0 && n * lo <= t <= n * hi
    ensures lo as real <= t as real / n as real <= hi as real
  {
    ProdutoReal(n, lo);
    ProdutoReal(n, hi);
    QuocienteEntre(t as real, n as real, lo as real, hi as real);
  }

  /** The average ticket lies between the smallest and the largest sale. */
  lemma TicketMedioEntreExtremos(dados: seq<Venda>, lo: int, hi: int)
    requires dados != []
    requires forall i :: 0 <= i < |dados| ==> lo <= dados[i].valor <= hi
    ensures CalcularTicketMedio(dados).Some?
    ensures lo as real <= CalcularTicketMedio(dados).value <= hi as real
  {
    var n, t := |dados|, CalcularTotalVendas(dados);
    SomarMinimo(dados, ValorDe, lo);
    SomarMaximo(dados, ValorDe, hi);
    MediaEntre(t, n, lo, hi);
  }

  // ---------------------------------------------------------------------------
  // Distinct customers and products
  // ---------------------------------------------------------------------------

  /** `new Set(dados.map(v => v.CLIENTE_ID)).size`. */
  function ContarClientesUnicos(dados: seq<Venda>): (n: nat)
    ensures n == |Elementos(Projetar(dados, ClienteDe))|
    ensures n <= |dados|
    ensures n == 0 <==> dados == []
    ensures n == |dados| <==> SemRepeticao(Projetar(dados, ClienteDe))
  {
    TamanhoDistintos(Projetar(dados, ClienteDe));
    DistintosCheio(Projetar(dados, ClienteDe));
    |Distintos(Projetar(dados, ClienteDe))|
  }

  /** `new Set(dados.map(v => v.PRODUTO)).size`. */
  function ContarProdutosUnicos(dados: seq<Venda>): (n: nat)
    ensures n == |Elementos(Projetar(dados, ProdutoDe))|
    ensures n <= |dados|
    ensures n == 0 <==> dados == []
    ensures n == |dados| <==> SemRepeticao(Projetar(dados, ProdutoDe))
  {
    TamanhoDistintos(Projetar(dados, ProdutoDe));
    DistintosCheio(Projetar(dados, ProdutoDe));
    |Distintos(Projetar(dados, ProdutoDe))|
  }

  // ---------------------------------------------------------------------------
  // Revenue per month
  // ---------------------------------------------------------------------------

  /** `([chave, valor]) => ({ mes: `${mes}/${ano}`, valor })`. */
  function Rotular(p: Par): Par {
    Par(RotuloDeChave(p.chave), p.valor)
  }

  /** The comparator of `agruparPorMes`, on the entries' labels. */
  predicate MesAntes(a: Par, b: Par) {
    PeriodoAntes(a.chave, b.chave)
  }

  /** What `agruparPorMes` returns. */
  function PorMes(dados: seq<Venda>): seq<Par> {
    Ordenar(Projetar(Somas(dados, ChaveMes, ValorDe), Rotular), MesAntes)
  }

  /** `agruparPorMes`: revenue per `YYYY-MM` key, labelled `MM/YYYY`, sorted
      by the period comparator. */
  method AgruparPorMes(dados: seq<Venda>) returns (r: seq<Par>)
    ensures r == PorMes(dados)
  {
    var porChave := SomarPorChave(dados, ChaveMes, ValorDe);
    r := Ordenar(Projetar(porChave, Rotular), MesAntes);
  }

  /** Two sales share a month key exactly when they share a label. */
  lemma ChaveERotulo(v: Venda, u: Venda)
    ensures ChaveMes(v) == ChaveMes(u) <==> RotuloMes(v) == RotuloMes(u)
  {
    ChaveMesOrdem(v, u);
    RotuloMesIgual(v, u);
  }

  /** The sale an entry of the labelled months comes from. */
  lemma RotuladoOrigem(dados: seq<Venda>, i: nat) returns (j: nat)
    requires i < |Somas(dados, ChaveMes, ValorDe)|
    ensures j < |dados|
    ensures Somas(dados, ChaveMes, ValorDe)[i].chave == ChaveMes(dados[j])
    ensures Rotular(Somas(dados, ChaveMes, ValorDe)[i]).chave == RotuloMes(dados[j])
  {
    SomasCorretas(dados, ChaveMes, ValorDe);
    j :| 0 <= j < |dados| && ChaveMes(dados[j]) == Somas(dados, ChaveMes, ValorDe)[i].chave;
    RotuloDeChaveMes(dados[j]);
  }

  /** Each labelled month is well formed, is some sale's label and carries
      the revenue of the sales with that label. */
  lemma RotuladosValores(dados: seq<Venda>)
    ensures var s := Projetar(Somas(dados, ChaveMes, ValorDe), Rotular);
      forall i :: 0 <= i < |s| ==>
        && RotuloValido(s[i].chave)
        && (exists j :: 0 <= j < |dados| && s[i].chave == RotuloMes(dados[j]))
        && s[i].valor == SomaChave(dados, RotuloMes, ValorDe, s[i].chave)
  {
    var e := Somas(dados, ChaveMes, ValorDe);
    var s := Projetar(e, Rotular);
    forall i | 0 <= i < |s|
      ensures RotuloValido(s[i].chave)
      ensures exists j :: 0 <= j < |dados| && s[i].chave == RotuloMes(dados[j])
      ensures s[i].valor == SomaChave(dados, RotuloMes, ValorDe, s[i].chave)
    {
      var j := RotuladoOrigem(dados, i);
      RotuloMesValido(dados[j]);
      SomasCorretas(dados, ChaveMes, ValorDe);
      forall k | 0 <= k < |dados|
        ensures ChaveMes(dados[k]) == e[i].chave <==> RotuloMes(dados[k]) == s[i].chave
      {
        ChaveERotulo(dados[k], dados[j]);
      }
      SomaChaveEquivalente(dados, ChaveMes, e[i].chave, RotuloMes, s[i].chave, ValorDe);
    }
  }

  /** No label appears twice. */
  lemma RotuladosSemRepeticao(dados: seq<Venda>)
    ensures SemRepeticao(Projetar(Projetar(Somas(dados, ChaveMes, ValorDe), Rotular), ChavePar))
  {
    var e := Somas(dados, ChaveMes, ValorDe);
    var ps := Projetar(Projetar(e, Rotular), ChavePar);
    forall i, k | 0 <= i < k < |ps|
      ensures ps[i] != ps[k]
    {
      var a := RotuladoOrigem(dados, i);
      var b := RotuladoOrigem(dados, k);
      ChaveERotulo(dados[a], dados[b]);
      SomasCorretas(dados, ChaveMes, ValorDe);
      assert Projetar(e, ChavePar)[i] != Projetar(e, ChavePar)[k];
    }
  }

  /** Every sale's label is among the labelled months. */
  lemma RotuladosCompletos(dados: seq<Venda>)
    ensures forall j :: 0 <= j < |dados| ==>
      RotuloMes(dados[j]) in Projetar(Projetar(Somas(dados, ChaveMes, ValorDe), Rotular), ChavePar)
  {
    var e := Somas(dados, ChaveMes, ValorDe);
    var pe := Projetar(e, ChavePar);
    var ps := Projetar(Projetar(e, Rotular), ChavePar);
    SomasCorretas(dados, ChaveMes, ValorDe);
    forall j | 0 <= j < |dados|
      ensures RotuloMes(dados[j]) in ps
    {
      assert ChaveMes(dados[j]) in pe;
      var i :| 0 <= i < |pe| && pe[i] == ChaveMes(dados[j]);
      RotuloDeChaveMes(dados[j]);
      assert ps[i] == RotuloMes(dados[j]);
    }
  }

  /** On well-formed labels the month comparator is a consistent order. */
  lemma MesAntesPreordem(dom: set<Par>)
    requires forall p :: p in dom ==> RotuloValido(p.chave)
    ensures PreordemTotal(dom, MesAntes)
  {
    forall a, b | a in dom && b in dom
      ensures MesAntes(a, b) <==> ValorRotulo(a.chave) <= ValorRotulo(b.chave)
    {
      CompararRotulos(a.chave, b.chave);
    }
  }

  /** Sorting the labelled months: sorted, the same entries, no label twice. */
  lemma PorMesOrdenado(dados: seq<Venda>)
    ensures var s := Projetar(Somas(dados, ChaveMes, ValorDe), Rotular);
      && Ordenado(PorMes(dados), MesAntes)
      && multiset(PorMes(dados)) == multiset(s)
      && SemRepeticao(Projetar(PorMes(dados), ChavePar))
  {
    var s := Projetar(Somas(dados, ChaveMes, ValorDe), Rotular);
    RotuladosValores(dados);
    RotuladosSemRepeticao(dados);
    MesAntesPreordem(Elementos(s));
    OrdenarCorreto(s, MesAntes, Elementos(s));
    OrdenarSemRepeticao(s, MesAntes, ChavePar);
  }

  /** One entry of `agruparPorMes` is one of the labelled monthly sums. */
  lemma PorMesEntrada(dados: seq<Venda>, i: nat) returns (k: nat)
    requires i < |PorMes(dados)|
    ensures var s := Projetar(Somas(dados, ChaveMes, ValorDe), Rotular);
      k < |s| && s[k] == PorMes(dados)[i]
  {
    var s := Projetar(Somas(dados, ChaveMes, ValorDe), Rotular);
    var r := PorMes(dados);
    assert multiset(r) == multiset(s) by { PorMesOrdenado(dados); }
    assert r[i] in multiset(s);
    k :| 0 <= k < |s| && s[k] == r[i];
  }

  /** Each entry of `agruparPorMes` is a well-formed `MM/YYYY` label of some
      sale, with the revenue of all the sales of that month. */
  lemma PorMesValores(dados: seq<Venda>)
    ensures var r := PorMes(dados);
      forall i :: 0 <= i < |r| ==>
        && RotuloValido(r[i].chave)
        && (exists j :: 0 <= j < |dados| && r[i].chave == RotuloMes(dados[j]))
        && r[i].valor == SomaChave(dados, RotuloMes, ValorDe, r[i].chave)
  {
    var r := PorMes(dados);
    RotuladosValores(dados);
    forall i | 0 <= i < |r|
      ensures RotuloValido(r[i].chave)
      ensures exists j :: 0 <= j < |dados| && r[i].chave == RotuloMes(dados[j])
      ensures r[i].valor == SomaChave(dados, RotuloMes, ValorDe, r[i].chave)
    {
      var k := PorMesEntrada(dados, i);
    }
  }

  /** Every month with a sale has an entry in `agruparPorMes`. */
  lemma PorMesCompleto(dados: seq<Venda>)
    ensures forall j :: 0 <= j < |dados| ==> RotuloMes(dados[j]) in Projetar(PorMes(dados), ChavePar)
  {
    var s := Projetar(Somas(dados, ChaveMes, ValorDe), Rotular);
    var r := PorMes(dados);
    assert multiset(r) == multiset(s) by { PorMesOrdenado(dados); }
    RotuladosCompletos(dados);
    forall j | 0 <= j < |dados|
      ensures RotuloMes(dados[j]) in Projetar(r, ChavePar)
    {
      ProjetarPermutacao(r, s, ChavePar, RotuloMes(dados[j]));
    }
  }

  /** The entries of `agruparPorMes` are in strictly increasing (year, month)
      order, so no month appears twice. */
  lemma PorMesCrescente(dados: seq<Venda>)
    ensures var r := PorMes(dados);
      forall i, j :: 0 <= i < j < |r| ==>
        RotuloValido(r[i].chave) && RotuloValido(r[j].chave) &&
        ValorRotulo(r[i].chave) < ValorRotulo(r[j].chave)
  {
    var r := PorMes(dados);
    var pr := Projetar(r, ChavePar);
    PorMesOrdenado(dados);
    PorMesValores(dados);
    forall i, j | 0 <= i < j < |r|
      ensures RotuloValido(r[i].chave) && RotuloValido(r[j].chave)
      ensures ValorRotulo(r[i].chave) < ValorRotulo(r[j].chave)
    {
      assert MesAntes(r[i], r[j]);
      CompararRotulos(r[i].chave, r[j].chave);
      assert pr[i] != pr[j];
      if ValorRotulo(r[i].chave) == ValorRotulo(r[j].chave) {
        RotuloInjetivo(r[i].chave, r[j].chave);
      }
    }
  }

  lemma {:induction false} SomaValoresRotular(ps: seq<Par>)
    ensures SomaValores(Projetar(ps, Rotular)) == SomaValores(ps)
  {
    if ps != [] {
      assert Projetar(ps, Rotular)[1..] == Projetar(ps[1..], Rotular);
      SomaValoresRotular(ps[1..]);
    }
  }

  /** The monthly values add up to the total revenue. */
  lemma AgruparPorMesConserva(dados: seq<Venda>)
    ensures SomaValores(PorMes(dados)) == CalcularTotalVendas(dados)
  {
    var e := Somas(dados, ChaveMes, ValorDe);
    var s := Projetar(e, Rotular);
    SomasConservam(dados, ChaveMes, ValorDe);
    SomaValoresRotular(e);
    SomaValoresPermutacao(PorMes(dados), s);
  }

  // ---------------------------------------------------------------------------
  // Top products, channels, regions
  // ---------------------------------------------------------------------------

  /** `calcularTopProdutos`: revenue per product, sorted by value from highest
      to lowest, cut at `limite`. */
  method CalcularTopProdutos(dados: seq<Venda>, limite: int := 10) returns (r: seq<Par>)
    ensures r == Ranking(dados, ProdutoDe, ValorDe, limite)
  {
    var porProduto := SomarPorChave(dados, ProdutoDe, ValorDe);
    r := Fatiar(Ordenar(porProduto, MaiorValor), limite);
  }

  /** `calcularDistribuicaoPorCanal`: revenue per channel, channels in the
      order first seen. */
  method CalcularDistribuicaoPorCanal(dados: seq<Venda>) returns (r: seq<Par>)
    ensures r == Somas(dados, CanalDe, ValorDe)
  {
    r := SomarPorChave(dados, CanalDe, ValorDe);
  }

  /** `calcularDistribuicaoPorRegiao`: revenue per region, regions in the
      order first seen. */
  method CalcularDistribuicaoPorRegiao(dados: seq<Venda>) returns (r: seq<Par>)
    ensures r == Somas(dados, RegiaoDe, ValorDe)
  {
    r := SomarPorChave(dados, RegiaoDe, ValorDe);
  }

  // ---------------------------------------------------------------------------
  // Customer profile
  // ---------------------------------------------------------------------------

  /** `parseInt(faixa.split('-')[0])`: the bracket's lower bound. */
  function LimiteFaixa(faixa: string): Option<int> {
    ParseInt(Interpolar(Campo(Dividir(faixa, '-'), 0)))
  }

  /** The comparator `(a, b) => faixaA - faixaB` of the bracket sort. */
  predicate FaixaAntes(a: Par, b: Par) {
    NaoPositivo(Diferenca(LimiteFaixa(a.chave), LimiteFaixa(b.chave)))
  }

  function LimiteInferior(f: FaixaEtaria): nat {
    match f
    case De18a25 => 18
    case De26a35 => 26
    case De36a45 => 36
    case De46a60 => 46
    case Acima60 => 60
  }

  lemma DoisDigitos(s: string)
    requires |s| == 2 && SoDigitos(s)
    ensures ParseInt(s) == Some(ValorDigito(s[0]) * 10 + ValorDigito(s[1]))
  {
    ParseIntDigitos(s);
    assert s[1..] == [s[1]];
    assert ValorDecimal([s[1]]) == ValorDigito(s[1]);
  }

  /** Every bracket label parses to its lower bound: `"60+"` reads as 60. */
  lemma LimiteFaixaTexto(f: FaixaEtaria)
    ensures LimiteFaixa(TextoFaixa(f)) == Some(LimiteInferior(f))
  {
    var t := TextoFaixa(f);
    if f == Acima60 {
      assert t == "60" + ['+'] + "";
      DividirSemSeparador(t, '-');
      ParseIntPrefixo("60", '+', "");
      DoisDigitos("60");
    } else {
      assert t == t[..2] + ['-'] + t[3..];
      DividirPar(t[..2], '-', t[3..]);
      DoisDigitos(t[..2]);
    }
  }

  /** What `porFaixaEtaria` holds. */
  function PorFaixa(dados: seq<Venda>): seq<Par> {
    Ordenar(Contagens(dados, FaixaDe, ClienteDe), FaixaAntes)
  }

  /** `calcularPerfilClientes`: the Set of customers of each age bracket and
      of each sex, filled in one pass; then the sizes, the brackets sorted by
      their lower bound and the sexes in the order first seen. */
  method CalcularPerfilClientes(dados: seq<Venda>) returns (porFaixaEtaria: seq<Par>, porSexo: seq<Par>)
    ensures porFaixaEtaria == PorFaixa(dados)
    ensures porSexo == Contagens(dados, SexoDe, ClienteDe)
  {
    var ordemFaixa: seq<string> := [];
    var clientesPorFaixa: map<string, seq<string>> := map[];
    var ordemSexo: seq<string> := [];
    var clientesPorSexo: map<string, seq<string>> := map[];
    for i := 0 to |dados|
      invariant AcumuladoMembros(dados[..i], FaixaDe, ClienteDe, ordemFaixa, clientesPorFaixa)
      invariant AcumuladoMembros(dados[..i], SexoDe, ClienteDe, ordemSexo, clientesPorSexo)
    {
      AcumuladoMembrosPrefixo(dados, i, FaixaDe, ClienteDe, ordemFaixa, clientesPorFaixa);
      AcumuladoMembrosPrefixo(dados, i, SexoDe, ClienteDe, ordemSexo, clientesPorSexo);
      ordemFaixa, clientesPorFaixa := RegistrarMembro(ordemFaixa, clientesPorFaixa, FaixaDe(dados[i]), dados[i].clienteId);
      ordemSexo, clientesPorSexo := RegistrarMembro(ordemSexo, clientesPorSexo, SexoDe(dados[i]), dados[i].clienteId);
    }
    assert dados[..|dados|] == dados;
    var contagemFaixa := seq(|ordemFaixa|, j requires 0 <= j < |ordemFaixa| =>
      Par(ordemFaixa[j], |clientesPorFaixa[ordemFaixa[j]]|));
    ContagensAcumuladas(dados, FaixaDe, ClienteDe, ordemFaixa, clientesPorFaixa, contagemFaixa);
    porFaixaEtaria := Ordenar(contagemFaixa, FaixaAntes);
    porSexo := seq(|ordemSexo|, j requires 0 <= j < |ordemSexo| =>
      Par(ordemSexo[j], |clientesPorSexo[ordemSexo[j]]|));
    ContagensAcumuladas(dados, SexoDe, ClienteDe, ordemSexo, clientesPorSexo, porSexo);
  }

  /** The keys of the counts are the keys of the data, each once, in the
      order first seen. */
  lemma ContagensChaves(dados: seq<Venda>, f: Venda -> string)
    ensures var ks := Projetar(Contagens(dados, f, ClienteDe), ChavePar);
      && SemRepeticao(ks)
      && (forall j :: 0 <= j < |dados| ==> f(dados[j]) in ks)
      && (forall i :: 0 <= i < |ks| ==> exists j :: 0 <= j < |dados| && f(dados[j]) == ks[i])
      && (forall i, j :: 0 <= i < j < |ks| ==>
            ks[i] in Projetar(dados, f) && ks[j] in Projetar(dados, f) &&
            Primeira(Projetar(dados, f), ks[i]) < Primeira(Projetar(dados, f), ks[j]))
  {
    var ks := Chaves(dados, f);
    assert Projetar(Contagens(dados, f, ClienteDe), ChavePar) == ks;
    ChavesDistintos(dados, f);
    ChavesOrdem(dados, f);
    forall j | 0 <= j < |dados|
      ensures f(dados[j]) in ks
    {
      ChavesMembro(dados, f, f(dados[j]));
    }
    forall i | 0 <= i < |ks|
      ensures exists j :: 0 <= j < |dados| && f(dados[j]) == ks[i]
    {
      ChavesMembro(dados, f, ks[i]);
    }
  }

  /** Each count is the size of its key's Set of customers, so it never
      exceeds the number of distinct customers. */
  lemma ContagensValores(dados: seq<Venda>, f: Venda -> string)
    ensures var r := Contagens(dados, f, ClienteDe);
      forall i :: 0 <= i < |r| ==>
        r[i].valor == |Membros(dados, f, ClienteDe, r[i].chave)| &&
        r[i].valor <= ContarClientesUnicos(dados)
  {
    var r := Contagens(dados, f, ClienteDe);
    ChavesDistintos(dados, ClienteDe);
    forall i | 0 <= i < |r|
      ensures r[i].valor <= ContarClientesUnicos(dados)
    {
      MembrosLimite(dados, f, ClienteDe, r[i].chave);
    }
  }

  /** The counts of the data are well-formed bracket labels. */
  lemma ContagensFaixa(dados: seq<Venda>)
    ensures var c := Contagens(dados, FaixaDe, ClienteDe);
      forall p :: p in Elementos(c) ==> LimiteFaixa(p.chave).Some?
  {
    var c := Contagens(dados, FaixaDe, ClienteDe);
    ContagensChaves(dados, FaixaDe);
    forall p | p in Elementos(c)
      ensures LimiteFaixa(p.chave).Some?
    {
      var i :| 0 <= i < |c| && c[i] == p;
      assert Projetar(c, ChavePar)[i] == p.chave;
      var j :| 0 <= j < |dados| && FaixaDe(dados[j]) == p.chave;
      LimiteFaixaTexto(dados[j].faixaEtaria);
    }
  }

  /** Sorting the bracket counts: sorted, the same entries, no bracket twice. */
  lemma PorFaixaOrdenado(dados: seq<Venda>)
    ensures var c := Contagens(dados, FaixaDe, ClienteDe);
      && Ordenado(PorFaixa(dados), FaixaAntes)
      && multiset(PorFaixa(dados)) == multiset(c)
      && SemRepeticao(Projetar(PorFaixa(dados), ChavePar))
  {
    var c := Contagens(dados, FaixaDe, ClienteDe);
    ContagensFaixa(dados);
    ContagensChaves(dados, FaixaDe);
    assert PreordemTotal(Elementos(c), FaixaAntes);
    OrdenarCorreto(c, FaixaAntes, Elementos(c));
    OrdenarSemRepeticao(c, FaixaAntes, ChavePar);
  }

  /** Where an entry of `porFaixaEtaria` comes from: a count, and a sale of
      that bracket. */
  lemma PorFaixaOrigem(dados: seq<Venda>, i: nat) returns (q: nat, j: nat)
    requires i < |PorFaixa(dados)|
    ensures q < |Contagens(dados, FaixaDe, ClienteDe)|
    ensures Contagens(dados, FaixaDe, ClienteDe)[q] == PorFaixa(dados)[i]
    ensures j < |dados| && FaixaDe(dados[j]) == PorFaixa(dados)[i].chave
  {
    var c := Contagens(dados, FaixaDe, ClienteDe);
    var r := PorFaixa(dados);
    assert r[i] in multiset(c);
    q :| 0 <= q < |c| && c[q] == r[i];
    ContagensChaves(dados, FaixaDe);
    assert Projetar(c, ChavePar)[q] == r[i].chave;
    j :| 0 <= j < |dados| && FaixaDe(dados[j]) == r[i].chave;
  }

  /** `porFaixaEtaria`: each entry is a bracket of the data with its number of
      distinct customers, never more than the distinct customers overall. */
  lemma PorFaixaValores(dados: seq<Venda>)
    ensures var r := PorFaixa(dados);
      forall i :: 0 <= i < |r| ==>
        && (exists j :: 0 <= j < |dados| && FaixaDe(dados[j]) == r[i].chave)
        && r[i].valor == |Membros(dados, FaixaDe, ClienteDe, r[i].chave)|
        && r[i].valor <= ContarClientesUnicos(dados)
  {
    var c := Contagens(dados, FaixaDe, ClienteDe);
    var r := PorFaixa(dados);
    ContagensValores(dados, FaixaDe);
    forall i | 0 <= i < |r|
      ensures exists j :: 0 <= j < |dados| && FaixaDe(dados[j]) == r[i].chave
      ensures r[i].valor == |Membros(dados, FaixaDe, ClienteDe, r[i].chave)|
      ensures r[i].valor <= ContarClientesUnicos(dados)
    {
      var q, j := PorFaixaOrigem(dados, i);
    }
  }

  /** `porFaixaEtaria` has an entry for every bracket of the data. */
  lemma PorFaixaCompleto(dados: seq<Venda>)
    ensures forall j :: 0 <= j < |dados| ==> FaixaDe(dados[j]) in Projetar(PorFaixa(dados), ChavePar)
  {
    var c := Contagens(dados, FaixaDe, ClienteDe);
    var r := PorFaixa(dados);
    assert multiset(r) == multiset(c) by { PorFaixaOrdenado(dados); }
    assert forall j :: 0 <= j < |dados| ==> FaixaDe(dados[j]) in Projetar(c, ChavePar) by {
      ContagensChaves(dados, FaixaDe);
    }
    forall j | 0 <= j < |dados|
      ensures FaixaDe(dados[j]) in Projetar(r, ChavePar)
    {
      ProjetarPermutacao(r, c, ChavePar, FaixaDe(dados[j]));
    }
  }

  /** Two different brackets that the comparator keeps in order have
      increasing lower bounds. */
  lemma FaixaAntesCrescente(p: Par, q: Par, fp: FaixaEtaria, fq: FaixaEtaria)
    requires p.chave == TextoFaixa(fp) && q.chave == TextoFaixa(fq) && fp != fq
    requires FaixaAntes(p, q)
    ensures LimiteFaixa(p.chave).Some? && LimiteFaixa(q.chave).Some?
    ensures LimiteFaixa(p.chave).value < LimiteFaixa(q.chave).value
  {
    LimiteFaixaTexto(fp);
    LimiteFaixaTexto(fq);
  }

  lemma PorFaixaPar(dados: seq<Venda>, i: int, j: int)
    requires 0 <= i < j < |PorFaixa(dados)|
    ensures LimiteFaixa(PorFaixa(dados)[i].chave).Some? && LimiteFaixa(PorFaixa(dados)[j].chave).Some?
    ensures LimiteFaixa(PorFaixa(dados)[i].chave).value < LimiteFaixa(PorFaixa(dados)[j].chave).value
  {
    var r := PorFaixa(dados);
    PorFaixaOrdenado(dados);
    assert FaixaAntes(r[i], r[j]);
    assert Projetar(r, ChavePar)[i] != Projetar(r, ChavePar)[j];
    var _, a := PorFaixaOrigem(dados, i);
    var _, b := PorFaixaOrigem(dados, j);
    FaixaAntesCrescente(r[i], r[j], dados[a].faixaEtaria, dados[b].faixaEtaria);
  }

  /** `porFaixaEtaria` is in strictly increasing order of the brackets'
      lower bounds, all of which parse. */
  lemma {:induction false} PorFaixaCrescente(dados: seq<Venda>)
    ensures var r := PorFaixa(dados);
      forall i :: 0 <= i < |r| ==> LimiteFaixa(r[i].chave).Some?
    ensures var r := PorFaixa(dados);
      forall i, j :: 0 <= i < j < |r| ==> LimiteFaixa(r[i].chave).value < LimiteFaixa(r[j].chave).value
  {
    var r := PorFaixa(dados);
    forall i | 0 <= i < |r|
      ensures LimiteFaixa(r[i].chave).Some?
    {
      var _, a := PorFaixaOrigem(dados, i);
      LimiteFaixaTexto(dados[a].faixaEtaria);
    }
    forall i, j | 0 <= i < j < |r|
      ensures LimiteFaixa(r[i].chave).value < LimiteFaixa(r[j].chave).value
    {
      PorFaixaPar(dados, i, j);
    }
  }
}
