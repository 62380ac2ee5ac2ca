/** The dashboard page: the option lists of the four filter selectors, the
    chain of filters that narrows the sales to the selection, the list of
    periods offered by the period selector, and the CSV text of the filtered
    sales. */
module Painel {
  import opened Opcao
  import opened Texto
  import opened Colecoes
  import opened Ordenacao
  import opened Agrupamento
  import opened Vendas

  // ---------------------------------------------------------------------------
  // Option lists
  // ---------------------------------------------------------------------------

  /** `['todos', ...Array.from(new Set(valores))]`: a sentinel, then each
      value once. */
  function Opcoes(sentinela: string, valores: seq<string>): (r: seq<string>)
    ensures |r| >= 1 && r[0] == sentinela
    ensures SemRepeticao(r[1..])
    ensures forall x :: x in r[1..] <==> x in valores
  {
    [sentinela] + Distintos(valores)
  }

  /** After the sentinel, the values come in the order of their first
      appearance. */
  lemma OpcoesOrdem(sentinela: string, valores: seq<string>)
    ensures var r := Opcoes(sentinela, valores);
      forall i, j :: 1 <= i < j < |r| ==> Primeira(valores, r[i]) < Primeira(valores, r[j])
  {
    var r := Opcoes(sentinela, valores);
    DistintosOrdem(valores);
    assert r[1..] == Distintos(valores);
    forall i, j | 1 <= i < j < |r|
      ensures Primeira(valores, r[i]) < Primeira(valores, r[j])
    {
      assert r[i] == Distintos(valores)[i - 1] && r[j] == Distintos(valores)[j - 1];
    }
  }

  /** A value is among the projections of the sales exactly when some sale
      has it. */
  lemma NaProjecao(dados: seq<Venda>, f: Venda -> string, x: string)
    ensures x in Projetar(dados, f) <==> exists i :: 0 <= i < |dados| && f(dados[i]) == x
  {
    var p := Projetar(dados, f);
    if x in p {
      var i :| 0 <= i < |p| && p[i] == x;
      assert f(dados[i]) == x;
    }
  }

  /** `canais`: `'todos'`, then every channel that occurs in the sales. */
  function Canais(dados: seq<Venda>): (r: seq<string>)
    ensures |r| >= 1 && r[0] == "todos" && SemRepeticao(r[1..])
    ensures forall x :: x in r[1..] <==> exists i :: 0 <= i < |dados| && CanalDe(dados[i]) == x
  {
    var r := Opcoes("todos", Projetar(dados, CanalDe));
    forall x
      ensures x in r[1..] <==> exists i :: 0 <= i < |dados| && CanalDe(dados[i]) == x
    {
      NaProjecao(dados, CanalDe, x);
    }
    r
  }

  /** `regioes`: `'todas'`, then every region that occurs in the sales. */
  function Regioes(dados: seq<Venda>): (r: seq<string>)
    ensures |r| >= 1 && r[0] == "todas" && SemRepeticao(r[1..])
    ensures forall x :: x in r[1..] <==> exists i :: 0 <= i < |dados| && RegiaoDe(dados[i]) == x
  {
    var r := Opcoes("todas", Projetar(dados, RegiaoDe));
    forall x
      ensures x in r[1..] <==> exists i :: 0 <= i < |dados| && RegiaoDe(dados[i]) == x
    {
      NaProjecao(dados, RegiaoDe, x);
    }
    r
  }

  /** `categorias`: `'todas'`, then every category that occurs in the sales. */
  function Categorias(dados: seq<Venda>): (r: seq<string>)
    ensures |r| >= 1 && r[0] == "todas" && SemRepeticao(r[1..])
    ensures forall x :: x in r[1..] <==> exists i :: 0 <= i < |dados| && CategoriaDe(dados[i]) == x
  {
    var r := Opcoes("todas", Projetar(dados, CategoriaDe));
    forall x
      ensures x in r[1..] <==> exists i :: 0 <= i < |dados| && CategoriaDe(dados[i]) == x
    {
      NaProjecao(dados, CategoriaDe, x);
    }
    r
  }

  // ---------------------------------------------------------------------------
  // The filters
  // ---------------------------------------------------------------------------

  /** The four selections. `'todos'` (period, channel) and `'todas'` (region,
      category) switch a filter off. */
  datatype Filtros = Filtros(periodo: string, canal: string, regiao: string, categoria: string)

  const SemFiltro := Filtros("todos", "todos", "todas", "todas")

  /** The period test: the selection split at `/` gives `[mes, ano]`, the
      sale's date split at `-` gives `[itemAno, itemMes]`, and both pairs must
      agree; a missing piece is `undefined`, which equals no date piece. */
  predicate NoPeriodo(v: Venda, periodo: string) {
    var selecao := Dividir(periodo, '/');
    var data := Dividir(v.dataVenda, '-');
    Campo(data, 0) == Campo(selecao, 1) && Campo(data, 1) == Campo(selecao, 0)
  }

  predicate PassaPeriodo(f: Filtros, v: Venda) {
    f.periodo == "todos" || NoPeriodo(v, f.periodo)
  }

  predicate PassaCanal(f: Filtros, v: Venda) {
    f.canal == "todos" || CanalDe(v) == f.canal
  }

  predicate PassaRegiao(f: Filtros, v: Venda) {
    f.regiao == "todas" || RegiaoDe(v) == f.regiao
  }

  predicate PassaCategoria(f: Filtros, v: Venda) {
    f.categoria == "todas" || CategoriaDe(v) == f.categoria
  }

  /** A sale passes every active filter. */
  predicate Aceita(f: Filtros, v: Venda) {
    PassaPeriodo(f, v) && PassaCanal(f, v) && PassaRegiao(f, v) && PassaCategoria(f, v)
  }

  /** One filter on the conjunction of the four tests. */
  function Filtrados(dados: seq<Venda>, f: Filtros): seq<Venda> {
    Filtrar(dados, (v: Venda) => Aceita(f, v))
  }

  /** The filter chain of the page: a copy of the sales, narrowed by each
      active selection in turn. Four filters in a row keep exactly what one
      filter on their conjunction keeps. */
  method AplicarFiltros(dados: seq<Venda>, f: Filtros) returns (dadosFiltrados: seq<Venda>)
    ensures dadosFiltrados == Filtrados(dados, f)
  {
    dadosFiltrados := dados;
    ghost var sempre := (v: Venda) => true;
    FiltrarTudo(dados, sempre);

    ghost var ate1 := (v: Venda) => PassaPeriodo(f, v);
    if f.periodo != "todos" {
      var selecao := Dividir(f.periodo, '/');
      var mes, ano := Campo(selecao, 0), Campo(selecao, 1);
      var doPeriodo := (item: Venda) =>
        var data := Dividir(item.dataVenda, '-');
        Campo(data, 0) == ano && Campo(data, 1) == mes;
      FiltrarComposto(dados, sempre, doPeriodo, ate1);
      dadosFiltrados := Filtrar(dadosFiltrados, doPeriodo);
    } else {
      FiltrarExtensional(dados, sempre, ate1);
    }

    ghost var ate2 := (v: Venda) => PassaPeriodo(f, v) && PassaCanal(f, v);
    if f.canal != "todos" {
      var doCanal := (item: Venda) => CanalDe(item) == f.canal;
      FiltrarComposto(dados, ate1, doCanal, ate2);
      dadosFiltrados := Filtrar(dadosFiltrados, doCanal);
    } else {
      FiltrarExtensional(dados, ate1, ate2);
    }

    ghost var ate3 := (v: Venda) => PassaPeriodo(f, v) && PassaCanal(f, v) && PassaRegiao(f, v);
    if f.regiao != "todas" {
      var daRegiao := (item: Venda) => RegiaoDe(item) == f.regiao;
      FiltrarComposto(dados, ate2, daRegiao, ate3);
      dadosFiltrados := Filtrar(dadosFiltrados, daRegiao);
    } else {
      FiltrarExtensional(dados, ate2, ate3);
    }

    ghost var todos := (v: Venda) => Aceita(f, v);
    if f.categoria != "todas" {
      var daCategoria := (item: Venda) => CategoriaDe(item) == f.categoria;
      FiltrarComposto(dados, ate3, daCategoria, todos);
      dadosFiltrados := Filtrar(dadosFiltrados, daCategoria);
    } else {
      FiltrarExtensional(dados, ate3, todos);
    }
  }

  /** A sale is kept exactly when it is one of the sales and passes every
      active filter; what is kept stays in its order. */
  lemma FiltradosCorretos(dados: seq<Venda>, f: Filtros)
    ensures forall v :: v in Filtrados(dados, f) <==> v in dados && Aceita(f, v)
    ensures Subsequencia(Filtrados(dados, f), dados)
  {
    var r := Filtrados(dados, f);
    forall v | v in r
      ensures v in dados && Aceita(f, v)
    {
      var i :| 0 <= i < |r| && r[i] == v;
    }
    forall v | v in dados && Aceita(f, v)
      ensures v in r
    {
      var i :| 0 <= i < |dados| && dados[i] == v;
    }
    FiltradosSubsequencia(dados, f);
  }

  lemma FiltradosSubsequencia(dados: seq<Venda>, f: Filtros)
    ensures Subsequencia(Filtrados(dados, f), dados)
  {
    FiltrarSubsequencia(dados, (v: Venda) => Aceita(f, v));
  }

  /** With every selection at its sentinel nothing is filtered out. */
  lemma SemFiltroMantemTudo(dados: seq<Venda>)
    ensures Filtrados(dados, SemFiltro) == dados
  {
    FiltrarTudo(dados, (v: Venda) => Aceita(SemFiltro, v));
  }

  /** A well-formed `MM/YYYY` selection keeps exactly the sales of that month. */
  lemma PeriodoCasa(v: Venda, periodo: string)
    requires RotuloValido(periodo)
    ensures NoPeriodo(v, periodo) <==> RotuloMes(v) == periodo
  {
    var d := v.dataVenda;
    PartesRotulo(periodo);
    PartesData(d);
    assert periodo == periodo[..2] + "/" + periodo[3..];
    if RotuloMes(v) == periodo {
      assert RotuloMes(v)[..2] == Mes(d) && RotuloMes(v)[3..] == Ano(d);
    }
  }

  /** Only the first two pieces of the selection are read: text after a
      second `/` does not change which sales are kept. */
  lemma PeriodoIgnoraResto(v: Venda, resto: string)
    ensures NoPeriodo(v, RotuloMes(v) + "/" + resto)
  {
    var d := v.dataVenda;
    PartesData(d);
    DigitosSemSeparador(Mes(d), '/');
    DigitosSemSeparador(Ano(d), '/');
    assert RotuloMes(v) + "/" + resto == Mes(d) + ['/'] + (Ano(d) + ['/'] + resto);
    DividirConcat(Mes(d), '/', Ano(d) + ['/'] + resto);
    DividirConcat(Ano(d), '/', resto);
  }

  /** A selection without `/` has no year piece, so it keeps nothing. */
  lemma PeriodoSemBarra(v: Venda, periodo: string)
    requires '/' !in periodo
    ensures !NoPeriodo(v, periodo)
  {
    DividirSemSeparador(periodo, '/');
    PartesData(v.dataVenda);
  }

  /** Choosing any offered channel alone keeps at least one sale. */
  lemma CanalSelecionavel(dados: seq<Venda>, canal: string)
    requires canal in Canais(dados)[1..]
    ensures Filtrados(dados, Filtros("todos", canal, "todas", "todas")) != []
  {
    var i :| 0 <= i < |dados| && CanalDe(dados[i]) == canal;
    FiltradosCorretos(dados, Filtros("todos", canal, "todas", "todas"));
    assert dados[i] in dados;
  }

  /** A sale that passes every active filter is among the filtered sales. */
  lemma FiltradosMantem(dados: seq<Venda>, f: Filtros, i: int)
    requires 0 <= i < |dados| && Aceita(f, dados[i])
    ensures dados[i] in Filtrados(dados, f)
  {
  }

  /** Choosing any offered region alone keeps at least one sale. */
  lemma RegiaoSelecionavel(dados: seq<Venda>, regiao: string)
    requires regiao in Regioes(dados)[1..]
    ensures Filtrados(dados, Filtros("todos", "todos", regiao, "todas")) != []
  {
    var i :| 0 <= i < |dados| && RegiaoDe(dados[i]) == regiao;
    FiltradosMantem(dados, Filtros("todos", "todos", regiao, "todas"), i);
  }

  /** Choosing any offered category alone keeps at least one sale. */
  lemma CategoriaSelecionavel(dados: seq<Venda>, categoria: string)
    requires categoria in Categorias(dados)[1..]
    ensures Filtrados(dados, Filtros("todos", "todos", "todas", categoria)) != []
  {
    var i :| 0 <= i < |dados| && CategoriaDe(dados[i]) == categoria;
    FiltradosMantem(dados, Filtros("todos", "todos", "todas", categoria), i);
  }

  // ---------------------------------------------------------------------------
  // The period list
  // ---------------------------------------------------------------------------

  /** The labels of the sales' months, each once, in order of appearance. */
  function RotulosUnicos(dados: seq<Venda>): seq<string> {
    Distintos(Projetar(dados, RotuloMes))
  }

  /** `periodos`: `'todos'`, then the month labels sorted by the period
      comparator. */
  function Periodos(dados: seq<Venda>): seq<string> {
    ["todos"] + Ordenar(RotulosUnicos(dados), PeriodoAntes)
  }

  /** One more sale adds its label to the Set. */
  lemma RotulosAnexar(dados: seq<Venda>, i: nat)
    requires i < |dados|
    ensures Distintos(Projetar(dados[..i + 1], RotuloMes))
      == Adicionar(Distintos(Projetar(dados[..i], RotuloMes)), RotuloMes(dados[i]))
  {
    ProjetarAnexar(dados[..i], dados[i], RotuloMes);
    assert dados[..i + 1] == dados[..i] + [dados[i]];
    var p := Projetar(dados[..i + 1], RotuloMes);
    assert p[..|p| - 1] == Projetar(dados[..i], RotuloMes);
  }

  /** Collects the labels in a Set while walking the sales, then sorts them. */
  method ExtrairPeriodos(dados: seq<Venda>) returns (periodos: seq<string>)
    ensures periodos == Periodos(dados)
  {
    var periodosUnicos: seq<string> := [];
    for i := 0 to |dados|
      invariant periodosUnicos == Distintos(Projetar(dados[..i], RotuloMes))
    {
      var partes := Dividir(dados[i].dataVenda, '-');
      var ano, mes := Campo(partes, 0), Campo(partes, 1);
      assert Interpolar(mes) + "/" + Interpolar(ano) == RotuloMes(dados[i]);
      RotulosAnexar(dados, i);
      periodosUnicos := Adicionar(periodosUnicos, Interpolar(mes) + "/" + Interpolar(ano));
    }
    assert dados[..|dados|] == dados;
    periodos := ["todos"] + Ordenar(periodosUnicos, PeriodoAntes);
  }

  /** Every collected label is well formed. */
  lemma RotulosValidos(dados: seq<Venda>)
    ensures forall x :: x in RotulosUnicos(dados) ==> RotuloValido(x)
  {
    forall x | x in RotulosUnicos(dados)
      ensures RotuloValido(x)
    {
      NaProjecao(dados, RotuloMes, x);
      var j :| 0 <= j < |dados| && RotuloMes(dados[j]) == x;
      RotuloMesValido(dados[j]);
    }
  }

  /** The sorted labels are in comparator order. */
  lemma PeriodosEmOrdem(dados: seq<Venda>)
    ensures Ordenado(Ordenar(RotulosUnicos(dados), PeriodoAntes), PeriodoAntes)
  {
    var u := RotulosUnicos(dados);
    RotulosValidos(dados);
    PeriodoAntesPreordem(Elementos(u));
    OrdenarCorreto(u, PeriodoAntes, Elementos(u));
  }

  /** The sorted labels hold each label once. */
  lemma PeriodosSemRepeticao(dados: seq<Venda>)
    ensures SemRepeticao(Ordenar(RotulosUnicos(dados), PeriodoAntes))
  {
    var u := RotulosUnicos(dados);
    var o := Ordenar(u, PeriodoAntes);
    var id := (x: string) => x;
    assert Projetar(u, id) == u;
    OrdenarSemRepeticao(u, PeriodoAntes, id);
    assert Projetar(o, id) == o;
  }

  /** The sorted labels are exactly the labels of the sales, all well formed. */
  lemma PeriodosMembros(dados: seq<Venda>)
    ensures var o := Ordenar(RotulosUnicos(dados), PeriodoAntes);
      && (forall x :: x in o <==> exists j :: 0 <= j < |dados| && RotuloMes(dados[j]) == x)
      && (forall x :: x in o ==> RotuloValido(x))
  {
    var u := RotulosUnicos(dados);
    var o := Ordenar(u, PeriodoAntes);
    RotulosValidos(dados);
    forall x
      ensures x in o <==> exists j :: 0 <= j < |dados| && RotuloMes(dados[j]) == x
    {
      assert x in o <==> x in multiset(o);
      assert x in u <==> x in multiset(u);
      NaProjecao(dados, RotuloMes, x);
    }
  }

  /** `periodos` starts with `'todos'`, then lists every month with a sale
      once, as a well-formed label. */
  lemma PeriodosRotulos(dados: seq<Venda>)
    ensures var r := Periodos(dados);
      && r[0] == "todos"
      && SemRepeticao(r[1..])
      && (forall x :: x in r[1..] <==> exists j :: 0 <= j < |dados| && RotuloMes(dados[j]) == x)
      && (forall i :: 1 <= i < |r| ==> RotuloValido(r[i]))
  {
    var r := Periodos(dados);
    PeriodosSemRepeticao(dados);
    PeriodosMembros(dados);
    assert r[1..] == Ordenar(RotulosUnicos(dados), PeriodoAntes);
    forall i | 1 <= i < |r|
      ensures RotuloValido(r[i])
    {
      assert r[i] in r[1..];
    }
  }

  /** Two labels of the sorted list, the earlier one first: an earlier month. */
  lemma PeriodosPar(o: seq<string>, i: int, j: int)
    requires Ordenado(o, PeriodoAntes) && SemRepeticao(o)
    requires forall x :: x in o ==> RotuloValido(x)
    requires 0 <= i < j < |o|
    ensures RotuloValido(o[i]) && RotuloValido(o[j]) && ValorRotulo(o[i]) < ValorRotulo(o[j])
  {
    assert o[i] in o && o[j] in o;
    CompararRotulos(o[i], o[j]);
    if ValorRotulo(o[i]) == ValorRotulo(o[j]) {
      RotuloInjetivo(o[i], o[j]);
    }
  }

  /** A sorted list of distinct well-formed labels ascends strictly. */
  lemma RotulosCrescentes(o: seq<string>)
    requires Ordenado(o, PeriodoAntes) && SemRepeticao(o)
    requires forall x :: x in o ==> RotuloValido(x)
    ensures forall i, j :: 0 <= i < j < |o| ==>
      RotuloValido(o[i]) && RotuloValido(o[j]) && ValorRotulo(o[i]) < ValorRotulo(o[j])
  {
    forall i, j | 0 <= i < j < |o|
      ensures RotuloValido(o[i]) && RotuloValido(o[j]) && ValorRotulo(o[i]) < ValorRotulo(o[j])
    {
      PeriodosPar(o, i, j);
    }
  }

  /** Behind a first entry, a strictly ascending list of labels stays
      strictly ascending from the second position on. */
  lemma CrescentesAposPrimeiro(r: seq<string>, o: seq<string>)
    requires |r| == |o| + 1 && r[1..] == o
    requires forall x :: x in o ==> RotuloValido(x)
    requires forall i, j :: 0 <= i < j < |o| ==> ValorRotulo(o[i]) < ValorRotulo(o[j])
    ensures forall i, j :: 1 <= i < j < |r| ==>
      RotuloValido(r[i]) && RotuloValido(r[j]) && ValorRotulo(r[i]) < ValorRotulo(r[j])
  {
    forall i | 1 <= i < |r|
      ensures r[i] == o[i - 1] && RotuloValido(r[i])
    {
      assert r[i] == r[1..][i - 1];
      assert o[i - 1] in o;
    }
  }

  /** After `'todos'` the periods ascend strictly by year, then month. */
  lemma PeriodosCrescentes(dados: seq<Venda>)
    ensures var r := Periodos(dados);
      forall i, j :: 1 <= i < j < |r| ==>
        RotuloValido(r[i]) && RotuloValido(r[j]) && ValorRotulo(r[i]) < ValorRotulo(r[j])
  {
    var o := Ordenar(RotulosUnicos(dados), PeriodoAntes);
    assert Ordenado(o, PeriodoAntes) by { PeriodosEmOrdem(dados); }
    assert SemRepeticao(o) by { PeriodosSemRepeticao(dados); }
    assert forall x :: x in o ==> RotuloValido(x) by { PeriodosMembros(dados); }
    RotulosCrescentes(o);
    CrescentesAposPrimeiro(Periodos(dados), o);
  }

  /** Choosing any offered period alone keeps at least one sale, namely the
      sales of that month. */
  lemma PeriodoSelecionavel(dados: seq<Venda>, periodo: string)
    requires periodo in Periodos(dados)[1..]
    ensures Filtrados(dados, Filtros(periodo, "todos", "todas", "todas")) != []
  {
    PeriodosRotulos(dados);
    var j :| 0 <= j < |dados| && RotuloMes(dados[j]) == periodo;
    RotuloMesValido(dados[j]);
    PeriodoCasa(dados[j], periodo);
    var f := Filtros(periodo, "todos", "todas", "todas");
    assert Aceita(f, dados[j]);
    FiltradosCorretos(dados, f);
    assert dados[j] in Filtrados(dados, f) by {
      assert dados[j] in dados;
    }
  }

  /** A well-formed `MM/YYYY` selection, alone, keeps exactly the sales of
      that month. */
  lemma FiltroDoMes(dados: seq<Venda>, periodo: string)
    requires RotuloValido(periodo)
    ensures forall v :: v in Filtrados(dados, Filtros(periodo, "todos", "todas", "todas")) <==>
      v in dados && RotuloMes(v) == periodo
  {
    var f := Filtros(periodo, "todos", "todas", "todas");
    FiltradosCorretos(dados, f);
    forall v
      ensures Aceita(f, v) <==> RotuloMes(v) == periodo
    {
      PeriodoCasa(v, periodo);
    }
  }

  // ---------------------------------------------------------------------------
  // CSV export
  // ---------------------------------------------------------------------------

  /** `Object.keys` of a sale: the fields in the order the record is built. */
  const NomesCampos: seq<string> := ["CLIENTE_ID", "PRODUTO", "CATEGORIA", "DATA_VENDA", "VALOR",
    "QUANTIDADE", "REGIAO", "CANAL", "CPF", "SEXO", "FAIXA_ETARIA"]

  /** `Object.values` of a sale, each as `join` writes it. */
  function ValoresCsv(v: Venda): (r: seq<string>)
    ensures |r| == |NomesCampos|
  {
    [v.clienteId, v.produto, v.categoria, v.dataVenda, CentavosParaTexto(v.valor),
     IntParaTexto(v.quantidade), v.regiao, CanalDe(v), v.cpf, SexoDe(v), FaixaDe(v)]
  }

  function LinhaCsv(v: Venda): string {
    Juntar(ValoresCsv(v), ";")
  }

  /** The CSV text: the header and one line per sale, joined by newlines.
      With no sale, reading the keys of `dadosFiltrados[0]` throws: None. */
  function ConteudoCsv(dadosFiltrados: seq<Venda>): (r: Option<string>)
    ensures r.None? <==> dadosFiltrados == []
  {
    if dadosFiltrados == [] then None
    else
      var cabecalho := Juntar(NomesCampos, ";");
      var linhas := Projetar(dadosFiltrados, LinhaCsv);
      Some(Juntar([cabecalho] + linhas, "\n"))
  }

  /** Neither separator occurs in the text. */
  predicate Limpo(s: string) {
    ';' !in s && '\n' !in s
  }

  /** The free-text fields of a sale hold no separator. */
  predicate CamposLimpos(v: Venda) {
    Limpo(v.clienteId) && Limpo(v.produto) && Limpo(v.categoria) && Limpo(v.regiao) && Limpo(v.cpf)
  }

  /** A join of pieces without `c`, by a separator without `c`, has no `c`. */
  lemma {:induction false} JuntarSem(xs: seq<string>, sep: string, c: char)
    requires c !in sep
    requires forall i :: 0 <= i < |xs| ==> c !in xs[i]
    ensures c !in Juntar(xs, sep)
  {
    if |xs| > 1 {
      JuntarSem(xs[1..], sep, c);
    }
  }

  lemma NumericoLimpo(s: string)
    requires SoNumerico(s)
    ensures Limpo(s)
  {
  }

  lemma DataLimpa(d: DataIso)
    ensures Limpo(d)
  {
    DigitosSemSeparador(d[..4], ';');
    DigitosSemSeparador(d[5..7], ';');
    DigitosSemSeparador(d[8..], ';');
    DigitosSemSeparador(d[..4], '\n');
    DigitosSemSeparador(d[5..7], '\n');
    DigitosSemSeparador(d[8..], '\n');
    assert d == d[..4] + ['-'] + d[5..7] + ['-'] + d[8..];
  }

  /** The labels written for the channel, the sex and the age band hold no
      separator. */
  lemma RotulosLimpos(v: Venda)
    ensures Limpo(CanalDe(v)) && Limpo(SexoDe(v)) && Limpo(FaixaDe(v))
  {
    assert Limpo(CanalDe(v)) by { match v.canal { case PDV => case ECOMMERCE => case DELIVERY => } }
    assert Limpo(SexoDe(v)) by { match v.sexo { case M => case F => } }
    match v.faixaEtaria {
      case De18a25 => case De26a35 => case De36a45 => case De46a60 => case Acima60 =>
    }
  }

  /** When the free-text fields hold no separator, no value does. */
  lemma ValoresLimpos(v: Venda)
    requires CamposLimpos(v)
    ensures forall i :: 0 <= i < |ValoresCsv(v)| ==> Limpo(ValoresCsv(v)[i])
  {
    var r := ValoresCsv(v);
    assert Limpo(r[3]) by { DataLimpa(v.dataVenda); }
    assert Limpo(r[4]) by { NumericoLimpo(CentavosParaTexto(v.valor)); }
    assert Limpo(r[5]) by { NumericoLimpo(IntParaTexto(v.quantidade)); }
    assert Limpo(r[7]) && Limpo(r[9]) && Limpo(r[10]) by { RotulosLimpos(v); }
  }

  /** A sale's line splits at `;` back into its values. */
  lemma LinhaCsvCampos(v: Venda)
    requires CamposLimpos(v)
    ensures Dividir(LinhaCsv(v), ';') == ValoresCsv(v)
    ensures '\n' !in LinhaCsv(v)
  {
    ValoresLimpos(v);
    DividirJuntar(ValoresCsv(v), ';');
    JuntarSem(ValoresCsv(v), ";", '\n');
  }

  /** No field name holds a separator. */
  lemma NomesLimpos()
    ensures forall i :: 0 <= i < |NomesCampos| ==> Limpo(NomesCampos[i])
  {
  }

  /** The header splits at `;` back into the field names. */
  lemma CabecalhoCampos()
    ensures Dividir(Juntar(NomesCampos, ";"), ';') == NomesCampos
  {
    NomesLimpos();
    DividirJuntar(NomesCampos, ';');
  }

  /** The header is a single line. */
  lemma CabecalhoUmaLinha()
    ensures '\n' !in Juntar(NomesCampos, ";")
  {
    NomesLimpos();
    JuntarSem(NomesCampos, ";", '\n');
  }

  /** When no free-text field holds a separator, the CSV text splits at
      newlines back into the header and one line per sale. */
  lemma CsvLinhas(dadosFiltrados: seq<Venda>)
    requires dadosFiltrados != []
    requires forall i :: 0 <= i < |dadosFiltrados| ==> CamposLimpos(dadosFiltrados[i])
    ensures Dividir(ConteudoCsv(dadosFiltrados).value, '\n')
      == [Juntar(NomesCampos, ";")] + Projetar(dadosFiltrados, LinhaCsv)
  {
    var todas := [Juntar(NomesCampos, ";")] + Projetar(dadosFiltrados, LinhaCsv);
    CabecalhoUmaLinha();
    forall i | 0 <= i < |todas|
      ensures '\n' !in todas[i]
    {
      if i > 0 {
        LinhaCsvCampos(dadosFiltrados[i - 1]);
      }
    }
    DividirJuntar(todas, '\n');
  }

  /** When no free-text field holds a separator, the CSV text splits at
      newlines into the header and one line per sale, and each line splits at
      `;` into as many values as the header has names: the header's names,
      then each sale's values in field order. */
  lemma CsvLegivel(dadosFiltrados: seq<Venda>)
    requires dadosFiltrados != []
    requires forall i :: 0 <= i < |dadosFiltrados| ==> CamposLimpos(dadosFiltrados[i])
    ensures var linhas := Dividir(ConteudoCsv(dadosFiltrados).value, '\n');
      && |linhas| == |dadosFiltrados| + 1
      && Dividir(linhas[0], ';') == NomesCampos
      && forall i :: 0 <= i < |dadosFiltrados| ==> Dividir(linhas[i + 1], ';') == ValoresCsv(dadosFiltrados[i])
  {
    var linhas := Dividir(ConteudoCsv(dadosFiltrados).value, '\n');
    CsvLinhas(dadosFiltrados);
    CabecalhoCampos();
    forall i | 0 <= i < |dadosFiltrados|
      ensures Dividir(linhas[i + 1], ';') == ValoresCsv(dadosFiltrados[i])
    {
      assert linhas[i + 1] == LinhaCsv(dadosFiltrados[i]);
      LinhaCsvCampos(dadosFiltrados[i]);
    }
  }
}
