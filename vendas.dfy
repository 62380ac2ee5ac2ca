/** The sale record `VendaData` and what the analytics read from its date:
    the `YYYY-MM` month key, the `MM/YYYY` period label, and the comparator
    that orders period labels by year and then by month. */
module Vendas {
  import opened Opcao
  import opened Texto
  import opened Ordenacao

  datatype Canal = PDV | ECOMMERCE | DELIVERY

  datatype Sexo = M | F

  datatype FaixaEtaria = De18a25 | De26a35 | De36a45 | De46a60 | Acima60

  function TextoCanal(c: Canal): string {
    match c
    case PDV => "PDV"
    case ECOMMERCE => "ECOMMERCE"
    case DELIVERY => "DELIVERY"
  }

  function TextoSexo(s: Sexo): string {
    match s
    case M => "M"
    case F => "F"
  }

  function TextoFaixa(f: FaixaEtaria): string {
    match f
    case De18a25 => "18-25"
    case De26a35 => "26-35"
    case De36a45 => "36-45"
    case De46a60 => "46-60"
    case Acima60 => "60+"
  }

  /** `YYYY-MM-DD`, the form `toISOString().split('T')[0]` writes. */
  predicate DataBemFormada(s: string) {
    && |s| == 10 && s[4] == '-' && s[7] == '-'
    && SoDigitos(s[..4]) && SoDigitos(s[5..7]) && SoDigitos(s[8..])
  }

  type DataIso = s: string | DataBemFormada(s) witness "2024-01-01"

  /** One sale. `valor` is the amount in cents. */
  datatype Venda = Venda(
    clienteId: string,
    produto: string,
    categoria: string,
    dataVenda: DataIso,
    valor: int,
    quantidade: int,
    regiao: string,
    canal: Canal,
    cpf: string,
    sexo: Sexo,
    faixaEtaria: FaixaEtaria)

  // The fields the analytics group by, and the amount, as function values.

  function ClienteDe(v: Venda): string { v.clienteId }
  function ProdutoDe(v: Venda): string { v.produto }
  function CategoriaDe(v: Venda): string { v.categoria }
  function RegiaoDe(v: Venda): string { v.regiao }
  function CanalDe(v: Venda): string { TextoCanal(v.canal) }
  function SexoDe(v: Venda): string { TextoSexo(v.sexo) }
  function FaixaDe(v: Venda): string { TextoFaixa(v.faixaEtaria) }
  function ValorDe(v: Venda): int { v.valor }

  // ---------------------------------------------------------------------------
  // Year and month
  // ---------------------------------------------------------------------------

  function Ano(d: DataIso): string { d[..4] }

  function Mes(d: DataIso): string { d[5..7] }

  /** `DATA_VENDA.split('-')` gives year, month and day. */
  lemma PartesData(d: DataIso)
    ensures Dividir(d, '-') == [d[..4], d[5..7], d[8..]]
  {
    DigitosSemSeparador(d[..4], '-');
    DigitosSemSeparador(d[5..7], '-');
    DigitosSemSeparador(d[8..], '-');
    assert d == d[..4] + ['-'] + (d[5..7] + ['-'] + d[8..]);
    DividirConcat(d[..4], '-', d[5..7] + ['-'] + d[8..]);
    DividirPar(d[5..7], '-', d[8..]);
  }

  /** `const [ano, mes] = DATA_VENDA.split('-'); `${ano}-${mes}``: the
      month key is the date's first seven characters. */
  function ChaveMes(v: Venda): (k: string)
    ensures k == Ano(v.dataVenda) + "-" + Mes(v.dataVenda)
    ensures k == v.dataVenda[..7]
  {
    PartesData(v.dataVenda);
    var partes := Dividir(v.dataVenda, '-');
    Interpolar(Campo(partes, 0)) + "-" + Interpolar(Campo(partes, 1))
  }

  /** `const [ano, mes] = DATA_VENDA.split('-'); `${mes}/${ano}``. */
  function RotuloMes(v: Venda): (r: string)
    ensures r == Mes(v.dataVenda) + "/" + Ano(v.dataVenda)
  {
    PartesData(v.dataVenda);
    var partes := Dividir(v.dataVenda, '-');
    Interpolar(Campo(partes, 1)) + "/" + Interpolar(Campo(partes, 0))
  }

  /** `const [ano, mes] = chave.split('-'); `${mes}/${ano}``: a month key
      turned into its label. */
  function RotuloDeChave(chave: string): string {
    var partes := Dividir(chave, '-');
    Interpolar(Campo(partes, 1)) + "/" + Interpolar(Campo(partes, 0))
  }

  /** The label made from a sale's month key is the sale's own label. */
  lemma RotuloDeChaveMes(v: Venda)
    ensures RotuloDeChave(ChaveMes(v)) == RotuloMes(v)
  {
    var d := v.dataVenda;
    DigitosSemSeparador(Ano(d), '-');
    DigitosSemSeparador(Mes(d), '-');
    DividirPar(Ano(d), '-', Mes(d));
  }

  /** The chronological position of a sale's month: year, then month. */
  function Periodo(v: Venda): nat {
    ValorDecimal(Ano(v.dataVenda)) * 100 + ValorDecimal(Mes(v.dataVenda))
  }

  /** Years weigh more than months, when months are below 100. */
  lemma Lexicografico(y1: nat, m1: nat, y2: nat, m2: nat)
    requires m1 < 100 && m2 < 100
    ensures y1 * 100 + m1 <= y2 * 100 + m2 <==> y1 < y2 || (y1 == y2 && m1 <= m2)
    ensures y1 * 100 + m1 == y2 * 100 + m2 <==> y1 == y2 && m1 == m2
  {
    if y1 < y2 {
      DigitoDomina(y1, y2, m1, m2, 100);
    } else if y2 < y1 {
      DigitoDomina(y2, y1, m2, m1, 100);
    }
  }

  /** Two-digit months stay below 100. */
  lemma MesAbaixoDeCem(s: string)
    requires SoDigitos(s) && |s| == 2
    ensures ValorDecimal(s) < 100
  {
    assert Pot10(2) == 100;
  }

  /** `YYYY-MM` texts with equally long years compare by year, then by month. */
  lemma OrdemTextoHifen(a1: string, m1: string, a2: string, m2: string)
    requires |a1| == |a2|
    ensures OrdemTexto(a1 + "-" + m1, a2 + "-" + m2) == if a1 == a2 then OrdemTexto(m1, m2) else OrdemTexto(a1, a2)
  {
    assert a1 + "-" + m1 == a1 + ("-" + m1) && a2 + "-" + m2 == a2 + ("-" + m2);
    OrdemTextoConcat(a1, "-" + m1, a2, "-" + m2);
    assert ("-" + m1)[1..] == m1 && ("-" + m2)[1..] == m2;
  }

  /** Such texts are equal exactly when year and month texts are. */
  lemma IgualHifen(a1: string, m1: string, a2: string, m2: string)
    requires |a1| == |a2|
    ensures a1 + "-" + m1 == a2 + "-" + m2 <==> a1 == a2 && m1 == m2
  {
    var k1, k2 := a1 + "-" + m1, a2 + "-" + m2;
    if k1 == k2 {
      assert a1 == k1[..|a1|] && a2 == k2[..|a2|];
      assert m1 == k1[|a1| + 1..] && m2 == k2[|a2| + 1..];
    }
  }

  /** Digit texts of one length are equal exactly when their values are. */
  lemma DigitosIguais(a: string, b: string)
    requires SoDigitos(a) && SoDigitos(b) && |a| == |b|
    ensures a == b <==> ValorDecimal(a) == ValorDecimal(b)
  {
    if a != b {
      ValorDecimalDifere(a, b);
    }
  }

  /** The year and a two-digit month, as the number `year * 100 + month`. */
  lemma AnoMesLexicografico(a1: string, m1: string, a2: string, m2: string)
    requires SoDigitos(a1) && SoDigitos(a2)
    requires SoDigitos(m1) && SoDigitos(m2) && |m1| == |m2| == 2
    ensures var y1, n1, y2, n2 := ValorDecimal(a1), ValorDecimal(m1), ValorDecimal(a2), ValorDecimal(m2);
      && (y1 * 100 + n1 <= y2 * 100 + n2 <==> y1 < y2 || (y1 == y2 && n1 <= n2))
      && (y1 * 100 + n1 == y2 * 100 + n2 <==> y1 == y2 && n1 == n2)
  {
    MesAbaixoDeCem(m1);
    MesAbaixoDeCem(m2);
    Lexicografico(ValorDecimal(a1), ValorDecimal(m1), ValorDecimal(a2), ValorDecimal(m2));
  }

  /** `YYYY-MM` texts with equally long years compare as text the way their
      months compare in time. */
  lemma ChaveTextoOrdem(a1: string, m1: string, a2: string, m2: string)
    requires SoDigitos(a1) && SoDigitos(a2) && |a1| == |a2|
    requires SoDigitos(m1) && SoDigitos(m2) && |m1| == |m2| == 2
    ensures OrdemTexto(a1 + "-" + m1, a2 + "-" + m2) <==>
      ValorDecimal(a1) * 100 + ValorDecimal(m1) <= ValorDecimal(a2) * 100 + ValorDecimal(m2)
  {
    OrdemTextoHifen(a1, m1, a2, m2);
    DigitosIguais(a1, a2);
    OrdemTextoDigitos(a1, a2);
    OrdemTextoDigitos(m1, m2);
    AnoMesLexicografico(a1, m1, a2, m2);
  }

  /** Such texts are equal exactly when their months are. */
  lemma ChaveTextoIgual(a1: string, m1: string, a2: string, m2: string)
    requires SoDigitos(a1) && SoDigitos(a2) && |a1| == |a2|
    requires SoDigitos(m1) && SoDigitos(m2) && |m1| == |m2| == 2
    ensures a1 + "-" + m1 == a2 + "-" + m2 <==>
      ValorDecimal(a1) * 100 + ValorDecimal(m1) == ValorDecimal(a2) * 100 + ValorDecimal(m2)
  {
    IgualHifen(a1, m1, a2, m2);
    DigitosIguais(a1, a2);
    DigitosIguais(m1, m2);
    AnoMesLexicografico(a1, m1, a2, m2);
  }

  /** Sorting month keys as text sorts them chronologically. */
  lemma ChaveMesOrdem(v: Venda, w: Venda)
    ensures OrdemTexto(ChaveMes(v), ChaveMes(w)) <==> Periodo(v) <= Periodo(w)
    ensures ChaveMes(v) == ChaveMes(w) <==> Periodo(v) == Periodo(w)
  {
    var a1, m1, a2, m2 := Ano(v.dataVenda), Mes(v.dataVenda), Ano(w.dataVenda), Mes(w.dataVenda);
    ChaveTextoOrdem(a1, m1, a2, m2);
    ChaveTextoIgual(a1, m1, a2, m2);
  }

  // ---------------------------------------------------------------------------
  // Period labels `MM/YYYY` and their comparator
  // ---------------------------------------------------------------------------

  /** A label as the dashboard writes it: two digits, `/`, four digits. */
  predicate RotuloValido(s: string) {
    |s| == 7 && s[2] == '/' && SoDigitos(s[..2]) && SoDigitos(s[3..])
  }

  function ValorRotulo(s: string): nat
    requires RotuloValido(s)
  {
    ValorDecimal(s[3..]) * 100 + ValorDecimal(s[..2])
  }

  /** Every sale's label is well formed and stands for the sale's month. */
  lemma RotuloMesValido(v: Venda)
    ensures RotuloValido(RotuloMes(v)) && ValorRotulo(RotuloMes(v)) == Periodo(v)
  {
    var r := RotuloMes(v);
    assert r[..2] == Mes(v.dataVenda) && r[3..] == Ano(v.dataVenda);
  }

  /** The comparator of both period sorts:
      `const [mesA, anoA] = a.split('/'); const [mesB, anoB] = b.split('/');`
      years (through `parseInt`) when their texts differ, months otherwise. */
  function CompararPeriodos(a: string, b: string): Option<int> {
    var pa, pb := Dividir(a, '/'), Dividir(b, '/');
    var mesA, anoA := Campo(pa, 0), Campo(pa, 1);
    var mesB, anoB := Campo(pb, 0), Campo(pb, 1);
    if anoA != anoB then Diferenca(ParseInt(Interpolar(anoA)), ParseInt(Interpolar(anoB)))
    else Diferenca(ParseInt(Interpolar(mesA)), ParseInt(Interpolar(mesB)))
  }

  /** "`a` may stay in front of `b`" for the period comparator. */
  predicate PeriodoAntes(a: string, b: string) {
    NaoPositivo(CompararPeriodos(a, b))
  }

  lemma PartesRotulo(s: string)
    requires RotuloValido(s)
    ensures Dividir(s, '/') == [s[..2], s[3..]]
    ensures ParseInt(s[..2]) == Some(ValorDecimal(s[..2]))
    ensures ParseInt(s[3..]) == Some(ValorDecimal(s[3..]))
  {
    DigitosSemSeparador(s[..2], '/');
    DigitosSemSeparador(s[3..], '/');
    assert s == s[..2] + ['/'] + s[3..];
    DividirPar(s[..2], '/', s[3..]);
    ParseIntDigitos(s[..2]);
    ParseIntDigitos(s[3..]);
  }

  /** On well-formed labels the comparator never yields NaN and orders by
      year, then month. */
  lemma CompararRotulos(a: string, b: string)
    requires RotuloValido(a) && RotuloValido(b)
    ensures CompararPeriodos(a, b).Some?
    ensures PeriodoAntes(a, b) <==> ValorRotulo(a) <= ValorRotulo(b)
  {
    PartesRotulo(a);
    PartesRotulo(b);
    var ya, ma, yb, mb := ValorDecimal(a[3..]), ValorDecimal(a[..2]), ValorDecimal(b[3..]), ValorDecimal(b[..2]);
    MesAbaixoDeCem(a[..2]);
    MesAbaixoDeCem(b[..2]);
    Lexicografico(ya, ma, yb, mb);
    if a[3..] != b[3..] {
      ValorDecimalDifere(a[3..], b[3..]);
    }
  }

  /** Different well-formed labels stand for different months. */
  lemma RotuloInjetivo(a: string, b: string)
    requires RotuloValido(a) && RotuloValido(b) && ValorRotulo(a) == ValorRotulo(b)
    ensures a == b
  {
    MesAbaixoDeCem(a[..2]);
    MesAbaixoDeCem(b[..2]);
    Lexicografico(ValorDecimal(a[3..]), ValorDecimal(a[..2]), ValorDecimal(b[3..]), ValorDecimal(b[..2]));
    ValorDecimalInjetivo(a[3..], b[3..]);
    ValorDecimalInjetivo(a[..2], b[..2]);
    assert a == a[..2] + "/" + a[3..] && b == b[..2] + "/" + b[3..];
  }

  /** Labels are equal exactly when the months are. */
  lemma RotuloMesIgual(v: Venda, w: Venda)
    ensures RotuloMes(v) == RotuloMes(w) <==> Periodo(v) == Periodo(w)
  {
    RotuloMesValido(v);
    RotuloMesValido(w);
    if Periodo(v) == Periodo(w) {
      RotuloInjetivo(RotuloMes(v), RotuloMes(w));
    }
  }

  /** On well-formed labels the comparator is a consistent order. */
  lemma PeriodoAntesPreordem(dom: set<string>)
    requires forall s :: s in dom ==> RotuloValido(s)
    ensures PreordemTotal(dom, PeriodoAntes)
  {
    forall a, b | a in dom && b in dom
      ensures PeriodoAntes(a, b) <==> ValorRotulo(a) <= ValorRotulo(b)
    {
      CompararRotulos(a, b);
    }
  }
}
