/** The JavaScript string built-ins the dashboard relies on: `split` with a
    one-character separator, `join`, reading an array slot that may be
    `undefined`, template-literal interpolation, `parseInt`, number-to-string
    conversion, and the code-unit order that `Array.prototype.sort()` uses
    when no comparator is given. */
module Texto {
  import opened Opcao

  // ---------------------------------------------------------------------------
  // split and join
  // ---------------------------------------------------------------------------

  /** Number of occurrences of `c` in `s`. */
  function Ocorrencias(s: string, c: char): nat {
    if s == [] then 0 else (if s[0] == c then 1 else 0) + Ocorrencias(s[1..], c)
  }

  /** `s.split(sep)`: the pieces between occurrences of `sep`; the empty
      string splits into one empty piece. */
  function Dividir(s: string, sep: char): (r: seq<string>)
    ensures |r| == Ocorrencias(s, sep) + 1
    ensures forall i :: 0 <= i < |r| ==> sep !in r[i]
  {
    if s == [] then [""]
    else
      var resto := Dividir(s[1..], sep);
      if s[0] == sep then [""] + resto
      else [[s[0]] + resto[0]] + resto[1..]
  }

  /** `xs.join(sep)`. */
  function Juntar(xs: seq<string>, sep: string): string {
    if xs == [] then ""
    else if |xs| == 1 then xs[0]
    else xs[0] + sep + Juntar(xs[1..], sep)
  }

  /** Joining the pieces of a split with the same separator gives the text back. */
  lemma {:induction false} JuntarDividir(s: string, sep: char)
    ensures Juntar(Dividir(s, sep), [sep]) == s
  {
    if s != [] {
      var resto := Dividir(s[1..], sep);
      JuntarDividir(s[1..], sep);
      if s[0] != sep && |resto| > 1 {
        assert Dividir(s, sep)[1..] == resto[1..];
      }
    }
  }

  /** A text without the separator is a single piece. */
  lemma {:induction false} DividirSemSeparador(a: string, sep: char)
    requires sep !in a
    ensures Dividir(a, sep) == [a]
  {
    if a != [] {
      DividirSemSeparador(a[1..], sep);
      assert [a[0]] + a[1..] == a;
    }
  }

  /** A separator after a separator-free text `a` ends the first piece. */
  lemma {:induction false} DividirConcat(a: string, sep: char, b: string)
    requires sep !in a
    ensures Dividir(a + [sep] + b, sep) == [a] + Dividir(b, sep)
  {
    var s := a + [sep] + b;
    if a == [] {
      assert s[1..] == b;
    } else {
      assert s[1..] == a[1..] + [sep] + b;
      DividirConcat(a[1..], sep, b);
      assert [a[0]] + a[1..] == a;
    }
  }

  /** Splitting a join recovers the pieces, as long as no piece holds the
      separator. */
  lemma {:induction false} DividirJuntar(xs: seq<string>, sep: char)
    requires |xs| >= 1
    requires forall i :: 0 <= i < |xs| ==> sep !in xs[i]
    ensures Dividir(Juntar(xs, [sep]), sep) == xs
  {
    if |xs| == 1 {
      DividirSemSeparador(xs[0], sep);
    } else {
      DividirJuntar(xs[1..], sep);
      DividirConcat(xs[0], sep, Juntar(xs[1..], [sep]));
    }
  }

  /** The pieces of a text made of two separator-free parts joined by `sep`. */
  lemma DividirPar(a: string, sep: char, b: string)
    requires sep !in a && sep !in b
    ensures Dividir(a + [sep] + b, sep) == [a, b]
  {
    DividirConcat(a, sep, b);
    DividirSemSeparador(b, sep);
  }

  /** `xs[i]` on a JavaScript array: `undefined` (None) past the end. */
  function Campo(xs: seq<string>, i: nat): (r: Option<string>)
    ensures r.Some? <==> i < |xs|
  {
    if i < |xs| then Some(xs[i]) else None
  }

  /** A template literal `${x}`: `undefined` is rendered as its name. */
  function Interpolar(x: Option<string>): string {
    if x.Some? then x.value else "undefined"
  }

  // ---------------------------------------------------------------------------
  // Digits and parseInt
  // ---------------------------------------------------------------------------

  predicate EhDigito(c: char) {
    '0' <= c <= '9'
  }

  predicate SoDigitos(s: string) {
    forall i :: 0 <= i < |s| ==> EhDigito(s[i])
  }

  function ValorDigito(c: char): nat
    requires EhDigito(c)
  {
    (c as int) - ('0' as int)
  }

  function Pot10(n: nat): (r: nat)
    ensures r >= 1
  {
    if n == 0 then 1 else 10 * Pot10(n - 1)
  }

  /** Decimal value of a string of digits, most significant digit first. */
  function ValorDecimal(s: string): (r: nat)
    requires SoDigitos(s)
    ensures r < Pot10(|s|)
  {
    if s == [] then 0
    else
      var d, resto := ValorDigito(s[0]), ValorDecimal(s[1..]);
      DigitoDomina(d, 10, resto, 0, Pot10(|s| - 1));
      d * Pot10(|s| - 1) + resto
  }

  /** The longest prefix of `s` made of digits. */
  function PrefixoDigitos(s: string): (p: string)
    ensures p <= s && SoDigitos(p)
    ensures |p| < |s| ==> !EhDigito(s[|p|])
  {
    if s != [] && EhDigito(s[0]) then [s[0]] + PrefixoDigitos(s[1..]) else []
  }

  /** `parseInt(s)` on a text that does not start with a blank or a sign:
      the value of the leading digits, NaN (None) when there are none. */
  function ParseInt(s: string): (r: Option<int>)
    ensures r.Some? <==> |s| > 0 && EhDigito(s[0])
  {
    var p := PrefixoDigitos(s);
    if p == [] then None else Some(ValorDecimal(p))
  }

  /** A text of digits holds no separator that is not a digit. */
  lemma DigitosSemSeparador(s: string, c: char)
    requires SoDigitos(s) && !EhDigito(c)
    ensures c !in s
  {
  }

  /** `x - y` on numbers that may be NaN. */
  function Diferenca(x: Option<int>, y: Option<int>): (r: Option<int>)
    ensures r.Some? <==> x.Some? && y.Some?
    ensures r.Some? ==> r.value + y.value == x.value
  {
    if x.Some? && y.Some? then Some(x.value - y.value) else None
  }

  lemma {:induction false} PrefixoDigitosTodo(s: string)
    requires SoDigitos(s)
    ensures PrefixoDigitos(s) == s
  {
    if s != [] {
      PrefixoDigitosTodo(s[1..]);
      assert [s[0]] + s[1..] == s;
    }
  }

  lemma {:induction false} PrefixoDigitosAte(p: string, c: char, resto: string)
    requires SoDigitos(p) && !EhDigito(c)
    ensures PrefixoDigitos(p + [c] + resto) == p
  {
    var s := p + [c] + resto;
    if p == [] {
      assert s[0] == c;
    } else {
      assert s[1..] == p[1..] + [c] + resto;
      PrefixoDigitosAte(p[1..], c, resto);
      assert [p[0]] + p[1..] == p;
    }
  }

  /** parseInt reads the whole of a text made of digits only. */
  lemma ParseIntDigitos(s: string)
    requires |s| > 0 && SoDigitos(s)
    ensures ParseInt(s) == Some(ValorDecimal(s))
  {
    PrefixoDigitosTodo(s);
  }

  /** parseInt stops at the first non-digit: `parseInt("60+")` is 60. */
  lemma ParseIntPrefixo(p: string, c: char, resto: string)
    requires |p| > 0 && SoDigitos(p) && !EhDigito(c)
    ensures ParseInt(p + [c] + resto) == Some(ValorDecimal(p))
  {
    PrefixoDigitosAte(p, c, resto);
  }

  // ---------------------------------------------------------------------------
  // The default sort order on strings
  // ---------------------------------------------------------------------------

  /** `a <= b` in the order `Array.prototype.sort()` uses without a
      comparator: the first differing character decides, and a proper
      prefix comes first. */
  predicate OrdemTexto(a: string, b: string) {
    if a == [] then true
    else if b == [] then false
    else if a[0] != b[0] then a[0] < b[0]
    else OrdemTexto(a[1..], b[1..])
  }

  lemma {:induction false} OrdemTextoTotal(a: string, b: string)
    ensures OrdemTexto(a, b) || OrdemTexto(b, a)
  {
    if a != [] && b != [] && a[0] == b[0] {
      OrdemTextoTotal(a[1..], b[1..]);
    }
  }

  lemma {:induction false} OrdemTextoAntissimetrica(a: string, b: string)
    requires OrdemTexto(a, b) && OrdemTexto(b, a)
    ensures a == b
  {
    if a != [] && b != [] {
      OrdemTextoAntissimetrica(a[1..], b[1..]);
      assert a == [a[0]] + a[1..] && b == [b[0]] + b[1..];
    }
  }

  lemma {:induction false} OrdemTextoTransitiva(a: string, b: string, c: string)
    requires OrdemTexto(a, b) && OrdemTexto(b, c)
    ensures OrdemTexto(a, c)
  {
    if a != [] && b != [] && c != [] && a[0] == b[0] && b[0] == c[0] {
      OrdemTextoTransitiva(a[1..], b[1..], c[1..]);
    }
  }

  /** Behind a common-length head, the heads decide, and on equal heads the
      tails do. */
  lemma {:induction false} OrdemTextoConcat(a: string, b: string, c: string, d: string)
    requires |a| == |c|
    ensures OrdemTexto(a + b, c + d) == if a == c then OrdemTexto(b, d) else OrdemTexto(a, c)
  {
    if a == [] {
      assert a + b == b && c + d == d;
    } else {
      assert (a + b)[0] == a[0] && (c + d)[0] == c[0];
      assert (a + b)[1..] == a[1..] + b && (c + d)[1..] == c[1..] + d;
      OrdemTextoConcat(a[1..], b, c[1..], d);
      if a[0] == c[0] {
        assert a == c <==> a[1..] == c[1..] by {
          assert a == [a[0]] + a[1..] && c == [c[0]] + c[1..];
        }
      }
    }
  }

  /** A smaller leading digit outweighs whatever follows it. */
  lemma DigitoDomina(da: nat, db: nat, ra: nat, rb: nat, p: nat)
    requires da < db && ra < p
    ensures da * p + ra < db * p + rb
  {
    var k: nat := db - (da + 1);
    assert db * p == (da + 1 + k) * p == da * p + p + k * p;
    assert k * p >= 0;
  }

  /** On digit strings of equal length the default string order is the
      numeric order: this is why sorting `YYYY-MM` keys as text sorts them
      chronologically. */
  lemma {:induction false} OrdemTextoDigitos(a: string, b: string)
    requires SoDigitos(a) && SoDigitos(b) && |a| == |b|
    ensures OrdemTexto(a, b) <==> ValorDecimal(a) <= ValorDecimal(b)
  {
    if a != [] {
      var n := |a| - 1;
      var da, db := ValorDigito(a[0]), ValorDigito(b[0]);
      var ra, rb := ValorDecimal(a[1..]), ValorDecimal(b[1..]);
      assert ValorDecimal(a) == da * Pot10(n) + ra;
      assert ValorDecimal(b) == db * Pot10(n) + rb;
      if a[0] == b[0] {
        OrdemTextoDigitos(a[1..], b[1..]);
      } else if a[0] < b[0] {
        DigitoDomina(da, db, ra, rb, Pot10(n));
      } else {
        DigitoDomina(db, da, rb, ra, Pot10(n));
      }
    }
  }

  /** Digit strings of equal length with the same value are the same text. */
  lemma ValorDecimalInjetivo(a: string, b: string)
    requires SoDigitos(a) && SoDigitos(b) && |a| == |b|
    requires ValorDecimal(a) == ValorDecimal(b)
    ensures a == b
  {
    OrdemTextoDigitos(a, b);
    OrdemTextoDigitos(b, a);
    OrdemTextoAntissimetrica(a, b);
  }

  /** Digit strings of equal length and different text have different values. */
  lemma ValorDecimalDifere(a: string, b: string)
    requires SoDigitos(a) && SoDigitos(b) && |a| == |b| && a != b
    ensures ValorDecimal(a) != ValorDecimal(b)
  {
    if ValorDecimal(a) == ValorDecimal(b) {
      ValorDecimalInjetivo(a, b);
    }
  }

  // ---------------------------------------------------------------------------
  // Numbers to text
  // ---------------------------------------------------------------------------

  function Digito(d: nat): (c: char)
    requires d < 10
    ensures EhDigito(c) && ValorDigito(c) == d
  {
    (('0' as int) + d) as char
  }

  /** `String(n)` for a natural number: its decimal digits. */
  function NatParaTexto(n: nat): (r: string)
    ensures |r| > 0 && SoDigitos(r)
  {
    if n < 10 then [Digito(n)] else NatParaTexto(n / 10) + [Digito(n % 10)]
  }

  lemma Distribui(d: int, q: int, r: int, c: int)
    ensures d * (10 * q) + (r * 10 + c) == (d * q + r) * 10 + c
  {
  }

  /** Appending a digit multiplies the value by ten and adds the digit. */
  lemma {:induction false} ValorDecimalAnexar(p: string, c: char)
    requires SoDigitos(p) && EhDigito(c)
    ensures SoDigitos(p + [c]) && ValorDecimal(p + [c]) == ValorDecimal(p) * 10 + ValorDigito(c)
  {
    var s := p + [c];
    if p != [] {
      assert s[0] == p[0] && |s| - 1 == |p|;
      assert s[1..] == p[1..] + [c];
      ValorDecimalAnexar(p[1..], c);
      var d, q, r := ValorDigito(p[0]), Pot10(|p| - 1), ValorDecimal(p[1..]);
      assert ValorDecimal(s) == d * (10 * q) + (r * 10 + ValorDigito(c));
      assert ValorDecimal(p) == d * q + r;
      Distribui(d, q, r, ValorDigito(c));
    }
  }

  /** Reading back the digits `String(n)` writes gives `n`. */
  lemma {:induction false} NatParaTextoValor(n: nat)
    ensures ValorDecimal(NatParaTexto(n)) == n
  {
    if n >= 10 {
      NatParaTextoValor(n / 10);
      ValorDecimalAnexar(NatParaTexto(n / 10), Digito(n % 10));
    }
  }

  /** `String(i)` for an integer. */
  function IntParaTexto(i: int): (r: string)
    ensures SoNumerico(r)
  {
    if i < 0 then "-" + NatParaTexto(-i) else NatParaTexto(i)
  }

  /** Characters that `String` writes for a finite number below 1e21. */
  predicate SoNumerico(s: string) {
    forall i :: 0 <= i < |s| ==> EhDigito(s[i]) || s[i] == '-' || s[i] == '.'
  }

  /** `String(x)` for an amount `x` held as a whole number of cents: the
      shortest decimal form, with no trailing zeros after the point. */
  function CentavosParaTexto(centavos: int): (r: string)
    ensures SoNumerico(r)
  {
    var sinal := if centavos < 0 then "-" else "";
    var n := if centavos < 0 then -centavos else centavos;
    var inteiro, fracao := n / 100, n % 100;
    var decimais := if fracao == 0 then "" else "." + Centimos(fracao);
    sinal + NatParaTexto(inteiro) + decimais
  }

  /** The digits after the point for a non-zero number of cents: two, or one
      when the second would be a trailing zero. */
  function Centimos(fracao: nat): string
    requires 0 < fracao < 100
  {
    if fracao % 10 == 0 then [Digito(fracao / 10)]
    else [Digito(fracao / 10), Digito(fracao % 10)]
  }

  /** The digits after the point are one or two, end in a non-zero digit and
      are worth the cents. */
  lemma CentimosValor(fracao: nat)
    requires 0 < fracao < 100
    ensures var f := Centimos(fracao);
      && 1 <= |f| <= 2 && SoDigitos(f) && f[|f| - 1] != '0'
      && ValorDecimal(f) * Pot10(2 - |f|) == fracao
  {
    var f := Centimos(fracao);
    if fracao % 10 == 0 {
      assert ValorDecimal(f) == fracao / 10;
    } else {
      assert ValorDecimal(f[1..]) == fracao % 10;
      assert ValorDecimal(f) == fracao / 10 * 10 + fracao % 10;
    }
  }

  /** The text `String` writes for an integer reads back as that integer:
      directly when it is not negative, after the `-` otherwise. */
  lemma IntParaTextoValor(n: int)
    ensures n >= 0 ==> ParseInt(IntParaTexto(n)) == Some(n)
    ensures n < 0 ==> IntParaTexto(n)[0] == '-' && ParseInt(IntParaTexto(n)[1..]) == Some(-n)
  {
    var m := if n < 0 then -n else n;
    NatParaTextoValor(m);
    ParseIntDigitos(NatParaTexto(m));
    if n < 0 {
      assert IntParaTexto(n)[1..] == NatParaTexto(m);
    }
  }

  /** The text of an amount in cents gives the amount back. A negative
      amount is `-` before the text of its magnitude. For one that is not
      negative, the whole units are the leading digits, which `parseInt`
      reads. The text stops there when there are no cents. Otherwise a `.`
      follows, then one or two digits without a trailing zero, worth the
      cents. */
  lemma CentavosParaTextoValor(c: int)
    ensures c < 0 ==> CentavosParaTexto(c) == "-" + CentavosParaTexto(-c)
    ensures c >= 0 ==>
      var t, k := CentavosParaTexto(c), |NatParaTexto(c / 100)|;
      && ParseInt(t) == Some(c / 100)
      && (c % 100 == 0 <==> |t| == k)
      && (c % 100 != 0 ==>
            k + 1 < |t| <= k + 3 && t[k] == '.' && SoDigitos(t[k + 1..]) && t[|t| - 1] != '0' &&
            ValorDecimal(t[k + 1..]) * Pot10(k + 3 - |t|) == c % 100)
  {
    if c < 0 {
      CentavosForma(c);
      CentavosForma(-c);
    } else if c % 100 == 0 {
      CentavosInteiros(c);
    } else {
      CentavosComFracao(c);
    }
  }

  /** A whole amount is written as its units alone. */
  lemma CentavosInteiros(c: nat)
    requires c % 100 == 0
    ensures CentavosParaTexto(c) == NatParaTexto(c / 100)
    ensures ParseInt(CentavosParaTexto(c)) == Some(c / 100)
  {
    CentavosForma(c);
    NatParaTextoValor(c / 100);
    ParseIntDigitos(NatParaTexto(c / 100));
  }

  /** An amount with cents is written as its units, a point and the cents. */
  lemma CentavosComFracao(c: nat)
    requires c % 100 != 0
    ensures var t, k := CentavosParaTexto(c), |NatParaTexto(c / 100)|;
      && ParseInt(t) == Some(c / 100)
      && k + 1 < |t| <= k + 3 && t[k] == '.' && SoDigitos(t[k + 1..]) && t[|t| - 1] != '0'
      && ValorDecimal(t[k + 1..]) * Pot10(k + 3 - |t|) == c % 100
  {
    var t, p, f := CentavosParaTexto(c), NatParaTexto(c / 100), Centimos(c % 100);
    assert t == p + ['.'] + f by { CentavosForma(c); }
    assert t[|p| + 1..] == f;
    assert t[|p|] == '.';
    CentimosValor(c % 100);
    assert ParseInt(t) == Some(c / 100) by {
      NatParaTextoValor(c / 100);
      ParseIntPrefixo(p, '.', f);
    }
  }

  /** The pieces of the text of an amount: the sign, the whole units and,
      when there are cents, the point and their digits. */
  lemma CentavosForma(c: int)
    ensures var n := if c < 0 then -c else c;
      CentavosParaTexto(c) == (if c < 0 then "-" else "") + NatParaTexto(n / 100) +
        (if n % 100 == 0 then "" else "." + Centimos(n % 100))
  {
  }
}
