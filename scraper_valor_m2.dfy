/** The market m² value of app/services/scraper_valor_m2.py: the amounts
    read from a listing page's text, the median of the plausible ones, and
    the cascade from scraped value to spreadsheet value to a regional
    estimate. */
module ScraperValorM2 {
  import opened Base
  import opened Texto
  import opened Numero
  import opened Ordenacao

  // ---------------------------------------------------------------------
  // Reading amounts: re.findall(r"R\$\s?([\d\.]+)", texto)

  predicate DigitoOuPonto(c: char)
  {
    IsDigit(c) || c == '.'
  }

  /** The length of the run of digits and dots at the start of `s`. */
  function Corrida(s: string): (k: nat)
    requires |s| > 0 && DigitoOuPonto(s[0])
    ensures 1 <= k <= |s| && (k < |s| ==> !DigitoOuPonto(s[k]))
    ensures forall i :: 0 <= i < k ==> DigitoOuPonto(s[i])
    decreases |s|
  {
    if |s| == 1 || !DigitoOuPonto(s[1]) then 1
    else
      var k := 1 + Corrida(s[1..]);
      assert forall i :: 1 <= i < k ==> s[i] == s[1..][i - 1];
      k
  }

  /** Where the captured run starts in the text after "R$": one white-space
      character is skipped only when a digit or dot follows it. */
  function InicioCaptura(t: string): (j: nat)
    ensures j <= 1 && j <= |t|
  {
    if |t| > 1 && IsSpace(t[0]) && DigitoOuPonto(t[1]) then 1 else 0
  }

  /** The captured groups, left to right: after a match the search goes on
      where the run ends; where no match starts it moves one character on. */
  function Capturas(s: string): (r: seq<string>)
    ensures forall v :: v in r ==> |v| > 0 && SoDigitosOuPontos(v)
    decreases |s|
  {
    if |s| < 2 then []
    else if s[0] == 'R' && s[1] == '$' && |s[2..][InicioCaptura(s[2..])..]| > 0
            && DigitoOuPonto(s[2..][InicioCaptura(s[2..])..][0]) then
      var u := s[2..][InicioCaptura(s[2..])..];
      var k := Corrida(u);
      assert SoDigitosOuPontos(u[..k]) by {
        forall i | 0 <= i < k ensures DigitoOuPonto(u[..k][i]) {
          assert u[..k][i] == u[i];
        }
      }
      [u[..k]] + Capturas(u[k..])
    else Capturas(s[1..])
  }

  predicate SoDigitosOuPontos(v: string)
  {
    forall i :: 0 <= i < |v| ==> DigitoOuPonto(v[i])
  }

  /** "R$", an optional space and a run: that run is the first capture and
      the search continues after it. */
  lemma CapturaInicial(espaco: string, run: string, resto: string)
    requires |espaco| <= 1 && (|espaco| == 1 ==> IsSpace(espaco[0]))
    requires |run| > 0 && SoDigitosOuPontos(run) && (|resto| == 0 || !DigitoOuPonto(resto[0]))
    ensures Capturas(['R', '$'] + (espaco + (run + resto))) == [run] + Capturas(resto)
  {
    var u := run + resto;
    var t := espaco + u;
    assert InicioCaptura(t) == |espaco| && t[|espaco|..] == u by {
      if |espaco| == 1 {
        assert t[1] == u[0] == run[0];
      } else {
        assert t == u;
      }
    }
    CapturaEm(t);
    CorridaDe(run, resto);
    assert u[..|run|] == run && u[|run|..] == resto;
  }

  /** The first step of the search at an "R$". */
  lemma CapturaEm(t: string)
    requires var u := t[InicioCaptura(t)..]; |u| > 0 && DigitoOuPonto(u[0])
    ensures var u := t[InicioCaptura(t)..];
      Capturas(['R', '$'] + t) == [u[..Corrida(u)]] + Capturas(u[Corrida(u)..])
  {
    var s := ['R', '$'] + t;
    assert s[2..] == t;
  }

  lemma {:induction false} CorridaDe(run: string, resto: string)
    requires |run| > 0 && SoDigitosOuPontos(run) && (|resto| == 0 || !DigitoOuPonto(resto[0]))
    ensures Corrida(run + resto) == |run|
    decreases |run|
  {
    var s := run + resto;
    assert s[0] == run[0];
    if |run| > 1 {
      assert s[1..] == run[1..] + resto;
      assert s[1] == run[1];
      assert SoDigitosOuPontos(run[1..]) by {
        forall i | 0 <= i < |run[1..]| ensures DigitoOuPonto(run[1..][i]) {
          assert run[1..][i] == run[i + 1];
        }
      }
      CorridaDe(run[1..], resto);
    } else if |resto| > 0 {
      assert s[1] == resto[0];
    }
  }

  /** Text without "$" has no capture. */
  lemma {:induction false} CapturasSemCifrao(s: string)
    requires '$' !in s
    ensures Capturas(s) == []
    decreases |s|
  {
    if |s| >= 2 {
      assert s[1] in s;
      assert '$' !in s[1..];
      CapturasSemCifrao(s[1..]);
    }
  }

  // ---------------------------------------------------------------------
  // Converting captures: float(v.replace(".", "")), skipping a run of dots

  /** The amount a capture gives, or nothing when it is only dots (the
      `ValueError` the loop skips). */
  function Converter(v: string): (r: Option<real>)
    requires SoDigitosOuPontos(v)
    ensures r.Some? <==> exists i :: 0 <= i < |v| && IsDigit(v[i])
  {
    var d := DeleteChar(v, '.');
    SemPontosDigitos(v);
    if |d| == 0 then
      assert forall i :: 0 <= i < |v| ==> !IsDigit(v[i]) by {
        forall i | 0 <= i < |v| ensures !IsDigit(v[i]) {
          DeleteCharContents(v, '.', v[i]);
        }
      }
      None
    else
      assert exists i :: 0 <= i < |v| && IsDigit(v[i]) by {
        DeleteCharContents(v, '.', d[0]);
        var i :| 0 <= i < |v| && v[i] == d[0];
      }
      Some(DigitsValue(d) as real)
  }

  /** Removing the dots from a run of digits and dots leaves digits. */
  lemma {:induction false} SemPontosDigitos(v: string)
    requires SoDigitosOuPontos(v)
    ensures AllDigits(DeleteChar(v, '.'))
    decreases |v|
  {
    if |v| > 0 {
      assert SoDigitosOuPontos(v[1..]) by {
        forall i | 0 <= i < |v[1..]| ensures DigitoOuPonto(v[1..][i]) {
          assert v[1..][i] == v[i + 1];
        }
      }
      SemPontosDigitos(v[1..]);
    }
  }

  /** The amounts of the captures, in order, skipping the dot-only ones. */
  function Valores(capturas: seq<string>): seq<real>
    requires forall v :: v in capturas ==> SoDigitosOuPontos(v)
  {
    if |capturas| == 0 then []
    else
      var ultima := capturas[|capturas| - 1];
      var anteriores := Valores(capturas[..|capturas| - 1]);
      match Converter(ultima)
      case Some(x) => anteriores + [x]
      case None => anteriores
  }

  /** Every amount read is a whole non-negative number. */
  lemma {:induction false} ValoresInteiros(capturas: seq<string>)
    requires forall v :: v in capturas ==> SoDigitosOuPontos(v)
    ensures |Valores(capturas)| <= |capturas|
    ensures forall x :: x in Valores(capturas) ==> x >= 0.0 && x == x.Floor as real
  {
    if |capturas| > 0 {
      ValoresInteiros(capturas[..|capturas| - 1]);
    }
  }

  /** `extrair_valores`. */
  method ExtrairValores(texto: string) returns (valores: seq<real>)
    ensures valores == Valores(Capturas(texto))
  {
    var padrao := Capturas(texto);
    valores := [];
    for i := 0 to |padrao|
      invariant valores == Valores(padrao[..i])
    {
      assert padrao[..i + 1][..i] == padrao[..i];
      var v := padrao[i];
      var d := DeleteChar(v, '.');
      SemPontosDigitos(v);
      if |d| > 0 {
        valores := valores + [DigitsValue(d) as real];
      }
    }
    assert padrao[..|padrao|] == padrao;
  }

  /** Thousands dots are dropped and the decimals after "," are not read:
      "R$ 7.200,50" gives 7200. */
  lemma ExtrairMilhar(milhar: string, resto: string, centavos: string)
    requires |milhar| > 0 && AllDigits(milhar) && AllDigits(resto) && '$' !in centavos
    ensures Valores(Capturas(['R', '$'] + ([' '] + ((milhar + ['.'] + resto) + ([','] + centavos)))))
      == [DigitsValue(milhar + resto) as real]
  {
    var run := milhar + ['.'] + resto;
    CapturaMilhar(milhar, resto, centavos);
    SemPontosMilhar(milhar, resto);
    ValoresUm(run);
  }

  lemma CapturaMilhar(milhar: string, resto: string, centavos: string)
    requires |milhar| > 0 && AllDigits(milhar) && AllDigits(resto) && '$' !in centavos
    ensures Capturas(['R', '$'] + ([' '] + ((milhar + ['.'] + resto) + ([','] + centavos))))
      == [milhar + ['.'] + resto]
  {
    var run := milhar + ['.'] + resto;
    assert SoDigitosOuPontos(run) by {
      forall i | 0 <= i < |run| ensures DigitoOuPonto(run[i]) {
        if i < |milhar| { assert run[i] == milhar[i]; }
        else if i > |milhar| { assert run[i] == resto[i - |milhar| - 1]; }
      }
    }
    var fim := [','] + centavos;
    CapturaInicial([' '], run, fim);
    assert '$' !in fim;
    CapturasSemCifrao(fim);
  }

  lemma SemPontosMilhar(milhar: string, resto: string)
    requires AllDigits(milhar) && AllDigits(resto)
    ensures DeleteChar(milhar + ['.'] + resto, '.') == milhar + resto
  {
    DeleteCharConcat(milhar + ['.'], resto, '.');
    DeleteCharConcat(milhar, ['.'], '.');
    NonDigitAbsent(milhar, '.');
    NonDigitAbsent(resto, '.');
    DeleteCharAbsent(milhar, '.');
    DeleteCharAbsent(resto, '.');
    assert DeleteChar(['.'], '.') == [];
  }

  lemma ValoresUm(v: string)
    requires SoDigitosOuPontos(v) && AllDigits(DeleteChar(v, '.')) && |DeleteChar(v, '.')| > 0
    ensures Valores([v]) == [DigitsValue(DeleteChar(v, '.')) as real]
  {
    assert [v][..0] == [];
  }

  // ---------------------------------------------------------------------
  // The page value: plausible amounts and their median

  /** `[v for v in valores if 500 < v < 50000]`. */
  function Plausiveis(valores: seq<real>): (r: seq<real>)
    ensures |r| <= |valores|
    ensures forall x :: x in r <==> x in valores && 500.0 < x < 50000.0
  {
    if |valores| == 0 then []
    else (if 500.0 < valores[0] < 50000.0 then [valores[0]] else []) + Plausiveis(valores[1..])
  }

  function Identidade(x: real): real
  {
    x
  }

  predicate MenorReal(a: real, b: real)
  {
    a < b
  }

  lemma MenorRealOrdemFraca()
    ensures OrdemFraca(MenorReal)
  {
  }

  /** `statistics.median`: the middle of the sorted values, or the mean of
      the two middle ones for an even count. */
  function Mediana(valores: seq<real>): real
    requires |valores| > 0
  {
    Meio(Ordenar(valores, Identidade, MenorReal))
  }

  /** The middle of a sorted sequence, or the mean of its two middle
      elements for an even length. */
  function Meio(o: seq<real>): real
    requires |o| > 0
  {
    var n := |o|;
    if n % 2 == 1 then o[n / 2] else (o[n / 2 - 1] + o[n / 2]) / 2.0
  }

  /** The middle of ascending values is at least the first half of them and
      at most the second half. */
  lemma MeioDeOrdenados(o: seq<real>)
    requires |o| > 0 && forall i, j :: 0 <= i < j < |o| ==> o[i] <= o[j]
    ensures forall i :: 0 <= i <= (|o| - 1) / 2 ==> o[i] <= Meio(o)
    ensures forall i :: |o| / 2 <= i < |o| ==> Meio(o) <= o[i]
  {
    var n := |o|;
    if n % 2 == 0 {
      assert o[n / 2 - 1] <= o[n / 2];
    }
  }

  /** The median lies between the least and the greatest value. */
  lemma MedianaEntre(valores: seq<real>, baixo: real, alto: real)
    requires |valores| > 0
    requires forall x :: x in valores ==> baixo < x < alto
    ensures baixo < Mediana(valores) < alto
  {
    var o := Ordenar(valores, Identidade, MenorReal);
    OrdenarPermuta(valores, Identidade, MenorReal);
    forall i | 0 <= i < |o| ensures baixo < o[i] < alto {
      assert o[i] in multiset(o);
      assert o[i] in multiset(valores);
      assert o[i] in valores;
    }
  }

  /** The median of sorted values is at least the first half of them and at
      most the second half. */
  lemma MedianaMeio(valores: seq<real>)
    requires |valores| > 0
    ensures var o := Ordenar(valores, Identidade, MenorReal);
      (forall i :: 0 <= i <= (|o| - 1) / 2 ==> o[i] <= Mediana(valores))
      && (forall i :: |o| / 2 <= i < |o| ==> Mediana(valores) <= o[i])
  {
    var o := Ordenar(valores, Identidade, MenorReal);
    MenorRealOrdemFraca();
    OrdenarOrdena(valores, Identidade, MenorReal);
    forall i, j | 0 <= i < j < |o| ensures o[i] <= o[j] {
      assert !MenorReal(Identidade(o[j]), Identidade(o[i]));
    }
    MeioDeOrdenados(o);
  }

  /** What the page request produced: its status code and its text, or
      nothing when the request raised. */
  datatype Resposta = Resposta(status: int, texto: string)

  /** The value `buscar_valor_m2_viva_real` returns for a response: nothing
      for a failed request or a status other than 200, nothing with fewer
      than three plausible amounts, otherwise their median to two
      decimals. */
  function ValorDaPagina(resposta: Option<Resposta>): Option<real>
  {
    match resposta
    case None => None
    case Some(r) =>
      if r.status != 200 then None
      else
        var valores := Plausiveis(Valores(Capturas(r.texto)));
        if |valores| < 3 then None else Some(Round2(Mediana(valores)))
  }

  /** A page value exists exactly when the request succeeded and at least
      three plausible amounts were read; it then lies in [500, 50000]. */
  lemma ValorDaPaginaFaixa(resposta: Option<Resposta>)
    ensures ValorDaPagina(resposta).Some? <==>
      resposta.Some? && resposta.value.status == 200
      && |Plausiveis(Valores(Capturas(resposta.value.texto)))| >= 3
    ensures ValorDaPagina(resposta).Some? ==> 500.0 <= ValorDaPagina(resposta).value <= 50000.0
  {
    if resposta.Some? && resposta.value.status == 200 {
      var valores := Plausiveis(Valores(Capturas(resposta.value.texto)));
      if |valores| >= 3 {
        MedianaEntre(valores, 500.0, 50000.0);
        Round2Entre(Mediana(valores));
      }
    }
  }

  /** Rounding to cents keeps a value of (500, 50000) within [500, 50000]. */
  lemma Round2Entre(m: real)
    requires 500.0 < m < 50000.0
    ensures 500.0 <= Round2(m) <= 50000.0
  {
    var r := RoundHalfEven(m * 100.0);
    assert 50000.0 - 1.0 / 2.0 < r as real < 5000000.0 + 1.0 / 2.0;
    assert 50000 <= r <= 5000000;
  }

  // ---------------------------------------------------------------------
  // obter_valor_m2

  datatype ValorM2 = ValorM2(valor: real, fonte: string)

  /** The regional table; only its "Leste" entry is ever used. */
  const Fallback: map<string, real> :=
    map["Leste" := 5500.0, "Oeste" := 6000.0, "Norte" := 4500.0, "Sul" := 4000.0, "Central" := 6500.0]

  /** `obter_valor_m2`, given what the scraping returned: a scraped value
      other than 0, else a positive spreadsheet value, else the "Leste"
      estimate. */
  function ObterValorM2(valorScraping: Option<real>, valorPlanilha: Option<real>): ValorM2
  {
    if valorScraping.Some? && valorScraping.value != 0.0 then ValorM2(valorScraping.value, "Viva Real (scraping)")
    else if valorPlanilha.Some? && valorPlanilha.value > 0.0 then ValorM2(valorPlanilha.value, "Base interna Lokao")
    else ValorM2(if "Leste" in Fallback then Fallback["Leste"] else 5000.0, "Estimativa regional")
  }

  /** The three sources in order, and the estimate is always 5500. */
  lemma ObterValorM2Cascata(valorScraping: Option<real>, valorPlanilha: Option<real>)
    ensures var r := ObterValorM2(valorScraping, valorPlanilha);
      (r.fonte == "Viva Real (scraping)" <==> valorScraping.Some? && valorScraping.value != 0.0)
      && (r.fonte == "Viva Real (scraping)" ==> r.valor == valorScraping.value)
      && (r.fonte == "Base interna Lokao" <==>
            !(valorScraping.Some? && valorScraping.value != 0.0) && valorPlanilha.Some? && valorPlanilha.value > 0.0)
      && (r.fonte == "Base interna Lokao" ==> r.valor == valorPlanilha.value)
      && (r.fonte == "Estimativa regional" ==> r.valor == 5500.0)
      && (r.fonte == "Viva Real (scraping)" || r.fonte == "Base interna Lokao" || r.fonte == "Estimativa regional")
  {
  }

  /** With the value actually scraped from a page the result is always a
      positive amount. */
  lemma ObterValorM2Positivo(resposta: Option<Resposta>, valorPlanilha: Option<real>)
    ensures ObterValorM2(ValorDaPagina(resposta), valorPlanilha).valor > 0.0
  {
    ValorDaPaginaFaixa(resposta);
  }
}
