/** The CUB (construction unit cost) lookup of app/services/cub.py: the tier
    is normalised, the monthly series is sorted by its "YYYY-MM" month, and
    the most recent month not after the requested one is used. */
module Cub {
  import opened Base
  import opened Texto
  import opened Numero
  import opened Ordenacao

  /** One month of the series: its `competencia` ("YYYY-MM", when present)
      and the value of each tier. */
  datatype RegistroCub = RegistroCub(competencia: Option<string>, valores: map<string, real>)

  /** The document `cub_cuiaba.json`. */
  datatype BaseCub = BaseCub(cidade: Option<string>, fonte: Option<string>, series: seq<RegistroCub>)

  /** The dictionary `obter_cub_cuiaba` returns. */
  datatype ResultadoCub = ResultadoCub(valor: real, padrao: string, competencia: string, competenciaBr: string,
                                       cidade: string, fonte: string, metodo: string)

  /** `str(padrao or "").strip().lower()`. */
  function TextoPadrao(padrao: Option<string>): string
  {
    Lower(Strip(padrao.GetOr("")))
  }

  /** `_normalizar_padrao`. */
  function NormalizarPadrao(padrao: Option<string>): (r: string)
    ensures r == "alto" || r == "medio" || r == "economico"
  {
    var txt := TextoPadrao(padrao);
    if txt in {"alto", "alto padrao", "premium"} then "alto"
    else if txt in {"medio", "intermediario"} then "medio"
    else "economico"
  }

  /** Which spellings give which tier; anything else is "economico". */
  lemma NormalizarPadraoClasses(padrao: Option<string>)
    ensures NormalizarPadrao(padrao) == "alto" <==> TextoPadrao(padrao) in {"alto", "alto padrao", "premium"}
    ensures NormalizarPadrao(padrao) == "medio" <==> TextoPadrao(padrao) in {"medio", "intermediario"}
    ensures NormalizarPadrao(padrao) == "economico" <==>
      TextoPadrao(padrao) !in {"alto", "alto padrao", "premium", "medio", "intermediario"}
  {
  }

  /** Normalising a normalised tier changes nothing. */
  lemma NormalizarPadraoIdempotente(padrao: Option<string>)
    ensures NormalizarPadrao(Some(NormalizarPadrao(padrao))) == NormalizarPadrao(padrao)
  {
    var r := NormalizarPadrao(padrao);
    TextoMinusculo(r);
  }

  lemma TextoMinusculo(r: string)
    requires r == "alto" || r == "medio" || r == "economico"
    ensures TextoPadrao(Some(r)) == r
  {
    StripNoBlank(r);
    LowerFixo(r);
  }

  /** The month before `mes` of `ano`. */
  function MesAnterior(ano: int, mes: int): (r: (int, int))
    requires 1 <= mes <= 12
    ensures 1 <= r.1 <= 12 && r.0 * 12 + r.1 == ano * 12 + mes - 1
  {
    if mes - 1 == 0 then (ano - 1, 12) else (ano, mes - 1)
  }

  /** `_competencia_referencia`, with today's year and month as inputs
      (the year of a date is between 1 and 9999). */
  function CompetenciaReferencia(ano: int, mes: int): string
    requires 1 <= ano <= 9999 && 1 <= mes <= 12
  {
    var (a, m) := MesAnterior(ano, mes);
    PadZeros(a, 4) + "-" + PadZeros(m, 2)
  }

  /** `_formatar_competencia_br`: "YYYY-MM" becomes "MM/YYYY" by splitting
      at the first "-"; any text that is not 7 characters long or has no
      "-" is returned unchanged. */
  function FormatarCompetenciaBr(texto: string): (r: string)
    ensures |texto| != 7 || '-' !in texto ==> r == texto
    ensures |texto| == 7 && '-' in texto ==> |r| == 7 && '/' in r
    ensures |texto| == 7 && texto[4] == '-' && '-' !in texto[..4] ==> r == texto[5..] + "/" + texto[..4]
  {
    if |texto| != 7 || '-' !in texto then texto
    else
      var k := IndexOf(texto, '-');
      assert texto[4] == '-' && '-' !in texto[..4] ==> k == 4 by {
        if texto[4] == '-' && '-' !in texto[..4] {
          IndexOfAt(texto, '-', 4);
        }
      }
      assert (texto[k + 1..] + "/" + texto[..k])[|texto| - k - 1] == '/';
      texto[k + 1..] + "/" + texto[..k]
  }

  /** The reference month is "YYYY-MM" for the previous month, zero-padded,
      and its Brazilian rendering is "MM/YYYY" of the same month. */
  lemma CompetenciaReferenciaFormato(ano: int, mes: int)
    requires 1 <= ano <= 9999 && 1 <= mes <= 12
    ensures var (a, m) := MesAnterior(ano, mes);
      var r := CompetenciaReferencia(ano, mes);
      |r| == 7 && r[4] == '-'
      && AllDigits(r[..4]) && DigitsValue(r[..4]) == a
      && AllDigits(r[5..]) && DigitsValue(r[5..]) == m
      && a * 12 + m == ano * 12 + mes - 1
      && FormatarCompetenciaBr(r) == r[5..] + "/" + r[..4]
  {
    var (a, m) := MesAnterior(ano, mes);
    var ya, ym := PadZeros(a, 4), PadZeros(m, 2);
    PadZerosWidth(a, 4);
    PadZerosWidth(m, 2);
    var r := ya + "-" + ym;
    assert r[..4] == ya && r[5..] == ym && r[4] == '-';
    assert !IsDigit('-');
    NonDigitAbsent(ya, '-');
    assert r[..4] == ya;
    IndexOfAt(r, '-', 4);
  }

  /** The two branches of the reference month. */
  lemma MesAnteriorCasos(ano: int, mes: int)
    requires 1 <= mes <= 12
    ensures mes == 1 ==> MesAnterior(ano, mes) == (ano - 1, 12)
    ensures mes > 1 ==> MesAnterior(ano, mes) == (ano, mes - 1)
  {
  }

  /** `x.get("competencia", "")`. */
  function CompetenciaDe(x: RegistroCub): string
  {
    x.competencia.GetOr("")
  }

  /** The series months up to `comp`, in series order. */
  function AteCompetencia(serie: seq<RegistroCub>, comp: string): seq<RegistroCub>
  {
    if |serie| == 0 then []
    else
      var x := serie[|serie| - 1];
      AteCompetencia(serie[..|serie| - 1], comp) + (if LexLe(CompetenciaDe(x), comp) then [x] else [])
  }

  lemma {:induction false} AteCompetenciaMembros(serie: seq<RegistroCub>, comp: string)
    ensures forall x :: x in AteCompetencia(serie, comp) <==> x in serie && LexLe(CompetenciaDe(x), comp)
  {
    if |serie| > 0 {
      var p := serie[..|serie| - 1];
      AteCompetenciaMembros(p, comp);
      assert serie == p + [serie[|serie| - 1]];
    }
  }

  /** Keeping the months up to `comp` keeps a sorted series sorted. */
  lemma {:induction false} AteCompetenciaOrdenada(serie: seq<RegistroCub>, comp: string)
    requires Ordenada(serie, CompetenciaDe, MenorTexto)
    ensures Ordenada(AteCompetencia(serie, comp), CompetenciaDe, MenorTexto)
  {
    if |serie| > 0 {
      var p, x := serie[..|serie| - 1], serie[|serie| - 1];
      assert Ordenada(p, CompetenciaDe, MenorTexto);
      AteCompetenciaOrdenada(p, comp);
      AteCompetenciaMembros(p, comp);
      var a := AteCompetencia(p, comp);
      if LexLe(CompetenciaDe(x), comp) {
        var r := a + [x];
        forall i | 0 <= i < |a| ensures !MenorTexto(CompetenciaDe(x), CompetenciaDe(a[i])) {
          assert a[i] in p;
          var m :| 0 <= m < |p| && p[m] == a[i];
          assert serie[m] == a[i];
        }
        forall i, j | 0 <= i < j < |r| ensures !MenorTexto(CompetenciaDe(r[j]), CompetenciaDe(r[i])) {
          assert r[i] == a[i];
          if j < |a| {
            assert r[j] == a[j];
          }
        }
      }
    }
  }

  /** The month `obter_cub_cuiaba` picks from the sorted series: the last
      one not after `comp`, or the last one overall when there is none. */
  function Escolhido(serie: seq<RegistroCub>, comp: string): RegistroCub
    requires |serie| > 0
  {
    var candidatos := AteCompetencia(serie, comp);
    if |candidatos| > 0 then candidatos[|candidatos| - 1] else serie[|serie| - 1]
  }

  /** In a sorted sequence the last element is the greatest. */
  lemma UltimoMaior(s: seq<RegistroCub>, y: RegistroCub)
    requires Ordenada(s, CompetenciaDe, MenorTexto) && y in s
    ensures LexLe(CompetenciaDe(y), CompetenciaDe(s[|s| - 1]))
  {
    var i :| 0 <= i < |s| && s[i] == y;
    if i == |s| - 1 {
      LexLeTotal(CompetenciaDe(y), CompetenciaDe(y));
    }
  }

  /** Over the series sorted by month, the chosen month is the greatest one
      not after `comp`; when every month is after `comp`, it is the greatest
      month of all. */
  lemma EscolhidoMaisRecente(serie: seq<RegistroCub>, comp: string)
    requires |serie| > 0
    ensures var s := Ordenar(serie, CompetenciaDe, MenorTexto);
      var r := Escolhido(s, comp);
      r in serie
      && ((exists y :: y in serie && LexLe(CompetenciaDe(y), comp)) ==>
            LexLe(CompetenciaDe(r), comp)
            && forall y :: y in serie && LexLe(CompetenciaDe(y), comp) ==> LexLe(CompetenciaDe(y), CompetenciaDe(r)))
      && ((forall y :: y in serie ==> !LexLe(CompetenciaDe(y), comp)) ==>
            forall y :: y in serie ==> LexLe(CompetenciaDe(y), CompetenciaDe(r)))
  {
    var s := Ordenar(serie, CompetenciaDe, MenorTexto);
    MenorTextoOrdemFraca();
    OrdenarOrdena(serie, CompetenciaDe, MenorTexto);
    OrdenarPermuta(serie, CompetenciaDe, MenorTexto);
    assert forall y :: y in serie <==> y in s by {
      forall y ensures y in serie <==> y in s {
        assert y in serie <==> y in multiset(serie);
        assert y in s <==> y in multiset(s);
      }
    }
    var c := AteCompetencia(s, comp);
    AteCompetenciaMembros(s, comp);
    AteCompetenciaOrdenada(s, comp);
    if |c| > 0 {
      assert c[|c| - 1] in c;
      forall y | y in serie && LexLe(CompetenciaDe(y), comp) ensures LexLe(CompetenciaDe(y), CompetenciaDe(c[|c| - 1])) {
        UltimoMaior(c, y);
      }
    } else {
      forall y | y in serie ensures LexLe(CompetenciaDe(y), CompetenciaDe(s[|s| - 1])) {
        UltimoMaior(s, y);
      }
    }
  }

  /** `float(registro.get(alvo_padrao, 0) or 0)`. */
  function ValorDe(registro: RegistroCub, padrao: string): real
  {
    if padrao in registro.valores then registro.valores[padrao] else 0.0
  }

  /** `obter_cub_cuiaba`; `ano` and `mes` are today's date, used when no
      month is requested. */
  function ObterCubCuiaba(padrao: Option<string>, competencia: Option<string>, ano: int, mes: int, base: BaseCub): ResultadoCub
    requires 1 <= ano <= 9999 && 1 <= mes <= 12
  {
    var alvo := NormalizarPadrao(padrao);
    var comp := if competencia.Some? && |competencia.value| > 0 then competencia.value else CompetenciaReferencia(ano, mes);
    var serie := Ordenar(base.series, CompetenciaDe, MenorTexto);
    var cidade := base.cidade.GetOr("Cuiaba-MT");
    var fonte := base.fonte.GetOr("Base referencial Lokao");
    if |serie| == 0 then
      ResultadoCub(0.0, alvo, "", "", cidade, fonte, "sem_base")
    else
      var registro := Escolhido(serie, comp);
      ResultadoCub(ValorDe(registro, alvo), alvo, CompetenciaDe(registro),
                   FormatarCompetenciaBr(CompetenciaDe(registro)), cidade, fonte, "serie_mensal")
  }

  /** The result: no series gives value 0 and method "sem_base"; otherwise
      the value and month are those of a month of the series, the most
      recent one not after the requested month when there is one. */
  lemma ObterCubResultado(padrao: Option<string>, competencia: Option<string>, ano: int, mes: int, base: BaseCub)
    requires 1 <= ano <= 9999 && 1 <= mes <= 12
    ensures var r := ObterCubCuiaba(padrao, competencia, ano, mes, base);
      var comp := if competencia.Some? && |competencia.value| > 0 then competencia.value else CompetenciaReferencia(ano, mes);
      r.padrao == NormalizarPadrao(padrao)
      && (r.metodo == "sem_base" <==> |base.series| == 0)
      && (|base.series| == 0 ==> r.valor == 0.0 && r.competencia == "" && r.competenciaBr == "")
      && (|base.series| > 0 ==>
            r.metodo == "serie_mensal"
            && r.competenciaBr == FormatarCompetenciaBr(r.competencia)
            && (exists x :: x in base.series && r.competencia == CompetenciaDe(x) && r.valor == ValorDe(x, r.padrao))
            && ((exists y :: y in base.series && LexLe(CompetenciaDe(y), comp)) ==>
                  LexLe(r.competencia, comp)
                  && forall y :: y in base.series && LexLe(CompetenciaDe(y), comp) ==> LexLe(CompetenciaDe(y), r.competencia)))
  {
    if |base.series| > 0 {
      var comp := if competencia.Some? && |competencia.value| > 0 then competencia.value else CompetenciaReferencia(ano, mes);
      EscolhidoMaisRecente(base.series, comp);
      var x := Escolhido(Ordenar(base.series, CompetenciaDe, MenorTexto), comp);
      assert x in base.series;
    }
  }
}
