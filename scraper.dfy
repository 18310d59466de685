/** app/services/scraper.py: an estimate of the m2 value of a neighbourhood
    from a fixed table, by property type when the type is listed, otherwise
    the mean of the neighbourhood's values. */
module Scraper {
  import opened Base
  import opened Numero

  /** The values of one neighbourhood by property type, in table order. */
  type Tabela = seq<(string, int)>

  /** `valores_base`. */
  const ValoresBase: map<string, Tabela> :=
    map["Alphaville I e II" := [("Casa nova", 7500), ("Casa usada", 7000), ("Terreno", 4200)],
        "Jardim Imperial" := [("Casa nova", 4800), ("Casa usada", 4400), ("Terreno", 2800)],
        "Centro Norte" := [("Apartamento", 5200), ("Casa usada", 5000), ("Terreno", 3000)]]

  const ObservacaoNaoEncontrado :=
    "N\U{00E3}o foi poss\U{00ED}vel identificar valor m\U{00E9}dio de mercado " +
    "para este bairro no momento."

  const ObservacaoEstimativa :=
    "Valor estimado a partir de an\U{00FA}ncios p\U{00FA}blicos e dados de mercado. " +
    "Pode variar conforme rua, padr\U{00E3}o construtivo, posi\U{00E7}\U{00E3}o solar, " +
    "ru\U{00ED}do urbano e momento econ\U{00F4}mico."

  /** The two shapes of the returned dictionary: without a value (and
      without `tipo_imovel`), or with one. */
  datatype ValorBairro =
    | NaoEncontrado(bairro: string, fonte: string, observacao: string)
    | Estimativa(bairro: string, tipoImovel: Option<string>, valorM2: real, fonte: string, observacao: string)

  /** No property type appears twice, as in a dictionary. */
  predicate ChavesUnicas(t: Tabela)
  {
    forall i, j :: 0 <= i < j < |t| ==> t[i].0 != t[j].0
  }

  /** `tipo in dados` and `dados[tipo]`. */
  function Buscar(t: Tabela, tipo: string): (r: Option<int>)
    ensures r.Some? ==> (tipo, r.value) in t
    ensures r.None? ==> forall e :: e in t ==> e.0 != tipo
  {
    if |t| == 0 then None
    else if t[0].0 == tipo then Some(t[0].1)
    else Buscar(t[1..], tipo)
  }

  /** With distinct types, the value found is the one listed for the type. */
  lemma {:induction false} BuscarListado(t: Tabela, tipo: string, v: int)
    requires ChavesUnicas(t) && (tipo, v) in t
    ensures Buscar(t, tipo) == Some(v)
  {
    if t[0] != (tipo, v) {
      assert t[0].0 != tipo by {
        var k :| 0 <= k < |t| && t[k] == (tipo, v);
        assert k > 0;
      }
      assert (tipo, v) in t[1..] by {
        var k :| 0 <= k < |t| && t[k] == (tipo, v);
        assert t[1..][k - 1] == (tipo, v);
      }
      assert ChavesUnicas(t[1..]) by {
        forall i, j | 0 <= i < j < |t[1..]| ensures t[1..][i].0 != t[1..][j].0 {
          assert t[1..][i] == t[i + 1] && t[1..][j] == t[j + 1];
        }
      }
      BuscarListado(t[1..], tipo, v);
    }
  }

  /** `sum(dados.values())`. */
  function Soma(t: Tabela): int
  {
    if |t| == 0 then 0 else t[0].1 + Soma(t[1..])
  }

  /** `sum(valores) / len(valores)` on exact reals. */
  function Media(t: Tabela): real
    requires |t| > 0
  {
    Soma(t) as real / |t| as real
  }

  /** A sum of values between `lo` and `hi` lies between `lo` and `hi`
      times the count. */
  lemma {:induction false} SomaEntre(t: Tabela, lo: int, hi: int)
    requires forall e :: e in t ==> lo <= e.1 <= hi
    ensures lo * |t| <= Soma(t) <= hi * |t|
  {
    if |t| > 0 {
      var r := t[1..];
      assert t[0] in t;
      assert forall e :: e in r ==> e in t;
      SomaEntre(r, lo, hi);
      Distributiva(lo, |r|);
      Distributiva(hi, |r|);
    }
  }

  lemma Distributiva(a: int, n: nat)
    ensures a * (n + 1) == a * n + a
  {
  }

  /** The mean lies between any bounds of the values. */
  lemma MediaEntre(t: Tabela, lo: int, hi: int)
    requires |t| > 0 && forall e :: e in t ==> lo <= e.1 <= hi
    ensures lo as real <= Media(t) <= hi as real
  {
    SomaEntre(t, lo, hi);
    QuocienteEntre(Soma(t), |t|, lo);
    QuocienteEntre(Soma(t), |t|, hi);
  }

  /** `s / n` is at least `a` when `s` is at least `a * n`, and at most
      `a` when `s` is at most `a * n`. */
  lemma QuocienteEntre(s: int, n: int, a: int)
    requires n > 0
    ensures a * n <= s ==> a as real <= s as real / n as real
    ensures s <= a * n ==> s as real / n as real <= a as real
  {
    var q := s as real / n as real;
    assert q * n as real == s as real;
    assert (a * n) as real == a as real * n as real;
  }

  /** Rounding to two decimals never crosses an integer. */
  lemma Round2Inteiros(x: real, lo: int, hi: int)
    requires lo as real <= x <= hi as real
    ensures lo as real <= Round2(x) <= hi as real
  {
    var y := x * 100.0;
    var n := RoundHalfEven(y);
    assert (lo * 100) as real <= y <= (hi * 100) as real;
    assert lo * 100 <= y.Floor;
    assert lo * 100 <= n;
    if y < (hi * 100) as real {
      assert y.Floor < hi * 100;
    } else {
      RoundHalfEvenOfInt(hi * 100);
    }
    assert n <= hi * 100;
  }

  /** `obter_valor_m2_bairro`. */
  function ObterValorM2Bairro(bairro: string, tipoImovel: Option<string>): (r: ValorBairro)
    ensures r.bairro == bairro
  {
    if bairro !in ValoresBase || |ValoresBase[bairro]| == 0 then
      NaoEncontrado(bairro, "nao_encontrado", ObservacaoNaoEncontrado)
    else
      var dados := ValoresBase[bairro];
      if tipoImovel.Some? && |tipoImovel.value| > 0 && Buscar(dados, tipoImovel.value).Some? then
        Estimativa(bairro, tipoImovel, Buscar(dados, tipoImovel.value).value as real,
                   "estimativa_por_tipo", ObservacaoEstimativa)
      else
        Estimativa(bairro, tipoImovel, Round2(Media(dados)), "media_bairro", ObservacaoEstimativa)
  }

  /** Every table of the base is a non-empty dictionary. */
  lemma ValoresBaseBemFormada()
    ensures forall b :: b in ValoresBase ==> |ValoresBase[b]| == 3 && ChavesUnicas(ValoresBase[b])
  {
  }

  /** The source of the answer: "nao_encontrado" exactly for an unlisted
      neighbourhood; the listed value of the type, under
      "estimativa_por_tipo", when the neighbourhood lists it; otherwise the
      mean, under "media_bairro". */
  lemma ObterValorM2BairroFontes(bairro: string, tipoImovel: Option<string>)
    ensures var r := ObterValorM2Bairro(bairro, tipoImovel);
      r.NaoEncontrado? <==> bairro !in ValoresBase
    ensures var r := ObterValorM2Bairro(bairro, tipoImovel);
      r.NaoEncontrado? ==> r.fonte == "nao_encontrado"
    ensures forall v ::
      (bairro in ValoresBase && tipoImovel.Some? && (tipoImovel.value, v) in ValoresBase[bairro]) ==>
      ObterValorM2Bairro(bairro, tipoImovel)
        == Estimativa(bairro, tipoImovel, v as real, "estimativa_por_tipo", ObservacaoEstimativa)
    ensures (bairro in ValoresBase && (tipoImovel.None? || Buscar(ValoresBase[bairro], tipoImovel.value).None?)) ==>
      ObterValorM2Bairro(bairro, tipoImovel)
        == Estimativa(bairro, tipoImovel, Round2(Media(ValoresBase[bairro])), "media_bairro", ObservacaoEstimativa)
  {
    ValoresBaseBemFormada();
    forall v | bairro in ValoresBase && tipoImovel.Some? && (tipoImovel.value, v) in ValoresBase[bairro]
      ensures ObterValorM2Bairro(bairro, tipoImovel)
        == Estimativa(bairro, tipoImovel, v as real, "estimativa_por_tipo", ObservacaoEstimativa)
    {
      BuscarListado(ValoresBase[bairro], tipoImovel.value, v);
      assert |tipoImovel.value| > 0 by {
        assert forall e :: e in ValoresBase[bairro] ==> |e.0| > 0;
      }
    }
  }

  /** Whatever the type, the value of a listed neighbourhood lies between
      any bounds of its table, its least and greatest values among them. */
  lemma ObterValorM2BairroEntre(bairro: string, tipoImovel: Option<string>, lo: int, hi: int)
    requires bairro in ValoresBase && forall e :: e in ValoresBase[bairro] ==> lo <= e.1 <= hi
    ensures var r := ObterValorM2Bairro(bairro, tipoImovel);
      r.Estimativa? && lo as real <= r.valorM2 <= hi as real
  {
    var dados := ValoresBase[bairro];
    ValoresBaseBemFormada();
    if tipoImovel.Some? && |tipoImovel.value| > 0 && Buscar(dados, tipoImovel.value).Some? {
      assert (tipoImovel.value, Buscar(dados, tipoImovel.value).value) in dados;
    } else {
      MediaEntre(dados, lo, hi);
      Round2Inteiros(Media(dados), lo, hi);
    }
  }

  /** A listed type gives its own value. */
  lemma ObterValorM2BairroPorTipo()
    ensures ObterValorM2Bairro("Jardim Imperial", Some("Terreno")).valorM2 == 2800.0
    ensures ObterValorM2Bairro("Centro Norte", Some("Apartamento")).fonte == "estimativa_por_tipo"
  {
  }

  /** A type the neighbourhood does not list gives the mean, exact for
      Centro Norte. */
  lemma ObterValorM2BairroMediaExata()
    ensures ObterValorM2Bairro("Centro Norte", Some("Casa nova")).fonte == "media_bairro"
    ensures ObterValorM2Bairro("Centro Norte", Some("Casa nova")).valorM2 == 4400.0
  {
    RoundHalfEvenOfInt(440000);
  }

  /** The mean of Alphaville, 18700 / 3, is rounded to the cent. */
  lemma ObterValorM2BairroMediaArredondada()
    ensures ObterValorM2Bairro("Alphaville I e II", None).valorM2 == 6233.33
  {
    assert RoundHalfEven(1870000.0 / 3.0) == 623333;
  }
}
