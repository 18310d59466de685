/** The budget-driven suggestions of app/services/sugestoes.py: catalogue
    neighbourhoods whose estimated cost commits between 30% and 95% of the
    budget, ranked by closeness to a 70% commitment. */
module Sugestoes {
  import opened Base
  import opened Formatacao
  import opened Catalogo
  import opened Ordenacao
  import ScoreUrbano

  /** One candidate neighbourhood: the dictionary built for each surviving
      row (bairro, padrao, custo, comp, folga, dist). */
  datatype Candidato = Candidato(bairro: string, padrao: string, custo: real, comp: real, folga: real, dist: real)

  /** What the filter loop reads, once parsed. */
  datatype Contexto = Contexto(bairroAtual: Option<string>, orcamento: real, area: real, nivelDesejado: nat)

  function Abs(x: real): (r: real)
    ensures r >= 0.0 && (r == x || r == -x)
  {
    if x >= 0.0 then x else -x
  }

  /** The area used for the estimate: 180 when none is given. */
  function AreaReferencia(area: real): (r: real)
    ensures r > 0.0
  {
    if area > 0.0 then area else 180.0
  }

  /** The estimated cost: the m² value times the reference area. */
  function Custo(valorM2: real, area: real): real
  {
    valorM2 * AreaReferencia(area)
  }

  /** The candidate one row gives, or nothing when a filter drops it. */
  function Avaliar(linha: Linha, c: Contexto): (r: seq<Candidato>)
    requires c.orcamento > 0.0
    ensures |r| <= 1
  {
    var padraoBairro := Padrao(linha.padraoPredominante);
    var nivelBairro := Nivel(padraoBairro);
    var valorM2 := MoedaParaFloat(linha.valorM2Medio);
    if Some(linha.bairro) == c.bairroAtual then []
    else if c.nivelDesejado != 0 && nivelBairro != 0 && ScoreUrbano.Distancia(nivelBairro, c.nivelDesejado) > 1 then []
    else if valorM2 <= 0.0 then []
    else
      var custo := Custo(valorM2, c.area);
      var comp := custo / c.orcamento;
      if comp > 0.95 || comp < 0.30 then []
      else
        [Candidato(linha.bairro, if |padraoBairro| > 0 then padraoBairro else "nao informado",
                   custo, comp, 1.0 - comp, Abs(0.70 - comp))]
  }

  /** The candidates of the rows, in catalogue order. */
  function Candidatos(linhas: seq<Linha>, c: Contexto): seq<Candidato>
    requires c.orcamento > 0.0
  {
    if |linhas| == 0 then []
    else Candidatos(linhas[..|linhas| - 1], c) + Avaliar(linhas[|linhas| - 1], c)
  }

  /** The sort key `(dist, -comp)`. */
  function ChaveCandidato(x: Candidato): Chave
  {
    Chave(x.dist, -x.comp)
  }

  /** Python's `s[:limite]`: a negative limit counts from the end. */
  function Fatia<T>(s: seq<T>, limite: int): (r: seq<T>)
    ensures |r| <= |s| && r == s[..|r|]
    ensures limite >= 0 ==> |r| == Min(limite, |s|)
    ensures limite < 0 ==> |r| == Max(0, |s| + limite)
  {
    if limite >= 0 then s[..Min(limite, |s|)] else s[..Max(0, |s| + limite)]
  }

  /** `(score or {}).get("valor", 0)`. */
  function ValorScore(score: Option<ScoreUrbano.Score>): int
  {
    match score
    case None => 0
    case Some(s) => s.valor
  }

  function ContextoDe(bairroAtual: Option<string>, orcamento: Py, area: Py, padrao: Option<string>): Contexto
  {
    Contexto(bairroAtual, MoedaParaFloat(orcamento), MoedaParaFloat(area), Nivel(Padrao(padrao)))
  }

  /** What `gerar_sugestoes` returns, one record per suggestion. */
  function Sugerir(catalogo: seq<Linha>, bairroAtual: Option<string>, score: Option<ScoreUrbano.Score>,
                   orcamento: Py, area: Py, padrao: Option<string>, limite: int): seq<Candidato>
  {
    var c := ContextoDe(bairroAtual, orcamento, area, padrao);
    if ValorScore(score) >= 75 || c.orcamento <= 0.0 then []
    else Fatia(Ordenar(Candidatos(catalogo, c), ChaveCandidato, Menor), limite)
  }

  /** What every suggestion satisfies: not the current neighbourhood, a tier
      at most one level from the desired one when both are known, and a
      commitment between 30% and 95% of the budget. */
  predicate Admissivel(x: Candidato, c: Contexto)
  {
    Some(x.bairro) != c.bairroAtual
    && (c.nivelDesejado != 0 && Nivel(x.padrao) != 0 ==> ScoreUrbano.Distancia(Nivel(x.padrao), c.nivelDesejado) <= 1)
    && 0.30 <= x.comp <= 0.95 && x.folga == 1.0 - x.comp && 0.05 <= x.folga <= 0.70
    && x.custo == x.comp * c.orcamento && x.dist == Abs(0.70 - x.comp)
  }

  lemma AvaliarAdmissivel(linha: Linha, c: Contexto)
    requires c.orcamento > 0.0
    ensures forall x :: x in Avaliar(linha, c) ==> Admissivel(x, c) && x.bairro == linha.bairro
  {
    var r := Avaliar(linha, c);
    if |r| > 0 {
      var x := r[0];
      var padraoBairro := Padrao(linha.padraoPredominante);
      assert Nivel("nao informado") == 0;
      assert x.padrao == padraoBairro || Nivel(x.padrao) == 0;
      assert x.custo == x.comp * c.orcamento;
    }
  }

  /** Every candidate is admissible and comes from a row of the catalogue. */
  lemma {:induction false} CandidatosAdmissiveis(linhas: seq<Linha>, c: Contexto)
    requires c.orcamento > 0.0
    ensures forall x :: x in Candidatos(linhas, c) ==> Admissivel(x, c)
    ensures forall x :: x in Candidatos(linhas, c) ==> exists l :: l in linhas && l.bairro == x.bairro
  {
    if |linhas| > 0 {
      var p, l := linhas[..|linhas| - 1], linhas[|linhas| - 1];
      CandidatosAdmissiveis(p, c);
      AvaliarAdmissivel(l, c);
      forall x | x in Candidatos(linhas, c) ensures exists l :: l in linhas && l.bairro == x.bairro {
        if x in Candidatos(p, c) {
          var m :| m in p && m.bairro == x.bairro;
          assert m in linhas;
        } else {
          assert l in linhas;
        }
      }
    }
  }

  /** The properties of the returned list. */
  lemma SugerirPropriedades(catalogo: seq<Linha>, bairroAtual: Option<string>, score: Option<ScoreUrbano.Score>,
                            orcamento: Py, area: Py, padrao: Option<string>, limite: int)
    ensures var r := Sugerir(catalogo, bairroAtual, score, orcamento, area, padrao, limite);
      var c := ContextoDe(bairroAtual, orcamento, area, padrao);
      (forall x :: x in r ==> Admissivel(x, c))
      && (forall x :: x in r ==> exists l :: l in catalogo && l.bairro == x.bairro)
      && Ordenada(r, ChaveCandidato, Menor)
      && (ValorScore(score) < 75 && c.orcamento > 0.0 && limite >= 0 ==> |r| == Min(limite, |Candidatos(catalogo, c)|))
  {
    var c := ContextoDe(bairroAtual, orcamento, area, padrao);
    if ValorScore(score) < 75 && c.orcamento > 0.0 {
      var todos := Candidatos(catalogo, c);
      var s := Ordenar(todos, ChaveCandidato, Menor);
      var r := Fatia(s, limite);
      CandidatosAdmissiveis(catalogo, c);
      OrdenarPermuta(todos, ChaveCandidato, Menor);
      MenorOrdemFraca();
      OrdenarOrdena(todos, ChaveCandidato, Menor);
      forall x | x in r ensures x in todos {
        assert x in multiset(s);
      }
    }
  }

  /** `gerar_sugestoes`: a loop that keeps the surviving rows, an in-place
      sort, and a loop over the first `limite` candidates. */
  method GerarSugestoes(catalogo: seq<Linha>, bairroAtual: Option<string>, score: Option<ScoreUrbano.Score>,
                        orcamento: Py, area: Py, padrao: Option<string>, limite: int)
    returns (sugestoes: seq<Candidato>)
    ensures sugestoes == Sugerir(catalogo, bairroAtual, score, orcamento, area, padrao, limite)
    ensures ValorScore(score) >= 75 ==> sugestoes == []
    ensures MoedaParaFloat(orcamento) <= 0.0 ==> sugestoes == []
    ensures forall x :: x in sugestoes ==> Admissivel(x, ContextoDe(bairroAtual, orcamento, area, padrao))
    ensures Ordenada(sugestoes, ChaveCandidato, Menor)
  {
    SugerirPropriedades(catalogo, bairroAtual, score, orcamento, area, padrao, limite);
    if ValorScore(score) >= 75 {
      return [];
    }
    var orc := MoedaParaFloat(orcamento);
    var ar := MoedaParaFloat(area);
    if orc <= 0.0 {
      return [];
    }
    var candidatos := FiltrarCandidatos(catalogo, Contexto(bairroAtual, orc, ar, Nivel(Padrao(padrao))));
    candidatos := Ordenar(candidatos, ChaveCandidato, Menor);
    sugestoes := CopiarPrimeiros(candidatos, limite);
  }

  /** The last loop of `gerar_sugestoes`: one appended record per candidate
      of `candidatos[:limite]`. */
  method CopiarPrimeiros(candidatos: seq<Candidato>, limite: int) returns (sugestoes: seq<Candidato>)
    ensures sugestoes == Fatia(candidatos, limite)
  {
    sugestoes := [];
    var escolhidos := Fatia(candidatos, limite);
    for i := 0 to |escolhidos|
      invariant sugestoes == escolhidos[..i]
    {
      sugestoes := sugestoes + [escolhidos[i]];
    }
    assert escolhidos[..|escolhidos|] == escolhidos;
  }

  /** The first loop of `gerar_sugestoes`: each catalogue row either is
      skipped by a filter or appends its candidate. */
  method FiltrarCandidatos(catalogo: seq<Linha>, c: Contexto) returns (candidatos: seq<Candidato>)
    requires c.orcamento > 0.0
    ensures candidatos == Candidatos(catalogo, c)
  {
    candidatos := [];
    for i := 0 to |catalogo|
      invariant candidatos == Candidatos(catalogo[..i], c)
    {
      assert catalogo[..i + 1][..i] == catalogo[..i];
      var novo := AvaliarLinha(catalogo[i], c);
      candidatos := candidatos + novo;
    }
    assert catalogo[..|catalogo|] == catalogo;
  }

  /** The body of that loop for one row: an empty result where the source
      skips the row with `continue`. */
  method AvaliarLinha(linha: Linha, c: Contexto) returns (novo: seq<Candidato>)
    requires c.orcamento > 0.0
    ensures novo == Avaliar(linha, c)
  {
    if Some(linha.bairro) == c.bairroAtual {
      return [];
    }
    var padraoBairro := Padrao(linha.padraoPredominante);
    var nivelBairro := Nivel(padraoBairro);
    if c.nivelDesejado != 0 && nivelBairro != 0 && ScoreUrbano.Distancia(nivelBairro, c.nivelDesejado) > 1 {
      return [];
    }
    var valorM2 := MoedaParaFloat(linha.valorM2Medio);
    if valorM2 <= 0.0 {
      return [];
    }
    var custo := Custo(valorM2, c.area);
    var comp := custo / c.orcamento;
    var folga := 1.0 - comp;
    if comp > 0.95 {
      return [];
    }
    if comp < 0.30 {
      return [];
    }
    var dist := Abs(0.70 - comp);
    novo := [Candidato(linha.bairro, if |padraoBairro| > 0 then padraoBairro else "nao informado", custo, comp, folga, dist)];
  }
}
