/** The urban compatibility score of app/services/score_urbano.py: a base of
    20, five additive rules that each append an explanation, a clamp to
    [0, 100] and a four-band classification. */
module ScoreUrbano {
  import opened Base
  import opened Formatacao
  import opened Catalogo

  /** The keyword arguments the score reads: amounts as received, the
      desired tier and whether the purchase is financed. */
  datatype Pedido = Pedido(orcamento: Py, valorImovel: Py, padraoDesejado: Option<string>, financia: bool)

  /** The inputs once parsed: amounts as numbers, tier texts lower-cased. */
  datatype Entrada = Entrada(
    orcamento: real, valorImovel: real,
    desejado: string, padraoBairro: string, perfilSocio: string,
    financia: bool)

  /** The returned record: `valor`, `classificacao`, `explicacoes`. */
  datatype Score = Score(valor: int, classificacao: string, explicacoes: seq<string>)

  /** One fired rule: what it adds to the score and the explanation it appends. */
  datatype Ajuste = Ajuste(delta: int, texto: string)

  const TextoElevado := "Bairro de padrão urbano elevado."
  const TextoIntermediario := "Bairro de padrão urbano intermediário."
  const TextoPopular := "Bairro de padrão urbano mais econômico/popular."
  const TextoCompativel := "Padrão desejado totalmente compatível com o bairro."
  const TextoParcial := "Padrão desejado parcialmente desalinhado com a predominância do bairro."
  const TextoDistante := "Padrão desejado distante da predominância urbana local."
  const TextoNaoIdentificado := "Padrão do bairro não totalmente identificado para comparação fina."
  const TextoFolgaAlta := "Orçamento com folga alta para aquisição e custos acessórios."
  const TextoFolgaConfortavel := "Orçamento com folga confortável para o ticket analisado."
  const TextoMargemModerada := "Orçamento compatível com margem moderada de segurança."
  const TextoFolgaReduzida := "Orçamento compatível, com folga reduzida."
  const TextoProximo := "Orçamento próximo do valor do imóvel."
  const TextoInsuficiente := "Orçamento insuficiente para o valor do imóvel."
  const TextoDesalinhamento := "Há desalinhamento de posicionamento: capacidade financeira alta em bairro de predominancia socioeconomica inferior ao padrão desejado."
  const TextoFinanciamento := "Financiamento reduz a margem de segurança financeira de longo prazo."

  /** Rule 1, the neighbourhood's own tier: always fires. */
  function PerfilUrbano(padraoBairro: string): Ajuste
  {
    if padraoBairro == "alto" then Ajuste(25, TextoElevado)
    else if padraoBairro == "medio" then Ajuste(18, TextoIntermediario)
    else Ajuste(10, TextoPopular)
  }

  function Distancia(a: nat, b: nat): nat
  {
    if a >= b then a - b else b - a
  }

  /** Rule 2, desired tier against the neighbourhood's tier. */
  function CoerenciaPadrao(desejado: string, nivelDesejado: nat, nivelBairro: nat): seq<Ajuste>
  {
    if |desejado| == 0 then []
    else if nivelDesejado != 0 && nivelBairro != 0 then
      var diff := Distancia(nivelDesejado, nivelBairro);
      if diff == 0 then [Ajuste(20, TextoCompativel)]
      else if diff == 1 then [Ajuste(-8, TextoParcial)]
      else [Ajuste(-16, TextoDistante)]
    else [Ajuste(0, TextoNaoIdentificado)]
  }

  /** Rule 3, bands of the budget-to-price ratio. */
  function CapacidadeFinanceira(orcamento: real, valorImovel: real): seq<Ajuste>
  {
    if valorImovel > 0.0 && orcamento > 0.0 then
      var relacao := orcamento / valorImovel;
      if relacao >= 1.8 then [Ajuste(25, TextoFolgaAlta)]
      else if relacao >= 1.4 then [Ajuste(22, TextoFolgaConfortavel)]
      else if relacao >= 1.1 then [Ajuste(18, TextoMargemModerada)]
      else if relacao >= 1.0 then [Ajuste(14, TextoFolgaReduzida)]
      else if relacao >= 0.85 then [Ajuste(6, TextoProximo)]
      else [Ajuste(-20, TextoInsuficiente)]
    else []
  }

  /** The condition of rule 4: a large budget for a price in a neighbourhood
      whose urban or socio-economic tier is below a high desired tier. */
  predicate Desalinhado(orcamento: real, valorImovel: real, nivelDesejado: nat, nivelBairro: nat, nivelSocio: nat)
  {
    valorImovel > 0.0 && orcamento >= valorImovel * 1.5 && nivelDesejado >= 3
    && ((0 < nivelBairro < nivelDesejado) || (0 < nivelSocio < nivelDesejado))
  }

  /** Rule 4, the socio-economic mismatch penalty. */
  function Desalinhamento(orcamento: real, valorImovel: real, nivelDesejado: nat, nivelBairro: nat, nivelSocio: nat): seq<Ajuste>
  {
    if Desalinhado(orcamento, valorImovel, nivelDesejado, nivelBairro, nivelSocio) then [Ajuste(-6, TextoDesalinhamento)] else []
  }

  /** Rule 5, financing. */
  function Financiamento(financia: bool): seq<Ajuste>
  {
    if financia then [Ajuste(-4, TextoFinanciamento)] else []
  }

  /** Every rule that fires, in the order the rules are applied. */
  function Ajustes(e: Entrada): seq<Ajuste>
  {
    var nd, nb, ns := Nivel(e.desejado), Nivel(e.padraoBairro), Nivel(e.perfilSocio);
    [PerfilUrbano(e.padraoBairro)] + CoerenciaPadrao(e.desejado, nd, nb)
    + CapacidadeFinanceira(e.orcamento, e.valorImovel)
    + Desalinhamento(e.orcamento, e.valorImovel, nd, nb, ns) + Financiamento(e.financia)
  }

  function Soma(a: seq<Ajuste>): int
  {
    if |a| == 0 then 0 else Soma(a[..|a| - 1]) + a[|a| - 1].delta
  }

  function Textos(a: seq<Ajuste>): (r: seq<string>)
    ensures |r| == |a| && forall i :: 0 <= i < |a| ==> r[i] == a[i].texto
  {
    seq(|a|, i requires 0 <= i < |a| => a[i].texto)
  }

  /** The score before the clamp. */
  function Bruto(e: Entrada): int
  {
    20 + Soma(Ajustes(e))
  }

  function Classificacao(valor: int): string
  {
    if valor >= 80 then "Excelente compatibilidade"
    else if valor >= 65 then "Boa compatibilidade"
    else if valor >= 45 then "Compatibilidade limitada"
    else "Baixa compatibilidade"
  }

  /** The record `calcular_score_urbano` returns for parsed inputs. */
  function Resultado(e: Entrada): Score
  {
    var v := Max(0, Min(100, Bruto(e)));
    Score(v, Classificacao(v), Textos(Ajustes(e)))
  }

  /** How the arguments are read: amounts through the lenient currency
      parser, tiers through `(x or "").lower()`. */
  function Ler(dadosBairro: Linha, pedido: Pedido): Entrada
  {
    Entrada(
      MoedaParaFloat(pedido.orcamento), MoedaParaFloat(pedido.valorImovel),
      Padrao(pedido.padraoDesejado), Padrao(dadosBairro.padraoPredominante),
      Padrao(dadosBairro.perfilSocioeconomico), pedido.financia)
  }

  lemma {:induction false} SomaConcat(a: seq<Ajuste>, b: seq<Ajuste>)
    ensures Soma(a + b) == Soma(a) + Soma(b)
    decreases |b|
  {
    if |b| == 0 {
      assert a + b == a;
    } else {
      assert (a + b)[..|a + b| - 1] == a + b[..|b| - 1];
      assert (a + b)[|a + b| - 1] == b[|b| - 1];
      SomaConcat(a, b[..|b| - 1]);
    }
  }

  /** Appending the adjustments of one more rule. */
  lemma Aplicar(a: seq<Ajuste>, b: seq<Ajuste>)
    ensures Soma(a + b) == Soma(a) + Soma(b)
    ensures Textos(a + b) == Textos(a) + Textos(b)
  {
    SomaConcat(a, b);
  }

  /** One rule applied: the running score and explanations stay those of
      the rules applied so far. */
  lemma Passo(feitos: seq<Ajuste>, regra: seq<Ajuste>, score: int, explicacoes: seq<string>, score': int, explicacoes': seq<string>)
    requires score == 20 + Soma(feitos) && explicacoes == Textos(feitos)
    requires score' == score + Soma(regra) && explicacoes' == explicacoes + Textos(regra)
    ensures score' == 20 + Soma(feitos + regra) && explicacoes' == Textos(feitos + regra)
  {
    Aplicar(feitos, regra);
  }

  lemma SomaUm(x: Ajuste)
    ensures Soma([x]) == x.delta
  {
    assert [x][..0] == [];
  }

  /** `calcular_score_urbano`: the score is updated rule by rule, each fired
      rule appending its explanation. */
  method CalcularScoreUrbano(dadosBairro: Linha, pedido: Pedido) returns (r: Score)
    ensures r == Resultado(Ler(dadosBairro, pedido))
    ensures 0 <= r.valor <= 100
    ensures 1 <= |r.explicacoes| <= 5
    ensures r.explicacoes[0] == PerfilUrbano(Padrao(dadosBairro.padraoPredominante)).texto
  {
    var e := Ler(dadosBairro, pedido);
    r := Pontuar(e);
  }

  /** The rules applied, in order, to the parsed arguments. */
  method Pontuar(e: Entrada) returns (r: Score)
    ensures r == Resultado(e)
    ensures 0 <= r.valor <= 100 && r.valor == Max(0, Bruto(e))
    ensures 1 <= |r.explicacoes| <= 5
    ensures r.explicacoes[0] == PerfilUrbano(e.padraoBairro).texto
  {
    var orcamento, valorImovel, padraoDesejado, financia := e.orcamento, e.valorImovel, e.desejado, e.financia;

    var score := 20;
    var explicacoes: seq<string> := [];

    var padraoBairro, perfilSocio := e.padraoBairro, e.perfilSocio;
    var nivelBairro := Nivel(padraoBairro);
    var nivelDesejado := Nivel(padraoDesejado);
    var nivelSocio := Nivel(perfilSocio);

    ghost var feitos: seq<Ajuste> := [];
    ghost var regra := [PerfilUrbano(padraoBairro)];
    var s', x' := AplicarPerfilUrbano(padraoBairro, score, explicacoes);
    Passo(feitos, regra, score, explicacoes, s', x');
    score, explicacoes, feitos := s', x', feitos + regra;

    regra := CoerenciaPadrao(padraoDesejado, nivelDesejado, nivelBairro);
    s', x' := AplicarCoerencia(padraoDesejado, nivelDesejado, nivelBairro, score, explicacoes);
    Passo(feitos, regra, score, explicacoes, s', x');
    score, explicacoes, feitos := s', x', feitos + regra;

    regra := CapacidadeFinanceira(orcamento, valorImovel);
    s', x' := AplicarCapacidade(orcamento, valorImovel, score, explicacoes);
    Passo(feitos, regra, score, explicacoes, s', x');
    score, explicacoes, feitos := s', x', feitos + regra;

    regra := Desalinhamento(orcamento, valorImovel, nivelDesejado, nivelBairro, nivelSocio);
    s', x' := AplicarDesalinhamento(orcamento, valorImovel, nivelDesejado, nivelBairro, nivelSocio, score, explicacoes);
    Passo(feitos, regra, score, explicacoes, s', x');
    score, explicacoes, feitos := s', x', feitos + regra;

    regra := Financiamento(financia);
    s', x' := AplicarFinanciamento(financia, score, explicacoes);
    Passo(feitos, regra, score, explicacoes, s', x');
    score, explicacoes, feitos := s', x', feitos + regra;

    assert [] + [PerfilUrbano(padraoBairro)] == [PerfilUrbano(padraoBairro)];
    assert feitos == Ajustes(e);
    score := Max(0, Min(100, score));
    r := Score(score, Classificacao(score), explicacoes);
    BrutoLimites(e);
    Explicacoes(e);
  }

  /** Rule 1 applied to the running score and explanations. */
  method AplicarPerfilUrbano(padraoBairro: string, score: int, explicacoes: seq<string>)
    returns (score': int, explicacoes': seq<string>)
    ensures score' == score + Soma([PerfilUrbano(padraoBairro)])
    ensures explicacoes' == explicacoes + Textos([PerfilUrbano(padraoBairro)])
  {
    if padraoBairro == "alto" {
      score' := score + 25;
      explicacoes' := explicacoes + [TextoElevado];
    } else if padraoBairro == "medio" {
      score' := score + 18;
      explicacoes' := explicacoes + [TextoIntermediario];
    } else {
      score' := score + 10;
      explicacoes' := explicacoes + [TextoPopular];
    }
    SomaUm(PerfilUrbano(padraoBairro));
  }

  /** Rule 2 applied to the running score and explanations. */
  method AplicarCoerencia(padraoDesejado: string, nivelDesejado: nat, nivelBairro: nat, score: int, explicacoes: seq<string>)
    returns (score': int, explicacoes': seq<string>)
    ensures score' == score + Soma(CoerenciaPadrao(padraoDesejado, nivelDesejado, nivelBairro))
    ensures explicacoes' == explicacoes + Textos(CoerenciaPadrao(padraoDesejado, nivelDesejado, nivelBairro))
  {
    score', explicacoes' := score, explicacoes;
    if |padraoDesejado| > 0 {
      if nivelDesejado != 0 && nivelBairro != 0 {
        var diff := if nivelDesejado >= nivelBairro then nivelDesejado - nivelBairro else nivelBairro - nivelDesejado;
        if diff == 0 {
          score' := score + 20;
          explicacoes' := explicacoes + [TextoCompativel];
        } else if diff == 1 {
          score' := score - 8;
          explicacoes' := explicacoes + [TextoParcial];
        } else {
          score' := score - 16;
          explicacoes' := explicacoes + [TextoDistante];
        }
      } else {
        explicacoes' := explicacoes + [TextoNaoIdentificado];
      }
      SomaUm(CoerenciaPadrao(padraoDesejado, nivelDesejado, nivelBairro)[0]);
    }
  }

  /** Rule 3 applied to the running score and explanations. */
  method AplicarCapacidade(orcamento: real, valorImovel: real, score: int, explicacoes: seq<string>)
    returns (score': int, explicacoes': seq<string>)
    ensures score' == score + Soma(CapacidadeFinanceira(orcamento, valorImovel))
    ensures explicacoes' == explicacoes + Textos(CapacidadeFinanceira(orcamento, valorImovel))
  {
    score', explicacoes' := score, explicacoes;
    if valorImovel > 0.0 && orcamento > 0.0 {
      var relacao := orcamento / valorImovel;
      if relacao >= 1.8 {
        score' := score + 25;
        explicacoes' := explicacoes + [TextoFolgaAlta];
      } else if relacao >= 1.4 {
        score' := score + 22;
        explicacoes' := explicacoes + [TextoFolgaConfortavel];
      } else if relacao >= 1.1 {
        score' := score + 18;
        explicacoes' := explicacoes + [TextoMargemModerada];
      } else if relacao >= 1.0 {
        score' := score + 14;
        explicacoes' := explicacoes + [TextoFolgaReduzida];
      } else if relacao >= 0.85 {
        score' := score + 6;
        explicacoes' := explicacoes + [TextoProximo];
      } else {
        score' := score - 20;
        explicacoes' := explicacoes + [TextoInsuficiente];
      }
      SomaUm(CapacidadeFinanceira(orcamento, valorImovel)[0]);
    }
  }

  /** Rule 4 applied to the running score and explanations. */
  method AplicarDesalinhamento(orcamento: real, valorImovel: real, nivelDesejado: nat, nivelBairro: nat, nivelSocio: nat,
                               score: int, explicacoes: seq<string>)
    returns (score': int, explicacoes': seq<string>)
    ensures score' == score + Soma(Desalinhamento(orcamento, valorImovel, nivelDesejado, nivelBairro, nivelSocio))
    ensures explicacoes' == explicacoes + Textos(Desalinhamento(orcamento, valorImovel, nivelDesejado, nivelBairro, nivelSocio))
  {
    score', explicacoes' := score, explicacoes;
    var bairroAbaixo := (0 < nivelBairro < nivelDesejado) || (0 < nivelSocio < nivelDesejado);
    if valorImovel > 0.0 && orcamento >= valorImovel * 1.5 && nivelDesejado >= 3 && bairroAbaixo {
      score' := score - 6;
      explicacoes' := explicacoes + [TextoDesalinhamento];
      SomaUm(Ajuste(-6, TextoDesalinhamento));
    }
  }

  /** Rule 5 applied to the running score and explanations. */
  method AplicarFinanciamento(financia: bool, score: int, explicacoes: seq<string>)
    returns (score': int, explicacoes': seq<string>)
    ensures score' == score + Soma(Financiamento(financia))
    ensures explicacoes' == explicacoes + Textos(Financiamento(financia))
  {
    score', explicacoes' := score, explicacoes;
    if financia {
      score' := score - 4;
      explicacoes' := explicacoes + [TextoFinanciamento];
      SomaUm(Ajuste(-4, TextoFinanciamento));
    }
  }

  /** The explanations: one per fired rule, the tier's first and the
      financing one last when the purchase is financed. */
  lemma Explicacoes(e: Entrada)
    ensures 1 <= |Resultado(e).explicacoes| <= 5
    ensures Resultado(e).explicacoes[0] == PerfilUrbano(e.padraoBairro).texto
    ensures var x := Resultado(e).explicacoes;
      e.financia ==> x[|x| - 1] == TextoFinanciamento
    ensures |Resultado(e).explicacoes|
      == 1 + (if |e.desejado| > 0 then 1 else 0)
      + (if e.orcamento > 0.0 && e.valorImovel > 0.0 then 1 else 0)
      + (if Desalinhado(e.orcamento, e.valorImovel, Nivel(e.desejado), Nivel(e.padraoBairro), Nivel(e.perfilSocio)) then 1 else 0)
      + (if e.financia then 1 else 0)
  {
  }

  /** The score before the clamp lies in [-10, 90], so only the lower clamp
      can change it. The -20 of an insufficient budget and the -6 of the
      mismatch never fire together: one needs a ratio below 0.85, the other
      one of at least 1.5. */
  lemma BrutoLimites(e: Entrada)
    ensures -10 <= Bruto(e) <= 90
    ensures Resultado(e).valor == Max(0, Bruto(e))
  {
    var nd, nb, ns := Nivel(e.desejado), Nivel(e.padraoBairro), Nivel(e.perfilSocio);
    var r2 := CoerenciaPadrao(e.desejado, nd, nb);
    var r3 := CapacidadeFinanceira(e.orcamento, e.valorImovel);
    var r4, r5 := Desalinhamento(e.orcamento, e.valorImovel, nd, nb, ns), Financiamento(e.financia);
    var d2 := if |r2| > 0 then r2[0].delta else 0;
    var d3 := if |r3| > 0 then r3[0].delta else 0;
    var d4 := if |r4| > 0 then r4[0].delta else 0;
    var d5 := if |r5| > 0 then r5[0].delta else 0;
    if |r2| > 0 { SomaUm(r2[0]); }
    if |r3| > 0 { SomaUm(r3[0]); }
    if |r4| > 0 {
      SomaUm(r4[0]);
      assert e.orcamento / e.valorImovel >= 1.5 by {
        assert e.orcamento >= e.valorImovel * 1.5;
      }
      assert d3 >= 22;
    }
    if |r5| > 0 { SomaUm(r5[0]); }
    BrutoOito(e, PerfilUrbano(e.padraoBairro).delta, d2, d3, d4, d5);
  }

  /** Both bounds are reached. */
  lemma BrutoExtremos()
    ensures Bruto(Entrada(2.0, 1.0, "alto", "alto", "", false)) == 90
    ensures Bruto(Entrada(0.5, 1.0, "alto", "economico", "", true)) == -10
  {
    var alto := Entrada(2.0, 1.0, "alto", "alto", "", false);
    var baixo := Entrada(0.5, 1.0, "alto", "economico", "", true);
    BrutoOito(alto, 25, 20, 25, 0, 0);
    BrutoOito(baixo, 10, -16, -20, 0, -4);
  }

  /** The score before the clamp from the contributions of the five rules. */
  lemma BrutoOito(e: Entrada, d1: int, d2: int, d3: int, d4: int, d5: int)
    requires var nd, nb, ns := Nivel(e.desejado), Nivel(e.padraoBairro), Nivel(e.perfilSocio);
      PerfilUrbano(e.padraoBairro).delta == d1 && Soma(CoerenciaPadrao(e.desejado, nd, nb)) == d2
      && Soma(CapacidadeFinanceira(e.orcamento, e.valorImovel)) == d3
      && Soma(Desalinhamento(e.orcamento, e.valorImovel, nd, nb, ns)) == d4 && Soma(Financiamento(e.financia)) == d5
    ensures Bruto(e) == 20 + d1 + d2 + d3 + d4 + d5
  {
    var nd, nb, ns := Nivel(e.desejado), Nivel(e.padraoBairro), Nivel(e.perfilSocio);
    var r1, r2 := [PerfilUrbano(e.padraoBairro)], CoerenciaPadrao(e.desejado, nd, nb);
    var r3 := CapacidadeFinanceira(e.orcamento, e.valorImovel);
    var r4, r5 := Desalinhamento(e.orcamento, e.valorImovel, nd, nb, ns), Financiamento(e.financia);
    SomaConcat(r1, r2);
    SomaConcat(r1 + r2, r3);
    SomaConcat(r1 + r2 + r3, r4);
    SomaConcat(r1 + r2 + r3 + r4, r5);
    SomaUm(PerfilUrbano(e.padraoBairro));
  }

  /** Financing costs exactly 4 points before the clamp and adds its
      explanation at the end. */
  lemma FinanciamentoCusta(e: Entrada)
    requires e.financia
    ensures Bruto(e) == Bruto(e.(financia := false)) - 4
    ensures Resultado(e).explicacoes == Resultado(e.(financia := false)).explicacoes + [TextoFinanciamento]
  {
    var f := e.(financia := false);
    var base := Ajustes(f);
    assert Ajustes(e) == base + [Ajuste(-4, TextoFinanciamento)];
    Aplicar(base, [Ajuste(-4, TextoFinanciamento)]);
    SomaUm(Ajuste(-4, TextoFinanciamento));
  }

  /** The mismatch explanation is given exactly when its condition holds. */
  lemma DesalinhamentoSse(e: Entrada)
    ensures TextoDesalinhamento in Resultado(e).explicacoes
      <==> Desalinhado(e.orcamento, e.valorImovel, Nivel(e.desejado), Nivel(e.padraoBairro), Nivel(e.perfilSocio))
  {
    var x := Resultado(e).explicacoes;
    var nd, nb, ns := Nivel(e.desejado), Nivel(e.padraoBairro), Nivel(e.perfilSocio);
    var antes := [PerfilUrbano(e.padraoBairro)] + CoerenciaPadrao(e.desejado, nd, nb)
      + CapacidadeFinanceira(e.orcamento, e.valorImovel);
    var r4, r5 := Desalinhamento(e.orcamento, e.valorImovel, nd, nb, ns), Financiamento(e.financia);
    var a := Ajustes(e);
    assert a == antes + r4 + r5;
    if TextoDesalinhamento in x {
      var i :| 0 <= i < |x| && x[i] == TextoDesalinhamento;
      assert x == Textos(a);
      assert a[i].texto == TextoDesalinhamento;
      OutrasRegras(e);
      IndiceTres(antes, r4, r5, i);
    } else if |r4| > 0 {
      DesalinhamentoPresente(e);
    }
  }

  /** Where an index of a three-part concatenation falls. */
  lemma IndiceTres<T>(p: seq<T>, q: seq<T>, r: seq<T>, i: int)
    requires 0 <= i < |p| + |q| + |r|
    ensures i < |p| ==> (p + q + r)[i] == p[i]
    ensures |p| + |q| <= i ==> (p + q + r)[i] == r[i - |p| - |q|]
  {
  }

  lemma DesalinhamentoPresente(e: Entrada)
    requires Desalinhado(e.orcamento, e.valorImovel, Nivel(e.desejado), Nivel(e.padraoBairro), Nivel(e.perfilSocio))
    ensures TextoDesalinhamento in Resultado(e).explicacoes
  {
    var nd, nb, ns := Nivel(e.desejado), Nivel(e.padraoBairro), Nivel(e.perfilSocio);
    var antes := [PerfilUrbano(e.padraoBairro)] + CoerenciaPadrao(e.desejado, nd, nb)
      + CapacidadeFinanceira(e.orcamento, e.valorImovel);
    var a := Ajustes(e);
    assert a == antes + [Ajuste(-6, TextoDesalinhamento)] + Financiamento(e.financia);
    assert a[|antes|].texto == TextoDesalinhamento;
    assert Textos(a)[|antes|] == TextoDesalinhamento;
  }

  predicate SemDesalinhamento(a: seq<Ajuste>)
  {
    forall j :: 0 <= j < |a| ==> a[j].texto != TextoDesalinhamento
  }

  /** No rule but rule 4 gives the mismatch explanation. */
  lemma OutrasRegras(e: Entrada)
    ensures SemDesalinhamento([PerfilUrbano(e.padraoBairro)]
      + CoerenciaPadrao(e.desejado, Nivel(e.desejado), Nivel(e.padraoBairro))
      + CapacidadeFinanceira(e.orcamento, e.valorImovel))
    ensures SemDesalinhamento(Financiamento(e.financia))
  {
    var n := |TextoDesalinhamento|;
    assert |TextoElevado| != n && |TextoIntermediario| != n && |TextoPopular| != n;
    assert |TextoCompativel| != n && |TextoParcial| != n && |TextoDistante| != n && |TextoNaoIdentificado| != n;
    assert |TextoFolgaAlta| != n && |TextoFolgaConfortavel| != n && |TextoMargemModerada| != n;
    assert |TextoFolgaReduzida| != n && |TextoProximo| != n && |TextoInsuficiente| != n;
    assert |TextoFinanciamento| != n;
  }

  /** A larger budget never lowers the contribution of rule 3. */
  lemma CapacidadeMonotona(orcamento: real, maior: real, valorImovel: real)
    requires 0.0 < orcamento <= maior && valorImovel > 0.0
    ensures Soma(CapacidadeFinanceira(orcamento, valorImovel)) <= Soma(CapacidadeFinanceira(maior, valorImovel))
  {
    assert orcamento / valorImovel <= maior / valorImovel;
    SomaUm(CapacidadeFinanceira(orcamento, valorImovel)[0]);
    SomaUm(CapacidadeFinanceira(maior, valorImovel)[0]);
  }

  /** The whole score is not monotone in the budget: reaching 1.5 times the
      price brings in the mismatch penalty, so a budget of 1.5 scores below
      one of 1.4 for a price of 1 when a high tier is wanted in a middle one. */
  lemma OrcamentoNaoMonotono()
    ensures Bruto(Entrada(1.4, 1.0, "alto", "medio", "", false)) == 52
    ensures Bruto(Entrada(1.5, 1.0, "alto", "medio", "", false)) == 46
  {
    BrutoOito(Entrada(1.4, 1.0, "alto", "medio", "", false), 18, -8, 22, 0, 0);
    BrutoOito(Entrada(1.5, 1.0, "alto", "medio", "", false), 18, -8, 22, -6, 0);
  }

  /** A desired tier given but not comparable changes nothing in the score
      and only adds the note. */
  lemma CoerenciaSoNota(e: Entrada)
    requires |e.desejado| > 0 && (Nivel(e.desejado) == 0 || Nivel(e.padraoBairro) == 0)
    ensures Soma(CoerenciaPadrao(e.desejado, Nivel(e.desejado), Nivel(e.padraoBairro))) == 0
    ensures Resultado(e).explicacoes[1] == TextoNaoIdentificado
  {
    var a := Ajustes(e);
    SomaUm(Ajuste(0, TextoNaoIdentificado));
    assert a[1] == Ajuste(0, TextoNaoIdentificado);
  }

  /** An unknown desired tier scores as no desired tier at all, the note
      being the only difference. */
  lemma DesejadoDesconhecido(e: Entrada)
    requires |e.desejado| > 0 && Nivel(e.desejado) == 0
    ensures Bruto(e) == Bruto(e.(desejado := ""))
    ensures var x, y := Resultado(e).explicacoes, Resultado(e.(desejado := "")).explicacoes;
      x == [y[0], TextoNaoIdentificado] + y[1..]
  {
    DesconhecidoBruto(e);
    DesconhecidoTextos(e);
  }

  lemma DesconhecidoBruto(e: Entrada)
    requires |e.desejado| > 0 && Nivel(e.desejado) == 0
    ensures Bruto(e) == Bruto(e.(desejado := ""))
  {
    var d1 := PerfilUrbano(e.padraoBairro).delta;
    var d3 := Soma(CapacidadeFinanceira(e.orcamento, e.valorImovel));
    var d5 := Soma(Financiamento(e.financia));
    assert Nivel("") == 0;
    SomaUm(Ajuste(0, TextoNaoIdentificado));
    BrutoOito(e, d1, 0, d3, 0, d5);
    BrutoOito(e.(desejado := ""), d1, 0, d3, 0, d5);
  }

  lemma DesconhecidoTextos(e: Entrada)
    requires |e.desejado| > 0 && Nivel(e.desejado) == 0
    ensures var x, y := Resultado(e).explicacoes, Resultado(e.(desejado := "")).explicacoes;
      x == [y[0], TextoNaoIdentificado] + y[1..]
  {
    var resto := CapacidadeFinanceira(e.orcamento, e.valorImovel) + Financiamento(e.financia);
    assert Nivel("") == 0;
    NotaInserida(PerfilUrbano(e.padraoBairro), Ajuste(0, TextoNaoIdentificado), resto);
    assert Ajustes(e) == [PerfilUrbano(e.padraoBairro)] + [Ajuste(0, TextoNaoIdentificado)] + resto;
    assert Ajustes(e.(desejado := "")) == [PerfilUrbano(e.padraoBairro)] + resto;
  }

  lemma NotaInserida(p: Ajuste, n: Ajuste, resto: seq<Ajuste>)
    ensures var y := Textos([p] + resto);
      Textos([p] + [n] + resto) == [y[0], n.texto] + y[1..]
  {
    var y := Textos([p] + resto);
    assert y[1..] == Textos(resto);
  }

  /** The four bands of the classification. */
  lemma ClassificacaoFaixas(valor: int)
    ensures Classificacao(valor) == "Excelente compatibilidade" <==> valor >= 80
    ensures Classificacao(valor) == "Boa compatibilidade" <==> 65 <= valor < 80
    ensures Classificacao(valor) == "Compatibilidade limitada" <==> 45 <= valor < 65
    ensures Classificacao(valor) == "Baixa compatibilidade" <==> valor < 45
  {
  }
}
