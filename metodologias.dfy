/** The construction-methodology table and the suggested execution
    calendar of app/api/routes.py. */
module Metodologias {
  import opened Base
  import opened Texto
  import opened Numero
  import opened Formatacao
  import opened Routes
  import Sugestoes
  import Cub

  /** One row of `_custo_m2_metodologia`. */
  datatype Metodologia = Metodologia(nome: string, m2: real, faixaPrazo: string, fontePreco: string)

  /** The steel-frame reference by tier, 4368 for any other tier. */
  function SteelReferencia(padrao: Option<string>): real
  {
    var txt := Lower(Strip(padrao.GetOr("")));
    if txt == "economico" then 2951.0
    else if txt == "medio" then 4368.0
    else if txt == "alto" then 5904.0
    else 4368.0
  }

  function Convencional(cub: real): (c: real)
    ensures c > 0.0
  {
    if cub > 0.0 then cub else 3000.0
  }

  function RealMax(a: real, b: real): real
  {
    if a >= b then a else b
  }

  /** `_custo_m2_metodologia`. */
  function CustoM2Metodologia(cub: real, padrao: Option<string>): seq<Metodologia>
  {
    var convencional := Convencional(cub);
    [Metodologia("Alvenaria convencional", convencional, "8 a 14 meses", "Base Lok\U{00E1}o (referencia CUB/SINAPI)"),
     Metodologia("Alvenaria estrutural", convencional * 0.92, "7 a 12 meses", "Base Lok\U{00E1}o (ganho de racionalizacao)"),
     Metodologia("Steel Frame", RealMax(convencional * 1.18, SteelReferencia(padrao)), "5 a 9 meses", "Benchmark setorial (Centro-Oeste)"),
     Metodologia("Painel EPS (isopor) + concreto", convencional * 1.06, "6 a 10 meses", "Base Lok\U{00E1}o (mercado regional)")]
  }

  /** Four rows in a fixed order; conventional masonry is the CUB value or
      3000 without one, and the others are derived from it. */
  lemma CustoM2MetodologiaValores(cub: real, padrao: Option<string>)
    ensures var t := CustoM2Metodologia(cub, padrao);
      var c := if cub > 0.0 then cub else 3000.0;
      |t| == 4
      && t[0].nome == "Alvenaria convencional" && t[1].nome == "Alvenaria estrutural"
      && t[2].nome == "Steel Frame" && t[3].nome == "Painel EPS (isopor) + concreto"
      && t[0].m2 == c && t[1].m2 == 0.92 * c && t[3].m2 == 1.06 * c
      && t[2].m2 >= 1.18 * c && t[2].m2 >= SteelReferencia(padrao)
      && (t[2].m2 == 1.18 * c || t[2].m2 == SteelReferencia(padrao))
      && (forall i :: 0 <= i < 4 ==> t[i].m2 > 0.0)
      && t[1].m2 < t[0].m2 < t[3].m2 < t[2].m2
  {
  }

  /** The steel reference is the tier's, 4368 for an unknown tier. */
  lemma SteelReferenciaCasos()
    ensures SteelReferencia(Some("alto")) == 5904.0
    ensures SteelReferencia(Some("economico")) == 2951.0
    ensures SteelReferencia(None) == 4368.0
  {
    Cub.TextoMinusculo("alto");
    Cub.TextoMinusculo("economico");
    assert Strip("") == "";
  }

  /** One row of `tabela_metodologias`. The two currency columns are kept
      as amounts and shown through `float_para_moeda` by the members below,
      so each row carries exactly the text the route puts in its dictionary. */
  datatype LinhaMetodologia = LinhaMetodologia(metodologia: string, valorM2: real, valorTotal: real,
                                               percentualOrcamento: real, areaMaxOrcamento: real,
                                               faixaPrazo: string, fontePreco: string)
  {
    /** `custo_m2`. */
    function CustoM2(): string
    {
      FloatParaMoeda(PyNum(valorM2))
    }

    /** `custo_total`. */
    function CustoTotalMoeda(): string
    {
      FloatParaMoeda(PyNum(valorTotal))
    }
  }

  /** `custo_total`: the m² cost over the reference area. */
  function CustoTotal(m2: real, areaRef: real): (c: real)
    ensures m2 > 0.0 && areaRef > 0.0 ==> c > 0.0
  {
    m2 * areaRef
  }

  /** `percentual_orcamento`: the total as a percentage of a positive
      budget, 0 without one. */
  function Percentual(custoTotal: real, orcamento: real): (p: real)
    ensures orcamento > 0.0 ==> p * orcamento == custoTotal * 100.0
    ensures orcamento <= 0.0 ==> p == 0.0
  {
    if orcamento > 0.0 then custoTotal / orcamento * 100.0 else 0.0
  }

  /** The largest area the budget pays for at a positive m² cost, 0
      otherwise. */
  function AreaMaxima(orcamento: real, m2: real): (a: real)
    ensures m2 > 0.0 ==> a * m2 == orcamento
    ensures m2 <= 0.0 ==> a == 0.0
  {
    if m2 > 0.0 then orcamento / m2 else 0.0
  }

  /** A row of `tabela_metodologias`. */
  function LinhaTabela(linha: Metodologia, areaRef: real, orcamento: real): LinhaMetodologia
  {
    var custoTotal := CustoTotal(linha.m2, areaRef);
    LinhaMetodologia(linha.nome, linha.m2, custoTotal,
                     Percentual(custoTotal, orcamento), Round1(AreaMaxima(orcamento, linha.m2)),
                     linha.faixaPrazo, linha.fontePreco)
  }

  /** Each row: the total is the m² cost over the reference area, its share
      of a positive budget is that total over the budget in percent, and the
      affordable area is the budget over the m² cost to one decimal. */
  lemma LinhaTabelaValores(linha: Metodologia, areaRef: real, orcamento: real)
    ensures var r := LinhaTabela(linha, areaRef, orcamento);
      r.metodologia == linha.nome && r.faixaPrazo == linha.faixaPrazo && r.fontePreco == linha.fontePreco
      && r.valorM2 == linha.m2 && r.valorTotal == linha.m2 * areaRef
      && (orcamento > 0.0 ==> r.percentualOrcamento * orcamento == r.valorTotal * 100.0)
      && (orcamento <= 0.0 ==> r.percentualOrcamento == 0.0)
      && (linha.m2 > 0.0 ==> r.areaMaxOrcamento == Round1(orcamento / linha.m2))
      && (linha.m2 <= 0.0 ==> r.areaMaxOrcamento == 0.0)
  {
    assert RoundHalfEven(0.0) == 0;
  }

  /** The rows of `tabela_metodologias`, one per methodology in order. */
  function Tabela(metodologias: seq<Metodologia>, areaRef: real, orcamento: real): (t: seq<LinhaMetodologia>)
    ensures |t| == |metodologias|
  {
    if |metodologias| == 0 then []
    else Tabela(metodologias[..|metodologias| - 1], areaRef, orcamento)
         + [LinhaTabela(metodologias[|metodologias| - 1], areaRef, orcamento)]
  }

  /** The `i`-th row is built from the `i`-th methodology. */
  lemma {:induction false} TabelaLinhas(metodologias: seq<Metodologia>, areaRef: real, orcamento: real, i: int)
    requires 0 <= i < |metodologias|
    ensures Tabela(metodologias, areaRef, orcamento)[i] == LinhaTabela(metodologias[i], areaRef, orcamento)
  {
    var n := |metodologias|;
    var p := metodologias[..n - 1];
    var t := Tabela(p, areaRef, orcamento);
    var u := LinhaTabela(metodologias[n - 1], areaRef, orcamento);
    assert Tabela(metodologias, areaRef, orcamento) == t + [u];
    if i < n - 1 {
      TabelaLinhas(p, areaRef, orcamento, i);
      assert (t + [u])[i] == t[i];
    }
  }

  /** The loop building `tabela_metodologias` (the reference area is 180
      when no area is given). */
  method TabelaMetodologias(metodologias: seq<Metodologia>, area: real, orcamento: real)
    returns (tabela: seq<LinhaMetodologia>)
    ensures tabela == Tabela(metodologias, Sugestoes.AreaReferencia(area), orcamento)
  {
    var areaRef := if area > 0.0 then area else 180.0;
    tabela := [];
    for i := 0 to |metodologias|
      invariant tabela == Tabela(metodologias[..i], areaRef, orcamento)
    {
      assert metodologias[..i + 1][..i] == metodologias[..i];
      tabela := tabela + [LinhaTabela(metodologias[i], areaRef, orcamento)];
    }
    assert metodologias[..|metodologias|] == metodologias;
  }

  // ---------------------------------------------------------------------
  // Execution calendar

  /** `re.findall(r"\d+", s)` read as integers: the maximal runs of digits,
      in order. */
  function Numeros(s: string): seq<nat>
    decreases |s|
  {
    if |s| == 0 then []
    else if !IsDigit(s[0]) then Numeros(s[1..])
    else
      var k := FimNumero(s);
      [DigitsValue(s[..k])] + Numeros(s[k..])
  }

  /** The length of the run of digits at the start of `s`. */
  function FimNumero(s: string): (k: nat)
    requires |s| > 0 && IsDigit(s[0])
    ensures 1 <= k <= |s| && AllDigits(s[..k]) && (k < |s| ==> !IsDigit(s[k]))
    decreases |s|
  {
    if |s| == 1 || !IsDigit(s[1]) then 1
    else
      var k := 1 + FimNumero(s[1..]);
      assert s[..k] == [s[0]] + s[1..][..k - 1];
      k
  }

  lemma {:induction false} FimNumeroDe(d: string, r: string)
    requires |d| > 0 && AllDigits(d) && (|r| == 0 || !IsDigit(r[0]))
    ensures FimNumero(d + r) == |d|
    decreases |d|
  {
    var s := d + r;
    if |d| > 1 {
      assert s[1..] == d[1..] + r;
      FimNumeroDe(d[1..], r);
    } else if |r| > 0 {
      assert s[1] == r[0];
    }
  }

  lemma NumerosDigitos(d: string, r: string)
    requires |d| > 0 && AllDigits(d) && (|r| == 0 || !IsDigit(r[0]))
    ensures Numeros(d + r) == [DigitsValue(d)] + Numeros(r)
  {
    FimNumeroDe(d, r);
    var s := d + r;
    assert s[..|d|] == d && s[|d|..] == r;
  }

  /** Text without digits adds no number. */
  lemma {:induction false} NumerosSemDigitos(p: string, r: string)
    requires SemDigitos(p)
    ensures Numeros(p + r) == Numeros(r)
  {
    if |p| == 0 {
      assert p + r == r;
    } else {
      var s := p + r;
      assert s[0] == p[0] && !IsDigit(p[0]);
      assert s[1..] == p[1..] + r;
      assert SemDigitos(p[1..]) by {
        forall i | 0 <= i < |p[1..]| ensures !IsDigit(p[1..][i]) {
          assert p[1..][i] == p[i + 1];
        }
      }
      NumerosSemDigitos(p[1..], r);
    }
  }

  /** `prazo_medio`: the truncated mean of the first two numbers of the
      range text, 10 when it has fewer than two. */
  function PrazoMedio(faixa: string): nat
  {
    var partes := Numeros(faixa);
    if |partes| >= 2 then (partes[0] + partes[1]) / 2 else 10
  }

  predicate SemDigitos(s: string)
  {
    forall i :: 0 <= i < |s| ==> !IsDigit(s[i])
  }

  /** Two runs of digits separated and followed by text without digits give
      exactly their two numbers. */
  lemma NumerosFaixa(dx: string, meio: string, dy: string, fim: string)
    requires |dx| > 0 && AllDigits(dx) && |dy| > 0 && AllDigits(dy)
    requires |meio| > 0 && SemDigitos(meio) && SemDigitos(fim)
    ensures Numeros(dx + (meio + (dy + fim))) == [DigitsValue(dx), DigitsValue(dy)]
  {
    var depois := dy + fim;
    var resto := meio + depois;
    assert resto[0] == meio[0];
    NumerosDigitos(dx, resto);
    NumerosSemDigitos(meio, depois);
    assert |fim| == 0 || !IsDigit(fim[0]);
    NumerosDigitos(dy, fim);
    NumerosSemDigitos(fim, []);
    assert fim + [] == fim;
    var n := Numeros(dx + resto);
    assert n == [DigitsValue(dx)] + Numeros(depois);
  }

  /** For a range written "x a y meses" the mean is `(x + y) / 2`. */
  lemma PrazoMedioFaixa(dx: string, dy: string)
    requires |dx| > 0 && AllDigits(dx) && |dy| > 0 && AllDigits(dy)
    ensures PrazoMedio(dx + " a " + dy + " meses") == (DigitsValue(dx) + DigitsValue(dy)) / 2
  {
    assert dx + " a " + dy + " meses" == dx + (" a " + (dy + " meses"));
    NumerosFaixa(dx, " a ", dy, " meses");
  }

  /** With no digit the mean is 10. */
  lemma PrazoMedioSemNumeros(faixa: string)
    requires SemDigitos(faixa)
    ensures PrazoMedio(faixa) == 10
  {
    NumerosSemDigitos(faixa, []);
    assert faixa + [] == faixa;
  }

  /** The start year: this year up to August, the next afterwards. */
  function AnoInicio(ano: nat, mes: int): (r: nat)
    ensures mes <= 8 ==> r == ano
    ensures mes > 8 ==> r == ano + 1
  {
    if mes <= 8 then ano else ano + 1
  }

  const MesInicio := 5

  /** One row of `calendario_exec`. */
  datatype Etapa = Etapa(metodologia: string, inicioSugerido: string, entregaEstimativa: string, prazoMedioMeses: nat)

  function EtapaDe(linha: Metodologia, anoInicio: nat): Etapa
  {
    EtapaCom(linha.nome, PrazoMedio(linha.faixaPrazo), anoInicio)
  }

  /** The row of a methodology named `nome` taking `prazo` months. */
  function EtapaCom(nome: string, prazo: nat, anoInicio: nat): Etapa
  {
    var (anoFim, mesFim) := SomarMeses(anoInicio, MesInicio, prazo);
    Etapa(nome, MesPt(MesInicio) + "/" + NatToString(anoInicio),
          MesPt(mesFim) + "/" + NatToString(anoFim), prazo)
  }

  /** Every row starts in May of the start year and ends its duration
      later, no earlier than the start year. */
  lemma EtapaDeDatas(nome: string, prazo: nat, anoInicio: nat)
    ensures var e := EtapaCom(nome, prazo, anoInicio);
      var (anoFim, mesFim) := SomarMeses(anoInicio, MesInicio, prazo);
      e.prazoMedioMeses == prazo
      && e.inicioSugerido == "Maio/" + NatToString(anoInicio)
      && e.entregaEstimativa == MesesPt[mesFim - 1] + "/" + NatToString(anoFim)
      && anoFim * 12 + mesFim == anoInicio * 12 + MesInicio + prazo
      && anoFim >= anoInicio
  {
    var (anoFim, mesFim) := SomarMeses(anoInicio, MesInicio, prazo);
    assert (mesFim - 1) % 12 == mesFim - 1;
  }

  /** The loop building `calendario_exec`; `ano` and `mes` are today's date. */
  method CalendarioExec(metodologias: seq<Metodologia>, ano: nat, mes: int) returns (calendario: seq<Etapa>)
    ensures |calendario| == |metodologias|
    ensures forall i :: 0 <= i < |calendario| ==> calendario[i] == EtapaDe(metodologias[i], AnoInicio(ano, mes))
  {
    var anoInicio := if mes <= 8 then ano else ano + 1;
    calendario := [];
    for i := 0 to |metodologias|
      invariant |calendario| == i
      invariant forall k :: 0 <= k < i ==> calendario[k] == EtapaDe(metodologias[k], anoInicio)
    {
      var linha := metodologias[i];
      var prazoMedio := PrazoMedio(linha.faixaPrazo);
      var (anoFim, mesFim) := SomarMeses(anoInicio, MesInicio, prazoMedio);
      calendario := calendario + [Etapa(linha.nome, MesPt(MesInicio) + "/" + NatToString(anoInicio),
                                        MesPt(mesFim) + "/" + NatToString(anoFim), prazoMedio)];
    }
  }
}
