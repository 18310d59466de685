/** The financial analysis of app/services/financeiro.py: purchase and
    construction scenarios built from three fixed fee tables, each compared
    with the budget, a ticket-to-budget band and a flat financing estimate. */
module Financeiro {
  import opened Base
  import opened Formatacao
  import opened Numero

  /** `_safe_div`: the quotient, or 0 when the denominator is not positive. */
  function SafeDiv(numerador: real, denominador: real): (r: real)
    ensures denominador <= 0.0 ==> r == 0.0
    ensures denominador > 0.0 ==> r * denominador == numerador
  {
    if denominador <= 0.0 then 0.0 else numerador / denominador
  }

  /** `_to_float` is `float(valor)` with 0 where it raises: `Formatacao.ParaFloat`. */
  lemma ToFloatFalha(s: string)
    requires PythonFloat(s).None?
    ensures ParaFloat(PyStr(s)) == 0.0 && ParaFloat(PyNone) == 0.0
  {
  }

  // ---------------------------------------------------------------------
  // Purchase scenarios
  // ---------------------------------------------------------------------

  /** One row of the purchase fee table: rates on the price and a fixed bank fee. */
  datatype PremissaCompra = PremissaCompra(nome: string, itbi: real, cartorio: real, bancario: real,
                                           adequacoes: real, reserva: real)

  /** A scenario's figures compared with the budget (the two keys the
      analysis adds to every projection). */
  datatype Comparacao = Comparacao(saldo: real, percentual: real)

  datatype ProjecaoCompra = ProjecaoCompra(cenario: string, itbi: real, cartorio: real, bancario: real,
                                           adequacoes: real, reserva: real, total: real,
                                           comparacao: Option<Comparacao>)

  /** The purchase table, in the dictionary's order. */
  function PremissasCompra(financiar: bool): (r: seq<PremissaCompra>)
    ensures |r| == 3
  {
    [PremissaCompra("Conservador", 0.020, 0.008, if financiar then 2500.0 else 800.0, 0.020, 0.040),
     PremissaCompra("Base", 0.025, 0.011, if financiar then 4500.0 else 1200.0, 0.050, 0.060),
     PremissaCompra("Estressado", 0.030, 0.015, if financiar then 7000.0 else 1800.0, 0.080, 0.100)]
  }

  /** One iteration of the purchase loop. */
  function ProjetarCompra(valorImovel: real, p: PremissaCompra): ProjecaoCompra
  {
    var itbi := valorImovel * p.itbi;
    var cartorio := valorImovel * p.cartorio;
    var adequacoes := valorImovel * p.adequacoes;
    var reserva := valorImovel * p.reserva;
    ProjecaoCompra(p.nome, itbi, cartorio, p.bancario, adequacoes, reserva,
                   valorImovel + itbi + cartorio + p.bancario + adequacoes + reserva, None)
  }

  /** `_calcular_cenarios_compra`. */
  function CenariosCompra(valorImovel: real, financiar: bool): seq<ProjecaoCompra>
  {
    if valorImovel <= 0.0 then []
    else
      var ps := PremissasCompra(financiar);
      seq(|ps|, k requires 0 <= k < |ps| => ProjetarCompra(valorImovel, ps[k]))
  }

  /** The loop of `_calcular_cenarios_compra`: one projection appended per table row. */
  method CalcularCenariosCompra(valorImovel: real, financiar: bool) returns (projecoes: seq<ProjecaoCompra>)
    ensures projecoes == CenariosCompra(valorImovel, financiar)
  {
    if valorImovel <= 0.0 {
      return [];
    }
    var premissas := PremissasCompra(financiar);
    projecoes := [];
    for i := 0 to |premissas|
      invariant |projecoes| == i
      invariant forall k :: 0 <= k < i ==> projecoes[k] == ProjetarCompra(valorImovel, premissas[k])
    {
      var p := premissas[i];
      var itbi := valorImovel * p.itbi;
      var cartorio := valorImovel * p.cartorio;
      var bancario := p.bancario;
      var adequacoes := valorImovel * p.adequacoes;
      var reserva := valorImovel * p.reserva;
      var total := valorImovel + itbi + cartorio + bancario + adequacoes + reserva;
      projecoes := projecoes + [ProjecaoCompra(p.nome, itbi, cartorio, bancario, adequacoes, reserva, total, None)];
    }
  }

  /** Three purchase scenarios when the price is positive, none otherwise;
      each total is the price plus its rates plus the bank fee, and the
      totals strictly increase from Conservador to Estressado. */
  lemma CenariosCompraTotais(valorImovel: real, financiar: bool)
    ensures var r := CenariosCompra(valorImovel, financiar);
      (valorImovel <= 0.0 <==> r == [])
      && (valorImovel > 0.0 ==>
            |r| == 3
            && r[0].cenario == "Conservador" && r[1].cenario == "Base" && r[2].cenario == "Estressado"
            && r[0].bancario == (if financiar then 2500.0 else 800.0)
            && r[1].bancario == (if financiar then 4500.0 else 1200.0)
            && r[2].bancario == (if financiar then 7000.0 else 1800.0)
            && r[0].total == valorImovel * 1.088 + r[0].bancario
            && r[1].total == valorImovel * 1.146 + r[1].bancario
            && r[2].total == valorImovel * 1.225 + r[2].bancario
            && r[0].total < r[1].total < r[2].total)
  {
    var r := CenariosCompra(valorImovel, financiar);
    if valorImovel > 0.0 {
      assert |r| == 3;
    }
  }

  // ---------------------------------------------------------------------
  // Construction scenarios
  // ---------------------------------------------------------------------

  datatype PremissaConstrucao = PremissaConstrucao(nome: string, projetos: real, aprovacoes: real,
                                                   infraestrutura: real, contingencia: real)

  datatype ProjecaoConstrucao = ProjecaoConstrucao(cenario: string, projetos: real, aprovacoes: real,
                                                   infraestrutura: real, contingencia: real, total: real,
                                                   comparacao: Option<Comparacao>)

  function PremissasConstrucao(): (r: seq<PremissaConstrucao>)
    ensures |r| == 3
  {
    [PremissaConstrucao("Conservador", 0.040, 0.010, 0.070, 0.080),
     PremissaConstrucao("Base", 0.060, 0.015, 0.100, 0.120),
     PremissaConstrucao("Estressado", 0.080, 0.020, 0.130, 0.180)]
  }

  function ProjetarConstrucao(custoObra: real, p: PremissaConstrucao): ProjecaoConstrucao
  {
    var projetos := custoObra * p.projetos;
    var aprovacoes := custoObra * p.aprovacoes;
    var infraestrutura := custoObra * p.infraestrutura;
    var contingencia := custoObra * p.contingencia;
    ProjecaoConstrucao(p.nome, projetos, aprovacoes, infraestrutura, contingencia,
                       custoObra + projetos + aprovacoes + infraestrutura + contingencia, None)
  }

  /** `_calcular_cenarios_construcao`. */
  function CenariosConstrucao(custoObra: real): seq<ProjecaoConstrucao>
  {
    if custoObra <= 0.0 then []
    else
      var ps := PremissasConstrucao();
      seq(|ps|, k requires 0 <= k < |ps| => ProjetarConstrucao(custoObra, ps[k]))
  }

  method CalcularCenariosConstrucao(custoObra: real) returns (projecoes: seq<ProjecaoConstrucao>)
    ensures projecoes == CenariosConstrucao(custoObra)
  {
    if custoObra <= 0.0 {
      return [];
    }
    var premissas := PremissasConstrucao();
    projecoes := [];
    for i := 0 to |premissas|
      invariant |projecoes| == i
      invariant forall k :: 0 <= k < i ==> projecoes[k] == ProjetarConstrucao(custoObra, premissas[k])
    {
      var p := premissas[i];
      var projetos := custoObra * p.projetos;
      var aprovacoes := custoObra * p.aprovacoes;
      var infraestrutura := custoObra * p.infraestrutura;
      var contingencia := custoObra * p.contingencia;
      var total := custoObra + projetos + aprovacoes + infraestrutura + contingencia;
      projecoes := projecoes + [ProjecaoConstrucao(p.nome, projetos, aprovacoes, infraestrutura, contingencia, total, None)];
    }
  }

  /** Three construction scenarios when the cost is positive; each total is
      the cost times one plus its four rates, strictly increasing. */
  lemma CenariosConstrucaoTotais(custoObra: real)
    ensures var r := CenariosConstrucao(custoObra);
      (custoObra <= 0.0 <==> r == [])
      && (custoObra > 0.0 ==>
            |r| == 3
            && r[0].cenario == "Conservador" && r[1].cenario == "Base" && r[2].cenario == "Estressado"
            && r[0].total == custoObra * 1.200
            && r[1].total == custoObra * 1.295
            && r[2].total == custoObra * 1.410
            && r[0].total < r[1].total < r[2].total)
  {
    var r := CenariosConstrucao(custoObra);
    if custoObra > 0.0 {
      assert |r| == 3;
    }
  }

  // ---------------------------------------------------------------------
  // The analysis
  // ---------------------------------------------------------------------

  /** The keyword arguments; `None` stands for a missing one. */
  datatype Parametros = Parametros(orcamento: Py, valorImovel: Py, area: Py, valorM2: Py, renda: Py,
                                   financiar: bool, prazoMeses: Py)

  datatype Financiamento = Financiamento(entradaMinima: real, parcelaEstimada: real, comprometimentoRenda: real)

  /** The returned dictionary; an optional key that is not set is `None`. */
  datatype Resultado = Resultado(
    orcamento: real, valorImovel: real, area: real, valorM2: real,
    mensagens: seq<string>,
    custoEstimado: Option<real>,
    percentualTicket: Option<real>,
    financiamento: Option<Financiamento>,
    projecoesCompra: seq<ProjecaoCompra>,
    projecoesConstrucao: seq<ProjecaoConstrucao>)

  const TextoConfortavel := "Ticket de compra em faixa confortavel frente ao orcamento."
  const TextoAdministravel := "Ticket em faixa administravel, com necessidade de controle de custos."
  const TextoPressionado := "Ticket pressionado para o orcamento informado."
  const TextoSimulacao := "Simulacao simplificada: use como referencia inicial, nao como proposta bancaria."

  /** `int(_to_float(prazo_meses)) or 360`. */
  function Prazo(v: Py): (n: int)
    ensures n != 0
    ensures TruncZero(ParaFloat(v)) == 0 ==> n == 360
  {
    var m := TruncZero(ParaFloat(v));
    if m == 0 then 360 else m
  }

  /** The ticket band message. */
  function MensagemTicket(percentual: real): (m: string)
    ensures m == TextoConfortavel <==> percentual <= 70.0
    ensures m == TextoAdministravel <==> 70.0 < percentual <= 90.0
    ensures m == TextoPressionado <==> percentual > 90.0
  {
    if percentual <= 70.0 then TextoConfortavel
    else if percentual <= 90.0 then TextoAdministravel
    else TextoPressionado
  }

  /** The installment: the financed balance over `max(1, prazo)` months. */
  function Parcela(saldo: real, prazo: int): real
  {
    saldo / Max(1, prazo) as real
  }

  function Financiar(valorImovel: real, renda: real, prazo: int): Financiamento
  {
    var entrada := valorImovel * 0.2;
    var parcela := Parcela(valorImovel - entrada, prazo);
    Financiamento(entrada, parcela, SafeDiv(parcela, renda) * 100.0)
  }

  /** The two keys the analysis adds to a projection of total `total`. */
  function Comparar(orcamento: real, total: real): (c: Comparacao)
    ensures c.saldo + total == orcamento
    ensures orcamento > 0.0 ==> c.percentual * orcamento == total * 100.0
    ensures orcamento <= 0.0 ==> c.percentual == 0.0
  {
    Comparacao(orcamento - total, SafeDiv(total, orcamento) * 100.0)
  }

  function CompararCompra(ps: seq<ProjecaoCompra>, orcamento: real): (r: seq<ProjecaoCompra>)
    ensures |r| == |ps|
  {
    seq(|ps|, k requires 0 <= k < |ps| => ps[k].(comparacao := Some(Comparar(orcamento, ps[k].total))))
  }

  function CompararConstrucao(ps: seq<ProjecaoConstrucao>, orcamento: real): (r: seq<ProjecaoConstrucao>)
    ensures |r| == |ps|
  {
    seq(|ps|, k requires 0 <= k < |ps| => ps[k].(comparacao := Some(Comparar(orcamento, ps[k].total))))
  }

  /** The estimated construction cost. */
  function CustoEstimado(valorM2: real, area: real): real
  {
    valorM2 * area
  }

  /** The dictionary before the scenario projections are attached. */
  function Indicadores(p: Parametros): Resultado
  {
    IndicadoresDe(ParaFloat(p.orcamento), ParaFloat(p.valorImovel), ParaFloat(p.area), ParaFloat(p.valorM2),
                  ParaFloat(p.renda), p.financiar, Prazo(p.prazoMeses))
  }

  /** The same dictionary, from the parsed arguments. */
  function IndicadoresDe(orcamento: real, valorImovel: real, area: real, valorM2: real, renda: real,
                         financiar: bool, prazo: int): Resultado
  {
    var custo := if valorM2 > 0.0 && area > 0.0 then Some(CustoEstimado(valorM2, area)) else None;
    var percentual := if valorImovel > 0.0 then Some(SafeDiv(valorImovel, orcamento) * 100.0) else None;
    var financiamento :=
      if financiar && valorImovel > 0.0 then Some(Financiar(valorImovel, renda, prazo)) else None;
    var mensagens :=
      (if percentual.Some? then [MensagemTicket(percentual.value)] else [])
      + (if financiamento.Some? then [TextoSimulacao] else []);
    Resultado(orcamento, valorImovel, area, valorM2, mensagens, custo, percentual, financiamento, [], [])
  }

  /** What `analisar_financeiro` returns. */
  function Analise(p: Parametros): Resultado
  {
    AnaliseDe(Indicadores(p), p.financiar)
  }

  /** The projections attached to the indicators `r`. */
  function AnaliseDe(r: Resultado, financiar: bool): Resultado
  {
    r.(projecoesCompra := CompararCompra(CenariosCompra(r.valorImovel, financiar), r.orcamento),
       projecoesConstrucao := CompararConstrucao(CenariosConstrucao(r.custoEstimado.GetOr(0.0)), r.orcamento))
  }

  /** `analisar_financeiro`: the result dictionary is built up key by key,
      its message list appended to, and every projection updated in place. */
  method AnalisarFinanceiro(p: Parametros) returns (resultado: Resultado)
    ensures resultado == Analise(p)
  {
    resultado := CalcularIndicadores(p);
    var orcamento := resultado.orcamento;
    var valorImovel := resultado.valorImovel;
    var projecoesCompra := CalcularCenariosCompra(valorImovel, p.financiar);
    projecoesCompra := CompletarCompra(projecoesCompra, orcamento);
    resultado := resultado.(projecoesCompra := projecoesCompra);

    var custoObra := resultado.custoEstimado.GetOr(0.0);
    var projecoesConstrucao := CalcularCenariosConstrucao(custoObra);
    projecoesConstrucao := CompletarConstrucao(projecoesConstrucao, orcamento);
    resultado := resultado.(projecoesConstrucao := projecoesConstrucao);
  }

  /** The first part of `analisar_financeiro`: the parsed inputs, the
      estimated cost, the ticket band and the financing estimate. */
  method CalcularIndicadores(p: Parametros) returns (resultado: Resultado)
    ensures resultado == Indicadores(p)
  {
    var orcamento := ParaFloat(p.orcamento);
    var valorImovel := ParaFloat(p.valorImovel);
    var area := ParaFloat(p.area);
    var valorM2 := ParaFloat(p.valorM2);
    var renda := ParaFloat(p.renda);
    var prazoMeses := Prazo(p.prazoMeses);
    resultado := MontarIndicadores(orcamento, valorImovel, area, valorM2, renda, p.financiar, prazoMeses);
  }

  /** The key-by-key construction of the indicators from the parsed
      arguments. */
  method MontarIndicadores(orcamento: real, valorImovel: real, area: real, valorM2: real, renda: real,
                           financiar: bool, prazoMeses: int) returns (resultado: Resultado)
    ensures resultado == IndicadoresDe(orcamento, valorImovel, area, valorM2, renda, financiar, prazoMeses)
  {
    resultado := Resultado(orcamento, valorImovel, area, valorM2, [], None, None, None, [], []);

    if valorM2 > 0.0 && area > 0.0 {
      resultado := resultado.(custoEstimado := Some(CustoEstimado(valorM2, area)));
    }

    if valorImovel > 0.0 {
      var percentualTicket := SafeDiv(valorImovel, orcamento) * 100.0;
      resultado := resultado.(percentualTicket := Some(percentualTicket));
      if percentualTicket <= 70.0 {
        resultado := resultado.(mensagens := resultado.mensagens + [TextoConfortavel]);
      } else if percentualTicket <= 90.0 {
        resultado := resultado.(mensagens := resultado.mensagens + [TextoAdministravel]);
      } else {
        resultado := resultado.(mensagens := resultado.mensagens + [TextoPressionado]);
      }
    }

    if financiar && valorImovel > 0.0 {
      var entradaMinima := valorImovel * 0.2;
      var saldoFinanciado := valorImovel - entradaMinima;
      var parcelaEstimada := Parcela(saldoFinanciado, prazoMeses);
      var comprometimento := SafeDiv(parcelaEstimada, renda) * 100.0;
      resultado := resultado.(financiamento := Some(Financiamento(entradaMinima, parcelaEstimada, comprometimento)));
      resultado := resultado.(mensagens := resultado.mensagens + [TextoSimulacao]);
    }
  }

  /** The loop adding the budget comparison to each purchase projection. */
  method CompletarCompra(linhas: seq<ProjecaoCompra>, orcamento: real) returns (r: seq<ProjecaoCompra>)
    ensures r == CompararCompra(linhas, orcamento)
  {
    r := linhas;
    for i := 0 to |r|
      invariant |r| == |linhas|
      invariant forall k :: 0 <= k < i ==> r[k] == linhas[k].(comparacao := Some(Comparar(orcamento, linhas[k].total)))
      invariant forall k :: i <= k < |r| ==> r[k] == linhas[k]
    {
      var linha := r[i];
      var c := Comparacao(orcamento - linha.total, SafeDiv(linha.total, orcamento) * 100.0);
      r := r[i := linha.(comparacao := Some(c))];
    }
  }

  /** The same loop over the construction projections. */
  method CompletarConstrucao(linhas: seq<ProjecaoConstrucao>, orcamento: real) returns (r: seq<ProjecaoConstrucao>)
    ensures r == CompararConstrucao(linhas, orcamento)
  {
    r := linhas;
    for i := 0 to |r|
      invariant |r| == |linhas|
      invariant forall k :: 0 <= k < i ==> r[k] == linhas[k].(comparacao := Some(Comparar(orcamento, linhas[k].total)))
      invariant forall k :: i <= k < |r| ==> r[k] == linhas[k]
    {
      var linha := r[i];
      var c := Comparacao(orcamento - linha.total, SafeDiv(linha.total, orcamento) * 100.0);
      r := r[i := linha.(comparacao := Some(c))];
    }
  }

  /** The messages: none without a positive price; otherwise the ticket
      band first (the comfortable one when there is no budget), then the
      simulation note exactly when financing is asked for. */
  lemma AnaliseMensagens(p: Parametros)
    ensures var r := Analise(p);
      |r.mensagens| <= 2
      && (r.mensagens == [] <==> r.valorImovel <= 0.0)
      && (r.valorImovel > 0.0 ==>
            r.percentualTicket.Some?
            && r.mensagens[0] == MensagemTicket(r.percentualTicket.value)
            && (r.orcamento <= 0.0 ==> r.mensagens[0] == TextoConfortavel)
            && (|r.mensagens| == 2 <==> p.financiar)
            && (p.financiar ==> r.mensagens[1] == TextoSimulacao))
  {
    var r0 := Indicadores(p);
    var r := Analise(p);
    assert r.mensagens == r0.mensagens && r.percentualTicket == r0.percentualTicket;
    MensagensDe(ParaFloat(p.orcamento), ParaFloat(p.valorImovel), ParaFloat(p.area), ParaFloat(p.valorM2),
                ParaFloat(p.renda), p.financiar, Prazo(p.prazoMeses));
  }

  /** `AnaliseMensagens` on the parsed arguments. */
  lemma MensagensDe(orcamento: real, valorImovel: real, area: real, valorM2: real, renda: real,
                    financiar: bool, prazo: int)
    ensures var r := IndicadoresDe(orcamento, valorImovel, area, valorM2, renda, financiar, prazo);
      |r.mensagens| <= 2
      && (r.mensagens == [] <==> valorImovel <= 0.0)
      && (valorImovel > 0.0 ==>
            r.percentualTicket.Some?
            && r.mensagens[0] == MensagemTicket(r.percentualTicket.value)
            && (orcamento <= 0.0 ==> r.mensagens[0] == TextoConfortavel)
            && (|r.mensagens| == 2 <==> financiar)
            && (financiar ==> r.mensagens[1] == TextoSimulacao))
  {
  }

  /** The financing estimate of `r`: present exactly when financing is
      asked for with a positive price; a fifth of the price as entry, the
      rest spread over `max(1, prazo)` instalments, and the instalment as a
      percentage of a positive income. */
  predicate FinanciamentoCoerente(r: Resultado, financiar: bool, renda: real, prazo: int)
  {
    (r.financiamento.Some? <==> financiar && r.valorImovel > 0.0)
    && (r.financiamento.Some? ==>
          var f := r.financiamento.value;
          f.entradaMinima == r.valorImovel / 5.0
          && f.parcelaEstimada * Max(1, prazo) as real == r.valorImovel * 0.8
          && (renda > 0.0 ==> f.comprometimentoRenda * renda == f.parcelaEstimada * 100.0))
  }

  /** The financing estimate of the analysis, with the parsed income and the
      term (where a zero term means 360). */
  lemma AnaliseFinanciamento(p: Parametros)
    ensures FinanciamentoCoerente(Analise(p), p.financiar, ParaFloat(p.renda), Prazo(p.prazoMeses))
  {
    FinanciamentoDe(ParaFloat(p.orcamento), ParaFloat(p.valorImovel), ParaFloat(p.area), ParaFloat(p.valorM2),
                    ParaFloat(p.renda), p.financiar, Prazo(p.prazoMeses));
  }

  /** `AnaliseFinanciamento` on the parsed arguments. */
  lemma FinanciamentoDe(orcamento: real, valorImovel: real, area: real, valorM2: real, renda: real,
                        financiar: bool, prazo: int)
    ensures FinanciamentoCoerente(AnaliseDe(IndicadoresDe(orcamento, valorImovel, area, valorM2, renda, financiar, prazo),
                                            financiar), financiar, renda, prazo)
  {
    if financiar && valorImovel > 0.0 {
      var m := Max(1, prazo) as real;
      var saldo := valorImovel - valorImovel * 0.2;
      assert Parcela(saldo, prazo) * m == saldo;
    }
  }

  /** The construction scenarios exist exactly when both the m² value and
      the area are positive; every scenario of either kind carries its
      balance and percentage of the budget. */
  lemma AnaliseProjecoes(p: Parametros)
    ensures var r := Analise(p);
      (r.projecoesCompra == [] <==> r.valorImovel <= 0.0)
      && (r.projecoesConstrucao == [] <==> !(r.valorM2 > 0.0 && r.area > 0.0))
      && (r.custoEstimado.Some? <==> r.valorM2 > 0.0 && r.area > 0.0)
      && (forall k :: 0 <= k < |r.projecoesCompra| ==>
            r.projecoesCompra[k].comparacao == Some(Comparar(r.orcamento, r.projecoesCompra[k].total)))
      && (forall k :: 0 <= k < |r.projecoesConstrucao| ==>
            r.projecoesConstrucao[k].comparacao == Some(Comparar(r.orcamento, r.projecoesConstrucao[k].total)))
  {
    ProjecoesDe(ParaFloat(p.orcamento), ParaFloat(p.valorImovel), ParaFloat(p.area), ParaFloat(p.valorM2),
                ParaFloat(p.renda), p.financiar, Prazo(p.prazoMeses));
  }

  /** `AnaliseProjecoes` on the parsed arguments. */
  lemma ProjecoesDe(orcamento: real, valorImovel: real, area: real, valorM2: real, renda: real,
                    financiar: bool, prazo: int)
    ensures var r := AnaliseDe(IndicadoresDe(orcamento, valorImovel, area, valorM2, renda, financiar, prazo), financiar);
      (r.projecoesCompra == [] <==> r.valorImovel <= 0.0)
      && (r.projecoesConstrucao == [] <==> !(r.valorM2 > 0.0 && r.area > 0.0))
      && (r.custoEstimado.Some? <==> r.valorM2 > 0.0 && r.area > 0.0)
      && (forall k :: 0 <= k < |r.projecoesCompra| ==>
            r.projecoesCompra[k].comparacao == Some(Comparar(r.orcamento, r.projecoesCompra[k].total)))
      && (forall k :: 0 <= k < |r.projecoesConstrucao| ==>
            r.projecoesConstrucao[k].comparacao == Some(Comparar(r.orcamento, r.projecoesConstrucao[k].total)))
  {
    CenariosCompraTotais(valorImovel, financiar);
    if valorM2 > 0.0 && area > 0.0 {
      var c := CustoEstimado(valorM2, area);
      assert c > 0.0 by {
        assert valorM2 * area > 0.0 * area;
      }
      CenariosConstrucaoTotais(c);
    } else {
      CenariosConstrucaoTotais(0.0);
    }
  }

  /** A missing term and a zero term both mean 360 months. */
  lemma PrazoPadrao()
    ensures Prazo(PyNone) == 360 && Prazo(PyNum(0.0)) == 360 && Prazo(PyNum(0.5)) == 360
    ensures Prazo(PyNum(120.9)) == 120 && Prazo(PyNum(-3.0)) == -3
  {
  }
}
