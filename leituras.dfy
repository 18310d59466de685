/** The reading texts of app/api/routes.py: the band a score or a price
    falls in and the text and decision summary shown for it. */
module Leituras {
  /** 0 for a healthy score (>= 70), 1 for attention (>= 45), 2 below. */
  function FaixaScore(valor: int): (f: nat)
    ensures f <= 2
  {
    if valor >= 70 then 0 else if valor >= 45 then 1 else 2
  }

  const InsightSaudavel := "Leitura executiva: o score esta em faixa saudavel. A decisao tende a ser sustentavel se a vistoria tecnica confirmar os pontos de conforto e documentacao."
  const InsightAtencao := "Leitura executiva: o score indica zona de atencao. Ha viabilidade, mas com necessidade de ajustes em padrao, area ou estrategia financeira."
  const InsightCritico := "Leitura executiva: o score esta em faixa critica para o cenario atual. A compra pode ocorrer, porem com maior chance de concessoes relevantes em conforto, liquidez ou custo total."

  /** `_insight_score`. */
  function InsightScore(valor: int): string
  {
    if valor >= 70 then InsightSaudavel
    else if valor >= 45 then InsightAtencao
    else InsightCritico
  }

  /** The dictionary `_resumo_decisao` returns. */
  datatype Resumo = Resumo(classe: string, mensagem: string, acao: string)

  const ResumoSeguir := Resumo("Seguir",
    "Cenario favoravel para avancar na negociacao, mantendo validacao documental e vistoria tecnica final.",
    "Acione corretor e engenheiro para fechamento com checklist de risco e validacao cartorial.")
  const ResumoAjustes := Resumo("Seguir com ajustes",
    "Ha viabilidade, mas com necessidade de calibrar padrao, area, ticket ou estrutura de financiamento.",
    "Negocie alternativas de bairro/tipo de imovel e rode nova simulacao financeira antes da proposta final.")
  const ResumoReavaliar := Resumo("Reavaliar",
    "Risco elevado de desalinhamento entre objetivo, bairro e custo total do ciclo imobiliario.",
    "Priorize bairros sugeridos, ajuste estrategia e somente retome fechamento apos nova rodada de analise.")

  /** `_resumo_decisao`. */
  function ResumoDecisao(scoreValor: int): Resumo
  {
    if scoreValor >= 70 then ResumoSeguir
    else if scoreValor >= 45 then ResumoAjustes
    else ResumoReavaliar
  }

  /** The insight text is chosen by the score band; 70 and 45 are the
      lowest scores of their bands. */
  lemma InsightScoreFaixa(valor: int)
    ensures InsightScore(valor) == InsightSaudavel <==> FaixaScore(valor) == 0
    ensures InsightScore(valor) == InsightAtencao <==> FaixaScore(valor) == 1
    ensures InsightScore(valor) == InsightCritico <==> FaixaScore(valor) == 2
    ensures FaixaScore(70) == 0 && FaixaScore(69) == 1 && FaixaScore(45) == 1 && FaixaScore(44) == 2
  {
  }

  /** The decision summary follows the same bands, so it always agrees with
      the insight text. */
  lemma ResumoDecisaoFaixa(valor: int)
    ensures ResumoDecisao(valor) == ResumoSeguir <==> FaixaScore(valor) == 0
    ensures ResumoDecisao(valor) == ResumoAjustes <==> FaixaScore(valor) == 1
    ensures ResumoDecisao(valor) == ResumoReavaliar <==> FaixaScore(valor) == 2
    ensures ResumoSeguir.classe == "Seguir" && ResumoAjustes.classe == "Seguir com ajustes"
      && ResumoReavaliar.classe == "Reavaliar"
  {
  }

  const FinanceiroIncompleto := "Leitura executiva: faltam valores completos para avaliar pressao financeira com precisao."
  const FinanceiroConfortavel := "Leitura executiva: relacao de preco confortavel frente ao orcamento, com margem para custos acessorios e ajustes pos-compra."
  const FinanceiroAdministravel := "Leitura executiva: relacao de preco administravel, porem exige disciplina no planejamento para nao reduzir a reserva de seguranca."
  const FinanceiroPressionado := "Leitura executiva: relacao de preco pressionada para o orcamento informado; recomenda-se reduzir exposicao financeira antes de fechar."

  /** `_insight_financeiro`. */
  function InsightFinanceiro(orcamento: real, valorImovel: real): string
  {
    if orcamento <= 0.0 || valorImovel <= 0.0 then FinanceiroIncompleto
    else
      var rel := valorImovel / orcamento;
      if rel <= 0.7 then FinanceiroConfortavel
      else if rel <= 0.9 then FinanceiroAdministravel
      else FinanceiroPressionado
  }

  /** The price-to-budget bands, stated on the price itself. */
  lemma InsightFinanceiroFaixas(orcamento: real, valorImovel: real)
    ensures InsightFinanceiro(orcamento, valorImovel) == FinanceiroIncompleto <==> orcamento <= 0.0 || valorImovel <= 0.0
    ensures orcamento > 0.0 && valorImovel > 0.0 ==>
      (InsightFinanceiro(orcamento, valorImovel) == FinanceiroConfortavel <==> valorImovel <= 0.7 * orcamento)
      && (InsightFinanceiro(orcamento, valorImovel) == FinanceiroAdministravel <==> 0.7 * orcamento < valorImovel <= 0.9 * orcamento)
      && (InsightFinanceiro(orcamento, valorImovel) == FinanceiroPressionado <==> valorImovel > 0.9 * orcamento)
  {
    if orcamento > 0.0 && valorImovel > 0.0 {
      var rel := valorImovel / orcamento;
      assert rel * orcamento == valorImovel;
      assert rel <= 0.7 <==> valorImovel <= 0.7 * orcamento;
      assert rel <= 0.9 <==> valorImovel <= 0.9 * orcamento;
    }
  }

}
