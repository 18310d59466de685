/** app/services/textos_dinamicos.py: the three report paragraphs chosen by
    the compatibility score, each from a high, a middle and a low text. */
module TextosDinamicos {
  import opened Base

  const CompatibilidadeAlta :=
    "A an\U{00E1}lise indica alta compatibilidade entre o perfil do bairro e sua capacidade " +
    "financeira atual. Isso significa que o padr\U{00E3}o urbano, o valor de mercado e o tipo " +
    "de im\U{00F3}vel desejado est\U{00E3}o bem alinhados, reduzindo riscos de frustra\U{00E7}\U{00E3}o futura."
  const CompatibilidadeModerada :=
    "A compatibilidade observada \U{00E9} moderada. O bairro apresenta potencial de atendimento " +
    "\U{00E0}s suas expectativas, por\U{00E9}m ajustes estrat\U{00E9}gicos podem ser necess\U{00E1}rios, seja no padr\U{00E3}o " +
    "construtivo, na \U{00E1}rea do im\U{00F3}vel ou na forma de aquisi\U{00E7}\U{00E3}o."
  const CompatibilidadeBaixa :=
    "A an\U{00E1}lise aponta baixa compatibilidade entre o perfil do bairro e sua capacidade " +
    "financeira atual. Isso n\U{00E3}o invalida a escolha, mas indica risco elevado de frustra\U{00E7}\U{00E3}o " +
    "ou necessidade de concess\U{00F5}es significativas."

  const FinanceiroAlto :=
    "O or\U{00E7}amento informado demonstra boa capacidade de absor\U{00E7}\U{00E3}o dos custos m\U{00E9}dios praticados " +
    "no bairro analisado. Isso permite maior liberdade de escolha quanto a padr\U{00E3}o de acabamento, " +
    "solu\U{00E7}\U{00F5}es construtivas e eventuais melhorias."
  const FinanceiroModerado :=
    "O or\U{00E7}amento informado se encontra dentro de uma faixa vi\U{00E1}vel, por\U{00E9}m exige aten\U{00E7}\U{00E3}o especial " +
    "\U{00E0} composi\U{00E7}\U{00E3}o dos custos totais. Decis\U{00F5}es t\U{00E9}cnicas bem orientadas ser\U{00E3}o fundamentais para " +
    "evitar extrapola\U{00E7}\U{00E3}o financeira."
  const FinanceiroBaixo :=
    "O or\U{00E7}amento informado apresenta limita\U{00E7}\U{00F5}es relevantes frente ao padr\U{00E3}o do bairro. " +
    "Recomenda-se reavaliar expectativas, buscar alternativas urbanas ou revisar o modelo " +
    "de aquisi\U{00E7}\U{00E3}o para evitar comprometimento financeiro excessivo."

  const UrbanoAlto :=
    "O contexto urbano do bairro \U{00E9} coerente com o perfil esperado para o im\U{00F3}vel analisado. " +
    "Aspectos como ocupa\U{00E7}\U{00E3}o do solo, vizinhan\U{00E7}a e padr\U{00E3}o construtivo contribuem para uma " +
    "experi\U{00EA}ncia urbana est\U{00E1}vel e previs\U{00ED}vel."
  const UrbanoModerado :=
    "O bairro apresenta caracter\U{00ED}sticas urbanas compat\U{00ED}veis em parte com o perfil desejado. " +
    "Alguns fatores, como din\U{00E2}mica local ou padr\U{00E3}o predominante, devem ser observados com mais " +
    "aten\U{00E7}\U{00E3}o durante a tomada de decis\U{00E3}o."
  const UrbanoBaixo :=
    "A leitura urbana indica desalinhamento entre o perfil do bairro e o padr\U{00E3}o esperado. " +
    "Esse cen\U{00E1}rio pode impactar conforto, valoriza\U{00E7}\U{00E3}o e percep\U{00E7}\U{00E3}o de adequa\U{00E7}\U{00E3}o ao longo do tempo."

  /** Each function's texts, high band first. */
  const TextosCompatibilidade: seq<string> := [CompatibilidadeAlta, CompatibilidadeModerada, CompatibilidadeBaixa]
  const TextosFinanceiros: seq<string> := [FinanceiroAlto, FinanceiroModerado, FinanceiroBaixo]
  const TextosUrbanos: seq<string> := [UrbanoAlto, UrbanoModerado, UrbanoBaixo]

  /** The band of a score, as an index into the lists above: 0 from 80 up,
      1 from 60 up, 2 below. */
  function Faixa(score: int): (f: nat)
    ensures f < 3
    ensures f == 0 <==> score >= 80
    ensures f == 2 <==> score < 60
  {
    if score >= 80 then 0 else if score >= 60 then 1 else 2
  }

  /** `texto_compatibilidade`. */
  function TextoCompatibilidade(score: int): string
  {
    if score >= 80 then CompatibilidadeAlta
    else if score >= 60 then CompatibilidadeModerada
    else CompatibilidadeBaixa
  }

  /** `texto_financeiro`; the budget it receives plays no part. */
  function TextoFinanceiro(score: int, orcamento: Py): string
  {
    if score >= 80 then FinanceiroAlto
    else if score >= 60 then FinanceiroModerado
    else FinanceiroBaixo
  }

  /** `texto_urbano`. */
  function TextoUrbano(score: int): string
  {
    if score >= 80 then UrbanoAlto
    else if score >= 60 then UrbanoModerado
    else UrbanoBaixo
  }

  /** The three paragraphs for one score come from the same band. */
  lemma TextosMesmaFaixa(score: int, orcamento: Py)
    ensures TextoCompatibilidade(score) == TextosCompatibilidade[Faixa(score)]
    ensures TextoFinanceiro(score, orcamento) == TextosFinanceiros[Faixa(score)]
    ensures TextoUrbano(score) == TextosUrbanos[Faixa(score)]
  {
  }

  /** The budget never changes the financial paragraph. */
  lemma TextoFinanceiroSemOrcamento(score: int, a: Py, b: Py)
    ensures TextoFinanceiro(score, a) == TextoFinanceiro(score, b)
  {
  }

  /** 80 starts the high band, 79 and 60 are in the middle one, 59 is low. */
  lemma FaixaLimites()
    ensures Faixa(80) == 0 && Faixa(79) == 1 && Faixa(60) == 1 && Faixa(59) == 2
    ensures Faixa(100) == 0 && Faixa(0) == 2
  {
  }

  /** The texts of each function are distinct, so a paragraph tells its
      band: two scores get the same paragraph exactly when they share a
      band. */
  lemma TextoIdentificaFaixa(a: int, b: int)
    ensures TextoCompatibilidade(a) == TextoCompatibilidade(b) <==> Faixa(a) == Faixa(b)
    ensures TextoUrbano(a) == TextoUrbano(b) <==> Faixa(a) == Faixa(b)
    ensures TextoFinanceiro(a, PyNone) == TextoFinanceiro(b, PyNone) <==> Faixa(a) == Faixa(b)
  {
    TextosMesmaFaixa(a, PyNone);
    TextosMesmaFaixa(b, PyNone);
    TextosDistintos();
  }

  lemma TextosDistintos()
    ensures CompatibilidadeAlta != CompatibilidadeModerada && CompatibilidadeAlta != CompatibilidadeBaixa
    ensures CompatibilidadeModerada != CompatibilidadeBaixa
    ensures FinanceiroAlto != FinanceiroModerado && FinanceiroAlto != FinanceiroBaixo
    ensures FinanceiroModerado != FinanceiroBaixo
    ensures UrbanoAlto != UrbanoModerado && UrbanoAlto != UrbanoBaixo && UrbanoModerado != UrbanoBaixo
  {
    assert |CompatibilidadeAlta| == 240 && |CompatibilidadeModerada| == 227 && |CompatibilidadeBaixa| == 211;
    assert |FinanceiroAlto| == 224 && |FinanceiroModerado| == 211 && |FinanceiroBaixo| == 229;
    assert |UrbanoAlto| == 210 && |UrbanoModerado| == 213 && |UrbanoBaixo| == 177;
  }
}
