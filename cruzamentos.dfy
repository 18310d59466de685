/** app/core/cruzamentos.py: the sentence that describes a pair (urban
    profile, property type), from a fixed table with a default. */
module Cruzamentos {
  import opened Perfis

  const FraseAltoPadraoApartamento :=
    "Em bairros residenciais de alto padr\U{00E3}o, apartamentos usados tendem a " +
    "oferecer boa liquidez e localiza\U{00E7}\U{00E3}o privilegiada, por\U{00E9}m exigem aten\U{00E7}\U{00E3}o " +
    "ao n\U{00ED}vel de ru\U{00ED}do urbano e \U{00E0} insola\U{00E7}\U{00E3}o, especialmente em \U{00E1}reas adensadas."
  const FraseAltoPadraoCasa :=
    "Casas usadas em bairros de alto padr\U{00E3}o costumam apresentar excelente " +
    "conforto residencial e valoriza\U{00E7}\U{00E3}o, sendo recomend\U{00E1}vel aten\U{00E7}\U{00E3}o ao " +
    "estado de conserva\U{00E7}\U{00E3}o e \U{00E0}s regras urban\U{00ED}sticas locais."
  const FraseCentralApartamento :=
    "Apartamentos usados em regi\U{00F5}es centrais consolidadas oferecem alta " +
    "proximidade de servi\U{00E7}os e liquidez, por\U{00E9}m podem apresentar n\U{00ED}veis " +
    "elevados de ru\U{00ED}do e menor conforto t\U{00E9}rmico."
  const FraseCentralComercial :=
    "Im\U{00F3}veis comerciais em \U{00E1}reas centrais consolidadas se beneficiam de " +
    "alto fluxo e visibilidade, sendo estrat\U{00E9}gicos para atividades que " +
    "dependem de acesso e exposi\U{00E7}\U{00E3}o."
  const FrasePlanejadaTerreno :=
    "Terrenos em \U{00E1}reas de expans\U{00E3}o urbana planejada apresentam elevado " +
    "potencial de valoriza\U{00E7}\U{00E3}o, desde que compatibilizados com o uso " +
    "pretendido e o cronograma de implanta\U{00E7}\U{00E3}o da infraestrutura."
  const FrasePlanejadaCasaNova :=
    "Casas novas em \U{00E1}reas de expans\U{00E3}o planejada permitem melhor adequa\U{00E7}\U{00E3}o " +
    "do projeto ao terreno e ao entorno, com potencial de valoriza\U{00E7}\U{00E3}o " +
    "associado \U{00E0} consolida\U{00E7}\U{00E3}o urbana futura."
  const FraseMistoApartamento :=
    "Apartamentos usados em regi\U{00F5}es mistas tendem a apresentar boa " +
    "localiza\U{00E7}\U{00E3}o e acesso a servi\U{00E7}os, exigindo aten\U{00E7}\U{00E3}o ao conforto " +
    "ac\U{00FA}stico em hor\U{00E1}rios de maior atividade urbana."
  const FraseZonaEspecialGalpao :=
    "Galp\U{00F5}es localizados em zonas especiais ou industriais apresentam " +
    "compatibilidade elevada para atividades log\U{00ED}sticas, com aten\U{00E7}\U{00E3}o " +
    "necess\U{00E1}ria \U{00E0}s restri\U{00E7}\U{00F5}es ambientais e ao tr\U{00E1}fego pesado."
  const FrasePadrao :=
    "A compatibilidade entre o perfil urbano identificado e o tipo de im\U{00F3}vel " +
    "analisado indica viabilidade condicionada \U{00E0} adequa\U{00E7}\U{00E3}o do uso pretendido " +
    "e \U{00E0}s caracter\U{00ED}sticas do entorno."

  /** `CRUZAMENTOS`, keyed by (profile, type). */
  const Cruzamentos: map<(string, string), string> :=
    map[(ResidencialAltoPadrao, ApartamentoUsado) := FraseAltoPadraoApartamento,
        (ResidencialAltoPadrao, CasaUsada) := FraseAltoPadraoCasa,
        (UrbanoCentral, ApartamentoUsado) := FraseCentralApartamento,
        (UrbanoCentral, ImovelComercial) := FraseCentralComercial,
        (ExpansaoPlanejada, Terreno) := FrasePlanejadaTerreno,
        (ExpansaoPlanejada, CasaNova) := FrasePlanejadaCasaNova,
        (MistoResidencialComercial, ApartamentoUsado) := FraseMistoApartamento,
        (ZonaEspecial, Galpao) := FraseZonaEspecialGalpao]

  /** `obter_frase_cruzamento`: the sentence of the pair, or `FRASE_PADRAO`. */
  function ObterFraseCruzamento(perfil: string, tipo: string): (r: string)
    ensures |r| > 0
  {
    if (perfil, tipo) in Cruzamentos then Cruzamentos[(perfil, tipo)] else FrasePadrao
  }

  /** Every key pairs a profile of `PERFIS_LOKAO` with a type of
      `TIPOS_IMOVEL`. */
  lemma CruzamentosChaves()
    ensures forall k :: k in Cruzamentos ==> k.0 in PerfisLokao && k.1 in TiposImovel
  {
  }

  /** No profile name is also a property type name. */
  lemma PerfisTiposDisjuntos()
    ensures forall p :: p in PerfisLokao ==> p !in TiposImovel
  {
  }

  /** A pair whose profile is not a profile name, or whose type is not a
      type name, gets the default sentence. */
  lemma FraseForaDasTabelas(perfil: string, tipo: string)
    requires perfil !in PerfisLokao || tipo !in TiposImovel
    ensures ObterFraseCruzamento(perfil, tipo) == FrasePadrao
  {
    CruzamentosChaves();
  }

  /** Swapping a listed pair gives the default sentence. */
  lemma FraseTrocada(perfil: string, tipo: string)
    requires (perfil, tipo) in Cruzamentos
    ensures ObterFraseCruzamento(tipo, perfil) == FrasePadrao
  {
    CruzamentosChaves();
    PerfisTiposDisjuntos();
    FraseForaDasTabelas(tipo, perfil);
  }

  /** Two profiles have no sentence of their own: every type gets the
      default with them. */
  lemma PerfisSemFrase(tipo: string)
    ensures ObterFraseCruzamento(ResidencialTradicional, tipo) == FrasePadrao
    ensures ObterFraseCruzamento(ExpansaoConsolidacao, tipo) == FrasePadrao
  {
  }
}
