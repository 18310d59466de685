/** The keys of the static tables app/core/perfis.py (`PERFIS_LOKAO`, the
    urban profiles) and app/core/tipos_imovel.py (`TIPOS_IMOVEL`, the
    property types). Only the keys matter to the lookups of the model; the
    descriptive texts under each key are not part of it. */
module Perfis {

  const UrbanoCentral := "Urbano Consolidado Central"
  const ResidencialTradicional := "Residencial Tradicional Consolidado"
  const ResidencialAltoPadrao := "Residencial de Alto Padr\U{00E3}o"
  const MistoResidencialComercial := "Misto Residencial\U{2013}Comercial"
  const ExpansaoPlanejada := "Expans\U{00E3}o Urbana Planejada"
  const ExpansaoConsolidacao := "Expans\U{00E3}o Urbana em Consolida\U{00E7}\U{00E3}o"
  const ZonaEspecial := "Zona Especial / Industrial / Log\U{00ED}stica"

  /** The keys of `PERFIS_LOKAO`. */
  const PerfisLokao: set<string> :=
    {UrbanoCentral, ResidencialTradicional, ResidencialAltoPadrao, MistoResidencialComercial,
     ExpansaoPlanejada, ExpansaoConsolidacao, ZonaEspecial}

  const CasaUsada := "Casa usada"
  const CasaNova := "Casa nova"
  const ApartamentoUsado := "Apartamento usado"
  const ApartamentoNovo := "Apartamento novo"
  const Terreno := "Terreno"
  const ImovelComercial := "Im\U{00F3}vel comercial"
  const Galpao := "Galp\U{00E3}o / log\U{00ED}stica"

  /** The keys of `TIPOS_IMOVEL`. */
  const TiposImovel: set<string> :=
    {CasaUsada, CasaNova, ApartamentoUsado, ApartamentoNovo, Terreno, ImovelComercial, Galpao}
}
