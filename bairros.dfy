/** app/services/bairros.py: the urban profile of a neighbourhood of
    Cuiaba, from a fixed table with a default. */
module Bairros {
  import opened Perfis

  /** `MAPA_BAIRROS`. */
  const MapaBairros: map<string, string> :=
    map["Centro" := UrbanoCentral,
        "Ara\U{00E9}s" := UrbanoCentral,
        "Lixeira" := UrbanoCentral,
        "Goiabeiras" := ResidencialAltoPadrao,
        "Duque de Caxias" := ResidencialAltoPadrao,
        "Bosque da Sa\U{00FA}de" := ResidencialAltoPadrao,
        "Popular" := MistoResidencialComercial,
        "Jardim das Am\U{00E9}ricas" := MistoResidencialComercial,
        "Coxip\U{00F3}" := MistoResidencialComercial,
        "Jardim It\U{00E1}lia" := ExpansaoPlanejada,
        "Florais Cuiab\U{00E1}" := ResidencialAltoPadrao,
        "Florais dos Lagos" := ResidencialAltoPadrao,
        "Ribeir\U{00E3}o do Lipa" := ExpansaoPlanejada,
        "CPA I" := ResidencialTradicional,
        "CPA II" := ResidencialTradicional,
        "CPA III" := ResidencialTradicional,
        "Distrito Industrial" := ZonaEspecial]

  /** `PERFIL_PADRAO`. */
  const PerfilPadrao := ResidencialTradicional

  /** `obter_perfil_lokao`: total, and always a profile of `PERFIS_LOKAO`. */
  function ObterPerfilLokao(bairro: string): (r: string)
    ensures r in PerfisLokao
  {
    if bairro in MapaBairros then MapaBairros[bairro] else PerfilPadrao
  }

  /** A listed name gets its table profile; any other name, a different
      capitalisation of a listed one included, gets the default. */
  lemma ObterPerfilLokaoCasos(bairro: string)
    ensures bairro in MapaBairros ==> ObterPerfilLokao(bairro) == MapaBairros[bairro]
    ensures bairro !in MapaBairros ==> ObterPerfilLokao(bairro) == ResidencialTradicional
    ensures ObterPerfilLokao("Goiabeiras") == ResidencialAltoPadrao
    ensures ObterPerfilLokao("Centro") == UrbanoCentral && ObterPerfilLokao("centro") == ResidencialTradicional
  {
  }

  /** One profile of `PERFIS_LOKAO`, "Expansao Urbana em Consolidacao",
      is given to no neighbourhood, listed or not. */
  lemma PerfisAlcancados(bairro: string)
    ensures ObterPerfilLokao(bairro) != ExpansaoConsolidacao
  {
  }
}
