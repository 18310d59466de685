/** app/services/analise.py: the commercial reading of a neighbourhood,
    chosen by matching its lower-cased name against two fixed lists. */
module Analise {
  import opened Texto

  /** The four keys of the returned dictionary. */
  datatype Leitura = Leitura(perfilBairro: string, aderencia: string, liquidez: string, argumento: string)

  const LeituraTradicional := Leitura(
    "Bairro consolidado com perfil urbano tradicional.",
    "Alta", "Alta",
    "Este bairro apresenta alta aceitacao comercial e historico " +
    "de boa liquidez, sendo uma escolha segura para compradores " +
    "que priorizam estabilidade e facilidade de revenda.")

  const LeituraAltoPadrao := Leitura(
    "Bairro de alto padrao com foco residencial.",
    "Muito alta", "Moderada",
    "O perfil do bairro favorece compradores mais exigentes, " +
    "com foco em qualidade de vida e padrao construtivo, " +
    "o que pode demandar abordagem mais consultiva.")

  const LeituraMista := Leitura(
    "Bairro em desenvolvimento ou perfil misto.",
    "Moderada", "Moderada",
    "O bairro apresenta potencial de valorizacao, sendo indicado " +
    "para compradores que avaliam oportunidade e crescimento futuro.")

  const Tradicionais: seq<string> := ["goiabeiras", "popular", "duque de caxias"]
  const AltoPadrao: seq<string> := ["jardim italia", "florais", "alphaville"]

  /** `gerar_analise`. */
  function GerarAnalise(bairro: string): (r: Leitura)
    ensures r == LeituraTradicional || r == LeituraAltoPadrao || r == LeituraMista
  {
    var b := Lower(bairro);
    if b in Tradicionais then LeituraTradicional
    else if b in AltoPadrao then LeituraAltoPadrao
    else LeituraMista
  }

  /** Only the lower-cased name matters: names equal up to case, and a name
      and its lower-cased form, get the same reading. */
  lemma GerarAnaliseSemCaixa(a: string, b: string)
    requires Lower(a) == Lower(b)
    ensures GerarAnalise(a) == GerarAnalise(b)
    ensures GerarAnalise(Lower(a)) == GerarAnalise(a)
  {
    LowerIdempotente(a);
  }

  /** The adherence and liquidity labels tell which list the lower-cased
      name is in: "Alta"/"Alta" for the first, "Muito alta"/"Moderada" for
      the second, "Moderada"/"Moderada" for neither. */
  lemma GerarAnaliseClasses(bairro: string)
    ensures var r := GerarAnalise(bairro);
      (r.aderencia == "Alta" && r.liquidez == "Alta") <==> Lower(bairro) in Tradicionais
    ensures var r := GerarAnalise(bairro);
      (r.aderencia == "Muito alta" && r.liquidez == "Moderada") <==> Lower(bairro) in AltoPadrao
    ensures var r := GerarAnalise(bairro);
      (r.aderencia == "Moderada" && r.liquidez == "Moderada")
        <==> Lower(bairro) !in Tradicionais && Lower(bairro) !in AltoPadrao
  {
  }

  /** "Goiabeiras" and "goiabeiras" are in the first list. */
  lemma GerarAnaliseGoiabeiras()
    ensures GerarAnalise("Goiabeiras") == LeituraTradicional
    ensures GerarAnalise("goiabeiras") == LeituraTradicional
  {
    LowerFixo("goiabeiras");
    assert Lower("Goiabeiras") == "goiabeiras";
  }

  /** Plain ASCII text. */
  predicate Ascii(s: string)
  {
    forall j :: 0 <= j < |s| ==> s[j] <= '\U{007F}'
  }

  lemma ListasAscii()
    ensures forall s :: s in Tradicionais ==> Ascii(s)
    ensures forall s :: s in AltoPadrao ==> Ascii(s)
  {
  }

  /** Both lists are written without accents, so a name with any character
      outside ASCII, such as the accented spellings of the profile table
      ("Jardim Italia" written with its accent), gets the default reading. */
  lemma GerarAnaliseComAcento(bairro: string, i: nat)
    requires i < |bairro| && bairro[i] > '\U{007F}'
    ensures GerarAnalise(bairro) == LeituraMista
  {
    LowerAt(bairro, i);
    ListasAscii();
    assert !Ascii(Lower(bairro));
  }
}
