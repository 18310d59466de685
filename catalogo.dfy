/** A row of the neighbourhood catalogue, as the services read it, and the
    tier table (`ordem`, `padrao_map`) that three services share. */
module Catalogo {
  import opened Base
  import opened Texto

  /** One catalogue row: the columns the services consult. A missing or empty
      cell is `None`. */
  datatype Linha = Linha(
    bairro: string,
    padraoPredominante: Option<string>,
    padraoUrbano: Option<string>,
    perfilSocioeconomico: Option<string>,
    regiao: Option<string>,
    valorM2Medio: Py)

  /** The tier table: "economico" and "baixo" are 1, "medio" 2, "alto" 3, any
      other text 0 (unknown). */
  function Nivel(p: string): (n: nat)
    ensures n <= 3
  {
    if p == "economico" || p == "baixo" then 1
    else if p == "medio" then 2
    else if p == "alto" then 3
    else 0
  }

  /** Python truthiness of an optional text cell. */
  predicate Preenchido(o: Option<string>)
  {
    o.Some? && |o.value| > 0
  }

  /** `(x or "").lower()`. */
  function Padrao(o: Option<string>): string
  {
    Lower(o.GetOr(""))
  }

  /** `(a or b or "").lower()`: the first filled cell, lower-cased. */
  function PadraoOu(a: Option<string>, b: Option<string>): string
  {
    if Preenchido(a) then Lower(a.value) else Padrao(b)
  }
}
