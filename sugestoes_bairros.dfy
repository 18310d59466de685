/** The similar-neighbourhood suggestions of app/services/sugestoes_bairros.py:
    rows of the same region and socio-economic profile, of a tier no higher
    than the current one, whose m² value fits the budget, cheapest first. */
module SugestoesBairros {
  import opened Base
  import opened Formatacao
  import opened Catalogo
  import opened Ordenacao

  /** The catalogue frame: whether it has a `bairro` column, and its rows. */
  datatype Quadro = Quadro(temColunaBairro: bool, linhas: seq<Linha>)

  /** One suggestion: the row, its m² value and, when both that value and the
      current neighbourhood's are positive, the percentage saved per m². */
  datatype SugestaoBairro = SugestaoBairro(linha: Linha, valorM2: real, vantagem: Option<real>)

  /** The first row of the current neighbourhood, if the catalogue has one. */
  function Atual(linhas: seq<Linha>, bairro: string): (r: Option<Linha>)
    ensures r.Some? <==> exists l :: l in linhas && l.bairro == bairro
    ensures r.Some? ==> r.value in linhas && r.value.bairro == bairro
  {
    if |linhas| == 0 then None
    else if linhas[0].bairro == bairro then Some(linhas[0])
    else
      var r := Atual(linhas[1..], bairro);
      assert forall l :: l in linhas[1..] ==> l in linhas;
      assert forall l :: l in linhas && l != linhas[0] ==> l in linhas[1..];
      r
  }

  /** What the filter loop compares each row with. */
  datatype Referencia = Referencia(bairro: string, regiao: Option<string>, perfil: Option<string>, nivel: nat, orcamento: real)

  function ReferenciaDe(atual: Linha, orcamento: real): Referencia
  {
    Referencia(atual.bairro, atual.regiao, atual.perfilSocioeconomico,
               Nivel(PadraoOu(atual.padraoPredominante, atual.padraoUrbano)), orcamento)
  }

  /** Whether a row survives the four filters of the loop. */
  predicate Aceita(linha: Linha, r: Referencia)
  {
    var nivel := Nivel(PadraoOu(linha.padraoPredominante, linha.padraoUrbano));
    var v := MoedaParaFloat(linha.valorM2Medio);
    linha.bairro != r.bairro
    && (Preenchido(r.regiao) ==> linha.regiao == r.regiao)
    && (Preenchido(r.perfil) ==> linha.perfilSocioeconomico == r.perfil)
    && !(r.nivel != 0 && nivel > r.nivel)
    && !(r.orcamento > 0.0 && v > 0.0 && v > r.orcamento)
  }

  /** The surviving rows with their m² values, in catalogue order. */
  function Candidatos(linhas: seq<Linha>, r: Referencia): seq<(Linha, real)>
  {
    if |linhas| == 0 then []
    else
      var l := linhas[|linhas| - 1];
      Candidatos(linhas[..|linhas| - 1], r)
      + (if Aceita(l, r) then [(l, MoedaParaFloat(l.valorM2Medio))] else [])
  }

  /** The sort key: the m² value, or 10^9 when it is not positive. */
  function ChaveValor(c: (Linha, real)): Chave
  {
    Chave(if c.1 > 0.0 then c.1 else 1000000000.0, 0.0)
  }

  function Vantagem(valorAtual: real, valorM2: real): Option<real>
  {
    if valorAtual > 0.0 && valorM2 > 0.0 then Some((valorAtual - valorM2) / valorAtual * 100.0) else None
  }

  /** The output loop: one suggestion per candidate, stopping once the
      list has reached `limite` (the check comes after the append, so one
      suggestion is always given when there is a candidate). */
  function Saida(candidatos: seq<(Linha, real)>, valorAtual: real, limite: int): seq<SugestaoBairro>
  {
    var n := if |candidatos| == 0 then 0 else Min(|candidatos|, Max(limite, 1));
    seq(n, i requires 0 <= i < n => SugestaoBairro(candidatos[i].0, candidatos[i].1, Vantagem(valorAtual, candidatos[i].1)))
  }

  /** What `gerar_sugestoes_bairros` returns, as records. */
  function SugerirBairros(df: Option<Quadro>, bairroAtual: Option<string>, orcamento: Py, limite: int): seq<SugestaoBairro>
  {
    if df.None? || bairroAtual.None? || !df.value.temColunaBairro then []
    else
      match Atual(df.value.linhas, bairroAtual.value)
      case None => []
      case Some(atual) =>
        var r := ReferenciaDe(atual, MoedaParaFloat(orcamento));
        Saida(Ordenar(Candidatos(df.value.linhas, r), ChaveValor, Menor), MoedaParaFloat(atual.valorM2Medio), limite)
  }

  lemma {:induction false} CandidatosAceitos(linhas: seq<Linha>, r: Referencia)
    ensures forall c :: c in Candidatos(linhas, r) ==> c.0 in linhas && Aceita(c.0, r) && c.1 == MoedaParaFloat(c.0.valorM2Medio)
  {
    if |linhas| > 0 {
      CandidatosAceitos(linhas[..|linhas| - 1], r);
      forall l | l in linhas[..|linhas| - 1] ensures l in linhas {
      }
    }
  }

  /** Every suggestion is an accepted row of the catalogue, with its own m²
      value; the list is ordered by that key, and has at most
      `max(limite, 1)` entries. */
  lemma SugerirBairrosPropriedades(df: Option<Quadro>, bairroAtual: Option<string>, orcamento: Py, limite: int)
    ensures var s := SugerirBairros(df, bairroAtual, orcamento, limite);
      |s| <= Max(limite, 1)
      && (df.None? || bairroAtual.None? ==> s == [])
      && ((df.Some? && bairroAtual.Some?
             && (!df.value.temColunaBairro || forall l :: l in df.value.linhas ==> l.bairro != bairroAtual.value))
            ==> s == [])
      && (forall i :: 0 <= i < |s| ==>
            var atual := Atual(df.value.linhas, bairroAtual.value).value;
            s[i].linha in df.value.linhas
            && Aceita(s[i].linha, ReferenciaDe(atual, MoedaParaFloat(orcamento)))
            && s[i].valorM2 == MoedaParaFloat(s[i].linha.valorM2Medio))
      && (forall i, j :: 0 <= i < j < |s| ==> !Menor(ChaveValor((s[j].linha, s[j].valorM2)), ChaveValor((s[i].linha, s[i].valorM2))))
  {
    var s := SugerirBairros(df, bairroAtual, orcamento, limite);
    if |s| > 0 {
      var atual := Atual(df.value.linhas, bairroAtual.value).value;
      var r := ReferenciaDe(atual, MoedaParaFloat(orcamento));
      var todos := Candidatos(df.value.linhas, r);
      var ordenados := Ordenar(todos, ChaveValor, Menor);
      CandidatosAceitos(df.value.linhas, r);
      OrdenarPermuta(todos, ChaveValor, Menor);
      MenorOrdemFraca();
      OrdenarOrdena(todos, ChaveValor, Menor);
      forall i | 0 <= i < |s| ensures ordenados[i] in todos {
        assert ordenados[i] in multiset(ordenados);
      }
      forall i | 0 <= i < |s| ensures (s[i].linha, s[i].valorM2) == ordenados[i] {
      }
    }
  }

  /** When every candidate's m² value is below 10^9, the rows without a
      positive value come after all the others, in catalogue order. */
  lemma NaoPositivosPorUltimo(candidatos: seq<(Linha, real)>)
    requires forall c :: c in candidatos ==> c.1 < 1000000000.0
    ensures var s := Ordenar(candidatos, ChaveValor, Menor);
      forall i, j :: 0 <= i < j < |s| && s[i].1 <= 0.0 ==> s[j].1 <= 0.0
    ensures ComChave(Ordenar(candidatos, ChaveValor, Menor), ChaveValor, Chave(1000000000.0, 0.0))
      == ComChave(candidatos, ChaveValor, Chave(1000000000.0, 0.0))
  {
    var s := Ordenar(candidatos, ChaveValor, Menor);
    MenorOrdemFraca();
    OrdenarOrdena(candidatos, ChaveValor, Menor);
    OrdenarPermuta(candidatos, ChaveValor, Menor);
    OrdenarEstavel(candidatos, ChaveValor, Menor, Chave(1000000000.0, 0.0));
    forall i, j | 0 <= i < j < |s| && s[i].1 <= 0.0 ensures s[j].1 <= 0.0 {
      assert s[j] in multiset(s);
      assert !Menor(ChaveValor(s[j]), ChaveValor(s[i]));
    }
  }

  /** `gerar_sugestoes_bairros`: the guards, a loop keeping the rows that
      pass the filters, the sort by m² value and a loop that stops once
      `limite` suggestions are made. */
  method GerarSugestoesBairros(df: Option<Quadro>, bairroAtual: Option<string>, orcamento: Py, limite: int)
    returns (sugestoes: seq<SugestaoBairro>)
    ensures sugestoes == SugerirBairros(df, bairroAtual, orcamento, limite)
    ensures |sugestoes| <= Max(limite, 1)
    ensures df.None? || bairroAtual.None? ==> sugestoes == []
    ensures (df.Some? && bairroAtual.Some?
             && (!df.value.temColunaBairro || forall l :: l in df.value.linhas ==> l.bairro != bairroAtual.value))
            ==> sugestoes == []
  {
    SugerirBairrosPropriedades(df, bairroAtual, orcamento, limite);
    var orc := MoedaParaFloat(orcamento);
    if df.None? || bairroAtual.None? {
      return [];
    }
    if !df.value.temColunaBairro {
      return [];
    }
    var encontrado := Atual(df.value.linhas, bairroAtual.value);
    if encontrado.None? {
      return [];
    }
    var atual := encontrado.value;
    var referencia := ReferenciaDe(atual, orc);
    var valorAtual := MoedaParaFloat(atual.valorM2Medio);

    var candidatos := FiltrarBairros(df.value.linhas, referencia);
    candidatos := Ordenar(candidatos, ChaveValor, Menor);

    sugestoes := Listar(candidatos, valorAtual, limite);
  }

  /** The output loop: append, then stop once `limite` is reached. */
  method Listar(candidatos: seq<(Linha, real)>, valorAtual: real, limite: int) returns (sugestoes: seq<SugestaoBairro>)
    ensures sugestoes == Saida(candidatos, valorAtual, limite)
  {
    sugestoes := [];
    var i := 0;
    while i < |candidatos|
      invariant 0 <= i <= |candidatos| && |sugestoes| == i
      invariant forall k :: 0 <= k < i ==>
        sugestoes[k] == SugestaoBairro(candidatos[k].0, candidatos[k].1, Vantagem(valorAtual, candidatos[k].1))
      invariant i > 0 ==> i < limite
    {
      var (linha, valorM2) := candidatos[i];
      sugestoes := sugestoes + [SugestaoBairro(linha, valorM2, Vantagem(valorAtual, valorM2))];
      i := i + 1;
      if |sugestoes| >= limite {
        break;
      }
    }
  }

  /** The first loop: each row is kept with its m² value or skipped. */
  method FiltrarBairros(linhas: seq<Linha>, r: Referencia) returns (candidatos: seq<(Linha, real)>)
    ensures candidatos == Candidatos(linhas, r)
  {
    candidatos := [];
    for i := 0 to |linhas|
      invariant candidatos == Candidatos(linhas[..i], r)
    {
      assert linhas[..i + 1][..i] == linhas[..i];
      var linha := linhas[i];
      var mantem := Filtros(linha, r);
      if mantem {
        candidatos := candidatos + [(linha, MoedaParaFloat(linha.valorM2Medio))];
      }
    }
    assert linhas[..|linhas|] == linhas;
  }

  /** The filters of one row, in the source's order; `false` where it
      skips the row with `continue`. */
  method Filtros(linha: Linha, r: Referencia) returns (mantem: bool)
    ensures mantem == Aceita(linha, r)
  {
    if linha.bairro == r.bairro {
      return false;
    }
    if Preenchido(r.regiao) && linha.regiao != r.regiao {
      return false;
    }
    if Preenchido(r.perfil) && linha.perfilSocioeconomico != r.perfil {
      return false;
    }
    var nivelLinha := Nivel(PadraoOu(linha.padraoPredominante, linha.padraoUrbano));
    if r.nivel != 0 && nivelLinha > r.nivel {
      return false;
    }
    var valorM2 := MoedaParaFloat(linha.valorM2Medio);
    if r.orcamento > 0.0 && valorM2 > 0.0 && valorM2 > r.orcamento {
      return false;
    }
    return true;
  }
}
