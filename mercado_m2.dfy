/** The m² value resolution of app/services/mercado_m2.py: a recent cached
    value first, then an external collection (when enabled and not cooling
    down after a failure), then the spreadsheet value, then a fallback. */
module MercadoM2 {
  import opened Base
  import opened Texto
  import opened Formatacao

  /** One entry of `mercado_m2_cache.json`: the value, the status ("falha"
      after a failed collection), the source, the collection time as
      written and the cool-down in hours. */
  datatype RegistroCache = RegistroCache(valor: Py, status: Option<string>, fonte: Option<string>,
                                         coletadoEm: string, cooldownHoras: Option<int>)

  /** The dictionary `obter_contexto_m2` returns. */
  datatype ContextoM2 = ContextoM2(valor: real, fonte: string, dataReferencia: string, origem: string)

  /** The clock: now, in seconds, and as `datetime.now().isoformat(timespec="seconds")` writes it. */
  datatype Relogio = Relogio(agora: int, agoraTexto: string)

  /** Everything one call decides: the answer, the cache after it, and
      whether the external collector was called. */
  datatype Resolucao = Resolucao(contexto: ContextoM2, cache: map<string, RegistroCache>, coletou: bool)

  /** The words of `s`, split at runs of white space (`s.split()`). */
  function Palavras(s: string): seq<string>
    decreases |s|
  {
    if |s| == 0 then []
    else if IsSpace(s[0]) then Palavras(s[1..])
    else
      var k := FimPalavra(s);
      [s[..k]] + Palavras(s[k..])
  }

  /** The length of the word at the start of `s`. */
  function FimPalavra(s: string): (k: nat)
    requires |s| > 0 && !IsSpace(s[0])
    ensures 1 <= k <= |s|
    decreases |s|
  {
    if |s| == 1 || IsSpace(s[1]) then 1 else 1 + FimPalavra(s[1..])
  }

  /** `" ".join(ws)`. */
  function Juntar(ws: seq<string>): string
  {
    if |ws| == 0 then ""
    else if |ws| == 1 then ws[0]
    else ws[0] + " " + Juntar(ws[1..])
  }

  /** `_normalizar_chave` without the accent removal: stripped, lower-cased,
      inner white space collapsed to one blank. */
  function NormalizarChave(texto: Option<string>): string
  {
    Juntar(Palavras(Lower(Strip(texto.GetOr("")))))
  }

  /** The cache key "bairro|tipo". */
  function ChaveCache(bairro: Option<string>, tipoImovel: Option<string>): string
  {
    NormalizarChave(bairro) + "|" + NormalizarChave(tipoImovel)
  }

  /** `_cache_valido`: the stripped collection time parses (`lerData`
      stands for `datetime.fromisoformat`) and is at most `maxHoras` hours
      before now. */
  predicate CacheValido(registro: RegistroCache, maxHoras: int, agora: int, lerData: string -> Option<int>)
  {
    var txt := Strip(registro.coletadoEm);
    |txt| > 0 && lerData(txt).Some? && agora - lerData(txt).value <= maxHoras * 3600
  }

  /** The age limit is inclusive. */
  lemma CacheValidoLimite(registro: RegistroCache, maxHoras: int, coleta: int, lerData: string -> Option<int>)
    requires |Strip(registro.coletadoEm)| > 0 && lerData(Strip(registro.coletadoEm)) == Some(coleta)
    ensures CacheValido(registro, maxHoras, coleta + maxHoras * 3600, lerData)
    ensures !CacheValido(registro, maxHoras, coleta + maxHoras * 3600 + 1, lerData)
  {
  }

  /** An empty or unparseable time is never valid. */
  lemma CacheInvalido(registro: RegistroCache, maxHoras: int, agora: int, lerData: string -> Option<int>)
    ensures |Strip(registro.coletadoEm)| == 0 ==> !CacheValido(registro, maxHoras, agora, lerData)
    ensures lerData(Strip(registro.coletadoEm)).None? ==> !CacheValido(registro, maxHoras, agora, lerData)
  {
  }

  /** The cached value, when the entry is recent and positive. */
  predicate Fresco(reg: Option<RegistroCache>, cacheHoras: int, agora: int, lerData: string -> Option<int>)
  {
    reg.Some? && CacheValido(reg.value, cacheHoras, agora, lerData) && MoedaParaFloat(reg.value.valor) > 0.0
  }

  /** A recent failure marker. */
  predicate EmCooldown(reg: Option<RegistroCache>, cooldownHoras: int, agora: int, lerData: string -> Option<int>)
  {
    reg.Some? && reg.value.status == Some("falha") && CacheValido(reg.value, cooldownHoras, agora, lerData)
  }

  /** `if valor_coleta:`. */
  predicate Coletado(coleta: Option<real>)
  {
    coleta.Some? && coleta.value != 0.0
  }

  function Sucesso(v: real, agoraTexto: string): RegistroCache
  {
    RegistroCache(PyNum(v), None, Some("Base Lokao"), agoraTexto, None)
  }

  function Falha(agoraTexto: string, cooldownHoras: int): RegistroCache
  {
    RegistroCache(PyNone, Some("falha"), Some("falha_coleta"), agoraTexto, Some(cooldownHoras))
  }

  /** The last two returns: the spreadsheet value if positive, else the fallback. */
  function Reserva(planilha: real): (r: ContextoM2)
    ensures planilha > 0.0 ==> r.valor == planilha && r.origem == "base_lokao"
    ensures planilha <= 0.0 ==> r.valor == 0.0 && r.origem == "fallback" && r.fonte == "Nao informado"
  {
    if planilha > 0.0 then ContextoM2(planilha, "Base Lokao", "", "base_lokao")
    else ContextoM2(0.0, "Nao informado", "", "fallback")
  }

  /** What `obter_contexto_m2` decides; `coleta` is what
      `buscar_valor_m2_viva_real` returns when called. */
  function Resolver(cache: map<string, RegistroCache>, valorM2Medio: Py, bairro: Option<string>, tipoImovel: Option<string>,
                    usarColetaExterna: bool, cacheHoras: int, cooldownHoras: int, relogio: Relogio,
                    lerData: string -> Option<int>, coleta: Option<real>): Resolucao
  {
    var planilha := MoedaParaFloat(valorM2Medio);
    var chave := ChaveCache(bairro, tipoImovel);
    var reg := if chave in cache then Some(cache[chave]) else None;
    if Fresco(reg, cacheHoras, relogio.agora, lerData) then
      Resolucao(ContextoM2(MoedaParaFloat(reg.value.valor), "Base Lokao", reg.value.coletadoEm, "base_lokao"), cache, false)
    else if usarColetaExterna && !EmCooldown(reg, cooldownHoras, relogio.agora, lerData) && |bairro.GetOr("")| > 0 then
      if Coletado(coleta) then
        Resolucao(ContextoM2(coleta.value, "Base Lokao", relogio.agoraTexto, "base_lokao"),
                  cache[chave := Sucesso(coleta.value, relogio.agoraTexto)], true)
      else
        Resolucao(Reserva(planilha), cache[chave := Falha(relogio.agoraTexto, cooldownHoras)], true)
    else
      Resolucao(Reserva(planilha), cache, false)
  }

  /** A recent positive cached value is returned as is, with no collection
      and no change to the cache. */
  lemma FrescoDireto(cache: map<string, RegistroCache>, valorM2Medio: Py, bairro: Option<string>, tipoImovel: Option<string>,
                     usar: bool, cacheHoras: int, cooldownHoras: int, relogio: Relogio,
                     lerData: string -> Option<int>, coleta: Option<real>)
    requires var chave := ChaveCache(bairro, tipoImovel);
      chave in cache && CacheValido(cache[chave], cacheHoras, relogio.agora, lerData)
      && MoedaParaFloat(cache[chave].valor) > 0.0
    ensures var r := Resolver(cache, valorM2Medio, bairro, tipoImovel, usar, cacheHoras, cooldownHoras, relogio, lerData, coleta);
      var reg := cache[ChaveCache(bairro, tipoImovel)];
      !r.coletou && r.cache == cache
      && r.contexto == ContextoM2(MoedaParaFloat(reg.valor), "Base Lokao", reg.coletadoEm, "base_lokao")
  {
  }

  /** The collector is called exactly when there is no fresh value,
      collection is enabled, no failure is cooling down and a name is given. */
  lemma ColetaSse(cache: map<string, RegistroCache>, valorM2Medio: Py, bairro: Option<string>, tipoImovel: Option<string>,
                  usar: bool, cacheHoras: int, cooldownHoras: int, relogio: Relogio,
                  lerData: string -> Option<int>, coleta: Option<real>)
    ensures var chave := ChaveCache(bairro, tipoImovel);
      var reg := if chave in cache then Some(cache[chave]) else None;
      var r := Resolver(cache, valorM2Medio, bairro, tipoImovel, usar, cacheHoras, cooldownHoras, relogio, lerData, coleta);
      (r.coletou <==> !Fresco(reg, cacheHoras, relogio.agora, lerData) && usar
                      && !EmCooldown(reg, cooldownHoras, relogio.agora, lerData) && |bairro.GetOr("")| > 0)
      && (!r.coletou ==> r.cache == cache)
      && (r.coletou && Coletado(coleta) ==>
            r.cache == cache[chave := Sucesso(coleta.value, relogio.agoraTexto)]
            && r.contexto.valor == coleta.value && r.contexto.origem == "base_lokao")
      && (r.coletou && !Coletado(coleta) ==>
            r.cache == cache[chave := Falha(relogio.agoraTexto, cooldownHoras)]
            && r.contexto == Reserva(MoedaParaFloat(valorM2Medio)))
      && (!r.coletou && !Fresco(reg, cacheHoras, relogio.agora, lerData) ==> r.contexto == Reserva(MoedaParaFloat(valorM2Medio)))
  {
  }

  /** Only the entry of the requested key can change. */
  lemma OutrasChavesIntactas(cache: map<string, RegistroCache>, valorM2Medio: Py, bairro: Option<string>, tipoImovel: Option<string>,
                             usar: bool, cacheHoras: int, cooldownHoras: int, relogio: Relogio,
                             lerData: string -> Option<int>, coleta: Option<real>, k: string)
    requires k != ChaveCache(bairro, tipoImovel)
    ensures var r := Resolver(cache, valorM2Medio, bairro, tipoImovel, usar, cacheHoras, cooldownHoras, relogio, lerData, coleta);
      (k in r.cache <==> k in cache) && (k in cache ==> r.cache[k] == cache[k])
  {
  }

  /** A fallback answer has no value; a positive answer always names the Lokao base. */
  lemma ResultadoOrigem(cache: map<string, RegistroCache>, valorM2Medio: Py, bairro: Option<string>, tipoImovel: Option<string>,
                        usar: bool, cacheHoras: int, cooldownHoras: int, relogio: Relogio,
                        lerData: string -> Option<int>, coleta: Option<real>)
    ensures var c := Resolver(cache, valorM2Medio, bairro, tipoImovel, usar, cacheHoras, cooldownHoras, relogio, lerData, coleta).contexto;
      (c.origem == "fallback" <==> c.valor == 0.0 && c.fonte == "Nao informado")
      && (c.valor > 0.0 ==> c.origem == "base_lokao" && c.fonte == "Base Lokao")
      && (c.origem == "fallback" ==> MoedaParaFloat(valorM2Medio) <= 0.0)
  {
  }

  /** A value just collected is served from the cache by a second call at
      the same instant, without collecting again. */
  lemma ColetaDepoisCache(cache: map<string, RegistroCache>, valorM2Medio: Py, bairro: Option<string>, tipoImovel: Option<string>,
                          usar: bool, cacheHoras: int, cooldownHoras: int, relogio: Relogio,
                          lerData: string -> Option<int>, v: real, coleta2: Option<real>)
    requires v > 0.0 && cacheHoras >= 0
    requires |Strip(relogio.agoraTexto)| > 0 && lerData(Strip(relogio.agoraTexto)) == Some(relogio.agora)
    ensures var r := Resolver(cache, valorM2Medio, bairro, tipoImovel, usar, cacheHoras, cooldownHoras, relogio, lerData, Some(v));
      r.coletou ==>
        var r2 := Resolver(r.cache, valorM2Medio, bairro, tipoImovel, usar, cacheHoras, cooldownHoras, relogio, lerData, coleta2);
        !r2.coletou && r2.contexto.valor == v && r2.cache == r.cache
  {
    var chave := ChaveCache(bairro, tipoImovel);
    var r := Resolver(cache, valorM2Medio, bairro, tipoImovel, usar, cacheHoras, cooldownHoras, relogio, lerData, Some(v));
    if r.coletou {
      assert r.cache[chave] == Sucesso(v, relogio.agoraTexto);
      assert CacheValido(r.cache[chave], cacheHoras, relogio.agora, lerData);
    }
  }

  /** After a failed collection, no call within the cool-down collects. */
  lemma FalhaRespeitaCooldown(cache: map<string, RegistroCache>, valorM2Medio: Py, bairro: Option<string>, tipoImovel: Option<string>,
                              usar: bool, cacheHoras: int, cooldownHoras: int, relogio: Relogio,
                              lerData: string -> Option<int>, depois: Relogio, coleta2: Option<real>)
    requires |Strip(relogio.agoraTexto)| > 0 && lerData(Strip(relogio.agoraTexto)) == Some(relogio.agora)
    requires depois.agora - relogio.agora <= cooldownHoras * 3600
    ensures var r := Resolver(cache, valorM2Medio, bairro, tipoImovel, usar, cacheHoras, cooldownHoras, relogio, lerData, None);
      var r2 := Resolver(r.cache, valorM2Medio, bairro, tipoImovel, usar, cacheHoras, cooldownHoras, depois, lerData, coleta2);
      r.coletou ==> !r2.coletou && r2.cache == r.cache && r2.contexto == Reserva(MoedaParaFloat(valorM2Medio))
  {
    var chave := ChaveCache(bairro, tipoImovel);
    var r := Resolver(cache, valorM2Medio, bairro, tipoImovel, usar, cacheHoras, cooldownHoras, relogio, lerData, None);
    if r.coletou {
      assert r.cache[chave] == Falha(relogio.agoraTexto, cooldownHoras);
      assert MoedaParaFloat(PyNone) == 0.0;
      assert EmCooldown(Some(r.cache[chave]), cooldownHoras, depois.agora, lerData);
    }
  }

  /** The cache document (`mercado_m2_cache.json`), held in memory. */
  class CacheM2 {
    var cache: map<string, RegistroCache>

    constructor (inicial: map<string, RegistroCache>)
      ensures cache == inicial
    {
      cache := inicial;
    }

    /** `obter_contexto_m2`. */
    method ObterContextoM2(valorM2Medio: Py, bairro: Option<string>, tipoImovel: Option<string>,
                           usarColetaExterna: bool, cacheHoras: int, cooldownHoras: int, relogio: Relogio,
                           lerData: string -> Option<int>, coleta: Option<real>)
      returns (contexto: ContextoM2, coletou: bool)
      modifies this
      ensures Resolucao(contexto, cache, coletou)
        == Resolver(old(cache), valorM2Medio, bairro, tipoImovel, usarColetaExterna, cacheHoras, cooldownHoras, relogio, lerData, coleta)
    {
      var valorPlanilha := MoedaParaFloat(valorM2Medio);
      var chave := ChaveCache(bairro, tipoImovel);
      var registro := if chave in cache then Some(cache[chave]) else None;
      var resposta, usar := ConsultarCache(registro, usarColetaExterna, cacheHoras, cooldownHoras, relogio.agora, lerData);
      if resposta.Some? {
        return resposta.value, false;
      }
      coletou := false;

      if usar && |bairro.GetOr("")| > 0 {
        coletou := true;
        if coleta.Some? && coleta.value != 0.0 {
          cache := cache[chave := Sucesso(coleta.value, relogio.agoraTexto)];
          return ContextoM2(coleta.value, "Base Lokao", relogio.agoraTexto, "base_lokao"), true;
        }
        cache := cache[chave := Falha(relogio.agoraTexto, cooldownHoras)];
      }

      contexto := Reserva(valorPlanilha);
    }

    /** The first block of `obter_contexto_m2`: a recent positive cached
        value is the answer; a recent failure switches collection off. */
    static method ConsultarCache(registro: Option<RegistroCache>, usarColetaExterna: bool, cacheHoras: int,
                                 cooldownHoras: int, agora: int, lerData: string -> Option<int>)
      returns (resposta: Option<ContextoM2>, usar: bool)
      ensures resposta.Some? <==> Fresco(registro, cacheHoras, agora, lerData)
      ensures resposta.Some? ==>
        resposta.value == ContextoM2(MoedaParaFloat(registro.value.valor), "Base Lokao", registro.value.coletadoEm, "base_lokao")
      ensures resposta.None? ==> usar == (usarColetaExterna && !EmCooldown(registro, cooldownHoras, agora, lerData))
    {
      usar := usarColetaExterna;
      resposta := None;
      if registro.Some? {
        if CacheValido(registro.value, cacheHoras, agora, lerData) {
          var valorCache := MoedaParaFloat(registro.value.valor);
          if valorCache > 0.0 {
            return Some(ContextoM2(valorCache, "Base Lokao", registro.value.coletadoEm, "base_lokao")), usar;
          }
        }
        if registro.value.status == Some("falha") && CacheValido(registro.value, cooldownHoras, agora, lerData) {
          usar := false;
        }
      }
    }
  }
}
