/** The pilot programme of app/services/piloto_teste.py: one report per CPF
    (the Brazilian taxpayer number) inside a two-day window, at most one
    feedback per report, an administrator release, and an event log. The
    persisted JSON document is the state of a `Piloto` object. */
module PilotoTeste {
  import opened Base
  import opened Texto
  import opened Numero

  // ---------------------------------------------------------------------
  // CPF numbers
  // ---------------------------------------------------------------------

  /** `_normalizar_cpf`: the digits of `str(cpf or "")`, in order. */
  function NormalizarCpf(cpf: Option<string>): (r: string)
    ensures AllDigits(r) && |r| <= |cpf.GetOr("")|
  {
    FilterDigits(cpf.GetOr(""))
  }

  /** Normalising twice changes nothing. */
  lemma NormalizarIdempotente(cpf: Option<string>)
    ensures NormalizarCpf(Some(NormalizarCpf(cpf))) == NormalizarCpf(cpf)
  {
    FilterDigitsOfDigits(NormalizarCpf(cpf));
  }

  /** Punctuation between groups of digits is dropped: "111.444" and
      "111444" normalise alike. */
  lemma NormalizarSeparador(a: string, sep: char, b: string)
    requires !IsDigit(sep)
    ensures NormalizarCpf(Some(a + [sep] + b)) == NormalizarCpf(Some(a + b))
  {
    FilterDigitsConcat(a + [sep], b);
    FilterDigitsConcat(a, [sep]);
    FilterDigitsConcat(a, b);
    assert FilterDigits([sep]) == FilterDigits([sep][1..]);
  }

  /** `sum(int(s[i]) * (peso - i) for i in range(len(s)))`. */
  function SomaPesos(s: string, peso: int): int
    requires AllDigits(s)
  {
    if |s| == 0 then 0 else DigitValue(s[0]) * peso + SomaPesos(s[1..], peso - 1)
  }

  /** A check digit: ten times the weighted sum modulo 11, with 10 read as 0. */
  function DigitoVerificador(soma: int): (d: nat)
    ensures d < 10
  {
    var r := (soma * 10) % 11;
    if r == 10 then 0 else r
  }

  /** `cpf == cpf[0] * len(cpf)`. */
  predicate Repetido(cpf: string)
  {
    |cpf| > 0 && forall i :: 0 <= i < |cpf| ==> cpf[i] == cpf[0]
  }

  /** `_validar_cpf`, on the normalised (all-digit) text its callers pass. */
  predicate ValidarCpf(cpf: string)
    requires AllDigits(cpf)
  {
    |cpf| == 11 && !Repetido(cpf)
    && DigitoVerificador(SomaPesos(cpf[..9], 10)) == DigitValue(cpf[9])
    && DigitoVerificador(SomaPesos(cpf[..10], 11)) == DigitValue(cpf[10])
  }

  /** Nine digits followed by the two check digits the rule computes for them. */
  function CompletarCpf(base: string): (r: string)
    requires AllDigits(base) && |base| == 9
    ensures |r| == 11 && AllDigits(r) && r[..9] == base
  {
    var d1 := DigitChar(DigitoVerificador(SomaPesos(base, 10)));
    var b10 := base + [d1];
    var r := b10 + [DigitChar(DigitoVerificador(SomaPesos(b10, 11)))];
    assert r[..9] == base;
    r
  }

  lemma DigitCharValue(c: char)
    requires IsDigit(c)
    ensures DigitChar(DigitValue(c)) == c
  {
  }

  /** A CPF is valid exactly when it is eleven digits, not all the same, and
      its last two are the check digits of its first nine. */
  lemma ValidarCpfSse(cpf: string)
    requires AllDigits(cpf)
    ensures ValidarCpf(cpf) <==> |cpf| == 11 && !Repetido(cpf) && cpf == CompletarCpf(cpf[..9])
  {
    if |cpf| == 11 {
      var base := cpf[..9];
      var d1 := DigitChar(DigitoVerificador(SomaPesos(base, 10)));
      var d2 := DigitChar(DigitoVerificador(SomaPesos(base + [d1], 11)));
      var c := CompletarCpf(base);
      assert c == base + [d1] + [d2];
      DigitCharValue(cpf[9]);
      DigitCharValue(cpf[10]);
      if ValidarCpf(cpf) {
        assert cpf[..10] == base + [d1];
        assert cpf == cpf[..10] + [cpf[10]];
      }
      if cpf == c {
        assert cpf[..10] == base + [d1];
        assert cpf[9] == d1 && cpf[10] == d2;
      }
    }
  }

  lemma SomaExemplo()
    ensures SomaPesos("111444777", 10) == 162
    ensures SomaPesos("1114447773", 11) == 204
  {
    assert "111444777"[1..] == "11444777";
    assert "11444777"[1..] == "1444777";
    assert "1444777"[1..] == "444777";
    assert "444777"[1..] == "44777";
    assert "44777"[1..] == "4777";
    assert "4777"[1..] == "777";
    assert "777"[1..] == "77";
    assert "77"[1..] == "7";
    assert "7"[1..] == "";
    assert "1114447773"[1..] == "114447773";
    assert "114447773"[1..] == "14447773";
    assert "14447773"[1..] == "4447773";
    assert "4447773"[1..] == "447773";
    assert "447773"[1..] == "47773";
    assert "47773"[1..] == "7773";
    assert "7773"[1..] == "773";
    assert "773"[1..] == "73";
    assert "73"[1..] == "3";
    assert "3"[1..] == "";
  }

  /** "11144477735" is a valid CPF. */
  lemma CpfValidoExemplo()
    ensures AllDigits("11144477735") && ValidarCpf("11144477735")
  {
    var c := "11144477735";
    SomaExemplo();
    CpfExemploPartes();
    assert DigitoVerificador(162) == 3 && DigitoVerificador(204) == 5;
  }

  lemma CpfExemploPartes()
    ensures var c := "11144477735";
      AllDigits(c) && !Repetido(c) && c[..9] == "111444777" && c[..10] == "1114447773"
      && DigitValue(c[9]) == 3 && DigitValue(c[10]) == 5
  {
    var c := "11144477735";
    assert c[3] != c[0];
  }

  /** "11111111111" has matching check digits but is rejected as a repetition. */
  lemma CpfRepetidoExemplo()
    ensures AllDigits("11111111111") && !ValidarCpf("11111111111")
    ensures DigitoVerificador(SomaPesos("111111111", 10)) == 1
  {
    var c := "11111111111";
    assert Repetido(c);
    assert "111111111"[1..] == "11111111";
    assert "11111111"[1..] == "1111111";
    assert "1111111"[1..] == "111111";
    assert "111111"[1..] == "11111";
    assert "11111"[1..] == "1111";
    assert "1111"[1..] == "111";
    assert "111"[1..] == "11";
    assert "11"[1..] == "1";
    assert "1"[1..] == "";
  }

  // ---------------------------------------------------------------------
  // Digests, events and the window
  // ---------------------------------------------------------------------

  /** A stand-in for the SHA-256 hex digest: what matters to the model is
      that distinct texts give distinct, non-empty digests. */
  function Resumo(texto: string): (r: string)
    ensures |r| > 0
  {
    "sha256:" + texto
  }

  lemma ResumoInjetivo(a: string, b: string)
    ensures Resumo(a) == Resumo(b) ==> a == b
  {
    if Resumo(a) == Resumo(b) {
      assert a == Resumo(a)[7..] && b == Resumo(b)[7..];
    }
  }

  /** The salt of `_hash_cpf` when `LOKAO_CPF_SALT` is not set. */
  const Sal := "lokao-piloto-v1"

  /** `_hash_cpf`: the digest of `"{salt}:{cpf}"`. */
  function HashCpf(cpf: string): string
  {
    Resumo(Sal + ":" + cpf)
  }

  /** Distinct CPFs have distinct digests. */
  lemma HashCpfInjetivo(a: string, b: string)
    ensures HashCpf(a) == HashCpf(b) ==> a == b
  {
    ResumoInjetivo(Sal + ":" + a, Sal + ":" + b);
    if Sal + ":" + a == Sal + ":" + b {
      assert a == (Sal + ":" + a)[|Sal| + 1..];
      assert b == (Sal + ":" + b)[|Sal| + 1..];
    }
  }

  /** `_hash_ip`: empty for a blank address, otherwise a digest. */
  function HashIp(ip: string): (r: string)
    ensures |r| == 0 <==> |Strip(ip)| == 0
  {
    var t := Strip(ip);
    if |t| == 0 then "" else Resumo(t)
  }

  /** `s[:n]`. */
  function Prefixo(s: string, n: nat): (r: string)
    ensures |r| == Min(n, |s|) && r == s[..|r|]
  {
    s[..Min(n, |s|)]
  }

  /** One logged event; the time stamp is a count of seconds. */
  datatype Evento = Evento(ts: int, tipo: string, cpfHash: string, token: string, ipHash: string, ua: string)

  /** The event `_registrar_evento` builds. */
  function NovoEvento(agora: int, tipo: string, cpfHash: string, token: string, ip: string, ua: string): (e: Evento)
    ensures e.ts == agora && e.tipo == tipo && e.cpfHash == cpfHash && e.token == token
    ensures |e.ua| <= 180 && |e.ua| <= |ua| && e.ua == ua[..|e.ua|]
  {
    Evento(agora, tipo, cpfHash, token, HashIp(ip), Prefixo(ua, 180))
  }

  /** The test window: start and end, `None` when absent or unparseable. */
  datatype Janela = Janela(inicio: Option<int>, fim: Option<int>)

  /** `DURACAO_DIAS`, in seconds. */
  const DuracaoSegundos := 2 * 24 * 60 * 60

  /** `_garantir_janela`: a window that is already set is kept; otherwise one
      starts now and lasts two days. */
  function GarantirJanela(j: Janela, agora: int): (r: Janela)
    ensures r.inicio.Some? && r.fim.Some?
  {
    if j.inicio.Some? && j.fim.Some? then j else Janela(Some(agora), Some(agora + DuracaoSegundos))
  }

  /** `_janela_ativa`: start and end are inclusive. */
  predicate JanelaAtiva(j: Janela, agora: int)
  {
    j.inicio.Some? && j.fim.Some? && j.inicio.value <= agora <= j.fim.value
  }

  /** Once set, the window never moves. */
  lemma JanelaFixa(j: Janela, t1: int, t2: int)
    ensures GarantirJanela(GarantirJanela(j, t1), t2) == GarantirJanela(j, t1)
    ensures j.inicio.Some? && j.fim.Some? ==> GarantirJanela(j, t1) == j
  {
  }

  /** A window created now is active exactly for the next two days, ends
      inclusive. */
  lemma JanelaNova(j: Janela, agora: int, t: int)
    requires j.inicio.None? || j.fim.None?
    ensures var n := GarantirJanela(j, agora);
      n.fim.value == n.inicio.value + DuracaoSegundos
      && (JanelaAtiva(n, t) <==> agora <= t <= agora + 172800)
  {
  }

  // ---------------------------------------------------------------------
  // The stored records and their consistency
  // ---------------------------------------------------------------------

  /** `cpfs[h]`: the report token, its creation time and the feedback
      stamp (`None` for the empty string). */
  datatype Registro = Registro(reportToken: string, criadoEm: int, feedbackEnviadoEm: Option<int>)

  /** One feedback entry; the answers are kept as given. */
  datatype Feedback = Feedback(token: string, cpfHash: string, ts: int, respostas: map<string, string>)

  /** What keeps the document coherent: `tokens` and `cpfs` are inverse
      maps through each record's report token; every feedback entry belongs
      to a live token whose record is stamped, with at most one entry per
      token; and a stamped record has its feedback entry. */
  predicate Consistente(cpfs: map<string, Registro>, tokens: map<string, string>, feedback: seq<Feedback>)
  {
    (forall t :: t in tokens ==> tokens[t] in cpfs && cpfs[tokens[t]].reportToken == t)
    && (forall h :: h in cpfs ==>
          |h| > 0 && |cpfs[h].reportToken| > 0 && cpfs[h].reportToken in tokens && tokens[cpfs[h].reportToken] == h)
    && (forall x :: x in feedback ==>
          x.token in tokens && x.cpfHash == tokens[x.token] && cpfs[x.cpfHash].feedbackEnviadoEm.Some?)
    && TokensDistintos(feedback)
    && (forall h :: h in cpfs && cpfs[h].feedbackEnviadoEm.Some? ==> ComFeedback(feedback, cpfs[h].reportToken))
  }

  predicate TokensDistintos(feedback: seq<Feedback>)
  {
    forall i, j :: 0 <= i < j < |feedback| ==> feedback[i].token != feedback[j].token
  }

  predicate ComFeedback(feedback: seq<Feedback>, token: string)
  {
    exists x :: x in feedback && x.token == token
  }

  /** The feedback entries of other tokens, in order (the comprehension of
      `liberar_cpf_piloto`). */
  function SemToken(feedback: seq<Feedback>, token: string): (r: seq<Feedback>)
    ensures forall x :: x in r <==> x in feedback && x.token != token
  {
    if |feedback| == 0 then []
    else (if feedback[0].token != token then [feedback[0]] else []) + SemToken(feedback[1..], token)
  }

  lemma {:induction false} SemTokenDistintos(feedback: seq<Feedback>, token: string)
    requires TokensDistintos(feedback)
    ensures TokensDistintos(SemToken(feedback, token))
  {
    if |feedback| > 0 {
      var resto := feedback[1..];
      assert TokensDistintos(resto) by {
        forall i, j | 0 <= i < j < |resto| ensures resto[i].token != resto[j].token {
          assert resto[i] == feedback[i + 1] && resto[j] == feedback[j + 1];
        }
      }
      SemTokenDistintos(resto, token);
      var r := SemToken(feedback, token);
      var cauda := SemToken(resto, token);
      if feedback[0].token != token {
        forall j | 0 < j < |r| ensures r[0].token != r[j].token {
          assert r[j] == cauda[j - 1];
          assert r[j] in resto;
          var m :| 0 <= m < |resto| && resto[m] == r[j];
          assert feedback[m + 1] == r[j];
        }
        forall i, j | 0 <= i < j < |r| ensures r[i].token != r[j].token {
          if i > 0 {
            assert r[i] == cauda[i - 1] && r[j] == cauda[j - 1];
          }
        }
      } else {
        assert r == cauda;
      }
    }
  }

  /** Registering a new CPF under a fresh token keeps the document coherent. */
  lemma ConsistenteGeracao(cpfs: map<string, Registro>, tokens: map<string, string>, feedback: seq<Feedback>,
                           h: string, token: string, agora: int)
    requires Consistente(cpfs, tokens, feedback)
    requires h !in cpfs && |h| > 0 && |token| > 0 && token !in tokens
    ensures Consistente(cpfs[h := Registro(token, agora, None)], tokens[token := h], feedback)
  {
    var c2, t2 := cpfs[h := Registro(token, agora, None)], tokens[token := h];
    forall t | t in t2 ensures t2[t] in c2 && c2[t2[t]].reportToken == t {
      if t != token {
        assert tokens[t] != h;
      }
    }
  }

  /** Stamping a record that had no feedback and appending its entry keeps
      the document coherent. */
  lemma ConsistenteFeedback(cpfs: map<string, Registro>, tokens: map<string, string>, feedback: seq<Feedback>,
                            token: string, agora: int, respostas: map<string, string>)
    requires Consistente(cpfs, tokens, feedback)
    requires token in tokens && cpfs[tokens[token]].feedbackEnviadoEm.None?
    ensures var h := tokens[token];
      Consistente(cpfs[h := cpfs[h].(feedbackEnviadoEm := Some(agora))], tokens,
                  feedback + [Feedback(token, h, agora, respostas)])
  {
    var h := tokens[token];
    var c2 := cpfs[h := cpfs[h].(feedbackEnviadoEm := Some(agora))];
    var item := Feedback(token, h, agora, respostas);
    var f2 := feedback + [item];
    assert forall x :: x in feedback ==> x.token != token;
    assert TokensDistintos(f2) by {
      forall i, j | 0 <= i < j < |f2| ensures f2[i].token != f2[j].token {
        assert f2[i] == feedback[i];
        if j == |feedback| {
          assert f2[i] in feedback;
        } else {
          assert f2[j] == feedback[j];
        }
      }
    }
    forall x | x in f2 ensures x.token in tokens && x.cpfHash == tokens[x.token] && c2[x.cpfHash].feedbackEnviadoEm.Some? {
      if x != item {
        assert x in feedback;
      }
    }
    forall g | g in c2 && c2[g].feedbackEnviadoEm.Some? ensures ComFeedback(f2, c2[g].reportToken) {
      if g == h {
        assert item in f2;
      } else {
        var x :| x in feedback && x.token == cpfs[g].reportToken;
        assert x in f2;
      }
    }
  }

  /** Releasing a record, its token and its feedback keeps the document
      coherent. */
  lemma ConsistenteLiberacao(cpfs: map<string, Registro>, tokens: map<string, string>, feedback: seq<Feedback>, h: string)
    requires Consistente(cpfs, tokens, feedback) && h in cpfs
    ensures var token := cpfs[h].reportToken;
      Consistente(cpfs - {h}, tokens - {token}, SemToken(feedback, token))
  {
    var token := cpfs[h].reportToken;
    var c2, t2, f2 := cpfs - {h}, tokens - {token}, SemToken(feedback, token);
    SemTokenDistintos(feedback, token);
    forall t | t in t2 ensures t2[t] in c2 && c2[t2[t]].reportToken == t {
      assert tokens[t] != h;
    }
    forall g | g in c2 ensures c2[g].reportToken in t2 {
      assert tokens[cpfs[g].reportToken] == g;
    }
    forall x | x in f2 ensures x.token in t2 && x.cpfHash in c2 {
      assert x in feedback;
    }
    forall g | g in c2 && c2[g].feedbackEnviadoEm.Some? ensures ComFeedback(f2, c2[g].reportToken) {
      var x :| x in feedback && x.token == cpfs[g].reportToken;
      assert tokens[cpfs[g].reportToken] == g;
      assert x in f2;
    }
  }

  // ---------------------------------------------------------------------
  // Queries, decisions and views
  // ---------------------------------------------------------------------

  /** `token_piloto_valido`: the token maps to a digest that has a record. */
  predicate TokenValido(tokens: map<string, string>, cpfs: map<string, Registro>, token: string)
  {
    token in tokens && |tokens[token]| > 0 && tokens[token] in cpfs
  }

  /** `feedback_ja_enviado`: the token's record carries a feedback stamp. */
  predicate FeedbackJaEnviado(tokens: map<string, string>, cpfs: map<string, Registro>, token: string)
  {
    TokenValido(tokens, cpfs, token) && cpfs[tokens[token]].feedbackEnviadoEm.Some?
  }

  /** In a coherent document a token is valid exactly when it is stored, and
      its feedback stamp agrees with the feedback list. */
  lemma ConsultasCoerentes(cpfs: map<string, Registro>, tokens: map<string, string>, feedback: seq<Feedback>, token: string)
    requires Consistente(cpfs, tokens, feedback)
    ensures TokenValido(tokens, cpfs, token) <==> token in tokens
    ensures FeedbackJaEnviado(tokens, cpfs, token) <==> token in tokens && ComFeedback(feedback, token)
  {
    if token in tokens {
      var h := tokens[token];
      assert h in cpfs && cpfs[h].reportToken == token;
      if ComFeedback(feedback, token) {
        var x :| x in feedback && x.token == token;
        assert x.cpfHash == h;
      }
    }
  }

  /** The answers of `registrar_geracao_unica`. */
  datatype RespostaGeracao = JanelaEncerrada | CpfInvalido | JaUtilizado(token: string) | Gerado(token: string)

  /** Which answer a registration gets, the checks taken in the source's
      order: the window, the CPF, then an earlier report. */
  function Geracao(j: Janela, cpfs: map<string, Registro>, cpf: Option<string>, agora: int, novoToken: string): RespostaGeracao
  {
    var limpo := NormalizarCpf(cpf);
    if !JanelaAtiva(GarantirJanela(j, agora), agora) then JanelaEncerrada
    else if !ValidarCpf(limpo) then CpfInvalido
    else
      var h := HashCpf(limpo);
      if h in cpfs && |cpfs[h].reportToken| > 0 then JaUtilizado(cpfs[h].reportToken) else Gerado(novoToken)
  }

  /** The event each answer logs. */
  function EventoGeracao(r: RespostaGeracao, cpfHash: string, ip: string, ua: string, agora: int): Evento
  {
    match r
    case JanelaEncerrada => NovoEvento(agora, "janela_encerrada", "", "", ip, ua)
    case CpfInvalido => NovoEvento(agora, "cpf_invalido", "", "", ip, ua)
    case JaUtilizado(t) => NovoEvento(agora, "tentativa_repetida", cpfHash, t, ip, ua)
    case Gerado(t) => NovoEvento(agora, "relatorio_gerado", cpfHash, t, ip, ua)
  }

  /** A report is generated exactly when the window is active, the CPF is
      valid and no report exists for it. */
  lemma GeracaoSse(j: Janela, cpfs: map<string, Registro>, cpf: Option<string>, agora: int, novoToken: string)
    ensures var limpo := NormalizarCpf(cpf);
      Geracao(j, cpfs, cpf, agora, novoToken) == Gerado(novoToken)
      <==> JanelaAtiva(GarantirJanela(j, agora), agora) && ValidarCpf(limpo)
           && !(HashCpf(limpo) in cpfs && |cpfs[HashCpf(limpo)].reportToken| > 0)
  {
  }

  /** One report per CPF: after a report is generated, any later attempt
      with the same CPF, however written, is refused, and while the window
      is open it is answered with that same token. */
  lemma UmaGeracaoPorCpf(j: Janela, cpfs: map<string, Registro>, cpf: Option<string>, agora: int, token: string,
                         outro: Option<string>, depois: int, token2: string)
    requires Geracao(j, cpfs, cpf, agora, token) == Gerado(token) && |token| > 0
    requires NormalizarCpf(outro) == NormalizarCpf(cpf)
    ensures var h := HashCpf(NormalizarCpf(cpf));
      var r := Geracao(GarantirJanela(j, agora), cpfs[h := Registro(token, agora, None)], outro, depois, token2);
      r == JanelaEncerrada || r == JaUtilizado(token)
  {
    JanelaFixa(j, agora, depois);
  }

  /** The answers of `registrar_feedback`. */
  datatype RespostaFeedback = TokenInvalido | FeedbackRepetido | FeedbackAceito

  function DecisaoFeedback(tokens: map<string, string>, cpfs: map<string, Registro>, token: string): RespostaFeedback
  {
    var t := Strip(token);
    if t !in tokens || |tokens[t]| == 0 then TokenInvalido
    else if FeedbackJaEnviado(tokens, cpfs, t) then FeedbackRepetido
    else FeedbackAceito
  }

  /** At most one feedback per report: once accepted, the next attempt with
      that token is a repetition. */
  lemma UmFeedbackPorToken(cpfs: map<string, Registro>, tokens: map<string, string>, feedback: seq<Feedback>,
                           token: string, agora: int)
    requires Consistente(cpfs, tokens, feedback)
    requires DecisaoFeedback(tokens, cpfs, token) == FeedbackAceito
    ensures var h := tokens[Strip(token)];
      DecisaoFeedback(tokens, cpfs[h := cpfs[h].(feedbackEnviadoEm := Some(agora))], token) == FeedbackRepetido
  {
  }

  /** The answers of `liberar_cpf_piloto`. */
  datatype RespostaLiberacao = LiberacaoCpfInvalido | CpfNaoEncontrado | Liberado(tokenRemovido: string)

  function DecisaoLiberacao(cpfs: map<string, Registro>, cpf: Option<string>): RespostaLiberacao
  {
    var limpo := NormalizarCpf(cpf);
    if !ValidarCpf(limpo) then LiberacaoCpfInvalido
    else
      var h := HashCpf(limpo);
      if h !in cpfs then CpfNaoEncontrado else Liberado(cpfs[h].reportToken)
  }

  /** A released CPF may register again: while the window is open, its next
      attempt generates a report. */
  lemma LiberacaoReabre(cpfs: map<string, Registro>, cpf: Option<string>, j: Janela, agora: int, novoToken: string)
    requires DecisaoLiberacao(cpfs, cpf).Liberado?
    requires JanelaAtiva(GarantirJanela(j, agora), agora)
    ensures Geracao(j, cpfs - {HashCpf(NormalizarCpf(cpf))}, cpf, agora, novoToken) == Gerado(novoToken)
  {
  }

  /** The `metricas_piloto` figures. */
  datatype Metricas = Metricas(janela: Janela, ativo: bool, totalGerados: nat, totalFeedback: nat,
                               taxaFeedbackPct: real, eventosTotal: nat)

  function Gerados(cpfs: map<string, Registro>): set<string>
  {
    set h | h in cpfs && |cpfs[h].reportToken| > 0
  }

  function Respondidos(cpfs: map<string, Registro>): set<string>
  {
    set h | h in cpfs && cpfs[h].feedbackEnviadoEm.Some?
  }

  /** `round(feedback / gerados * 100, 1)`, or 0 with nothing generated. */
  function Taxa(feedback: nat, gerados: nat): real
  {
    if gerados > 0 then RoundHalfEven(feedback as real / gerados as real * 1000.0) as real / 10.0 else 0.0
  }

  /** `metricas_piloto`; the window is the one `_garantir_janela` gives, which
      this call does not store. */
  function MetricasDe(j: Janela, cpfs: map<string, Registro>, eventos: seq<Evento>, agora: int): Metricas
  {
    var janela := GarantirJanela(j, agora);
    var g := |Gerados(cpfs)|;
    var f := |Respondidos(cpfs)|;
    Metricas(janela, JanelaAtiva(janela, agora), g, f, Taxa(f, g), |eventos|)
  }

  lemma TaxaLimites(f: nat, g: nat)
    requires f <= g
    ensures 0.0 <= Taxa(f, g) <= 100.0
    ensures g == 0 ==> Taxa(f, g) == 0.0
    ensures f == g && g > 0 ==> Taxa(f, g) == 100.0
  {
    if g > 0 {
      var q := f as real / g as real;
      QuocienteUnitario(f as real, g as real);
      if f == g {
        assert q == 1.0;
        RoundHalfEvenOfInt(1000);
      }
    }
  }

  /** A share of a positive whole lies between nothing and all of it. */
  lemma QuocienteUnitario(f: real, g: real)
    requires 0.0 <= f <= g && g > 0.0
    ensures 0.0 <= f / g <= 1.0
  {
    var q := f / g;
    assert q * g == f;
    assert (1.0 - q) * g == g - f;
  }

  /** In a coherent document every record holds a report, no more records
      carry feedback than reports exist, and the rate is a percentage. */
  lemma MetricasLimites(j: Janela, cpfs: map<string, Registro>, tokens: map<string, string>, feedback: seq<Feedback>,
                        eventos: seq<Evento>, agora: int)
    requires Consistente(cpfs, tokens, feedback)
    ensures var m := MetricasDe(j, cpfs, eventos, agora);
      m.totalGerados == |cpfs|
      && m.totalFeedback <= m.totalGerados
      && 0.0 <= m.taxaFeedbackPct <= 100.0
      && (m.totalGerados == 0 ==> m.taxaFeedbackPct == 0.0)
      && m.eventosTotal == |eventos|
  {
    assert Gerados(cpfs) == cpfs.Keys;
    assert Respondidos(cpfs) <= cpfs.Keys;
    SubconjuntoMenor(Respondidos(cpfs), cpfs.Keys);
    TaxaLimites(|Respondidos(cpfs)|, |cpfs.Keys|);
  }

  lemma {:induction false} SubconjuntoMenor(a: set<string>, b: set<string>)
    requires a <= b
    ensures |a| <= |b|
  {
    if a != {} {
      var x :| x in a;
      SubconjuntoMenor(a - {x}, b - {x});
    }
  }

  /** `s[-limite:]`: the last `limite` items, all of them for 0, and all
      but the first `-limite` for a negative limit. */
  function Ultimos<T>(s: seq<T>, limite: int): (r: seq<T>)
    ensures |r| <= |s| && r == s[|s| - |r|..]
    ensures limite > 0 ==> |r| == Min(limite, |s|)
    ensures limite == 0 ==> r == s
    ensures limite < 0 ==> |r| == Max(0, |s| + limite)
  {
    var k := -limite;
    var inicio := if k < 0 then Max(0, |s| + k) else Min(k, |s|);
    s[inicio..]
  }

  datatype ItemFeedback = ItemFeedback(ts: int, token: string, respostas: map<string, string>)
  datatype ItemEvento = ItemEvento(ts: int, tipo: string, token: string)

  /** The administrator view of a feedback entry: the token cut to 8 characters. */
  function VerFeedback(x: Feedback): ItemFeedback
  {
    ItemFeedback(x.ts, Prefixo(x.token, 8), x.respostas)
  }

  function VerEvento(e: Evento): ItemEvento
  {
    ItemEvento(e.ts, e.tipo, Prefixo(e.token, 8))
  }

  /** The last `limite` feedback entries, newest first. */
  function VisaoFeedback(feedback: seq<Feedback>, limite: int): seq<ItemFeedback>
  {
    var u := Ultimos(feedback, limite);
    seq(|u|, k requires 0 <= k < |u| => VerFeedback(u[|u| - 1 - k]))
  }

  function VisaoEventos(eventos: seq<Evento>, limite: int): seq<ItemEvento>
  {
    var u := Ultimos(eventos, limite);
    seq(|u|, k requires 0 <= k < |u| => VerEvento(u[|u| - 1 - k]))
  }

  /** The views start with the newest entry and hold `min(limite, n)`
      entries for a positive limit, and all of them for a zero limit. */
  lemma VisaoRecente(feedback: seq<Feedback>, limite: int)
    ensures var v := VisaoFeedback(feedback, limite);
      (limite > 0 ==> |v| == Min(limite, |feedback|))
      && (limite == 0 ==> |v| == |feedback|)
      && (|v| > 0 ==>
            v[0] == VerFeedback(feedback[|feedback| - 1]) && v[|v| - 1] == VerFeedback(feedback[|feedback| - |v|]))
  {
  }

  datatype Admin = Admin(metricas: Metricas, feedback: seq<ItemFeedback>, eventos: seq<ItemEvento>)

  // ---------------------------------------------------------------------
  // The stored document
  // ---------------------------------------------------------------------

  /** The pilot document (`window_start`, `window_end`, `cpfs`, `tokens`,
      `feedback`, `eventos`); the methods are the module's public functions. */
  class Piloto {
    var janela: Janela
    var cpfs: map<string, Registro>
    var tokens: map<string, string>
    var feedback: seq<Feedback>
    var eventos: seq<Evento>

    ghost predicate Valid()
      reads this
    {
      Consistente(cpfs, tokens, feedback)
    }

    /** `_estado_inicial`. */
    constructor ()
      ensures Valid()
      ensures janela == Janela(None, None) && cpfs == map[] && tokens == map[] && feedback == [] && eventos == []
    {
      janela := Janela(None, None);
      cpfs := map[];
      tokens := map[];
      feedback := [];
      eventos := [];
    }

    /** `_registrar_evento`: exactly one event appended. */
    method RegistrarEvento(agora: int, tipo: string, cpfHash: string, token: string, ip: string, ua: string)
      modifies this
      ensures eventos == old(eventos) + [NovoEvento(agora, tipo, cpfHash, token, ip, ua)]
      ensures janela == old(janela) && cpfs == old(cpfs) && tokens == old(tokens) && feedback == old(feedback)
    {
      eventos := eventos + [NovoEvento(agora, tipo, cpfHash, token, ip, ua)];
    }

    /** `obter_janela_teste`: the window is created if needed and stored. */
    method ObterJanela(agora: int) returns (inicio: Option<int>, fim: Option<int>, ativo: bool)
      modifies this
      ensures janela == GarantirJanela(old(janela), agora)
      ensures inicio == janela.inicio && fim == janela.fim && ativo == JanelaAtiva(janela, agora)
      ensures cpfs == old(cpfs) && tokens == old(tokens) && feedback == old(feedback) && eventos == old(eventos)
    {
      janela := GarantirJanela(janela, agora);
      inicio, fim := janela.inicio, janela.fim;
      ativo := JanelaAtiva(janela, agora);
    }

    /** `registrar_geracao_unica`; `novoToken` is the random token the
        source draws. The document stays coherent when that token is new. */
    method RegistrarGeracaoUnica(cpf: Option<string>, ip: string, ua: string, agora: int, novoToken: string)
      returns (r: RespostaGeracao)
      requires Valid()
      modifies this
      ensures r == Geracao(old(janela), old(cpfs), cpf, agora, novoToken)
      ensures janela == GarantirJanela(old(janela), agora) && feedback == old(feedback)
      ensures eventos == old(eventos) + [EventoGeracao(r, HashCpf(NormalizarCpf(cpf)), ip, ua, agora)]
      ensures r.Gerado? ==> cpfs == old(cpfs)[HashCpf(NormalizarCpf(cpf)) := Registro(novoToken, agora, None)]
                            && tokens == old(tokens)[novoToken := HashCpf(NormalizarCpf(cpf))]
      ensures !r.Gerado? ==> cpfs == old(cpfs) && tokens == old(tokens)
      ensures |novoToken| > 0 && novoToken !in old(tokens) ==> Valid()
      ensures r.Gerado? ==> TokenValido(tokens, cpfs, novoToken) && !FeedbackJaEnviado(tokens, cpfs, novoToken)
    {
      janela := GarantirJanela(janela, agora);
      if !JanelaAtiva(janela, agora) {
        RegistrarEvento(agora, "janela_encerrada", "", "", ip, ua);
        return JanelaEncerrada;
      }
      var cpfLimpo := NormalizarCpf(cpf);
      if !ValidarCpf(cpfLimpo) {
        RegistrarEvento(agora, "cpf_invalido", "", "", ip, ua);
        return CpfInvalido;
      }
      var cpfHash := HashCpf(cpfLimpo);
      if cpfHash in cpfs && |cpfs[cpfHash].reportToken| > 0 {
        var existente := cpfs[cpfHash].reportToken;
        RegistrarEvento(agora, "tentativa_repetida", cpfHash, existente, ip, ua);
        return JaUtilizado(existente);
      }
      GravarRelatorio(cpfHash, novoToken, agora, ip, ua);
      r := Gerado(novoToken);
    }

    /** The success path of `registrar_geracao_unica`: the record, the token
        entry and the event. */
    method GravarRelatorio(cpfHash: string, novoToken: string, agora: int, ip: string, ua: string)
      requires Valid() && cpfHash !in cpfs && |cpfHash| > 0
      modifies this
      ensures cpfs == old(cpfs)[cpfHash := Registro(novoToken, agora, None)] && tokens == old(tokens)[novoToken := cpfHash]
      ensures eventos == old(eventos) + [NovoEvento(agora, "relatorio_gerado", cpfHash, novoToken, ip, ua)]
      ensures janela == old(janela) && feedback == old(feedback)
      ensures |novoToken| > 0 && novoToken !in old(tokens) ==> Valid()
    {
      if |novoToken| > 0 && novoToken !in tokens {
        ConsistenteGeracao(cpfs, tokens, feedback, cpfHash, novoToken, agora);
      }
      cpfs := cpfs[cpfHash := Registro(novoToken, agora, None)];
      tokens := tokens[novoToken := cpfHash];
      RegistrarEvento(agora, "relatorio_gerado", cpfHash, novoToken, ip, ua);
    }

    /** `registrar_feedback`. */
    method RegistrarFeedback(token: string, respostas: map<string, string>, ip: string, ua: string, agora: int)
      returns (r: RespostaFeedback)
      requires Valid()
      modifies this
      ensures Valid()
      ensures r == DecisaoFeedback(old(tokens), old(cpfs), token)
      ensures janela == old(janela) && tokens == old(tokens)
      ensures r == TokenInvalido ==> cpfs == old(cpfs) && feedback == old(feedback) && eventos == old(eventos)
      ensures r == FeedbackRepetido ==>
        cpfs == old(cpfs) && feedback == old(feedback)
        && eventos == old(eventos) + [NovoEvento(agora, "feedback_repetido", tokens[Strip(token)], Strip(token), ip, ua)]
      ensures r == FeedbackAceito ==>
        var t := Strip(token);
        var h := tokens[t];
        feedback == old(feedback) + [Feedback(t, h, agora, respostas)]
        && cpfs == old(cpfs)[h := old(cpfs)[h].(feedbackEnviadoEm := Some(agora))]
        && eventos == old(eventos) + [NovoEvento(agora, "feedback_enviado", h, t, ip, ua)]
        && FeedbackJaEnviado(tokens, cpfs, t)
    {
      var t := Strip(token);
      if t !in tokens || |tokens[t]| == 0 {
        return TokenInvalido;
      }
      var cpfHash := tokens[t];
      if FeedbackJaEnviado(tokens, cpfs, t) {
        RegistrarEvento(agora, "feedback_repetido", cpfHash, t, ip, ua);
        return FeedbackRepetido;
      }
      ConsistenteFeedback(cpfs, tokens, feedback, t, agora, respostas);
      feedback := feedback + [Feedback(t, cpfHash, agora, respostas)];
      cpfs := cpfs[cpfHash := cpfs[cpfHash].(feedbackEnviadoEm := Some(agora))];
      RegistrarEvento(agora, "feedback_enviado", cpfHash, t, ip, ua);
      r := FeedbackAceito;
    }

    /** `liberar_cpf_piloto`: the record, its token and its feedback go. */
    method LiberarCpf(cpf: Option<string>, agora: int) returns (r: RespostaLiberacao)
      requires Valid()
      modifies this
      ensures Valid()
      ensures r == DecisaoLiberacao(old(cpfs), cpf)
      ensures janela == old(janela)
      ensures !r.Liberado? ==>
        cpfs == old(cpfs) && tokens == old(tokens) && feedback == old(feedback) && eventos == old(eventos)
      ensures r.Liberado? ==>
        var h := HashCpf(NormalizarCpf(cpf));
        var t := r.tokenRemovido;
        cpfs == old(cpfs) - {h} && tokens == old(tokens) - {t}
        && feedback == SemToken(old(feedback), t)
        && eventos == old(eventos) + [NovoEvento(agora, "cpf_liberado_admin", h, t, "", "")]
        && !TokenValido(tokens, cpfs, t)
    {
      var cpfLimpo := NormalizarCpf(cpf);
      if !ValidarCpf(cpfLimpo) {
        return LiberacaoCpfInvalido;
      }
      var cpfHash := HashCpf(cpfLimpo);
      if cpfHash !in cpfs {
        return CpfNaoEncontrado;
      }
      var registro := cpfs[cpfHash];
      ConsistenteLiberacao(cpfs, tokens, feedback, cpfHash);
      cpfs := cpfs - {cpfHash};
      var token := registro.reportToken;
      if |token| > 0 {
        tokens := tokens - {token};
      }
      if |token| > 0 {
        feedback := SemToken(feedback, token);
      }
      RegistrarEvento(agora, "cpf_liberado_admin", cpfHash, token, "", "");
      r := Liberado(token);
    }

    /** `registrar_evento_publico`. */
    method RegistrarEventoPublico(tipo: string, token: string, ip: string, ua: string, agora: int)
      requires Valid()
      modifies this
      ensures Valid()
      ensures eventos == old(eventos) + [NovoEvento(agora, tipo, "", Strip(token), ip, ua)]
      ensures janela == old(janela) && cpfs == old(cpfs) && tokens == old(tokens) && feedback == old(feedback)
    {
      RegistrarEvento(agora, tipo, "", Strip(token), ip, ua);
    }

    /** `dados_admin_piloto`: the metrics and the two views, each built by a
        loop over the kept entries from the newest. Nothing is stored. */
    method DadosAdmin(agora: int, limiteFeedback: int := 30, limiteEventos: int := 60) returns (a: Admin)
      ensures a == Admin(MetricasDe(janela, cpfs, eventos, agora),
                         VisaoFeedback(feedback, limiteFeedback), VisaoEventos(eventos, limiteEventos))
    {
      var metricas := MetricasDe(janela, cpfs, eventos, agora);
      var feedbackView := VerFeedbackRecentes(feedback, limiteFeedback);
      var eventosView := VerEventosRecentes(eventos, limiteEventos);
      a := Admin(metricas, feedbackView, eventosView);
    }
  }

  /** The first loop of `dados_admin_piloto`: over the kept entries from the
      newest, appending each one's view. */
  method VerFeedbackRecentes(feedback: seq<Feedback>, limite: int) returns (vistos: seq<ItemFeedback>)
    ensures vistos == VisaoFeedback(feedback, limite)
  {
    var ultimos := Ultimos(feedback, limite);
    vistos := [];
    for i := |ultimos| downto 0
      invariant |vistos| == |ultimos| - i
      invariant forall k :: 0 <= k < |vistos| ==> vistos[k] == VerFeedback(ultimos[|ultimos| - 1 - k])
    {
      vistos := vistos + [VerFeedback(ultimos[i])];
    }
  }

  /** The second loop, over the events. */
  method VerEventosRecentes(eventos: seq<Evento>, limite: int) returns (vistos: seq<ItemEvento>)
    ensures vistos == VisaoEventos(eventos, limite)
  {
    var ultimos := Ultimos(eventos, limite);
    vistos := [];
    for i := |ultimos| downto 0
      invariant |vistos| == |ultimos| - i
      invariant forall k :: 0 <= k < |vistos| ==> vistos[k] == VerEvento(ultimos[|ultimos| - 1 - k])
    {
      vistos := vistos + [VerEvento(ultimos[i])];
    }
  }
}
