# Lokao report core in Dafny

Lokao is a web application that writes a real-estate decision report for a neighbourhood of
Cuiaba. It works from a spreadsheet catalogue of neighbourhoods, the buyer's budget, the
property value, the area and the desired standard. This project models the logic behind
the report and proves properties of it:

- the urban compatibility score and its explanations;
- the neighbourhood suggestions and the alternative neighbourhoods;
- the purchase and construction cost scenarios and the financing indicators;
- the CUB (unit construction cost) lookup by month and standard;
- the construction-methodology table and the execution calendar;
- the m² value cascade: cache, then collector, then spreadsheet;
- the page scraper's median and the fixed neighbourhood table;
- the Brazilian currency parsing and formatting;
- the pilot programme: one report per CPF, a two-day window, feedback, admin release;
- the payment registry;
- the fixed text tables: reading texts, profiles and crossings.

Layout: one module per source file, plus five shared modules.

- `Base`: Option and the Python value `Py` (None, number or text).
- `Texto`: string helpers that follow Python's `str` methods.
- `Numero`: Python's `float()` grammar on decimal text, and round-half-even.
- `Ordenacao`: a stable insertion sort, playing the part of Python's `sorted`/`list.sort`.
- `Catalogo`: a catalogue row, and the tier table `{"economico": 1, "baixo": 1, "medio": 2, "alto": 3}`.

`Perfis` holds the keys of the profile table (app/core/perfis.py) and of the
property-type table (app/core/tipos_imovel.py).

State that the source keeps in JSON files and updates in place is a class:

- `PilotoTeste.Piloto`: window, CPF records, tokens, feedback, events;
- `PagamentosMp.Pagamentos`: payments by token;
- `MercadoM2.CacheM2`: the m² cache.

Each method is proved against a pure function of the old state, and the properties are
lemmas about those functions. Loops in the source are methods with loop invariants, proved
equal to a recursive specification function: the suggestion filters,
scenario tables, the methodology table, the calendar, the amount extraction and the
admin views. Floats are exact reals. Python's `round` is round-half-even on the exact
value.

## Model

| member | source | states |
|---|---|---|
| Formatacao.FloatParaMoedaFormato | app/utils/formatacao.py:23-29 | the amount is read with `float()` (0 when that fails) and written as R$ with "." thousands and "," decimals |
| Formatacao.AgruparDigitos | app/utils/formatacao.py:29 | dropping the "." separators from the grouped integer part gives back the digits of the number |
| Formatacao.MoedaRoundTrip | app/utils/formatacao.py:1-29 | parsing the text formatted for any whole number of cents gives that amount back |
| Formatacao.MoedaSemPrefixo | app/utils/formatacao.py:8-16 | an "R$ " prefix does not change the parsed amount |
| Formatacao.ExemploZero | app/utils/formatacao.py:23-29 | anything that reads as 0, including text `float()` rejects, is shown as "R$ 0,00" |
| Formatacao.ExemploLer | app/utils/formatacao.py:8-16 | "R$ 1.234,50" reads as 1234.5 |
| Formatacao.ExemploPonto | app/utils/formatacao.py:10-16 | a "." is always a thousands separator: "1.5" reads as 15 |
| Formatacao.MoedaFormatada | app/utils/formatacao.py:29 | c/100 is formatted as "R$ " with the sign, grouped reais and two cent digits of c |
| Formatacao.LerFormatado | app/utils/formatacao.py:8-16 | a formatted amount parses to its signed value in cents over 100 |
| Utils.NormalizarComoMoeda | app/services/utils.py:16-24 | text without blanks normalises exactly as the currency parser reads it |
| Utils.NormalizarPrefixo | app/services/utils.py:16-24 | with the "R$ " prefix the result is the parser's on the rest |
| Utils.NormalizarFormatado | app/services/utils.py:16-24 | normalising a formatted amount gives the amount back |
| Utils.ExemploPrefixo | app/services/utils.py:5 | 'R$ 250.000,00' gives 250000 |
| Utils.ExemploMilhar | app/services/utils.py:6 | '250.000,00' gives 250000 |
| Utils.ExemploDigitos | app/services/utils.py:7 | '250000' gives 250000 |
| Utils.ExemploBranco | app/services/utils.py:19 | "1 234" gives 1234, while the currency parser gives 0 for it |
| Utils.BrancoEntreDigitos | app/services/utils.py:16-24 | digits around a blank are joined by this function and rejected (0) by the currency parser |
| Utils.BrancoRejeitado | app/services/utils.py:22-24 | text with a non-digit between digits and no point is not a float |
| Numero.PythonFloatNumeral | app/services/financeiro.py:4-8 | an unsigned numeral without blanks that starts and ends with a digit is read as its value |
| Numero.PythonFloatLido | app/services/financeiro.py:4-8 | an unsigned numeral with any blanks around it and an optional "+" or "-" sign is read as its value, negated after "-" |
| Numero.RoundHalfEven | app/services/scraper.py:52 | the rounded integer is within one half of the value, strictly unless the value lies halfway, and a halfway value goes to the even integer |
| Catalogo.Nivel | app/services/score_urbano.py:41-44 | the tier of a standard lies in 0..3 (0 for a standard not in the table) |
| Ordenacao.OrdenarOrdena | app/services/sugestoes.py:95 | sorting by a key under a strict weak order yields a sequence ordered by the key |
| Ordenacao.OrdenarPermuta | app/services/sugestoes.py:95 | the sorted sequence is a permutation of the input |
| Ordenacao.OrdenarEstavel | app/services/sugestoes_bairros.py:67 | elements with equal keys keep their input order |
| Ordenacao.MenorTextoOrdemFraca | app/services/cub.py:65-68 | Python's string comparison is a strict weak order |
| ScoreUrbano.CalcularScoreUrbano | app/services/score_urbano.py:26-154 | the score is the five rules on the parsed input, clamped to 0..100, with 1 to 5 explanations, the urban-profile one first |
| ScoreUrbano.Pontuar | app/services/score_urbano.py:36-139 | the five rules applied in sequence equal the rule functions' sum and explanation list; value is max(0, raw) |
| ScoreUrbano.AplicarPerfilUrbano | app/services/score_urbano.py:46-55 | adds 25/18/10 for alto/medio/other and its explanation |
| ScoreUrbano.AplicarCoerencia | app/services/score_urbano.py:57-81 | +20/−8/−16 by tier distance; only a note when a tier is unknown; nothing without a desired standard |
| ScoreUrbano.AplicarCapacidade | app/services/score_urbano.py:83-111 | budget/value ratio bands 1.8, 1.4, 1.1, 1.0, 0.85 give +25/+22/+18/+14/+6/−20 |
| ScoreUrbano.AplicarDesalinhamento | app/services/score_urbano.py:113-129 | −6 and its explanation when budget ≥ 1.5×value, desired tier 3 and the area or its social profile is below it |
| ScoreUrbano.AplicarFinanciamento | app/services/score_urbano.py:131-137 | −4 and its explanation when financing |
| ScoreUrbano.Explicacoes | app/services/score_urbano.py:46-137 | the number of explanations is one per rule that fired; the financing one is last |
| ScoreUrbano.BrutoLimites | app/services/score_urbano.py:36-139 | the raw score lies in −10..90, so the clamp to 100 never applies |
| ScoreUrbano.BrutoExtremos | app/services/score_urbano.py:36-139 | both −10 and 90 are reached |
| ScoreUrbano.FinanciamentoCusta | app/services/score_urbano.py:131-137 | financing costs exactly 4 points and appends one explanation |
| ScoreUrbano.DesalinhamentoSse | app/services/score_urbano.py:113-129 | the mismatch explanation appears iff the mismatch condition holds |
| ScoreUrbano.CapacidadeMonotona | app/services/score_urbano.py:83-111 | a larger budget never lowers the capacity points |
| ScoreUrbano.OrcamentoNaoMonotono | app/services/score_urbano.py:83-129 | the total is not monotone in the budget: ratio 1.4 scores 52, ratio 1.5 scores 46 |
| ScoreUrbano.CoerenciaSoNota | app/services/score_urbano.py:77-81 | an unknown tier adds no points, only the note, as second explanation |
| ScoreUrbano.DesejadoDesconhecido | app/services/score_urbano.py:57-81 | an unknown desired standard scores as no desired standard, plus one note |
| ScoreUrbano.ClassificacaoFaixas | app/services/score_urbano.py:141-148 | the four classification bands, each as an iff on the score |
| Sugestoes.GerarSugestoes | app/services/sugestoes.py:23-107 | the suggestions are the admissible candidates sorted by (distance to 70%, −commitment), cut to the limit; none when score ≥ 75 or budget ≤ 0 |
| Sugestoes.FiltrarCandidatos | app/services/sugestoes.py:49-93 | the loop keeps exactly the rows the filter function accepts, in order |
| Sugestoes.AvaliarLinha | app/services/sugestoes.py:51-93 | one row: skipped for the current area, tiers more than 1 apart, m² ≤ 0, commitment outside [0.30, 0.95] |
| Sugestoes.CopiarPrimeiros | app/services/sugestoes.py:98 | copies `candidatos[:limite]` with Python slice semantics, negative limits included |
| Sugestoes.Fatia | app/services/sugestoes.py:98 | the slice is a prefix of length min(limit, n), or n + limit for a negative limit |
| Sugestoes.AvaliarAdmissivel | app/services/sugestoes.py:51-93 | an accepted row has cost = m²·area, commitment = cost/budget in [0.30, 0.95], slack = 1 − commitment, distance = abs(0.70 − commitment) |
| Sugestoes.CandidatosAdmissiveis | app/services/sugestoes.py:49-93 | every candidate is admissible and comes from a catalogue row |
| Sugestoes.SugerirPropriedades | app/services/sugestoes.py:95-98 | the result is admissible, from the catalogue, sorted, and has min(limit, candidates) rows |
| Sugestoes.AreaReferencia | app/services/sugestoes.py:70 | the reference area is positive: the given area, or 180 |
| SugestoesBairros.GerarSugestoesBairros | app/services/sugestoes_bairros.py:17-84 | equals the specification; at most max(limit, 1) rows; none without a frame, without a current area, without a "bairro" column, or when the current area is not in the frame |
| SugestoesBairros.FiltrarBairros | app/services/sugestoes_bairros.py:47-65 | the loop keeps exactly the accepted rows with their parsed m² value |
| SugestoesBairros.Filtros | app/services/sugestoes_bairros.py:49-63 | skips the current area, another region or profile, a higher tier, or an m² value above a positive budget |
| SugestoesBairros.Listar | app/services/sugestoes_bairros.py:69-84 | the output loop with its `break` after reaching the limit |
| SugestoesBairros.Atual | app/services/sugestoes_bairros.py:35-38 | the current row exists iff some row has that name, and it is such a row |
| SugestoesBairros.CandidatosAceitos | app/services/sugestoes_bairros.py:47-65 | every candidate is a frame row accepted by the filters, paired with its parsed value |
| SugestoesBairros.SugerirBairrosPropriedades | app/services/sugestoes_bairros.py:31-84 | none in the four guard cases (no frame, no current area, no "bairro" column, current area absent); at most max(limit, 1) rows, all accepted frame rows, in ascending key order |
| SugestoesBairros.NaoPositivosPorUltimo | app/services/sugestoes_bairros.py:67 | rows without a positive value sort after every positive one, among themselves in input order |
| Financeiro.SafeDiv | app/services/financeiro.py:11-14 | 0 for a non-positive denominator, otherwise the exact quotient |
| Financeiro.ToFloatFalha | app/services/financeiro.py:4-8 | None and text that `float()` rejects read as 0 |
| Financeiro.CalcularCenariosCompra | app/services/financeiro.py:17-67 | the loop builds the three purchase scenarios of the specification |
| Financeiro.CenariosCompraTotais | app/services/financeiro.py:17-67 | no scenario without a value; otherwise totals value×1.088/1.146/1.225 plus bank fees 2500/4500/7000 (800/1200/1800 without financing), strictly increasing |
| Financeiro.CalcularCenariosConstrucao | app/services/financeiro.py:70-115 | the loop builds the three construction scenarios |
| Financeiro.CenariosConstrucaoTotais | app/services/financeiro.py:70-115 | no scenario without a cost; otherwise totals cost×1.200/1.295/1.410, strictly increasing |
| Financeiro.Prazo | app/services/financeiro.py:129 | the term is never 0; a value truncating to 0 gives 360 |
| Financeiro.PrazoPadrao | app/services/financeiro.py:129 | missing, 0 and 0.5 give 360; 120.9 gives 120; −3 stays −3 |
| Financeiro.MensagemTicket | app/services/financeiro.py:146-158 | the three ticket messages as iff's on the percentage (≤ 70, ≤ 90, above) |
| Financeiro.Comparar | app/services/financeiro.py:178-182 | balance + total = budget; percentage × budget = total × 100, or 0 without a budget |
| Financeiro.AnalisarFinanceiro | app/services/financeiro.py:118-194 | the analysis equals its specification function |
| Financeiro.CalcularIndicadores | app/services/financeiro.py:123-175 | the indicators part of the analysis |
| Financeiro.CompletarCompra | app/services/financeiro.py:177-183 | each purchase scenario gets its balance and percentage |
| Financeiro.CompletarConstrucao | app/services/financeiro.py:185-192 | each construction scenario gets its balance and percentage |
| Financeiro.AnaliseMensagens | app/services/financeiro.py:142-175 | messages only with a value; the first is the ticket band (comfortable without a budget); a second exactly when financing |
| Financeiro.AnaliseFinanciamento | app/services/financeiro.py:160-171 | financing data iff financing a positive value: down payment value/5, instalment × max(1, term) = 0.8 × value, commitment against a positive income |
| Financeiro.AnaliseProjecoes | app/services/financeiro.py:139-192 | cost estimate iff m² and area are positive; scenarios empty iff their base is; every row compared with the budget |
| PilotoTeste.NormalizarCpf | app/services/piloto_teste.py:79-80 | only digits remain, never more characters than the input |
| PilotoTeste.NormalizarIdempotente | app/services/piloto_teste.py:79-80 | normalising twice is normalising once |
| PilotoTeste.NormalizarSeparador | app/services/piloto_teste.py:79-80 | punctuation between digits is ignored |
| PilotoTeste.ValidarCpfSse | app/services/piloto_teste.py:83-98 | valid iff 11 digits, not all equal, and equal to its first nine digits completed with both check digits |
| PilotoTeste.CompletarCpf | app/services/piloto_teste.py:89-97 | appending the two check digits gives 11 digits starting with the base |
| PilotoTeste.CpfValidoExemplo | app/services/piloto_teste.py:83-98 | 111.444.777-35 is valid |
| PilotoTeste.CpfRepetidoExemplo | app/services/piloto_teste.py:86-87 | 11111111111 is refused although its check digits match |
| PilotoTeste.HashCpfInjetivo | app/services/piloto_teste.py:101-104 | distinct CPFs have distinct salted digests |
| PilotoTeste.HashIp | app/services/piloto_teste.py:107-111 | empty exactly when the stripped address is empty |
| PilotoTeste.NovoEvento | app/services/piloto_teste.py:135-145 | the event carries time, type, hash and token, and the user agent cut to 180 characters |
| PilotoTeste.GarantirJanela | app/services/piloto_teste.py:114-123 | afterwards both window ends are set |
| PilotoTeste.JanelaFixa | app/services/piloto_teste.py:114-118 | a set window is never moved |
| PilotoTeste.JanelaNova | app/services/piloto_teste.py:119-132 | a new window lasts two days from now and is active exactly inside it |
| PilotoTeste.ConsistenteGeracao | app/services/piloto_teste.py:190-196 | recording a new CPF with a fresh token keeps CPFs, tokens and feedback consistent |
| PilotoTeste.ConsistenteFeedback | app/services/piloto_teste.py:245-252 | recording the first feedback of a token keeps the state consistent |
| PilotoTeste.ConsistenteLiberacao | app/services/piloto_teste.py:329-342 | releasing a CPF, its token and its feedback keeps the state consistent |
| PilotoTeste.SemToken | app/services/piloto_teste.py:339-342 | the feedback kept is exactly the entries of other tokens |
| PilotoTeste.ConsultasCoerentes | app/services/piloto_teste.py:209-223 | in a consistent state a token is valid iff issued, and answered iff it has a feedback entry |
| PilotoTeste.GeracaoSse | app/services/piloto_teste.py:158-206 | a report is issued iff the window is active, the CPF is valid and it holds no token yet |
| PilotoTeste.UmaGeracaoPorCpf | app/services/piloto_teste.py:171-188 | after issuing, the same CPF, however written, is refused (or the window has closed) |
| PilotoTeste.UmFeedbackPorToken | app/services/piloto_teste.py:226-243 | after an accepted feedback the same token is answered "feedback_repetido" |
| PilotoTeste.LiberacaoReabre | app/services/piloto_teste.py:322-351 | after an admin release the CPF can get a new report while the window is active |
| PilotoTeste.TaxaLimites | app/services/piloto_teste.py:272-275 | the response rate is within 0..100, 0 with nothing issued, 100 when all answered |
| PilotoTeste.MetricasLimites | app/services/piloto_teste.py:265-286 | issued = number of CPFs, answered ≤ issued, rate in 0..100, events counted |
| PilotoTeste.Ultimos | app/services/piloto_teste.py:293 | `s[-limite:]`: a suffix of length min(limit, n), the whole list for 0 |
| PilotoTeste.VisaoRecente | app/services/piloto_teste.py:289-319 | the admin view lists the newest feedback first, as many as the limit allows |
| PilotoTeste.Piloto.constructor | app/services/piloto_teste.py:34-42 | empty state without a window, which is consistent |
| PilotoTeste.Piloto.RegistrarEvento | app/services/piloto_teste.py:135-145 | appends one event and changes nothing else |
| PilotoTeste.Piloto.ObterJanela | app/services/piloto_teste.py:148-155 | fixes the window if unset and reports its ends and whether it is active |
| PilotoTeste.Piloto.RegistrarGeracaoUnica | app/services/piloto_teste.py:158-206 | state and event follow the issuing decision; a fresh token keeps consistency; an issued token is valid and unanswered |
| PilotoTeste.Piloto.GravarRelatorio | app/services/piloto_teste.py:190-205 | records CPF and token and the "relatorio_gerado" event |
| PilotoTeste.Piloto.RegistrarFeedback | app/services/piloto_teste.py:226-262 | invalid token: nothing changes; repeated: one event; accepted: feedback, stamp and event added; consistency kept |
| PilotoTeste.Piloto.LiberarCpf | app/services/piloto_teste.py:322-351 | releases a found CPF: record, token and its feedback removed, one event, token no longer valid; otherwise nothing changes |
| PilotoTeste.Piloto.RegistrarEventoPublico | app/services/piloto_teste.py:354-363 | appends one event with the stripped token |
| PilotoTeste.Piloto.DadosAdmin | app/services/piloto_teste.py:289-319 | the metrics and the two recent views of the current state, the limits defaulting to 30 feedback entries and 60 events |
| PilotoTeste.VerFeedbackRecentes | app/services/piloto_teste.py:293-302 | the loop over the newest feedback gives the view function |
| PilotoTeste.VerEventosRecentes | app/services/piloto_teste.py:304-313 | the loop over the newest events gives the view function |
| PagamentosMp.RegistrarEstado | app/services/pagamentos_mp.py:25-34 | a registered token is pending unless already paid; new data overrides, old keys kept |
| PagamentosMp.ConfirmarEstado | app/services/pagamentos_mp.py:37-41 | confirming marks a known token paid, ignores an unknown one, and is idempotent |
| PagamentosMp.PagoPermanece | app/services/pagamentos_mp.py:25-41 | a paid payment stays paid; other tokens are untouched |
| PagamentosMp.StatusInexistente | app/services/pagamentos_mp.py:44-48 | "inexistente" for an empty or unknown token, otherwise the stored status |
| PagamentosMp.RegistrarConfirmar | app/services/pagamentos_mp.py:25-48 | register then confirm goes from "pendente" to "pago" |
| PagamentosMp.DadosCriacao | app/services/pagamentos_mp.py:57 | the report data, or only the amount in cents when there is none |
| PagamentosMp.Pagamentos.constructor | app/services/pagamentos_mp.py:11-14 | no payment recorded |
| PagamentosMp.Pagamentos.RegistrarPagamentoPendente | app/services/pagamentos_mp.py:25-34 | the registry becomes the registration of the token |
| PagamentosMp.Pagamentos.ConfirmarPagamento | app/services/pagamentos_mp.py:37-41 | the registry becomes the confirmation of the token |
| PagamentosMp.Pagamentos.StatusPagamento | app/services/pagamentos_mp.py:44-48 | the status of the token in the registry |
| PagamentosMp.Pagamentos.CriarPagamento | app/services/pagamentos_mp.py:51-58 | uses the given or a new token, registers it pending, and returns the Pix link with "?ref=" and the token |
| Cub.NormalizarPadrao | app/services/cub.py:9-15 | always one of alto, medio, economico |
| Cub.NormalizarPadraoClasses | app/services/cub.py:9-15 | which spellings map to each standard, as iff's |
| Cub.NormalizarPadraoIdempotente | app/services/cub.py:9-15 | normalising a normalised standard changes nothing |
| Cub.MesAnterior | app/services/cub.py:22-27 | the previous month, with January going to December of the year before |
| Cub.MesAnteriorCasos | app/services/cub.py:24-27 | January gives (year−1, 12), other months (year, month−1) |
| Cub.CompetenciaReferenciaFormato | app/services/cub.py:18-36 | "YYYY-MM" of the previous month, which the Brazilian format turns into "MM/YYYY" |
| Cub.FormatarCompetenciaBr | app/services/cub.py:31-36 | text that is not 7 characters with a "-" is returned unchanged; "YYYY-MM" (a "-" at position 4 and none before) becomes "MM/YYYY" |
| Cub.AteCompetenciaMembros | app/services/cub.py:81-84 | the candidates are exactly the series entries up to the requested month |
| Cub.AteCompetenciaOrdenada | app/services/cub.py:81-84 | filtering keeps the series sorted |
| Cub.EscolhidoMaisRecente | app/services/cub.py:65-85 | the chosen entry is the latest up to the requested month, or the latest overall when none is |
| Cub.ObterCubResultado | app/services/cub.py:56-98 | "sem_base" iff the series is empty; otherwise the value of the latest month not after the request, under the normalised standard |
| MercadoM2.CacheM2.constructor | app/services/mercado_m2.py:24-30 | starts from the loaded cache |
| MercadoM2.CacheM2.ObterContextoM2 | app/services/mercado_m2.py:52-134 | result and new cache are those of the resolution function on the old cache |
| MercadoM2.CacheM2.ConsultarCache | app/services/mercado_m2.py:74-90 | a fresh positive cache entry answers directly; a recent failure disables collection |
| MercadoM2.CacheValidoLimite | app/services/mercado_m2.py:41-49 | an entry is valid up to exactly max-age hours after its collection time |
| MercadoM2.CacheInvalido | app/services/mercado_m2.py:42-48 | an empty or unparsable timestamp is never valid |
| MercadoM2.Reserva | app/services/mercado_m2.py:121-134 | the spreadsheet value when positive, otherwise 0 with origin "fallback" |
| MercadoM2.FrescoDireto | app/services/mercado_m2.py:76-85 | a fresh positive entry is returned without collecting and without touching the cache |
| MercadoM2.ColetaSse | app/services/mercado_m2.py:86-119 | collection happens iff not fresh, enabled, not in cooldown and an area is given; success caches the value, failure caches a failure record |
| MercadoM2.OutrasChavesIntactas | app/services/mercado_m2.py:72-119 | only the key of this area and type may change in the cache |
| MercadoM2.ResultadoOrigem | app/services/mercado_m2.py:52-134 | the fallback origin comes exactly with value 0; a positive value is "base_lokao" |
| MercadoM2.ColetaDepoisCache | app/services/mercado_m2.py:76-111 | right after a successful collection a second call is served from the cache |
| MercadoM2.FalhaRespeitaCooldown | app/services/mercado_m2.py:86-119 | after a failed collection no new collection happens within the cooldown |
| ScraperValorM2.ExtrairValores | app/services/scraper_valor_m2.py:16-27 | the loop converts every "R$" capture without its dots, skipping dot-only ones |
| ScraperValorM2.Capturas | app/services/scraper_valor_m2.py:21 | every capture is a non-empty run of digits and dots |
| ScraperValorM2.Converter | app/services/scraper_valor_m2.py:23-26 | a capture converts iff it holds a digit |
| ScraperValorM2.ValoresInteiros | app/services/scraper_valor_m2.py:16-27 | every amount read is a whole non-negative number, at most one per capture |
| ScraperValorM2.ExtrairMilhar | app/services/scraper_valor_m2.py:18-24 | "R$ 7.200,50" style text gives 7200: thousands dots dropped, cents not read |
| ScraperValorM2.CapturasSemCifrao | app/services/scraper_valor_m2.py:21 | text without "$" has no capture |
| ScraperValorM2.Plausiveis | app/services/scraper_valor_m2.py:58 | keeps exactly the values strictly between 500 and 50000 |
| ScraperValorM2.MedianaEntre | app/services/scraper_valor_m2.py:63 | the median lies within any strict bounds of the values |
| ScraperValorM2.MedianaMeio | app/services/scraper_valor_m2.py:63 | the median is at least the lower half and at most the upper half of the sorted values |
| ScraperValorM2.ValorDaPaginaFaixa | app/services/scraper_valor_m2.py:47-66 | a page value exists iff status 200 and at least three plausible amounts; it lies in [500, 50000] |
| ScraperValorM2.ObterValorM2Cascata | app/services/scraper_valor_m2.py:82-109 | scraping when non-zero, else a positive spreadsheet value, else the regional 5500 |
| ScraperValorM2.ObterValorM2Positivo | app/services/scraper_valor_m2.py:82-109 | with a scraped page value the result is always positive |
| Scraper.Buscar | app/services/scraper.py:46-47 | a found value is listed for the type; not found means no entry has the type |
| Scraper.BuscarListado | app/services/scraper.py:46-47 | with distinct types the value found is the listed one |
| Scraper.MediaEntre | app/services/scraper.py:51-52 | the mean lies between any bounds of the values |
| Scraper.ObterValorM2BairroFontes | app/services/scraper.py:31-65 | "nao_encontrado" iff the area is unlisted; the listed value of the type; otherwise the mean rounded to cents |
| Scraper.ObterValorM2BairroEntre | app/services/scraper.py:45-53 | the value lies between any bounds of the area's table |
| Scraper.ObterValorM2BairroMediaArredondada | app/services/scraper.py:52 | Alphaville's mean 18700/3 is given as 6233.33 |
| Scraper.ObterValorM2BairroMediaExata | app/services/scraper.py:49-53 | an unlisted type in Centro Norte gives the mean 4400 |
| Routes.ParseFinanciarCasos | app/api/routes.py:72-73 | missing never finances; "SIM", "True", "1" do, case-insensitively; "nao" and "" do not |
| Routes.ParsePrazoMesesDigitos | app/api/routes.py:76-82 | the term is the number spelled by all digits of the text, 360 when there is none |
| Routes.FormatarCompetenciaCurtaDe | app/api/routes.py:95-114 | "YYYY-MM" gives the month abbreviation (or the code) "/" and the year's last two digits |
| Routes.CompetenciaCurtaReferencia | app/api/routes.py:95-114 | the CUB reference month always shows a known abbreviation |
| Routes.DoisUltimos | app/api/routes.py:114 | `ano[-2:]`: the last min(2, n) characters |
| Routes.MesPtPeriodico | app/api/routes.py:201-216 | every integer names a month, periodically by twelve; 0 is December |
| Routes.SomarMeses | app/api/routes.py:219-223 | the result is a month 1..12 exactly delta months later |
| Routes.SomarMesesUnico | app/api/routes.py:219-223 | the month count determines the result |
| Routes.SomarMesesInverso | app/api/routes.py:219-223 | adding d then −d gives the start back; additions compose; 0 changes nothing |
| Leituras.InsightScoreFaixa | app/api/routes.py:117-134 | the score text by band, each band an iff |
| Leituras.ResumoDecisaoFaixa | app/api/routes.py:162-198 | the decision summary follows the same bands: Seguir, Seguir com ajustes, Reavaliar |
| Leituras.InsightFinanceiroFaixas | app/api/routes.py:137-159 | incomplete iff a value is missing; price ≤ 0.7, ≤ 0.9, above × budget bands |
| Metodologias.CustoM2MetodologiaValores | app/api/routes.py:226-265 | four rows in order: CUB (or 3000), ×0.92, max(×1.18, steel reference), ×1.06 |
| Metodologias.SteelReferenciaCasos | app/api/routes.py:227-233 | the steel reference by tier, 4368 by default |
| Metodologias.LinhaTabelaValores | app/api/routes.py:585-599 | total = m² × area; share of a positive budget in percent; affordable area to one decimal |
| Metodologias.TabelaLinhas | app/api/routes.py:585-599 | row i is built from methodology i |
| Metodologias.TabelaMetodologias | app/api/routes.py:582-599 | the loop builds the table with reference area 180 when none is given |
| Metodologias.PrazoMedioFaixa | app/api/routes.py:713-717 | a range "x a y meses" gives (x + y)/2 truncated |
| Metodologias.PrazoMedioSemNumeros | app/api/routes.py:713-717 | a range without numbers gives 10 |
| Metodologias.AnoInicio | app/api/routes.py:708 | start this year up to August, next year after |
| Metodologias.EtapaDeDatas | app/api/routes.py:718-725 | start in May, delivery exactly the mean term later, never before the start year |
| Metodologias.CalendarioExec | app/api/routes.py:707-726 | the loop gives one row per methodology from the start year |
| TextosDinamicos.TextosMesmaFaixa | app/services/textos_dinamicos.py:3-62 | the three paragraphs of one score come from the same band |
| TextosDinamicos.TextoFinanceiroSemOrcamento | app/services/textos_dinamicos.py:24-42 | the budget argument never changes the paragraph |
| TextosDinamicos.TextoIdentificaFaixa | app/services/textos_dinamicos.py:3-62 | two scores get the same paragraph iff they share a band (≥ 80, ≥ 60, below) |
| Bairros.ObterPerfilLokao | app/services/bairros.py:28-29 | always a profile of the profile table |
| Bairros.ObterPerfilLokaoCasos | app/services/bairros.py:1-29 | a listed name gets its profile, any other (other capitalisation included) the default |
| Bairros.PerfisAlcancados | app/services/bairros.py:1-29 | "Expansao Urbana em Consolidacao" is given to no area |
| Cruzamentos.ObterFraseCruzamento | app/core/cruzamentos.py:58-62 | always a non-empty sentence |
| Cruzamentos.CruzamentosChaves | app/core/cruzamentos.py:1-50 | every key pairs a known profile with a known property type |
| Cruzamentos.FraseForaDasTabelas | app/core/cruzamentos.py:58-62 | an unknown profile or type gets the default sentence |
| Cruzamentos.FraseTrocada | app/core/cruzamentos.py:58-62 | a swapped pair gets the default sentence |
| Cruzamentos.PerfisSemFrase | app/core/cruzamentos.py:1-62 | two profiles never get a sentence of their own |
| Analise.GerarAnalise | app/services/analise.py:1-38 | one of the three fixed readings |
| Analise.GerarAnaliseSemCaixa | app/services/analise.py:2 | only the lower-cased name matters |
| Analise.GerarAnaliseClasses | app/services/analise.py:4-38 | the labels tell which list the lower-cased name is in, as iff's |
| Analise.GerarAnaliseComAcento | app/services/analise.py:4-18 | an accented name never matches the unaccented lists |

## Left out

- Files: loading and saving JSON (`_carregar`, `_salvar`, `_append_evento`,
  `carregar_pagamentos`, `salvar_pagamentos`, `_carregar_cache`, `_salvar_cache`,
  `_carregar_serie`). The legacy-file migration is left out too. State that cannot be
  read is the empty state, and the CUB series is a parameter.
- Clocks: time is an integer number of seconds passed in. ISO text is read through a
  `lerData` parameter in place of `datetime.fromisoformat`.
- Randomness: the `secrets`/`uuid` token is a parameter.
- Hashing: SHA-256 is an injective stand-in (`PilotoTeste.Resumo`, "sha256:" + text). The
  salt environment variable is its default constant.
- Network: the Viva Real request and the collector's result are parameters. HTML text
  extraction (BeautifulSoup) is left out: the page text is taken as given.
- Floats: binary floating point is modelled as exact reals. `round` is round-half-even on
  the exact value, so results that binary rounding would shift by one cent are not
  captured.
- Numero.PythonFloat: only signed decimal numerals are read. Exponents, "inf", "nan",
  underscores and non-ASCII digits are rejected rather than read.
- Texto: Unicode handling is ASCII/Latin-1 only. Lower-casing covers those letters, and
  `isdigit`/`\d`/`\s` are the ASCII classes.
- MercadoM2.NormalizarChave: no NFKD accent removal, so accented keys are kept as written.
- Sugestoes.GerarSugestoes: returns the candidate records rather than the formatted
  sentences (`_fmt_moeda`, `:.1f` percentages).
- SugestoesBairros.GerarSugestoesBairros: returns the row, its value and its advantage
  rather than the formatted sentence.
- Sorting: Python sorts lists in place. The model sorts a sequence with the stable
  insertion sort in `Ordenacao`.
- pandas data frames are sequences of catalogue rows. A row lookup by name returns the
  first match.
- The three local `_parse_float`/`_to_float` copies (app/services/score_urbano.py:1-24,
  app/services/sugestoes.py:1-16, app/services/sugestoes_bairros.py:4-14) are the same
  code as `moeda_para_float` and are modelled once, as `Formatacao.MoedaParaFloat`.
- Concurrency: two requests interleaving their load and save of the same JSON file can
  lose an update. The model is sequential and does not capture this.
- Routes: only the pure helpers and the table/calendar loops are modelled. Flask request
  handling, the PDF, charts and the template context are left out.
- `_formatar_data_iso_br` is left out: it only formats a date through
  `datetime.fromisoformat`.
- app/core/perfis.py and app/core/tipos_imovel.py: only their keys are modelled, not the
  descriptive texts.
- `dados_brutos_piloto` is left out: it only returns the loaded file.
