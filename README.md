# Credit-score API — a Dafny model of its decision logic

The service computes a credit score for a client profile. It starts from a
base of 500 and applies five independent tiered rules in a fixed order:
monthly income, debt-to-income ratio, payment history, length of credit
history and recent credit inquiries. Each rule adds signed points and one
analysis factor (`FatorAnalise`). Some rules also add a recommendation. The
total is clamped to [0, 1000]. The score is then classified into one of four
risk tiers (`NivelRisco`), each with a fixed message. Every successful scoring
appends one summary (`HistoricoConsulta`) to an in-memory history. The history
is read back newest first.

The model keeps the service's own names (`calcular_score` becomes
`CalcularScore`, `classificar_risco` becomes `ClassificarRisco`).

- `modelos.dfy` (module `Modelos`): the enumerations, the profile, the factor,
  the history record and the response, the service constants, the name
  validator and `PerfilValido`. `PerfilValido` holds the field bounds that
  validation enforces before the engine runs.
- `pontuacao.dfy` (module `Pontuacao`): the scoring engine.
  - The rules are given as functions (`AvaliarRenda` … `AvaliarConsultas`),
    and they make up `Fatores`, `Recomendacoes`, `ScoreBruto` and `Score`.
  - `CalcularScore` is the imperative routine. It accumulates the score and
    appends to the two lists step by step, one `Aplicar…` block per rule, and
    it is proved to return exactly what the functions describe.
  - The lemmas prove bounds, additivity, list shape, the division guard,
    monotonicity and the recommendation properties.
- `risco.dfy` (module `Risco`): the threshold chain 800/600/400.
- `historico.dfy` (module `Historico`): the history as a class holding a
  `seq` of records. `Registrar` is the append. `Listar` is the read
  `historico_consultas[-limite:][::-1]`, specified by the pure function
  `UltimasConsultas`.
- `api.dfy` (module `Api`): the body of the two endpoints without HTTP:
  - the polarity split of the factors;
  - the scoring request (score, classify, split, append one record, answer);
  - the history listing.
- `cenarios.dfy` (module `Cenarios`): the profiles from the service's tests,
  worked through the model.

Money amounts are `real`, so the model has no floating-point rounding. With
positive income, the ratio tier test "ratio < t" is proved equivalent to
`debt * 100 < t * income`.

Two consequences of the code worth noting:
- The worst profile in the tests (income 100, debt 50000, defaulted, 0
  months, 50 inquiries) scores 100. The rule tables keep every pre-clamp
  total between 100 and 1000, so the clamp never changes the score and its
  floor 0 is never reached
  (`ScoreLimites`, `CenarioScoreMinimo`).
- The length bound on the name (3 to 100) is checked on the raw text, before
  the validator strips it. So "  A" is accepted and stored as "A"
  (`NomeEncurtadoAposStrip`).

## Model

| member | source | states |
|---|---|---|
| `Modelos.EhEspaco` | main.py:94 | The whitespace characters `str.strip()` removes without arguments |
| `Modelos.EhLetra` | main.py:95 | The letter test `char.isalpha()`, approximated by ASCII, Latin-1 and Latin Extended-A letters |
| `Modelos.TemLetra` | main.py:95 | `any(char.isalpha() for char in valor)`: at least one letter in the text |
| `Modelos.NomeAceito` | main.py:30-97 | A validated name: at most 100 characters, at least one letter, no whitespace at either end |
| `Modelos.ValidarNome` | main.py:30-97 | An accepted name came from a raw text of 3 to 100 characters; it is that text stripped, holds a letter and is no longer than the raw text (longer or shorter raw texts, and texts left without a letter, are refused) |
| `Modelos.PerfilValido` | main.py:29-89 | The profile bounds the engine may assume: an accepted name, age 18-100, non-negative income and debt, 0-600 months, 0-50 inquiries, 0-10 accounts |
| `Modelos.NomeAceitoValidado` | main.py:30-97 | Every name satisfying `NomeAceito` comes out of validation unchanged: as typed when it has at least 3 characters, or behind two leading blanks when shorter; with `ValidarNomeAceito` this makes `NomeAceito` exactly the set of validated names |
| `Modelos.ValidarNomeAceito` | main.py:91-97 | Every accepted name has at most 100 characters, a letter and no whitespace at either end, and stripping it again leaves it unchanged |
| `Modelos.Strip` | main.py:94 | `str.strip()`: whitespace removed at both ends; never longer than the input |
| `Modelos.SemEspacoInicial` | main.py:94 | Removing leading whitespace leaves a suffix that starts with a non-space; everything removed was whitespace |
| `Modelos.SemEspacoFinal` | main.py:94 | Removing trailing whitespace leaves a prefix that ends with a non-space; everything removed was whitespace |
| `Modelos.StripNasPontas` | main.py:94 | A stripped text has no whitespace at either end and is no longer than the original |
| `Modelos.StripIdempotente` | main.py:94 | Stripping twice gives the same as stripping once, and stripping never lengthens the text |
| `Modelos.NomeCurtoRecusado` | test_main.py:77-80 | The two-letter name "AB" is refused by validation |
| `Modelos.NomeEncurtadoAposStrip` | main.py:30-97 | "  A" passes the raw length check and is accepted as the one-letter name "A" |
| `Pontuacao.AvaliarRenda` | main.py:156-186 | The income rule's factor is "Renda Mensal" with −30 to +100 points, positive exactly when its points are, and it recommends exactly when income is below 2000 |
| `Pontuacao.AvaliarEndividamento` | main.py:197-234 | The debt rule's factor is "Taxa de Endividamento" with −100 to +125 points, positive exactly when its points are, and it recommends exactly when the ratio is 50 or more |
| `Pontuacao.AvaliarPagamentos` | main.py:240-279 | The payment rule's factor is "Histórico de Pagamentos" with −200 to +150 points, positive exactly when its points are, and it recommends for every status but on-time |
| `Pontuacao.TipoDe` | main.py:305 | Rules 4 and 5 derive the polarity from the sign: positive exactly when the points are above zero |
| `Pontuacao.AvaliarTempo` | main.py:285-308 | The history-length rule's factor is "Tempo de Histórico" with −20 to +75 points, positive exactly when its points are, and it recommends exactly below 6 months |
| `Pontuacao.AvaliarConsultas` | main.py:314-338 | The inquiries rule's factor is "Consultas Recentes" with −50 to +50 points, positive exactly when its points are, and it recommends exactly above 3 inquiries |
| `Pontuacao.AvaliarDivida` | main.py:192-234 | The debt rule applied to a profile: the guarded ratio first, then the ratio tier |
| `Pontuacao.Fatores` | main.py:159-336 | The factor list is exactly five factors, one per rule in evaluation order |
| `Pontuacao.Recomendacoes` | main.py:150-329 | The recommendation list is each rule's optional recommendation in rule order, so it has at most five entries |
| `Pontuacao.ScoreBruto` | main.py:148-338 | The pre-clamp total is 500 plus the five rules' points, and always lies between 100 and 1000 |
| `Pontuacao.Score` | main.py:340-342 | The returned score is the clamped total and lies in [0, 1000] |
| `Pontuacao.CalcularScore` | main.py:147-342 | For a valid profile, returns exactly the specified score, the five factors and the recommendation list, and the score lies in [0, 1000] |
| `Pontuacao.AplicarRenda` | main.py:156-186 | The income block adds the income tier's points, appends its factor last and appends its recommendation (only for income below 2000) |
| `Pontuacao.AplicarEndividamento` | main.py:192-234 | The debt block computes the ratio (999 with no positive income), adds that tier's points, appends its factor and its recommendation (ratio 50 and above) |
| `Pontuacao.AplicarPagamentos` | main.py:240-279 | The payment block adds the status's points, appends its factor and, for every status but on-time, its recommendation |
| `Pontuacao.AplicarTempo` | main.py:285-308 | The history-length block adds the tier's points, appends a factor whose polarity follows the sign of the points, and recommends only below 6 months |
| `Pontuacao.AplicarConsultas` | main.py:314-338 | The inquiries block adds the tier's points, appends a factor whose polarity follows the sign of the points, and recommends only above 3 inquiries |
| `Pontuacao.TaxaEndividamento` | main.py:192-195 | With positive income the ratio times the income equals debt times 100; otherwise the ratio is the sentinel 999 |
| `Pontuacao.Limitar` | main.py:340 | The clamp lands in [0, 1000]; it is the identity inside the range, 0 below it and 1000 above it |
| `Pontuacao.ScoreBrutoSomaFatores` | main.py:148-338 | The pre-clamp score is 500 plus the sum of the points of the five factors in the factor list |
| `Pontuacao.ScoreLimites` | main.py:156-340 | The clamp never changes the total: the score equals the pre-clamp total and is never below 100 |
| `Pontuacao.FatoresEmOrdem` | main.py:159-336 | There are always five factors: Renda Mensal, Taxa de Endividamento, Histórico de Pagamentos, Tempo de Histórico, Consultas Recentes |
| `Pontuacao.TipoSegueImpacto` | main.py:159-336 | Every factor is positive exactly when its points are greater than zero |
| `Pontuacao.TaxaAbaixoDe` | main.py:192-213 | With positive income, ratio < t holds exactly when debt * 100 < t * income |
| `Pontuacao.SemRendaEndividamentoCritico` | main.py:192-232 | With zero income the ratio is 999 and the debt factor is "Crítico", −100, negative, whatever the debt, and "Procure um especialista em finanças" is recommended |
| `Pontuacao.RendaMonotona` | main.py:156-184 | More income never gives fewer income points |
| `Pontuacao.TempoMonotono` | main.py:287-298 | A longer credit history never gives fewer history points |
| `Pontuacao.ConsultasAntitonas` | main.py:316-329 | For counts from 0 up, more inquiries never give more inquiry points |
| `Pontuacao.EndividamentoAntitono` | main.py:197-232 | At a fixed positive income, more debt never gives more debt points |
| `Pontuacao.TaxaCrescenteNaDivida` | main.py:193 | At a fixed positive income the ratio does not decrease as the debt grows |
| `Pontuacao.TaxaDecrescenteNaRenda` | main.py:193 | For non-negative debt the ratio does not increase as a positive income grows |
| `Pontuacao.PagamentosOrdenados` | main.py:240-269 | Payment points are strictly ordered: on-time > mild delay > severe delay > defaulted |
| `Pontuacao.ScoreMonotonoNaRenda` | main.py:156-234 | For non-negative debt, raising the income never lowers the whole score, including the step from zero income (sentinel 999) to a positive income |
| `Pontuacao.AtrasoLeveRecomenda` | main.py:248-257 | A mild delay yields a positive factor of +50 and still adds "Configure débito automático" |
| `Pontuacao.SemRecomendacoes` | main.py:156-329 | The list is empty exactly when income ≥ 2000, debt * 100 < 50 * income, payments are on time, months ≥ 6 and inquiries ≤ 3 |
| `Risco.ClassificarRisco` | main.py:344-364 | BAIXO iff score ≥ 800, MEDIO iff 600 ≤ score < 800, ALTO iff 400 ≤ score < 600, MUITO_ALTO iff score < 400; the message is the tier's fixed text |
| `Risco.Mensagem` | main.py:346-364 | The fixed message of each tier, as returned with it |
| `Risco.RiscoNaoCresce` | main.py:344-364 | A higher score never gives a more severe tier |
| `Risco.LimitesInclusivos` | main.py:345-359 | 800 is BAIXO, 799 and 600 are MEDIO, 400 is ALTO, 399 is MUITO_ALTO |
| `Historico.Ultimas` | main.py:439 | The slice `[-limite:]` keeps min(limite, n) entries, the last ones |
| `Historico.Reverso` | main.py:439 | The reversal `[::-1]`, of the same length as its input |
| `Historico.ReversoEm` | main.py:439 | The reversal `[::-1]` puts the k-th entry from the end at position k |
| `Historico.ReversoFinal` | main.py:409-439 | Reversing a history with one more record at the end puts that record first |
| `Historico.UltimasConsultas` | main.py:439 | The history read `h[-limite:][::-1]`, of min(limite, n) records |
| `Historico.UltimasConsultasSpec` | main.py:439 | The read returns min(limite, n) records, and the k-th is the k-th newest |
| `Historico.UltimasAposRegistro` | main.py:409-439 | After an append, a read of at least two starts with the new record and continues with the older read of one fewer |
| `Historico.UltimaConsulta` | main.py:409-439 | After an append, a read of one returns just the new record |
| `Historico.DuasConsultas` | main.py:409-439 | Appending R1 then R2 and reading two gives [R2, R1] |
| `Historico.HistoricoVazio` | test_main.py:89-92 | An empty history reads as empty |
| `Historico.HistoricoConsultas.constructor` | main.py:136 | The history starts empty |
| `Historico.HistoricoConsultas.Registrar` | main.py:409-417 | Appends exactly one record, last, and changes nothing else |
| `Historico.HistoricoConsultas.Listar` | main.py:435-439 | Returns the last min(limite, n) records newest first and leaves the history unchanged |
| `Historico.ListarAposDuasConsultas` | main.py:409-439 | On a fresh history, two appends followed by a listing of two give [R2, R1], and a second listing gives the same |
| `Api.FiltrarTipo` | main.py:404-405 | Filtering keeps only factors of the given polarity, all taken from the input |
| `Api.FiltrarTipoCompleto` | main.py:404-405 | Filtering drops no factor of the given polarity |
| `Api.FiltrarTipoConcat` | main.py:404-405 | Filtering keeps the factors' order: the filter of a concatenation is the concatenation of the filters |
| `Api.ParticaoPreservaFatores` | main.py:404-405 | The positive and negative lists together hold every factor exactly once (multiset equality) |
| `Api.FiltrarPorSinal` | main.py:404-405 | When every factor's polarity follows the sign of its points, the positive filter keeps exactly the factors with points > 0 and the negative one those with points ≤ 0 |
| `Api.PositivosSaoGanhos` | main.py:404-405 | In a response, the positive list holds exactly the factors with points > 0 and the negative list exactly those with points ≤ 0 |
| `Api.CalcularScoreEndpoint` | main.py:397-429 | A valid profile is scored, classified and split; exactly one record with its id, name, score, tier and time is appended to the history, and the answer carries the same values |
| `Api.ListarHistorico` | main.py:435-439 | The history endpoint returns the specified read, at most `limite` and at most n records |
| `Cenarios.CenarioClienteBom` | test_main.py:55-60 | The good profile is valid, scores 970, is BAIXO and gets no recommendation |
| `Cenarios.CenarioClienteRuim` | test_main.py:63-68 | The bad profile is valid, scores 100, is MUITO_ALTO and gets five recommendations |
| `Cenarios.CenarioScoreMaximo` | test_main.py:102-113 | The all-best profile totals exactly 1000 before and after clamping |
| `Cenarios.CenarioScoreMinimo` | test_main.py:116-127 | The worst test profile scores 100: the floor 0 is never reached |
| `Cenarios.CenarioHistoricoComConsulta` | test_main.py:89-99 | A fresh history lists nothing; after scoring a valid profile, a listing of 10 gives exactly that one record with its id, name, score, tier and time |

## Left out

- HTTP transport is not modelled: the FastAPI application, the `/` and
  `/health` endpoints, the response-model serialisation, the conversion of any
  exception into HTTP 500, and the uvicorn startup. Both core functions are
  total, so the 500 path cannot be reached from a valid profile.
- The health endpoint's `total_consultas` and its status text are not
  modelled. They are reporting only.
- The validation framework is not modelled. Its field bounds are the
  precondition `PerfilValido`, and the name rule is the function
  `ValidarNome`. Not modelled: the 422 error response, type coercion,
  `multiple_of=0.01` on the income, and the default of 1 bank account. The
  history query's bound 1 ≤ limite ≤ 100 is likewise a precondition of
  `Listar` and `ListarHistorico`. The query's default `limite=10` is not
  modelled: callers pass the limit explicitly.
- `EhLetra`: approximates Python's Unicode `str.isalpha` by ASCII, Latin-1
  and Latin Extended-A letters. Letters of other scripts are not recognised,
  so a name written only in them (for example Cyrillic) is refused by
  `ValidarNome`, falls outside `PerfilValido`, and is therefore excluded by
  the precondition of `CalcularScore` and `CalcularScoreEndpoint`, although
  the service accepts it.
  `EhEspaco` is Python's exact whitespace set for `str.strip()`.
- Floating point is not modelled. Income and debt are exact reals, so float
  rounding of the ratio near a tier boundary is not captured.
- Description texts hold only their fixed part. The ratio formatted with one
  decimal and the inquiry count that the service appends are left out.
- `uuid.uuid4()` and `datetime.now()` are not modelled. The query id and the
  timestamp are parameters supplied by the caller.
- Concurrent access to the history list is not modelled. The model is
  sequential.
- The tests' `historico_consultas.clear()` reset is not modelled. It is test
  scaffolding, not an operation of the service.
