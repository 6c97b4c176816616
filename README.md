# gerenciador-ativos — engine-hour accounting and access rules, in Dafny

This project models the core of *gerenciador-ativos*, a Flask application that tracks boats and
jet skis ("ativos") for their owners ("clientes").

- **Engine accounting.** A tracker (BrasilSat) reports an ignition flag, engine-on seconds, battery
  voltage and position. From these readings the application keeps, per asset:
  - the number of ignitions;
  - the hours the engine has run;
  - the hours it has been idle;
  - a manual hour-meter offset.
- **Derived values.** On top of those counters it computes:
  - fuel consumption;
  - a daily consumption close;
  - the maintenance tasks falling due;
  - a per-asset maintenance plan.
- **Access.** Staff (admin, gerente) and client users log in. Route guards and the client portal
  decide who sees which asset.

Each core source file is one Dafny module:

| module | source |
|---|---|
| `Models` | `gerenciador_ativos/models.py` — the ignition state machine `atualizar_motor`, idle hours, engine state, `is_interno` |
| `RoutesDados` | `gerenciador_ativos/api/ativos/routes_dados.py` — the telemetry handler that counts ignitions against the stored state and writes the asset row |
| `Dados` | `gerenciador_ativos/api/ativos/dados.py` — the external telemetry fetch with its defaults, and the panel's engine hours |
| `BrasilSat` | `gerenciador_ativos/api/monitoramento/brasilsat.py` — checks on the authorization and track answers, normalisation of a track record |
| `Monitoramento` | `gerenciador_ativos/api/monitoramento/routes.py` — the panel mapping and the outcome of `obter_dados` |
| `Offset` | `gerenciador_ativos/api/ativos/offset.py` — the manual hour-meter offset |
| `Horas` | `gerenciador_ativos/ativos/utils.py`, `ativos/painel.py`, `ativos/models.py` — hour and fuel arithmetic |
| `Preventiva` | `gerenciador_ativos/api/ativos/preventiva.py` — hours left to each maintenance task, sorted |
| `Plano` | `gerenciador_ativos/api/ativos/plano.py` — validation, creation, deletion and listing of plan items |
| `Cron` | `admin/cron.py` — the daily consumption close, an insert-if-absent per (asset, day) |
| `Auth` | `gerenciador_ativos/auth/routes.py` — safe "next" URL, login, logout, registration, admin reset |
| `Decorators` | `gerenciador_ativos/auth/decorators.py` — `login_required`, `role_required`, `gerente_required` |
| `Portal` | `gerenciador_ativos/portal/routes.py` — the client portal's ownership checks |
| `Usuarios` | `gerenciador_ativos/usuarios/routes.py` with `usuarios/service.py` — user creation and edition |
| `Contas` | the `clientes` and `usuarios` tables of `gerenciador_ativos/models.py` as the account handlers use them |

Modules shared by the others:

- `Py` models the Python semantics the code relies on:
  - dynamic values and truthiness;
  - `or`, `dict.get`, `float()`, `int()`;
  - `str.strip()`, `str.lower()` and `round()`.
- `Http` holds the status codes.
- `Sorting` holds a stable insertion sort under a total preorder.

**How the source's forms are kept.**

- **Fields changed in place become classes:**
  - the asset row in `Models.Ativo`, `RoutesDados.AtivoDados`, `Offset.AtivoCalibrado` and `Horas.Embarcacao`;
  - the plan table, `Plano.TabelaPlano`;
  - the daily table, `Cron.TabelaConsumo`;
  - the account tables, `Contas.Tabela`;
  - the session, `Auth.Sessao`.
- **Each of their methods is proved against a function of the old state.** Examples:
  `Models.Ativo.AtualizarMotor` ensures `Estado() == Atualizar(old(Estado()), …)`, and
  `RoutesDados.DadosDoAtivo` is tied to `Processar`.
- **The properties are proved about those functions.**
- **Loops in the source stay loops.** These are the preventive-task loop, the plan listing, the
  plan deletion lookup, the daily close and the user lookup.
- **Pure code becomes functions.** Their contracts state what the result means.

Timestamps are whole seconds and hours are `real`. The current time (`agora`) is a parameter, as are:

- the replies of HTTP calls;
- the environment variables;
- the telemetry provider `get_telemetria_por_imei`;
- the password check `autenticar_usuario`.

A route's answer is a `Resposta` (`Sucesso` or `Erro(status)`). A redirect or an outcome of the
handler is its own datatype.

## Model

| member | source | states |
|---|---|---|
| Models.HorasDecorridas | gerenciador_ativos/models.py:85-86 | the on-time added at shutdown is (agora − ligado)/3600 when non-negative, otherwise 0; never negative |
| Models.Atualizar | gerenciador_ativos/models.py:73-90 | 0→1 adds exactly one ignition, sets the on-time to agora and clears the off-time; 1→0 adds the elapsed hours (when an on-time is stored), clears the on-time and sets the off-time; with no edge, only `acc_anterior` changes; `acc_anterior` always becomes the new flag; hours and ignitions never decrease; the two timestamps are never both set afterwards if they were not before |
| Models.AplicarContaSubidas | gerenciador_ativos/models.py:77-90 | over any sequence of readings the ignition count grows by exactly the number of 0→1 edges, counted from the initial `acc_anterior` |
| Models.AplicarPreserva | gerenciador_ativos/models.py:77-90 | over any sequence of readings the accumulated hours never decrease, the last flag is remembered, and "never both timestamps" is preserved |
| Models.AplicarSemMudanca | gerenciador_ativos/models.py:77-83 | readings that repeat the remembered flag (0→0, 1→1) leave the whole engine state unchanged |
| Models.Ativo.AtualizarMotor | gerenciador_ativos/models.py:73-90 | the in-place update of the five engine fields yields exactly `Atualizar` of the old state |
| Models.Ativo.constructor | gerenciador_ativos/models.py:57-63 | a new row has 0 ignitions, no timestamps, 0 hours and flag 0 (the column defaults) |
| Models.HorasParadasDesde | gerenciador_ativos/models.py:92-96 | the idle hours: 0 when no off-time is stored; otherwise (agora − off-time)/3600 |
| Models.Ativo.HorasParadas | gerenciador_ativos/models.py:92-96 | 0 when no off-time is stored; otherwise (agora − off-time)/3600 |
| Models.Ativo.EstadoMotor | gerenciador_ativos/models.py:98-99 | "ligado" exactly when the flag is 1, otherwise "desligado" |
| Models.IsInterno | gerenciador_ativos/models.py:128-129 | a user is internal exactly when its tipo is "admin" or "gerente" |
| RoutesDados.MotorLigadoCasos | gerenciador_ativos/api/ativos/routes_dados.py:36-38 | the engine reads as on exactly for the int 1, True, "1", "true" and "True"; no float, list or dict has one of those texts |
| RoutesDados.Contar | gerenciador_ativos/api/ativos/routes_dados.py:40-74 | a missing previous state is taken as the current one (no ignition); the count grows by one exactly on a stored 0 followed by "on"; the stored state is written only when a stored state differs, so a missing one stays missing |
| RoutesDados.SemEstadoNuncaConta | gerenciador_ativos/api/ativos/routes_dados.py:40-74 | as written: an asset whose state was never stored keeps it unset and never counts an ignition, whatever the readings |
| RoutesDados.PrimeiraIgnicaoPerdida | gerenciador_ativos/api/ativos/routes_dados.py:40-74 | as written: a new asset reading off then on has one 0→1 edge and a count of 0 |
| RoutesDados.ContarCorrigido | gerenciador_ativos/api/ativos/routes_dados.py:40-50 | corrected step: the current state is always stored; the count rule is unchanged |
| RoutesDados.ContarTodasCorrigidoContaSubidas | gerenciador_ativos/api/ativos/routes_dados.py:40-50 | with the corrected step, every off→on edge after the first reading is counted exactly once and the last reading is remembered |
| RoutesDados.UnidadeBase | gerenciador_ativos/api/ativos/routes_dados.py:109 | the category when it is set and non-empty, otherwise "h" |
| RoutesDados.Processar | gerenciador_ativos/api/ativos/routes_dados.py:21-110 | no IMEI gives 400; a provider error gives 500; no field is written on any error; success exactly when there is an IMEI, telemetry and numeric (or missing) hours. On success the payload and the new row satisfy `Consistente`: the count rule; the stored count equals the reported one; hours = offset + provider hours; the offset is not written; idle hours are 0 with the engine on and otherwise unchanged; identity, name and IMEI are unchanged |
| RoutesDados.AtivoDados.Salvar | gerenciador_ativos/api/ativos/routes_dados.py:70-80 | the save block assigns exactly the seven columns it names and nothing else |
| RoutesDados.AtivoDados.constructor | gerenciador_ativos/api/ativos/routes_dados.py:21 | the row holds the given columns |
| RoutesDados.DadosDoAtivo | gerenciador_ativos/api/ativos/routes_dados.py:19-33 | an unknown asset gives 404; otherwise the new row and the answer are exactly those of `Processar` on the old row |
| RoutesDados.GravarTelemetria | gerenciador_ativos/api/ativos/routes_dados.py:35-110 | non-numeric hours give 500 with the row untouched; otherwise the answer is `NovoPayload` and the row becomes `NovoRegistro` of the old row |
| Dados.SemBarraFinal | gerenciador_ativos/api/ativos/dados.py:15 | `rstrip("/")`: a prefix of the input, not ending in "/", and only slashes were removed |
| Dados.SoBarrasDesabilita | gerenciador_ativos/api/ativos/dados.py:15-27 | the base URL counts as unset exactly when the variable holds only slashes |
| Dados.Mapear | gerenciador_ativos/api/ativos/dados.py:49-59 | an empty body gives the defaults; a non-dict body raises; the mapping succeeds exactly when the four conversions succeed, and then the IMEI is kept, the engine is on exactly when `motor_ligado` is truthy, and voltage, server time, latitude and longitude are the converted values sent (or the converted defaults) |
| Dados.FetchTelemetriaExterna | gerenciador_ativos/api/ativos/dados.py:19-72 | without an IMEI, base URL or token: the defaults under `imei or "N/A"`; any failure of the call or the mapping: the defaults under the IMEI; otherwise the mapped body |
| Dados.MotorLigadoSoPelaApi | gerenciador_ativos/api/ativos/dados.py:27-72 | the engine is reported on only when the call was made and its dict body has a truthy "motor_ligado" |
| Dados.CorpoVazioDaPadrao | gerenciador_ativos/api/ativos/dados.py:49 | an empty body yields exactly the defaults |
| Dados.HorasMotor | gerenciador_ativos/api/ativos/dados.py:90-100 | the stored total (missing is 0), plus the running cycle max(0, elapsed/3600) when the engine is on and an ignition time is stored; never below the total |
| Dados.DadosAtivoComoEscrito | gerenciador_ativos/api/ativos/dados.py:82-119 | as written: 404 exactly for an unknown asset, and 500 for every existing one — a float minus a DateTime with the engine on and an ignition time stored, otherwise `round()` of the bound method `horas_paradas` |
| Dados.MotorLigadoQuebraPainelExemplo | gerenciador_ativos/api/ativos/dados.py:95-97 | a concrete running asset: the written endpoint answers 500, the corrected one shows the stored total plus the running hour |
| Dados.MotorDesligadoQuebraPainelExemplo | gerenciador_ativos/api/ativos/dados.py:103-118 | a concrete asset switched off two hours ago: the written endpoint answers 500, the corrected one shows 2.0 idle hours |
| Dados.DadosAtivo | gerenciador_ativos/api/ativos/dados.py:82-119 | corrected: 404 exactly for an unknown asset, otherwise success; `monitor_online` is true; the fetched fields are passed through; `horas_motor` is `HorasMotor` rounded to 2 decimals; `horas_paradas` is `horas_paradas()` of the asset (`Models.HorasParadasDesde`) rounded to 2 decimals |
| Dados.HorasNuncaAbaixoDoTotal | gerenciador_ativos/api/ativos/dados.py:97-117 | the panel never shows fewer hours than the rounded stored total, and shows at most 2 decimals |
| Dados.CorrecaoPreservaHorasMotor | gerenciador_ativos/api/ativos/dados.py:95-100 | where the written code gets past the engine-hours step (engine not reported on, or no ignition time), the corrected panel shows the hours that step computes: the stored total, rounded |
| BrasilSat.ObterAccessToken | gerenciador_ativos/api/monitoramento/brasilsat.py:48-91 | missing credentials fail; a code other than 0 fails; with credentials, code 0 and a truthy "access_token" in "record" (or else "data") the result is `Ok` of that token; any `Ok` is such a token |
| BrasilSat.BuscarTrackBruto | gerenciador_ativos/api/monitoramento/brasilsat.py:98-132 | an empty IMEI fails before any token request; token failures are passed on; a code other than 0 fails; an empty record list fails; otherwise the first record |
| BrasilSat.PrimeiroVerdadeiro | gerenciador_ativos/api/monitoramento/brasilsat.py:157-161 | `a or b or None`: the value of the first key whose value is truthy (so "latitude" before "lat", "longitude" before "lng" before "lon"); None when no key's value is |
| BrasilSat.AcctimeSegundos | gerenciador_ativos/api/monitoramento/brasilsat.py:152-167 | a missing "acctime" is 0 and an unparseable one 0.0; otherwise its float value |
| BrasilSat.NormalizarTrackBruto | gerenciador_ativos/api/monitoramento/brasilsat.py:139-212 | engine on exactly when accstatus == 1; hours × 3600 = acctime seconds; voltage None (not 0) when absent or unparseable; coordinates from their first truthy keys; the raw record is kept unchanged |
| BrasilSat.Telemetria.HorasMotorNoDict | gerenciador_ativos/api/monitoramento/brasilsat.py:200 | the normalised dict carries the hours as a float under "horas_motor" |
| BrasilSat.GetTelemetriaPorImei | gerenciador_ativos/api/monitoramento/brasilsat.py:219-232 | success exactly when the track lookup gives a dict record; the result is its normalisation |
| BrasilSat.LatitudePrefereChaveLonga | gerenciador_ativos/api/monitoramento/brasilsat.py:157-182 | a truthy "latitude" is used whatever "lat" holds |
| BrasilSat.LatitudeAlternativa | gerenciador_ativos/api/monitoramento/brasilsat.py:157-182 | "lat" is used when "latitude" is absent or falsy |
| BrasilSat.MotorLigadoCasos | gerenciador_ativos/api/monitoramento/brasilsat.py:151-176 | the engine is on exactly for accstatus 1, 1.0 or True |
| Monitoramento.SemRaw | gerenciador_ativos/api/monitoramento/routes.py:30-53 | the panel body has no "raw" entry |
| Monitoramento.MontarRespostaPainel | gerenciador_ativos/api/monitoramento/routes.py:21-53 | defined exactly when the hours are missing or numeric; seven fields pass through unchanged; a falsy engine flag reads False; missing hours read 0; hours are rounded to 2 decimals, within half a unit |
| Monitoramento.ObterDados | gerenciador_ativos/api/monitoramento/routes.py:60-79 | a missing or inactive asset gives 404; no IMEI gives 400 and the provider is not asked; a provider error gives 500; otherwise the mapped telemetry |
| Monitoramento.TelemetriaNormalizadaSempreMonta | gerenciador_ativos/api/monitoramento/routes.py:37 | whatever the normaliser produces can be mapped to a panel body |
| Offset.LerOffset | gerenciador_ativos/api/ativos/offset.py:19-26 | a missing or non-numeric offset gives 400; a truthy non-object body gives 500; success exactly when float() accepts the "offset" value, and the result is that value |
| Offset.QualquerNumeroAceito | gerenciador_ativos/api/ativos/offset.py:23-29 | every number, negative included, is accepted as it is |
| Offset.AtualizarOffset | gerenciador_ativos/api/ativos/offset.py:7-36 | 404 for an unknown asset; an invalid offset stores nothing; a valid one overwrites `horas_offset`, and the answer echoes the asset id and the offset |
| Offset.AtivoCalibrado.constructor | gerenciador_ativos/api/ativos/offset.py:17 | the row holds the given id and offset |
| Horas.SomaHoras | gerenciador_ativos/ativos/utils.py:13-14 | offset plus system hours with None read as 0 |
| Horas.Litros | gerenciador_ativos/ativos/painel.py:14 | no rate means no fuel; non-negative hours and rate give non-negative fuel |
| Horas.CalcularHorasMotor | gerenciador_ativos/ativos/utils.py:4-15 | the sum rounded to one decimal: within half a unit of offset + system hours, with at most one decimal |
| Horas.OffsetDesloca | gerenciador_ativos/ativos/utils.py:15 | raising the offset by d raises the unrounded hours by exactly d |
| Horas.HorasMonotonasNoOffset | gerenciador_ativos/ativos/utils.py:15 | a larger offset never gives fewer rounded hours |
| Horas.CalcularConsumo | gerenciador_ativos/ativos/painel.py:8-20 | hours, rate and hours × rate, each within half a unit of the exact value with at most 2 decimals |
| Horas.SemTaxaSemConsumo | gerenciador_ativos/ativos/painel.py:13-14 | a missing or zero rate gives consumption 0 and rate 0, whatever the hours |
| Horas.PainelConcordaComHorimetro | gerenciador_ativos/ativos/painel.py:9-11 | the panel's hours and `calcular_horas_motor` are the same sum, rounded to 2 and to 1 decimal |
| Horas.ConsumoEstimado | gerenciador_ativos/ativos/models.py:44-50 | 0 when the rate or the hours are 0 or missing; otherwise hours × rate rounded to 2 decimals |
| Horas.ConsumoMedio | gerenciador_ativos/ativos/models.py:52-56 | the rate rounded to 2 decimals, missing read as 0 |
| Horas.Embarcacao.RecalcularHoras | gerenciador_ativos/ativos/models.py:38-42 | the total becomes hours + offset (None read as 0); no other column changes |
| Horas.Embarcacao.constructor | gerenciador_ativos/ativos/models.py:16-21 | the row holds the given hour and fuel columns |
| Horas.RecalcularDuasVezes | gerenciador_ativos/ativos/models.py:38-42 | recalculating twice leaves the same row as recalculating once: the total is the sum of the old hours and offset, and the hours, offset and fuel rate are unchanged |
| Preventiva.Quociente | gerenciador_ativos/api/ativos/preventiva.py:60 | `x // m` for m > 0: the largest k with k·m ≤ x |
| Preventiva.Resto | gerenciador_ativos/api/ativos/preventiva.py:60 | Python's `x % m` for m > 0: in [0, m), and x = quotient·m + remainder |
| Preventiva.Faltam | gerenciador_ativos/api/ativos/preventiva.py:60-61 | 0 < faltam ≤ intervalo, and horas + faltam is the next multiple of the interval |
| Preventiva.ProximoMultiplo | gerenciador_ativos/api/ativos/preventiva.py:60-61 | horas + faltam is the least multiple of the interval strictly above horas |
| Preventiva.HorasTotal | gerenciador_ativos/api/ativos/preventiva.py:42-49 | the stored total (missing is 0) plus max(0, elapsed/3600) when an ignition time is stored; never below the total |
| Preventiva.Ativas | gerenciador_ativos/api/ativos/preventiva.py:55-57 | a rule remains exactly when it has a positive interval |
| Preventiva.AtivasConcatena | gerenciador_ativos/api/ativos/preventiva.py:53-57 | the skip keeps the rules' order: filtering distributes over concatenation |
| Preventiva.AtivasTodas | gerenciador_ativos/api/ativos/preventiva.py:53-57 | rules that all have a positive interval are all kept, in their order |
| Preventiva.RegrasFixasAtivas | gerenciador_ativos/api/ativos/preventiva.py:9-22 | none of MANUTENCAO_REGRAS is skipped |
| Preventiva.UmaTarefaPorRegra | gerenciador_ativos/api/ativos/preventiva.py:53-68 | one task per active rule, in order, carrying the rule's name and its rounded hours left |
| Preventiva.PrazoDentroDoIntervalo | gerenciador_ativos/api/ativos/preventiva.py:60-66 | each task's rounded hours left lie within (0, interval], up to half a unit of rounding |
| Preventiva.CalcularTarefas | gerenciador_ativos/api/ativos/preventiva.py:51-71 | the loop then the sort: sorted ascending by faltam, a permutation of the active rules' tasks, and tasks with equal faltam stay in rule order (the sort is stable) |
| Preventiva.PreventivaAtivo | gerenciador_ativos/api/ativos/preventiva.py:25-73 | corrected: 404 exactly for an unknown asset; otherwise the tasks of the fixed rules at `HorasTotal`, sorted by faltam with ties in rule order |
| Preventiva.PreventivaAtivoComoEscrito | gerenciador_ativos/api/ativos/preventiva.py:39-49 | as written: any asset with a stored ignition time gets 500 (`float` of a DateTime); otherwise the tasks at the stored total, sorted by faltam with ties in rule order |
| Preventiva.TresTarefas | gerenciador_ativos/api/ativos/preventiva.py:9-22 | the three fixed rules all have a positive interval, so there are always three tasks, the k-th for the k-th rule before sorting |
| Plano.TextoOu | gerenciador_ativos/api/ativos/plano.py:48-49 | a falsy value gives the default; a truthy non-string raises; a non-empty string is kept |
| Plano.Dados | gerenciador_ativos/api/ativos/plano.py:46 | `get_json(silent=True) or {}`: an absent or falsy body is {}; an object body is itself |
| Py.FloatOuNone | gerenciador_ativos/api/ativos/plano.py:68-72 | None for None; float() of any other value, with a refused conversion giving None (the same conversion at brasilsat.py lines 171-193) |
| Plano.LerCampos | gerenciador_ativos/api/ativos/plano.py:46-52 | the name stripped, the base lower-cased with "horas" by default, the other fields as sent; fails exactly on a non-object body or a non-string name or base |
| Plano.ValidarCampos | gerenciador_ativos/api/ativos/plano.py:54-75 | in the order name, base, interval, the first failure gives 400; success exactly when the name is non-empty, the base is "horas" or "dias" and the interval parses and is > 0; the optional fields become None when refused |
| Plano.ValidarItem | gerenciador_ativos/api/ativos/plano.py:46-75 | a wrong shape gives 500, exactly when the fields cannot be read; once read, the answer is exactly that of `ValidarCampos` (400 unless name, base and a positive interval are valid); a valid item has a name, a valid base and a positive interval |
| Plano.NomeEmBrancoRecusado | gerenciador_ativos/api/ativos/plano.py:48-55 | a name made only of whitespace is refused |
| Plano.BaseMaiusculaAceita | gerenciador_ativos/api/ativos/plano.py:49-57 | "DIAS" is read as "dias" |
| Plano.OpcionalInvalidoViraNone | gerenciador_ativos/api/ativos/plano.py:68-75 | an optional field that float() refuses becomes None, not an error |
| Plano.Filtro | gerenciador_ativos/api/ativos/plano.py:13 | exactly the rows of the asset |
| Plano.FiltroOrdenado | gerenciador_ativos/api/ativos/plano.py:13 | filtering keeps id order |
| Plano.SemAusente | gerenciador_ativos/api/ativos/plano.py:96-98 | removing an absent id changes nothing |
| Plano.SemPosicao | gerenciador_ativos/api/ativos/plano.py:100 | with increasing ids, deleting by id removes exactly the row at its position |
| Plano.ExclusaoPreservaOutros | gerenciador_ativos/api/ativos/plano.py:96-101 | deleting an item of one asset leaves every other asset's plan unchanged |
| Plano.TabelaPlano.constructor | gerenciador_ativos/api/ativos/plano.py:77-86 | an empty table whose ids start at 1 |
| Plano.TabelaPlano.CriarItemPlano | gerenciador_ativos/api/ativos/plano.py:31-88 | 404 for an unknown asset; a validation error changes nothing; otherwise one row with the next id is appended and its id is answered; ids stay increasing |
| Plano.TabelaPlano.ExcluirItemPlano | gerenciador_ativos/api/ativos/plano.py:91-103 | a row is removed only when both the asset and the item id match, and then only that row; otherwise 404 and nothing changes |
| Plano.TabelaPlano.ListarPlano | gerenciador_ativos/api/ativos/plano.py:9-28 | the asset's rows, and only those, in id order |
| Cron.Ativos | admin/cron.py:13 | exactly the assets with `ativo` set |
| Cron.AtivosConcatena | admin/cron.py:13 | the filter keeps the rows' order: it distributes over concatenation |
| Cron.RegistroDe | admin/cron.py:16-34 | hours = offset + system hours; the rate with None read as 0; total = hours × rate, which is 0 without a rate |
| Cron.Inserir | admin/cron.py:20-34 | today's key for the asset is present afterwards; an existing record is kept; a new one is `RegistroDe` |
| Cron.FecharPreserva | admin/cron.py:25-26 | existing records are never modified |
| Cron.FecharChaves | admin/cron.py:15-36 | the keys afterwards are the old keys plus (id, today) for each active asset |
| Cron.FecharNovos | admin/cron.py:16-34 | with unique ids, a key that was absent holds that asset's `RegistroDe` |
| Cron.FecharIdempotente | admin/cron.py:20-26 | a second run on the same day adds nothing |
| Cron.FecharSemNovos | admin/cron.py:20-26 | when every active asset already has today's record, the table is unchanged |
| Cron.TabelaConsumo.FechamentoDiario | admin/cron.py:10-39 | the loop leaves the table as `Fechar` of the old table over the active assets; the count is the number of active assets, not the number inserted |
| Cron.TabelaConsumo.constructor | admin/cron.py:20 | the table holds the given records |
| Auth.SafeNextUrl | gerenciador_ativos/auth/routes.py:10-14 | as written: a non-empty query-string "next" wins over the form's; the candidate is kept only when it begins with "/" |
| Auth.QueryStringVence | gerenciador_ativos/auth/routes.py:11 | with a non-empty query-string "next" the form is not read |
| Auth.OutroHostAceito | gerenciador_ativos/auth/routes.py:12 | as written: "//exemplo.invalid/x", a URL on another host, is accepted |
| Auth.SafeNextUrlLocal | gerenciador_ativos/auth/routes.py:10-14 | corrected: the result is a local path; it is what the written check returns whenever that is a local path |
| Auth.OutroHostRecusado | gerenciador_ativos/auth/routes.py:12 | corrected: "//exemplo.invalid/x" is refused |
| Auth.LoginLevaParaOutroHost | gerenciador_ativos/auth/routes.py:52-54 | as written: a logged-in user sent with `next=//exemplo.invalid/x` is redirected to that host |
| Auth.DestinoSempreLocal | gerenciador_ativos/auth/routes.py:52-59 | corrected: a login redirects through "next" only to a path on this site |
| Auth.NormalizarEmail | gerenciador_ativos/auth/routes.py:33-83 | strip then lower: no longer than the input, no upper-case letter, no whitespace at either end |
| Auth.NormalizarIdempotente | gerenciador_ativos/auth/routes.py:33-83 | normalising twice is normalising once |
| Auth.NormalizarIgnoraCaixa | gerenciador_ativos/auth/routes.py:33-83 | addresses differing only in case or surrounding whitespace normalise alike |
| Auth.DestinoApos | gerenciador_ativos/auth/routes.py:52-59 | a safe "next" first; then the manager dashboard exactly for internal users; the client portal otherwise |
| Auth.SessaoApos | gerenciador_ativos/auth/routes.py:45-48 | login writes exactly the four entries user_id, user_nome, user_tipo and cliente_id, and keeps the others |
| Auth.LoginAbreSessao | gerenciador_ativos/auth/routes.py:45-48 | after login `login_required` runs the view, and the staff guard admits the user exactly when the user is internal |
| Auth.Sessao.constructor | gerenciador_ativos/auth/routes.py:45 | the session holds the given entries |
| Auth.Sessao.Login | gerenciador_ativos/auth/routes.py:30-59 | corrected (uses `SafeNextUrlLocal` where the source calls the written check): the address is normalised before the password check; on failure nothing is written and a safe "next" is kept; on success the four entries are written and the redirect is `DestinoApos` |
| Auth.Sessao.Logout | gerenciador_ativos/auth/routes.py:68-73 | the session is emptied |
| Auth.ValidarCadastro | gerenciador_ativos/auth/routes.py:82-97 | in this order: an empty name, email or password; a mismatched confirmation; an email in use. Each refusal is characterised by an if-and-only-if |
| Auth.CadastroRepetidoRecusado | gerenciador_ativos/auth/routes.py:95-118 | after an account is created, the same form is refused as a duplicate |
| Auth.Registrar | gerenciador_ativos/auth/routes.py:80-121 | a refusal changes nothing; success appends exactly one "PF" client and one "cliente" user linked to it, and sets the password; the tables stay valid |
| Auth.ResetAdmin | gerenciador_ativos/auth/routes.py:128-149 | 403 exactly when the token is not the fixed constant, and then nothing changes; otherwise the admin account exists afterwards, created only when missing, with the fixed password; the password map changes only at the admin's id and the id counters move only for a created admin |
| Decorators.LoginRequired | gerenciador_ativos/auth/decorators.py:5-13 | the view runs exactly when "user_id" is in the session, with the same arguments, and its result is returned unchanged; otherwise a redirect to login |
| Decorators.RoleRequired | gerenciador_ativos/auth/decorators.py:16-30 | the view runs exactly when the session's "user_tipo" is one of the roles; an absent tipo redirects home |
| Decorators.GerenteRequired | gerenciador_ativos/auth/decorators.py:36-37 | the view runs exactly for tipo "admin" or "gerente" |
| Decorators.AreaInterna | gerenciador_ativos/usuarios/routes.py:19-22 | login_required over role_required: without a login, a redirect to login; with one, the same as `gerente_required` |
| Contas.BuscarPorEmail | gerenciador_ativos/auth/routes.py:95 | a user with that email, or None exactly when there is none |
| Contas.BuscarPorId | gerenciador_ativos/portal/routes.py:22 | a user with that id, or None exactly when there is none |
| Contas.BuscarCliente | gerenciador_ativos/portal/routes.py:42 | a client with that id, or None exactly when there is none |
| Contas.AcrescentarValido | gerenciador_ativos/models.py:111-113 | appending a user with a fresh email and the next id keeps emails unique and ids increasing |
| Contas.SubstituirValido | gerenciador_ativos/models.py:111-113 | rewriting one row with its own id and an email no other row has keeps the table valid |
| Contas.Tabela.constructor | gerenciador_ativos/models.py:108-118 | empty, valid tables |
| Portal.GetUsuarioCliente | gerenciador_ativos/portal/routes.py:8-29 | no user_id gives 401; a tipo other than "cliente" gives 403 (checked after the 401); an unknown user gives 401; a user without a client gives 403; otherwise the session's linked client user; a found "cliente" user is answered with success exactly when linked |
| Portal.BuscarAtivo | gerenciador_ativos/portal/routes.py:72 | the asset with that id, or None exactly when there is none |
| Portal.DoCliente | gerenciador_ativos/portal/routes.py:44-48 | exactly the client's assets |
| Portal.ListaDoCliente | gerenciador_ativos/portal/routes.py:44-51 | the client's assets, only those, ordered by name (a permutation of the filter) |
| Portal.DashboardCliente | gerenciador_ativos/portal/routes.py:32-58 | the user checks first; for a linked user, 404 exactly when the client's row is gone and success whenever it exists: the client's assets by name, with `qtd_ativos` equal to the list's length |
| Portal.PainelAtivoCliente | gerenciador_ativos/portal/routes.py:61-84 | the user checks first; 404 for an unknown asset; 403 exactly when the asset belongs to another client; for an own asset, 404 exactly when the client's row is gone and otherwise success with that client and asset |
| Portal.SoAtivosProprios | gerenciador_ativos/portal/routes.py:44-76 | on either page a client user never sees an asset of another client |
| Sorting.InsertionSort | gerenciador_ativos/api/ativos/preventiva.py:71 | the result is sorted under the given total preorder and is a permutation of the input |
| Sorting.InsertEmpatados | gerenciador_ativos/api/ativos/preventiva.py:71 | an inserted element goes before the elements whose key equals its own |
| Sorting.InsertionSortEstavel | gerenciador_ativos/api/ativos/preventiva.py:71 | `list.sort` is stable: the elements with a given key appear in the same order as in the input |
| Sorting.TextoAntesTotal | gerenciador_ativos/portal/routes.py:48 | the name order compares any two names |
| Sorting.TextoAntesTransitivo | gerenciador_ativos/portal/routes.py:48 | the name order is transitive |
| Usuarios.ValidarNovo | gerenciador_ativos/usuarios/routes.py:25-51 | a duplicate email is refused before any other check; "cliente" without a cliente_id is refused; on success the email is the lower-cased input and unique, and the cliente_id is set exactly when `int()` accepts it (an unparseable one silently becomes None); the form is accepted exactly when neither check refuses it and email, senha, nome and tipo were sent |
| Usuarios.LowerOpt | gerenciador_ativos/usuarios/routes.py:31-32 | a present email is lower-cased; an absent one stays absent |
| Usuarios.LerNovo | gerenciador_ativos/usuarios/routes.py:25-49 | the step-by-step reassignment of email and cliente_id computes exactly `ValidarNovo` |
| Usuarios.Novo | gerenciador_ativos/usuarios/routes.py:19-57 | corrected: a refusal changes nothing; success appends exactly the validated user with the next id and sets its password; the table stays valid |
| Usuarios.NovoComoEscrito | gerenciador_ativos/usuarios/service.py:5-16 | as written: no user is ever saved; every form that passes the checks ends in a 500 |
| Usuarios.NovoValidoFalha | gerenciador_ativos/usuarios/service.py:13 | a concrete valid form that the corrected creation accepts and the written one refuses |
| Usuarios.ValidarEdicao | gerenciador_ativos/usuarios/routes.py:68-91 | accepted exactly when the tipo is not "cliente" or a parseable id is sent, email, nome and tipo are present, and no other user has the lower-cased email; "cliente" without an id and an unparseable id are refused; another tipo forces cliente_id to None; on success the email is lower-cased and the id is kept |
| Usuarios.Posicao | gerenciador_ativos/usuarios/routes.py:65 | the position of the user with that id, or the length exactly when there is none |
| Usuarios.LerEdicao | gerenciador_ativos/usuarios/routes.py:68-89 | the step-by-step reassignment computes exactly `ValidarEdicao` |
| Usuarios.Editar | gerenciador_ativos/usuarios/routes.py:60-97 | 404 for an unknown user; a refusal changes nothing; success rewrites that row in place and no other; the table stays valid |

## Left out

- Network and cryptography are left out: the `requests` calls, timeouts, JSON decoding and the MD5
  request signature. Each HTTP call is given as the reply it produced (`BrasilSat.RespostaHttp`).
- Passwords: werkzeug hashing and `autenticar_usuario` are not modelled. Authentication is a
  parameter of `Auth.Sessao.Login`, and a stored password stands for the hash made from it.
- Persistence: SQLAlchemy sessions, commits, foreign keys and unique constraints are not modelled.
  Tables are sequences or maps, and queries are filters.
  - The swallowed save exception in `routes_dados.py` is not modelled.
  - A unique or NOT NULL violation at commit is modelled as the outcome `ErroInterno` (500).
- Flask plumbing: templates, `flash` messages, `redirect`/`url_for` and the GET renderings of the
  login, registration and user forms are left out. Only the decision each handler makes is kept.
- Floating point: hours are exact reals, and `round()` is round-half-even on the exact value.
  - Binary representation errors are not modelled.
  - `float()` of text accepts optional whitespace, a sign, digits and one decimal point. Exponents,
    "inf" and "nan" are not modelled.
  - `int()` and `float()` of text refuse underscores between digits ("1_000"), which Python
    accepts; such text is modelled as a refused conversion.
- Text: `str.lower()` and `str.strip()` are modelled for ASCII letters and ASCII whitespace only.
- Time: the clock is the parameter `agora`, in whole seconds. DateTime columns are whole seconds
  where a corrected handler needs them.
- Schema drift: the two asset classes declare different columns, and `routes_dados.py` and
  `admin/cron.py` read columns that neither declares. Each model's record holds exactly the fields
  its handler reads. The places where this matters:
  - `ativos/utils.py` line 14 and `ativos/painel.py` line 10 read `horas_sistema`. Neither
    gerenciador_ativos/models.py (which has `horas_sistema_total`) nor ativos/models.py declares it.
    `Horas.SomaHoras`, `Horas.CalcularHorasMotor` and `Horas.CalcularConsumo` assume a stored
    column of that name, possibly None.
  - `ativos/painel.py` line 13 reads `consumo_lph`, which neither class declares (ativos/models.py
    has `consumo_litros_hora`). `Horas.CalcularConsumo` and `Horas.Litros` assume a stored rate of
    that name, possibly None.
  - `api/ativos/offset.py` line 29 writes `horas_offset` on the `Ativo` of
    gerenciador_ativos/models.py, which declares only `horas_motor_offset`. As written, the
    assignment sets a plain attribute that is not a column, so the commit does not store the
    calibration. `Offset.AtualizarOffset` assumes a stored `horas_offset` column and models the
    write as persisted.
  - `api/monitoramento/routes.py` line 62 queries `filter_by(id=ativo_id, ativo=True)`, and
    `admin/cron.py` line 13 queries `filter_by(ativo=True)`. Both query the `Ativo` of
    gerenciador_ativos/models.py, which declares no `ativo` column, so as written the filter raises:
    `obter_dados` would answer 500 for every id and the daily closing would fail.
    `Monitoramento.ObterDados` (its `AtivoMonitorado.ativo` flag) and `Cron.Ativos` assume the
    boolean `ativo` column the queries need.
- RoutesDados.Processar: `routes_dados.py` reads and writes `horas_paradas` (lines 57-59, 76 and
  101) as a stored column. In the asset class it imports (gerenciador_ativos/models.py line 92),
  `horas_paradas` is a method, so line 59 would put the bound method into the JSON body. The model
  takes the stored column the handler expects. The same name is read in `dados.py` line 103, where
  the model does follow the method (`Dados.DadosAtivoComoEscrito` and `Dados.DadosAtivo`).
- `admin/cron.py` imports `ConsumoDiario` from `gerenciador_ativos/models.py`, which does not
  define it. `models/consumo_diario.py` is not part of this model. The daily table is modelled with
  the columns the cron writes.
- RoutesDados.AtivoDados.Salvar: the handler assigns `ultimo_estado_motor` in the middle of its save
  block (routes_dados.py lines 73-74). The model writes that column in `GravarTelemetria` and the
  other seven in `Salvar`. The resulting row is the same.
- Plano.TabelaPlano.CriarItemPlano: the success answer is `Sucesso(id)`; the distinction between
  201 and 200 is not carried.
- Portal.GetUsuarioCliente: a session `user_id` that is not an integer is treated as an unknown user.
- `usuarios/routes.py` `lista`, `desativar` and `ativar` are left out. They are renderings and
  one-column setters with no decision in them.
- `Py.Strip` is not claimed idempotent in general. Only the properties the e-mail normalisation
  needs are proved.

## Findings

| source | as written | input that shows it | evidently intended | confidence | as-written member | corrected member |
|---|---|---|---|---|---|---|
| gerenciador_ativos/api/ativos/routes_dados.py:40-42,73-74 | a missing `ultimo_estado_motor` is taken as the current state, and the state is written only when it differs from that, so it is never written and no ignition is ever counted | a new asset (state NULL) reading off, then on | the first reading is stored as the baseline, and later 0→1 edges are counted | medium, not executed | RoutesDados.SemEstadoNuncaConta, RoutesDados.PrimeiraIgnicaoPerdida | RoutesDados.ContarCorrigido, RoutesDados.ContarTodasCorrigidoContaSubidas |
| gerenciador_ativos/api/ativos/dados.py:95-97 | `agora_ts - timestamp_ligado` subtracts a DateTime column from a float, which raises TypeError | an asset with a stored `timestamp_ligado` whose telemetry reports the engine on | the running cycle's hours are added to the stored total | high, not executed | Dados.DadosAtivoComoEscrito, Dados.MotorLigadoQuebraPainelExemplo | Dados.DadosAtivo, Dados.HorasNuncaAbaixoDoTotal |
| gerenciador_ativos/api/ativos/dados.py:103,118 | `getattr(ativo, "horas_paradas", 0) or 0` finds the method `horas_paradas` of the asset class (gerenciador_ativos/models.py:92), a truthy value that `or 0` keeps, and `round()` of a method raises TypeError, so every existing asset gets 500 | any existing asset, for instance one switched off two hours ago with the engine reported off | the idle hours `horas_paradas()` are shown, rounded to 2 decimals | high, not executed | Dados.DadosAtivoComoEscrito, Dados.MotorDesligadoQuebraPainelExemplo | Dados.DadosAtivo, Models.HorasParadasDesde |
| gerenciador_ativos/api/ativos/preventiva.py:46-48 | `float(ts_ligado)` on the DateTime column raises TypeError | any asset with a stored `timestamp_ligado` | the running cycle is added to the total before the tasks are computed | high, not executed | Preventiva.PreventivaAtivoComoEscrito | Preventiva.PreventivaAtivo, Preventiva.HorasTotal |
| gerenciador_ativos/auth/routes.py:10-14 | any "next" beginning with "/" is accepted, including "//host/…", which browsers read as another host (an open redirect after login) | `next=//exemplo.invalid/x` | only paths on this site are accepted | medium, not executed | Auth.SafeNextUrl, Auth.OutroHostAceito, Auth.LoginLevaParaOutroHost | Auth.SafeNextUrlLocal, Auth.OutroHostRecusado, Auth.DestinoSempreLocal, Auth.Sessao.Login |
| gerenciador_ativos/usuarios/service.py:13 | `criar_usuario` calls `usuario.set_senha`, which `Usuario` does not define (it defines `set_password` at gerenciador_ativos/models.py:120), so every valid creation raises AttributeError | any form that passes the checks of `novo` | the password is set with `set_password` and the user is saved | high, not executed | Usuarios.NovoComoEscrito, Usuarios.NovoValidoFalha | Usuarios.Novo, Usuarios.ValidarNovo |
