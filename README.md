# Bússola Digital: a verified model of the calculators and the sync hook

Bússola Digital is a React and Supabase dashboard of marketing calculators. This project models its logic in Dafny and proves properties of that model.

- **Persistence hook.** `useToolData` keeps one payload per (user, tool) in a hosted table. It loads the payload with a default fallback, saves it by upsert on that key, and applies realtime row updates for its own tool. It also drives the `isLoading`, `isSaving` and `saveStatus` flags. The model is the class `ToolData.ToolDataSync` over a store class `ToolData.ToolStore`. The store holds the rows and a log of the requests it received.
- **Calculators**, all over exact `real` arithmetic:
  - CPA Máximo: contribution margin and the three CPA ceilings.
  - Simulador: CPA, ROAS, status band and four recommendations.
  - Sonar: funnel ratios, a 0–10 score and the status message.
  - Métricas de Agendamento: the appointment funnel, SDR and closer head-counts, and the first changed field on a realtime update.
  - Planejamento: the sales, events and investment a revenue goal needs.
- **Diário de Bordo.** A daily ledger with:
  - per-row metrics;
  - a one-field, one-day map update;
  - the saved payload with its zero-padded `year-MM-DD` date (the `full-date` of section 5.6 of RFC 3339);
  - the month's bounds and the Gregorian month length;
  - last-writer-wins indexing of fetched rows by day;
  - a debounced per-row auto-save, modelled as the class `DiarioDeBordo.RowSaver`.
- **AI analyser page.** Input guards, error-message mapping, and a history list with prepend-on-save and filter-on-delete. It is the class `AnalisadorIA.AnalyzerPage`.
- **Product modal.** Add validation, and a delete that is refused while ledger rows refer to the product. It is the class `GerirProdutos.Modal` over a backend class `GerirProdutos.Backend`.
- **`gestor-trafego-ia` edge function.** Request validation, status dispatch, the five-turn conversation, and analysis-text extraction with a fallback. It is one function, `GestorTrafegoIA.Handle`.

Each source file is one module. Pure code became functions. Code that updates state step by step became classes with `modifies` clauses. Backend answers and timer firings are parameters of the methods that receive them. Calls with an `await` are split into a method up to the `await` (`Begin…`) and a method for its completion (`Complete…`).

## Model

| member | source | states |
|---|---|---|
| Common.TrimEmptyIffBlank | src/pages/AnalisadorIA.jsx:65 | `s.trim()` is empty exactly when every character of `s` is ECMAScript whitespace, so `!s.trim()` means "blank" |
| Common.Ceil | src/pages/MetricasAgendamento.jsx:69-70 | `Math.ceil`: the least integer not below `x` |
| Common.WithoutId | src/pages/CPAMaximo.jsx:66 | the filter `removeVariableCost`, `deleteAnalysis` (src/pages/AnalisadorIA.jsx:162) and the product delete (src/components/GerirProdutosModal.jsx:60) apply: the kept elements are exactly those whose id differs |
| Common.WithoutIdAppend | src/pages/AnalisadorIA.jsx:162 | the filter distributes over concatenation, so the kept elements keep their order |
| Common.WithoutAbsentId | src/pages/AnalisadorIA.jsx:162 | removing an id no element carries leaves the list unchanged |
| ToolData.MatchingAtMostOne | src/hooks/useToolData.js:36-46 | while (user, tool) keys are unique, a point query matches at most one row, so `limit(1)` drops nothing |
| ToolData.UpsertKeepsUnique | src/hooks/useToolData.js:130-137 | an upsert with conflict key (user_id, tool_name) keeps the keys unique |
| ToolData.MatchingOfUpsert | src/hooks/useToolData.js:130-137 | after upserting payload p under a key, exactly one row with that key remains, and it holds p |
| ToolData.SelectAfterUpsert | src/hooks/useToolData.js:130-137 | round trip: the point query after an upsert of p returns exactly `[p]` |
| ToolData.UpsertIsolation | src/hooks/useToolData.js:130-137 | an upsert under one key leaves what every other key selects unchanged |
| ToolData.UpsertOverwrites | src/hooks/useToolData.js:130-137 | upserting p1 then p2 under one key gives the same table as upserting p2 alone |
| ToolData.DefaultWhenAbsent | src/hooks/useToolData.js:45-49 | with no row for the key, the loaded payload is the default |
| ToolData.ToolStore.Query | src/hooks/useToolData.js:36-43 | logs one select, and answers the first matching payload or an error |
| ToolData.ToolStore.Write | src/hooks/useToolData.js:128-139 | logs one upsert; a success applies it by key, a failure writes nothing; key uniqueness is kept |
| ToolData.ToolDataSync.constructor | src/hooks/useToolData.js:12-15 | starts with the default payload, loading, not saving, status idle |
| ToolData.ToolDataSync.BeginFetch | src/hooks/useToolData.js:28-34 | without a user: data becomes the default, loading ends and no query is sent; with a user: loading starts and a query is pending |
| ToolData.ToolDataSync.CompleteFetch | src/hooks/useToolData.js:36-56 | data becomes the first row's payload, or the default when there is no row or the query fails (with a notice); loading is false on every path |
| ToolData.ToolDataSync.ArmSubscribe | src/hooks/useToolData.js:63-68 | the subscribe timer is armed exactly when a user is signed in |
| ToolData.ToolDataSync.SubscribeTimerFires | src/hooks/useToolData.js:68-109 | an armed timer opens the channel |
| ToolData.ToolDataSync.Teardown | src/hooks/useToolData.js:111-117 | cleanup cancels an unfired timer and closes an open channel; afterwards neither is active |
| ToolData.ToolDataSync.OnRowUpdate | src/hooks/useToolData.js:82-94 | an update for another tool leaves data unchanged; one for this tool replaces data wholesale, and the callback (when supplied) receives the previous and the new payload |
| ToolData.ToolDataSync.BeginSave | src/hooks/useToolData.js:120-126 | without a user: a notice, and no request, `isSaving` or `saveStatus` change; otherwise the save is in flight, `isSaving` is set and the status is idle |
| ToolData.ToolDataSync.CompleteSave | src/hooks/useToolData.js:127-148 | the store receives the upsert on (user, tool); `isSaving` ends false; the status is success exactly when no error occurred, else error; a reset timer is armed |
| ToolData.ToolDataSync.StatusResetFires | src/hooks/useToolData.js:148 | the reset timer sets the status back to idle |
| ToolData.SaveTwiceThenReload | src/hooks/useToolData.js:120-148 | saving P1 then P2 and loading in a fresh instance yields P2; every other key's answer is unchanged |
| CpaMaximo.FoldIsSum | src/pages/CPAMaximo.jsx:76-79 | the `reduce` seeded with the platform fee equals the fee plus the sum of the cost amounts |
| CpaMaximo.SumAppend | src/pages/CPAMaximo.jsx:76-79 | the total of the cost amounts distributes over concatenation |
| CpaMaximo.Compute | src/pages/CPAMaximo.jsx:73-86 | total = platform fee + Σ costs; margin + total = price; percentage·price = margin·100 when price > 0, else 0; the ceilings are ordered and non-negative, all 0 when margin ≤ 0, else margin, margin/1.5 and margin/2 |
| CpaMaximo.HandleChange | src/pages/CPAMaximo.jsx:69-71 | replaces one top-level field; the other fields and the cost list are unchanged |
| CpaMaximo.AddVariableCost | src/pages/CPAMaximo.jsx:65 | appends exactly one blank fixed cost at the end; the existing lines and the other fields are unchanged |
| CpaMaximo.AddVariableCostKeepsResults | src/pages/CPAMaximo.jsx:65 | adding a blank line changes no result |
| CpaMaximo.RemovePartitionsTotal | src/pages/CPAMaximo.jsx:66 | the kept and the removed lines partition the list and its total |
| CpaMaximo.RemoveVariableCost | src/pages/CPAMaximo.jsx:66 | the cost list is filtered by id and the other fields are unchanged |
| CpaMaximo.ApplyEdit | src/pages/CPAMaximo.jsx:67 | only the named field of the line changes, and the id is kept |
| CpaMaximo.UpdateCosts | src/pages/CPAMaximo.jsx:67 | same length; lines with the id are edited and every other line is unchanged |
| CpaMaximo.UpdateVariableCost | src/pages/CPAMaximo.jsx:67 | only the cost list changes, by that edit |
| CpaMaximo.DefaultsCeilings | src/pages/CPAMaximo.jsx:46-53 | the defaults give an exact margin of 161.0297, and ceilings 161.0297, 161.0297/1.5 and 80.51485 |
| Simulador.HandleChange | src/pages/Simulador.jsx:56-58 | replaces one field and leaves the others |
| Simulador.StatusBand | src/pages/Simulador.jsx:72-75 | green iff roas ≥ 2 ∧ cpa ≤ cpaMeta; yellow iff 1.5 ≤ roas < 2; blue iff 1 ≤ roas < 1.5; red otherwise |
| Simulador.BandThresholds | src/pages/Simulador.jsx:77-88 | each colour of the CTR, CPC, frequency and ROAS bands is exactly one interval of its metric (CTR red below 1, yellow from 1 to under 2, green from 2; CPC and frequency the other way round; ROAS green from 2, yellow from 1, red below 1); none of them is blue |
| Simulador.BandsMonotone | src/pages/Simulador.jsx:77-88 | CTR and ROAS bands only improve as the value grows; CPC and frequency bands only improve as it falls |
| Simulador.Recommendations | src/pages/Simulador.jsx:76-88 | exactly four recommendations: CTR, CPC, frequency and ROAS, in that order, each with its band |
| Simulador.CalcularMetrica | src/pages/Simulador.jsx:60-91 | valorTotal = price·vendas; lucro + gasto = valorTotal; guarded cpa and roas; tiers price, price/1.5 and price/2, ordered for price ≥ 0; status band and recommendations as above |
| Simulador.RoasTwoMeetsCpaMeta | src/pages/Simulador.jsx:67-75 | with gasto, vendas > 0 and exact reals, roas ≥ 2 implies cpa ≤ price/2 |
| Simulador.GreenIffRoasAtLeastTwo | src/pages/Simulador.jsx:72-75 | with exact tiers, the status is green exactly when roas ≥ 2 |
| Simulador.ExampleRun | src/tests/Simulador.test.jsx:46-60 | price 197, spend 250, 5 sales give CPA 50, ROAS 3.94, revenue 985 and profit 735, and a green status |
| Sonar.HandleFormChange | src/pages/Sonar.jsx:35-37 | updates only the named field |
| Sonar.ComputeMetrics | src/pages/Sonar.jsx:41-48 | each ratio times its positive denominator gives its numerator (scaled); each ratio is 0 when its denominator is ≤ 0; revenue = purchases·avgOrder; profit + spend = revenue |
| Sonar.MetricScore | src/pages/Sonar.jsx:51-55 | the score is 2 exactly at or above the upper threshold, 1 exactly from the lower threshold up to below the upper one, and 0 exactly below both |
| Sonar.MetricScoreMonotone | src/pages/Sonar.jsx:51-55 | a larger metric never scores lower |
| Sonar.HandleSubmit | src/pages/Sonar.jsx:39-58 | the five `+=` steps give the total score, in 0..10; performance·5 = sum, so performance is in [0, 2] |
| Sonar.StatusMeaning | src/pages/Sonar.jsx:60-72 | "ideal" iff all five metrics reach their upper threshold; "optimisation" iff the score is below 5 |
| MetricasAgendamento.HandleChange | src/pages/MetricasAgendamento.jsx:76-78 | updates a single field |
| MetricasAgendamento.Staff | src/pages/MetricasAgendamento.jsx:69-70 | 0 for a non-positive load; otherwise the least n ≥ 1 with n·capacity ≥ load |
| MetricasAgendamento.Share | src/pages/MetricasAgendamento.jsx:62-64 | y·100 = x·rate |
| MetricasAgendamento.Compute | src/pages/MetricasAgendamento.jsx:59-72 | leads guarded by the lead price; each stage is its rate percent of the previous one; faturamento = vendas·ticket; guarded custoPorCall, cac and roas; SDRs and closers by `Staff` with 200 and 50 |
| MetricasAgendamento.StageShrinks | src/pages/MetricasAgendamento.jsx:62-64 | a share at a rate in [0, 100] lies between 0 and the previous stage |
| MetricasAgendamento.FunnelOrdered | src/pages/MetricasAgendamento.jsx:61-64 | with non-negative inputs and rates in [0, 100]: 0 ≤ vendas ≤ calls ≤ agendamentos ≤ leads |
| MetricasAgendamento.DefaultsExample | src/pages/MetricasAgendamento.jsx:29-36 | the defaults give 200 leads, 10 calls, 1 sale, revenue 1000, 1 SDR and 1 closer |
| MetricasAgendamento.FirstChangedKey | src/pages/MetricasAgendamento.jsx:40-48 | none iff no key differs; otherwise the first key of the new data whose value differs |
| Planejamento.HandleChange | src/pages/Planejamento.jsx:65-67 | each field is the new value if named, else unchanged |
| Planejamento.Find | src/pages/Planejamento.jsx:84 | `find` yields the first entry carrying the value (no earlier entry carries it), and none iff no entry carries it |
| Planejamento.CustoLabel | src/pages/Planejamento.jsx:72-75 | a label exists exactly for the four metrics of the selector |
| Planejamento.Compute | src/pages/Planejamento.jsx:77-86 | vendas·price = goal when price > 0, else 0; events and investment as products; lucro + investimento = goal; guarded roas; taxa·eventosPorVenda = 100 when positive, else 0; nomeEvento by label lookup |
| Planejamento.NomeEventoLookup | src/pages/Planejamento.jsx:84 | the event name is the option label for the four known metrics and the raw value for any other |
| Planejamento.RoasIndependentOfGoal | src/pages/Planejamento.jsx:78-82 | with positive inputs, roas·(eventosPorVenda·custoPorEvento) = price, so the ROAS does not depend on the goal |
| Planejamento.DefaultsExample | src/tests/Planejamento.test.jsx:46-47 | the defaults need ⌈vendas⌉ = 254 sales; lucro = 1850000/197, which lies in [9390.855, 9390.865) and so shows as 9390,86 |
| DiarioDeBordo.Set | src/pages/DiarioDeBordo.jsx:127 | sets the named field and leaves the others |
| DiarioDeBordo.Metrics | src/pages/DiarioDeBordo.jsx:35-41 | missing figures count as 0; resultado + investment = revenue; roi·investment = revenue when investment > 0, else 0; cpa·sales = investment when sales > 0, else 0 |
| DiarioDeBordo.GainIffRoiAtLeastOne | src/pages/DiarioDeBordo.jsx:39-49 | with positive spend, the result is shown as a gain exactly when ROI ≥ 1 |
| DiarioDeBordo.HandleDataChange | src/pages/DiarioDeBordo.jsx:122-130 | the day gains the field's value, and an absent day is created; other days and the day's other fields are unchanged |
| DiarioDeBordo.RowsOf | src/pages/DiarioDeBordo.jsx:190-194 | one row per day 1..daysInMonth: the stored record, or the empty one |
| DiarioDeBordo.EditChangesOneRow | src/pages/DiarioDeBordo.jsx:122-130 | an edit to one day changes that day's rendered row only |
| DiarioDeBordo.Pad2Value | src/pages/DiarioDeBordo.jsx:136 | `padStart(2, '0')` keeps the number's value |
| DiarioDeBordo.ParseDate | src/pages/DiarioDeBordo.jsx:111 | a parsed date has the `YYYY-MM-DD` shape |
| DiarioDeBordo.EntryDateRoundTrip | src/pages/DiarioDeBordo.jsx:136 | for four-digit years the saved date text reads back as the same year, month and day |
| DiarioDeBordo.DaysInMonth | src/pages/DiarioDeBordo.jsx:145 | 28..31 days, and 29 exactly for February of a leap year |
| DiarioDeBordo.YearLength | src/pages/DiarioDeBordo.jsx:145 | the twelve month lengths add up to 365, or 366 in a leap year |
| DiarioDeBordo.MonthRangeBounds | src/pages/DiarioDeBordo.jsx:95-97 | the query bounds read back as day 1 and the last day of the month |
| DiarioDeBordo.SavePayload | src/pages/DiarioDeBordo.jsx:132-140 | user, product and padded date; spend and revenue default to 0; sales is sent iff present and non-zero, else null |
| DiarioDeBordo.IndexKeys | src/pages/DiarioDeBordo.jsx:110-114 | the indexed days are exactly the days of the fetched rows |
| DiarioDeBordo.IndexLastWins | src/pages/DiarioDeBordo.jsx:110-114 | a day holds the figures of the last row for it |
| DiarioDeBordo.IndexByDay | src/pages/DiarioDeBordo.jsx:110-114 | the mutating `reduce` builds the last-writer-wins index |
| DiarioDeBordo.LoadMonth | src/pages/DiarioDeBordo.jsx:106-116 | an error empties the month; otherwise the month is the rows indexed by day |
| DiarioDeBordo.RowSaver.constructor | src/pages/DiarioDeBordo.jsx:13-15 | no pending timer, not saving, not saved |
| DiarioDeBordo.RowSaver.Input | src/pages/DiarioDeBordo.jsx:17-33 | the local value is null for an empty input; the pending timer is replaced by exactly one, holding the record with the field set to the typed number, or 0 |
| DiarioDeBordo.RowSaver.TimerFires | src/pages/DiarioDeBordo.jsx:23-25 | saving starts with the pending record, and no timer remains |
| DiarioDeBordo.RowSaver.SaveSettled | src/pages/DiarioDeBordo.jsx:26-30 | saving ends on every outcome; the saved mark shows when the `onSave` promise resolved, which includes a failed upsert that `handleSave` caught |
| DiarioDeBordo.RowSaver.SavedMarkExpires | src/pages/DiarioDeBordo.jsx:28 | the saved mark is hidden |
| DiarioDeBordo.TypeTwice | src/pages/DiarioDeBordo.jsx:22-32 | two inputs in a row leave one pending save, holding only the last value |
| DiarioDeBordo.ClearedInputSaved | src/pages/DiarioDeBordo.jsx:19-25 | a cleared input is null locally; it is saved as 0, and a cleared sales figure goes out as null |
| AnalisadorIA.ErrorMessage | src/pages/AnalisadorIA.jsx:97-99 | the network message iff the message contains "fetch failed"; otherwise the agent prefix followed by the message verbatim |
| AnalisadorIA.SaveThenDeleteRestores | src/pages/AnalisadorIA.jsx:131 | deleting a freshly prepended row with a new id restores the history |
| AnalisadorIA.AnalyzerPage.constructor | src/pages/AnalisadorIA.jsx:17-27 | the initial page state |
| AnalisadorIA.AnalyzerPage.EditCampaignData | src/pages/AnalisadorIA.jsx:197 | the text area sets the campaign data |
| AnalisadorIA.AnalyzerPage.FetchHistory | src/pages/AnalisadorIA.jsx:30-55 | without a user nothing changes; rows replace the history; an error keeps it and is silent only for code 42P01; loading ends |
| AnalisadorIA.AnalyzerPage.BeginAnalyze | src/pages/AnalisadorIA.jsx:61-73 | blank data: the empty-data message and no call; otherwise the error is cleared, loading starts, the result is cleared, the title is dated and the data is sent |
| AnalisadorIA.AnalyzerPage.CompleteAnalyze | src/pages/AnalisadorIA.jsx:75-104 | a success shows the analysis; any failure shows the mapped message; loading is false on every path |
| AnalisadorIA.AnalyzerPage.BeginSave | src/pages/AnalisadorIA.jsx:107-114 | refused (message, no insert) unless there is a user and title, data and result are all non-blank; otherwise exactly that row is inserted and saving starts |
| AnalisadorIA.AnalyzerPage.CompleteSave | src/pages/AnalisadorIA.jsx:115-141 | success prepends exactly the inserted row; a failure keeps the history and sets the message; saving ends and a reset timer is armed |
| AnalisadorIA.AnalyzerPage.StatusResetFires | src/pages/AnalisadorIA.jsx:140 | the reset timer sets the status back to idle |
| AnalisadorIA.AnalyzerPage.DeleteAnalysis | src/pages/AnalisadorIA.jsx:158-167 | entries with the id are removed only when the backend delete succeeded |
| AnalisadorIA.AnalyzeBlank | src/pages/AnalisadorIA.jsx:65-69 | whitespace-only data never reaches the function |
| GerirProdutos.DeleteKeepsLedgerConsistent | src/components/GerirProdutosModal.jsx:54-63 | deleting an unreferenced product keeps every ledger row pointing at an existing product |
| GerirProdutos.DeleteReferencedBreaksLedger | src/components/GerirProdutosModal.jsx:54-58 | deleting a referenced product would leave a dangling ledger row, so the guard is needed |
| GerirProdutos.Backend.Insert | src/components/GerirProdutosModal.jsx:25-31 | logs the insert; a success appends the product |
| GerirProdutos.Backend.AnyLedgerRow | src/components/GerirProdutosModal.jsx:46-52 | logs the query; answers whether a ledger row refers to the product, or an error |
| GerirProdutos.Backend.Delete | src/components/GerirProdutosModal.jsx:60 | logs the delete; a success removes the products with that id |
| GerirProdutos.Modal.constructor | src/components/GerirProdutosModal.jsx:12-15 | empty inputs, not saving, nothing selected for deletion |
| GerirProdutos.Modal.EditInputs | src/components/GerirProdutosModal.jsx:109-110 | the inputs take the typed text |
| GerirProdutos.Modal.BeginAdd | src/components/GerirProdutosModal.jsx:17-23 | accepted iff the name is not blank and the ticket is not empty; a refusal gives a notice and leaves saving as it was |
| GerirProdutos.Modal.CompleteAdd | src/components/GerirProdutosModal.jsx:24-41 | the insert carries the user, the name and the parsed ticket; a success clears both inputs and refreshes; a failure keeps them; saving is false on every path |
| GerirProdutos.Modal.SelectForDeletion | src/components/GerirProdutosModal.jsx:96 | the product awaits confirmation |
| GerirProdutos.Modal.CancelDeletion | src/components/GerirProdutosModal.jsx:129 | nothing awaits confirmation |
| GerirProdutos.Modal.DeleteProduct | src/components/GerirProdutosModal.jsx:44-69 | the delete is sent only when the query succeeds and finds no ledger row; a referenced product stays; the notice and refresh follow the outcome; the selection is cleared on every path; ledger consistency is preserved |
| GestorTrafegoIA.ValidCampaignDataMeaning | supabase/functions/gestor-trafego-ia/index.ts:55 | accepted exactly when the data is a non-empty string of at most 10000 characters |
| GestorTrafegoIA.ChatHistory | supabase/functions/gestor-trafego-ia/index.ts:73-79 | five turns alternating user and model, starting and ending with user; the last carries the data after the fixed prefix |
| GestorTrafegoIA.ChatHistoryCarriesData | supabase/functions/gestor-trafego-ia/index.ts:78 | the data is recovered verbatim from the last turn, so distinct data give distinct conversations |
| GestorTrafegoIA.AnalysisText | supabase/functions/gestor-trafego-ia/index.ts:107 | the first candidate's first part text when present and non-empty, else the fallback; never empty |
| GestorTrafegoIA.Handle | supabase/functions/gestor-trafego-ia/index.ts:47-120 | OPTIONS gets 200 `ok` with no upstream call; a body parse error gets 500; invalid data gets 400; a missing key gets 500; upstream is called iff all checks pass; a non-OK status is passed through with the body; OK gives the analysis |
| GestorTrafegoIA.DataCheckedBeforeKey | supabase/functions/gestor-trafego-ia/index.ts:55-66 | invalid data gets 400 whatever the key and the upstream answer |
| GestorTrafegoIA.AnalysisOnlyFromUpstream | supabase/functions/gestor-trafego-ia/index.ts:97-112 | an analysis is returned exactly when the call went through and the API answered OK, and it is never empty |

## Left out

- DiarioDeBordo.RowSaver.SaveSettled: `resolved` is a parameter and is not tied to the upsert outcome. `handleSave` catches a failed upsert and only raises a notice, so its promise resolves and the row still shows the saved mark after a failed save (src/pages/DiarioDeBordo.jsx:26-28 and 141-142).
- Floating point and display: arithmetic is exact `real`. IEEE-754 rounding, NaN and Infinity are not modelled, and neither is `toFixed`, `toLocaleString` or `Intl.NumberFormat` formatting. The rounded strings "161,03", "107,35" and "80,52" in src/tests/CPAMaximo.test.jsx:46-48 come from that formatting. The exact values are proved instead.
- Simulador.CalcularMetrica: `cpaIdeal` and `cpaMeta` are kept exact. The page rounds them to cents with `toFixed(2)` and compares `cpa` with the rounded text. The case where that rounding turns a ROAS ≥ 2 campaign red is not modelled.
- DiarioDeBordo.Metrics: ROI and CPA are kept exact, not as the `toFixed(2)` strings the row shows.
- JavaScript input coercion (`Number(...)`, `parseFloat`, `|| 0`): form values arrive as reals, or as `Option<real>` where a value can be missing or non-numeric. `None` stands for a non-numeric value or null.
- GerirProdutos.Modal.CompleteAdd: `parseFloat` of the ticket is a parameter, and toast texts are tokens. Without a signed-in user the source throws a TypeError on `user.id`, which its `catch` turns into the failure notice. The model goes straight to that notice and sends no insert.
- The Supabase client, the auth session and access token, console logging and toast texts are left out; notices are tokens.
- ToolData.ToolDataSync.OnRowUpdate: the callback receives the payload current just before the replacement. The source passes the `data` captured by the subscription's closure. Its effect resubscribes on every change of `data` (src/hooks/useToolData.js:118), so the two are equal except in races.
- Races between an in-flight save and a realtime update, and the resubscribe on each data change, are lifecycle artefacts and are not modelled. The subscribe and teardown of one effect run are.
- Timers are pending flags or counters with no duration: the 100 ms subscribe delay, the 1.5 s debounce, the 2 s saved mark and the 2 s status reset. They fire when a method call says so. The 2 s timer that clears the flashed field (src/pages/MetricasAgendamento.jsx:44) is not modelled: MetricasAgendamento.FirstChangedKey only returns the key to flash.
- The hook's `setData` passthrough is not modelled separately: the pages' `handleChange` functions model what is passed to it. The `updated_at` stamp of the upsert is left out.
- `Date.now()` ids and today's date are parameters: `CpaMaximo.AddVariableCost`'s `newId` and `AnalyzerPage.BeginAnalyze`'s `today`. The selected month and year are parameters of the date functions.
- DiarioDeBordo.Index: a fetched row whose `entry_date` does not read as `YYYY-MM-DD` is skipped. JavaScript would store it under the key `NaN`, which no rendered row reads. The backend's date column always yields that shape.
- DiarioDeBordo.ParseDate: only four-digit years are read. `getUTCDate` of a date-only string is taken to be its day field, since such strings parse as UTC midnight.
- Diário de Bordo's product list loading (`fetchInitialData`), its `loading` flag, the month and year selectors and their lists, and the save-failure notice are not modelled. `handleSave` is modelled as the payload it sends.
- AnalisadorIA: `loadAnalysis`, which copies a stored analysis back into the form, is not modelled. A function answer with a null body, which would throw a TypeError in the source, is not modelled. The pt-BR date text of the title is the `today` parameter.
- GerirProdutos: the product list belongs to the parent component. The `refreshes` counter stands for the calls of `onProductsUpdate`. The modal's open and close rendering is left out.
- GestorTrafegoIA.Handle: the master prompt and the knowledge-base text are parameters. Also left out:
  - the CORS and Content-Type headers;
  - the API URL carrying the key;
  - `safetySettings`;
  - JSON serialisation.

  Length is counted in Dafny characters, not UTF-16 code units. A NaN campaign value is not modelled. A thrown body parse error and an upstream throw both give a 500 with the error's message.
- React rendering, charts, routing, authentication plumbing, the account and dashboard pages, and the presentational components are outside this model.
