# Product viability analyser — a Dafny model

This project models the core of a small web application for market research on marketplace products. The user enters the following for a product:

- its cost, sale price, packaging and freight;
- the tax and marketplace-commission percentages;
- monthly sales and a target margin;
- what the competition looks like: listing counts, the cheapest premium-logistics ("Full") price, the average first-page price and the customer rating.

The application then derives unit and monthly profit, a break-even price, a weighted competition index with a four-level class, a 0–100 viability score with a four-level class, price deltas, and the price that reaches the target margin. Around that calculator sit:

- the record form (defaults, edits, save validation);
- the list of saved analyses (newest first, optimistic delete, duplicate);
- a head-to-head comparison of up to three analyses;
- the dashboard's portfolio totals.

Modules (`Wrappers` is shared plumbing; each of the others follows one source file):

- `Wrappers` holds `Option`.
- `Types` (types.ts):
  - the record `Analise`, a sparse record whose fields are all `Option`s;
  - its numeric inputs `Entradas` and derived fields `Calculados`;
  - the closed tag sets;
  - the object spread `{ ...base, ...top }`.
- `Calculations` (utils/calculations.ts): the calculator as total functions over exact `real`s, with lemmas for the algebra of each derived field.
- `Comparison` (components/ComparisonPanel.tsx):
  - the selection, a class whose `ToggleSelect` keeps at most three distinct ids;
  - the filter of the selected records;
  - the per-metric winners.
- `Dashboard` (components/Dashboard.tsx): counts, sums, the average and the recent-activity slice.
- `Form` (components/AnalysisForm.tsx):
  - the form state, a class with `step` and `formData`;
  - the edit coercion;
  - save validation and record assembly.
- `App` (App.tsx):
  - the application state as a class;
  - the database as a map from id to record;
  - the handlers that load, save, delete, duplicate and switch tabs.

JavaScript idioms are written out explicitly:

- `x || 0` is `Num(x)`: an absent number counts as 0.
- `!s` on a string is `!Truthy(s)`: the string is absent or empty.
- `Math.round(x)` is `Floor(x + 1/2)`.
- `String(undefined)` is `"undefined"`.
- `parseFloat(v) || 0` takes the parse result as an `Option<real>`, where `None` means NaN.

The environment is passed in as parameters:

- the date parsing in `new Date(...).getTime()`;
- `crypto.randomUUID()` and `new Date().toISOString()`;
- the user's answer to `window.confirm`;
- whether a database write fails;
- what `getAll` answers.

Three JavaScript behaviours the model follows as written:

- The form keeps an existing `id` and `data_criacao` only when they are non-empty strings (`formData.id || crypto.randomUUID()`). An empty id is replaced by a fresh one. `Form.Finalize` states exactly this.
- Deleting compares `String(a.id)` with the id. Deleting the id `"undefined"` therefore also removes every listed record that has no id. `App.WithoutId` models this.
- The viability class is taken from the unrounded score. So a score shown as 80 can be classed excellent (`Calculations.ClassUsesUnroundedScore`).

## Model

| member | source | states |
|---|---|---|
| Types.Spread | components/AnalysisForm.tsx:17-38 | the object spread `{ ...base, ...top }`; its meaning is stated by `Types.SpreadKeepsTop` and `Types.SpreadUnique` |
| Types.SpreadKeepsTop | components/AnalysisForm.tsx:17-38 | every field present in the right operand of an object spread has that value in the result, and every field absent there has the left operand's value |
| Types.SpreadUnique | components/AnalysisForm.tsx:17-38 | a record that takes every present field of the right operand and every other field from the left operand is the spread itself |
| Calculations.Num | utils/calculations.ts:5-17 | an absent input reads as 0, a present one as its value |
| Calculations.Round | utils/calculations.ts:74 | the result is the integer within one half of the score, halves rounded up |
| Calculations.ClassificarConcorrencia | utils/calculations.ts:32-36 | each competition class holds exactly on its interval: above 300 saturated, (150, 300] high, (50, 150] medium, at most 50 low |
| Calculations.ClassificarViabilidade | utils/calculations.ts:52-55 | each viability class holds exactly on its interval: above 80 excellent, (60, 80] viable, (40, 60] risky, at most 40 not recommended |
| Calculations.PontosMargem | utils/calculations.ts:41 | the margin component lies in [0, 40], is 0 for a non-positive margin, 40 once 1.33 × margin reaches 40, and 1.33 × margin in between |
| Calculations.PontosConcorrencia | utils/calculations.ts:43 | the competition component is never negative, at most 20 for a non-negative index, and 0 exactly from an index of 400 on |
| Calculations.PontosAvaliacao | utils/calculations.ts:45 | the rating component lies in [0, 20] for ratings in [0, 5] and leaves that range for ratings outside it (it is not clamped) |
| Calculations.PontosPreco | utils/calculations.ts:47-50 | the price component is 0 unless both prices are positive; then it lies in (0, 20] and is 20 exactly when the cheapest Full price is at least the sale price |
| Calculations.ValorTaxas | utils/calculations.ts:19-20 | the fee value is price × (tax + commission) / 100 |
| Calculations.PercentualLucro | utils/calculations.ts:24 | the margin is 0 whenever the price is not positive |
| Calculations.PrecoMinimoViavel | utils/calculations.ts:28-29 | the break-even price is 0 when fees take 100% or more; otherwise it times the share the fees leave equals the fixed costs |
| Calculations.PrecoIdeal | utils/calculations.ts:62-63 | the ideal price is 0 when fees plus target margin leave no positive share; otherwise it times that share equals the fixed costs |
| Calculations.Score | utils/calculations.ts:39-50 | the unrounded score is at least the rating component, and with a non-negative competition index at most 80 above it |
| Calculations.Calcular | utils/calculations.ts:19-63 | total cost is fixed costs plus the fee value, unit profit is price minus total cost, the competition class is that of the index, and the score is the rounded score with the class of the unrounded one |
| Calculations.CalculateAnalysis | utils/calculations.ts:65-81 | the result equals the input in every field but the derived ones, and carries the derived fields computed from the input's numbers |
| Calculations.FeeAndCostIdentities | utils/calculations.ts:19-21 | the reported fee percentage is tax + commission; total cost = product + packaging + freight + price × (tax + commission) / 100 |
| Calculations.ProfitIdentities | utils/calculations.ts:22-25 | unit profit = price − total cost; monthly profit = unit profit × monthly sales |
| Calculations.MarginIsProfitShareOfPrice | utils/calculations.ts:24 | margin is 0 for a non-positive price, and otherwise margin × price = unit profit × 100 |
| Calculations.AbsentInputsCountAsZero | utils/calculations.ts:5-17 | replacing every absent input by an explicit 0 changes no derived field |
| Calculations.CalculateAnalysisIdempotent | utils/calculations.ts:65-81 | recomputing from a result gives the same result; records with equal inputs get equal derived fields |
| Calculations.ProfitAtPrice | utils/calculations.ts:19-28 | at any price p, unit profit = p × (1 − fee fraction) − fixed costs |
| Calculations.BreakEvenPriceHasZeroProfit | utils/calculations.ts:28-29 | with fees below 100%, selling at the break-even price gives a unit profit of exactly 0 |
| Calculations.BreakEvenPriceSeparatesLossFromProfit | utils/calculations.ts:28-29 | with fees below 100%, any lower price loses money per unit and any higher price makes money |
| Calculations.IdealPriceHitsTargetMargin | utils/calculations.ts:62-63 | when fees plus margin leave a positive share, the unit profit at the ideal price is the target margin's share of it, and with positive fixed costs the margin there equals the target |
| Calculations.NoPriceWhenFeesTakeEverything | utils/calculations.ts:28-63 | fees of 100% or more give a break-even price of 0; fees plus margin of 100% or more give an ideal price of 0 |
| Calculations.CompetitionClassMonotone | utils/calculations.ts:33-36 | a larger index never gives a lower competition class |
| Calculations.ViabilityClassMonotone | utils/calculations.ts:52-55 | a larger score never gives a lower viability class |
| Calculations.ThresholdsAreExclusive | utils/calculations.ts:33-55 | index 300 is high, 150 medium, 50 low; score 80 is viable, 60 risky, 40 not recommended |
| Calculations.ClassUsesUnroundedScore | utils/calculations.ts:52-74 | a score of 80.4 rounds to 80 yet is excellent; 40.3 rounds to 40 yet is risky |
| Calculations.ScoreWithinBounds | utils/calculations.ts:39-74 | for ratings in [0, 5] and non-negative listing counts the rounded score lies in [0, 100] |
| Calculations.DeltasAreSigned | utils/calculations.ts:58-59 | each delta is the sale price minus its reference price, so it is positive exactly when the price is above the reference and negative exactly when below |
| Calculations.WorkedExample | utils/calculations.ts:5-25 | cost 50, price 120, packaging 5, freight 25, 6% + 16%, 100 sales give 22, 26.4, 106.4, 13.6, 1360, margin 34/3 and low competition |
| Calculations.SandboxScenario | components/SandboxSimulator.tsx:8-22 | the simulator's starting scenario gives total cost 106.4, break-even 4000/39, index 130 (medium), score 65 (viable), ideal price 8000/63 and deltas 10 and 120 |
| Comparison.ComparisonPanel.constructor | components/ComparisonPanel.tsx:13 | the panel starts with no id selected |
| Comparison.Toggle | components/ComparisonPanel.tsx:15-21 | toggling changes the membership of that id only: it is selected afterwards exactly when it was not and fewer than three were; distinct ids stay distinct |
| Comparison.Without | components/ComparisonPanel.tsx:17 | the filtered selection holds exactly the other ids, is no longer, and stays free of duplicates |
| Comparison.ToggleSelectedRemovesInPlace | components/ComparisonPanel.tsx:16-17 | toggling a selected id removes that one entry and keeps every other id in its position order |
| Comparison.ToggleTwiceRestores | components/ComparisonPanel.tsx:16-19 | toggling an unselected id while fewer than three are selected, then toggling it again, restores the selection |
| Comparison.ToggleKeepsSelectionValid | components/ComparisonPanel.tsx:15-21 | a selection of at most three distinct ids stays one after any toggle |
| Comparison.ComparisonPanel.ToggleSelect | components/ComparisonPanel.tsx:15-21 | deselects a selected id, appends an unselected one when fewer than three are selected, otherwise leaves the selection; at most three distinct ids is kept |
| Comparison.SelectedAnalyses | components/ComparisonPanel.tsx:23 | a record is shown exactly when it is in the list and its id is selected; a record without an id never is |
| Comparison.SelectedAnalysesKeepsOrder | components/ComparisonPanel.tsx:23 | the selection distributes over concatenation, so records appear in list order |
| Comparison.SelectedIdsAreSelected | components/ComparisonPanel.tsx:23 | the shown records have one id each, all selected, distinct when the list's ids are |
| Comparison.SelectedAnalysesBoundedBySelection | components/ComparisonPanel.tsx:18-23 | with distinct record ids, no more records are shown than ids are selected |
| Comparison.ReduceIndex | components/ComparisonPanel.tsx:28-33 | after n steps the reduce holds a record at least as good as each of the first n and strictly better than each before it |
| Comparison.Valor | components/ComparisonPanel.tsx:29-30 | a record without derived fields has value 0 on every metric; otherwise the value is the metric's derived field |
| Comparison.ModoDe | components/ComparisonPanel.tsx:36-41 | only the competition index is compared by its lowest value; every other metric by its highest |
| Comparison.GetWinner | components/ComparisonPanel.tsx:26-34 | no winner for fewer than two records; otherwise a selected record with the best value, the earliest among ties |
| Comparison.Winners | components/ComparisonPanel.tsx:36-41 | profit, margin and score winners have the highest value and the competition winner the lowest index, each among the selected records; all present exactly with two or more selected |
| Dashboard.ProfitableItems | components/Dashboard.tsx:13 | the count is at most the list length and is 0 exactly when no record has a positive unit profit |
| Dashboard.RiskyItems | components/Dashboard.tsx:14 | the count is at most the list length and is 0 exactly when no record has a unit profit of 0 or less |
| Dashboard.ProfitablePlusRiskyIsTotal | components/Dashboard.tsx:12-14 | when every record carries derived fields, profitable plus at-risk equals the total |
| Dashboard.TotalEstimatedProfit | components/Dashboard.tsx:15 | the projected profit is non-negative when no record projects a loss, non-positive when none projects a gain, and 0 when no record carries derived fields |
| Dashboard.TotalEstimatedProfitConcat | components/Dashboard.tsx:15 | the projected profit of two lists together is the sum of their projected profits |
| Dashboard.AvgUnitProfit | components/Dashboard.tsx:17-19 | the average is 0 for an empty list, and otherwise average × count equals the sum of unit profits |
| Dashboard.SumBetweenBounds | components/Dashboard.tsx:18 | n unit profits in [lo, hi] sum to a value in [n × lo, n × hi] |
| Dashboard.AverageBetweenExtremes | components/Dashboard.tsx:17-19 | for a non-empty list the average lies between any lower and upper bound of the unit profits |
| Dashboard.Recent | components/Dashboard.tsx:100 | the recent table shows min(5, n) records, the first ones of the list in order |
| Form.Defaults | components/AnalysisForm.tsx:17-36 | a blank form has no id, creation time or derived fields, an empty name, Full logistics, status under review, a 20% target margin and 0 in every numeric input |
| Form.Initial | components/AnalysisForm.tsx:17-38 | without initial data the form starts from the defaults; with it, every field the data carries overrides the default and every field it lacks keeps the default |
| Form.NewFormDefaults | components/AnalysisForm.tsx:17-38 | a new form has a 20% target margin, Full logistics, status under review, no id, no creation time and a zero price |
| Form.EditedRecordFallsBackToDefaults | components/AnalysisForm.tsx:17-38 | a record without a target margin opens with the default 20% |
| Form.GravarNumero | components/AnalysisForm.tsx:56-58 | writing a numeric input sets exactly that input and leaves every other input as it was |
| Form.GravarTexto | components/AnalysisForm.tsx:56-58 | writing a text field sets exactly that field and leaves every other field as it was |
| Form.ApplyEdit | components/AnalysisForm.tsx:54-60 | a number edit stores the parsed value or 0 when nothing parses, a text edit stores the raw string, a select stores its option; every other field of the form keeps its value |
| Form.Finalize | components/AnalysisForm.tsx:78-96 | refused for an empty name first, then for an absent or non-positive price, saved otherwise; the saved record has the form's fields, its freshly calculated derived fields, the form's id and creation time when non-empty and fresh ones otherwise |
| Form.SaveKeepsIdentity | components/AnalysisForm.tsx:92-93 | saving an edited record keeps its id and creation time; a new one gets the fresh id and the current time |
| Form.SaveRecomputesDerivedFields | components/AnalysisForm.tsx:89-91 | stale derived fields in the form never reach the saved record |
| Form.AnalysisForm.Calculated | components/AnalysisForm.tsx:50-52 | the calculated preview carries the derived fields of the current inputs |
| Form.AnalysisForm.constructor | components/AnalysisForm.tsx:15-38 | the form opens on step 1 with the defaults overridden by the initial data |
| Form.AnalysisForm.HandleChange | components/AnalysisForm.tsx:54-60 | the form data becomes the edited data and the step is unchanged |
| Form.AnalysisForm.Proceed | components/AnalysisForm.tsx:366-369 | the step becomes 2 only when a product name is entered, otherwise it stays; the data is unchanged |
| Form.AnalysisForm.Back | components/AnalysisForm.tsx:349 | the step becomes 1 and the data is unchanged |
| Form.AnalysisForm.HandleSave | components/AnalysisForm.tsx:78-96 | a valid form hands the assembled record over; a refused one hands nothing, and a missing price moves the form to step 2 |
| App.Insert | App.tsx:43-45 | inserting into a newest-first list gives a newest-first list of the same records plus the new one |
| App.SortNewestFirst | App.tsx:43-45 | the loaded list is a permutation of what the database returned, ordered by creation time newest first |
| App.SortKeepsSortedList | App.tsx:43-45 | sorting a list that is already newest first changes nothing |
| App.InsertOldestAppends | App.tsx:43-45 | a record no newer than any in the list goes to its end |
| App.IdTexto | App.tsx:103 | a present id prints as itself; the printed id is "undefined" exactly when the id is absent or is that string |
| App.WithoutId | App.tsx:103 | a record stays exactly when it was listed and its printed id differs from the deleted one |
| App.WithoutIdConcat | App.tsx:103 | the delete filter distributes over concatenation, so the remaining records keep their order |
| App.WithoutIdKeepsNewestFirst | App.tsx:103 | the delete filter keeps a newest-first list newest first |
| App.WithoutAbsentIdIsIdentity | App.tsx:103 | deleting an id no listed record has leaves the list as it was |
| App.Duplicate | App.tsx:115-120 | the copy has the fresh id, the name followed by " (Cópia)" and the new creation time, and every other field of the original |
| App.DuplicateSharesMetrics | App.tsx:115-120 | the copy has the same inputs and so the same derived fields as the original |
| App.Put | services/storageService.ts:62-71 | a put stores the record under its id and keeps every other key; a record without an id is refused |
| App.PutThenListShowsRecord | App.tsx:81-82 | after a put and a reload, the saved record and every other stored record are listed |
| App.AppState.constructor | App.tsx:15-18 | the application starts on the dashboard, with no analyses, nothing being edited and loading |
| App.AppState.LoadData | App.tsx:40-52 | a successful load shows the returned records newest first; a failed one keeps the list; loading ends either way |
| App.AppState.HandleTabChange | App.tsx:72-77 | the tab changes; only the new-analysis tab clears the record being edited |
| App.AppState.HandleEdit | App.tsx:91-94 | the record to edit is set and the new-analysis tab opens |
| App.AppState.HandleSave | App.tsx:79-89 | a stored record is listed after the reload, and the list tab opens with nothing being edited; a failed write changes nothing |
| App.AppState.HandleDelete | App.tsx:96-111 | an empty id or a cancelled confirmation does nothing; otherwise the id's records leave the list at once and the database, or the list is reloaded when the database delete fails and then lists exactly the stored records |
| App.AppState.HandleDuplicate | App.tsx:113-128 | the copy is stored under a new key, the database grows by one, the copy is listed after the reload and the list tab opens; a failed write changes nothing |

## Left out

- `formatCurrency` (utils/calculations.ts:84-86): locale formatting through `Intl`, which is presentation.
- IEEE-754 rounding, NaN and Infinity: the model computes with exact reals. A derived field that JavaScript prints as 26.400000000000002 is 26.4 here. A non-numeric value that reached the calculator would be NaN there; here it is absent.
- `Types.Analise`: the derived fields are grouped as one optional block. Every record the application builds carries all of them or none, so a record with only some derived fields cannot be expressed.
- Authentication, the login screen, the theme toggle and `localStorage` session flags: foreign calls and browser storage.
- The layout, the analysis list screen (its search filter and score colours), the supplier manager and its catalog upload: presentation and browser APIs. The supplier select is modelled only as a text field of the form.
- The IndexedDB plumbing of services/storageService.ts (opening, transactions, promises): the database is a map. Every write's failure, and what `getAll` returns, are parameters. `App.AppState.HandleSave`, `App.AppState.HandleDuplicate` and the reload after a failed delete in `App.AppState.HandleDelete` require the answer of `getAll` to hold exactly the stored records; `App.AppState.LoadData` accepts any answer.
- React's rendering and effect timing: `calculated` is taken to be current whenever the form is saved, and each handler runs to completion before the next event.
- `window.alert` messages and console logging: they change no state.
- App.SortNewestFirst: the contract states the order and the permutation, not that records with equal creation times keep their relative order. The model's insertion is stable, as is JavaScript's `sort`.
- App.Instante: `new Date(...).getTime()` is the parameter `tempo`, which always returns an integer. A missing or unparsable date, which gives NaN and an inconsistent comparator in JavaScript, is not modelled.
- App.AppState.HandleDuplicate: requires the fresh id to be unused in the database, which is what `crypto.randomUUID()` is relied on for.
- App.AppState.LoadData: the `data || []` fallback is not modelled, because `getAll` always resolves to an array.
- Form.AnalysisForm.Proceed and Form.AnalysisForm.Back: each is only offered on one step (the advance button on step 1, the back button on step 2). The methods do not require that step.
- The "save directly" shortcut on step 1 is only shown once a positive price is set. It calls the same `handleSave`, modelled as `Form.AnalysisForm.HandleSave`.
- The target margin and the customer complaints have no input on the form. Each keeps its default or the edited record's value, so `Form.CampoNumerico` and `Form.CampoTexto` have no case for them.
