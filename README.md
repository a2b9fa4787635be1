# Cattle herd and cash projection (Agroven simulator core)

A Dafny model of the financial projection of a cow-calf operation. The
model covers two things.

- **The parameter record, `GanaderiaConfig`.** It holds prices, weights, costs, biological rates and strategy coefficients. Under the adverse preset "Pesimista", two fields are multiplied once by a 0.85 stress factor: the weanling price and the first-service (IATF) pregnancy rate.
- **The yearly stepping loop, `simular_proyecto`.** It carries five things from year to year:
  - the breeding herd;
  - the pregnancies due next year;
  - the purchases arriving next year;
  - a two-slot FIFO queue of reserved female calves;
  - the running cash.

  Each year runs the same phases, in order: intake, capacity clamp, births, breeding, culling, revenue and expense, reinvestment and cash. Each year emits one record.

Three files model the source; a fourth holds the finding.

- `config.dfy` (module `HerdConfig`) holds the configuration.
  - `Config` is a datatype.
  - `NewConfig` is the constructor together with its preset.
  - `WithOverrides` applies the six values the dashboard writes over a constructed configuration.
- `engine.dfy` (module `Engine`) holds the engine.
  - The phases are functions: `Clamp`, `Calving`, `Service`, `Accounting` and `Reinvest`.
  - `StepYear` is one year as a function of the carried state.
  - `Run` folds `StepYear` over the horizon.
  - `AdvanceYear` is one pass of the loop body. It pops the queue at the front and appends at the back.
  - `SimularProyecto` is the loop itself. It is proved to emit exactly `Run`'s records.
- `properties.dfy` (module `HerdProperties`) holds the properties of whole runs:
  - the report is numbered year by year;
  - the herd stays within capacity;
  - replacement heifers join two years after they are reserved;
  - cash is the running sum of net flows;
  - no head count is ever negative;
  - year 1 is special;
  - reinvestment stays within its budget;
  - two edge-case scenarios (no reinvestment; no breeding).
- `findings.dfy` (module `HerdFindings`) holds the ending-inventory discrepancy described under Findings.

Head counts and money are `real`. Python's `int(...)` on the purchase count is modelled as `.Floor`. Its argument is never negative in that branch, so `.Floor` equals truncation toward zero there.

## Model

| member | source | states |
|---|---|---|
| HerdConfig.NewConfig | app.py:12-38 | The result is always a valid configuration. A scenario other than "Pesimista" gives the defaults. "Pesimista" gives the defaults except for two fields, the weanling price and the IATF pregnancy rate, each exactly 0.85 times its default. |
| HerdConfig.WithOverrides | app.py:201-206 | Each of the six overridden fields takes the dashboard value outright. Every other field keeps its value. Validity is preserved when the dashboard values are in range. |
| HerdConfig.OverrideErasesPreset | app.py:201-206 | Once the overrides are applied, the chosen preset makes no difference, because the stress factor only touches overridden fields. |
| Engine.Clamp | app.py:66-70 | The kept inventory is at most the capacity. The excess is non-negative. Kept plus excess equals the intake. A positive excess means the herd is exactly at capacity. An intake within capacity has no excess. |
| Engine.Calving | app.py:76-80 | The weaned calves split into equal halves: males sold and females reserved. |
| Engine.CalvingShares | app.py:76-77 | With loss rates in [0, 1]: 0 ≤ weaned ≤ born ≤ pending pregnancies. |
| Engine.Service | app.py:86-92 | Pregnancies are first service plus follow-up. Pregnant plus open equals the females served. |
| Engine.ServiceShares | app.py:86-92 | The closed form: pregnancies = served × (r1 + (1 − r1) × r2). With rates in [0, 1], pregnancies lie between 0 and the number served, and no count of open cows is negative. |
| Engine.Accounting | app.py:115-122 | Operating flow = revenue − expense. For valid parameters and non-negative counts, revenue is non-negative and the expense is at least the fixed costs. |
| Engine.Reinvest | app.py:124-131 | Reinvested cash = purchases × price. A flow that is not positive, or a herd at capacity, buys nothing and spends nothing. Otherwise purchases = ⌊flow × reinvested share / price⌋. |
| Engine.WholeHeadBounds | app.py:128-131 | The whole number of females bought is the largest one the reinvested share pays for: price × purchases ≤ share < price × (purchases + 1). |
| Engine.StepYearFacts | app.py:55-113 | One year's herd phases, in order. The oldest queue slot and last year's purchases join only after year 1. The herd is clamped to capacity and the excess is culled. Births come from the pending pregnancies, and the female reserve goes to the back of the queue. Breeding applies to the clamped herd. Open cows are culled from year 2 on. Age culls are a share of the new pregnancies only. Next year's pregnancies are the new pregnancies minus the age culls. Every head taken in is either kept or culled. |
| Engine.Run | app.py:55-159 | An n-year projection has exactly n records, and its cohort queue always has two slots. |
| Engine.AdvanceYear | app.py:55-159 | One pass of the imperative loop body (pop, clamp, append, culls, accounts, reinvestment, cash) yields exactly the next state and the record of `StepYear`. |
| Engine.SimularProyecto | app.py:40-161 | The loop emits max(years, 0) records, and they are exactly the records of the `Run` projection over that many years. |
| HerdProperties.RunPrefix | app.py:142-159 | A shorter run is a prefix of a longer one: later years never rewrite an earlier record. |
| HerdProperties.RecordOfYear | app.py:55-159 | Record y of any run reaching year y is the record that year y computes from the state left by the first y − 1 years. |
| HerdProperties.YearsNumbered | app.py:55-143 | The records are numbered 1..n, in order and without gaps. |
| HerdProperties.CapacityEveryYear | app.py:66-106 | In every year, the inventory that is served and costed is within capacity, and the year's culls are at least the excess over capacity, which is sold that same year. |
| HerdProperties.CashIsRunningSum | app.py:51-134 | The carried cash is −capex plus the sum of every net flow so far. |
| HerdProperties.CumulativeCashOfYear | app.py:133-134 | The cumulative cash reported for year k is −capex plus the net flows of years 1..k. |
| HerdProperties.QueueHoldsLastCohorts | app.py:45-83 | After n years, the queue holds the female reserves of years n − 1 and n, oldest first, with empty (zero) slots before year 1. |
| HerdProperties.FirstYear | app.py:47-98 | In year 1, intake is the 500 starting females and nothing is released from the queue. No calves are born and no open cow is culled. |
| HerdProperties.IntakeOfYear | app.py:57-64 | From year 2 on, intake is the herd kept the previous year, plus the previous year's purchases, plus the female reserve of two years earlier (nothing before year 3). |
| HerdProperties.BirthsFromLastYear | app.py:76-109 | From year 2 on, a year's calves are born from the pregnancies carried over from the previous year: its new pregnancies minus its age culls. |
| HerdProperties.StepKeepsSound | app.py:55-113 | From a state with no negative counts, one year leaves no negative counts. The herd kept is at most the herd served. |
| HerdProperties.HerdNonNegative | app.py:40-159 | No year of any run holds a negative herd, pregnancy count, reserved-calf count or cull count. |
| HerdProperties.ReinvestWithinBudget | app.py:124-131 | Reinvested cash is never negative. With a positive flow below capacity, it is at most the reinvested share of the flow and less than one purchase price short of it. |
| HerdProperties.NoPurchaseWhenBlocked | app.py:124-134 | In every year of every run, a non-positive operating flow or a herd already at capacity means no female is bought and no cash is reinvested, so that year's net flow is its whole operating flow. |
| HerdProperties.NoReinvestmentNoPurchases | app.py:124-134 | With a reinvested share of 0, no female is ever bought and every year's net flow is its whole operating flow. |
| HerdProperties.NoServiceNoBirths | app.py:76-109 | With both pregnancy rates at 0, no calf is ever born and nothing is pending. |
| HerdFindings.EndingInventoryAsWritten | app.py:113 | The source's ending inventory: the clamped herd minus every head culled that year, including the clamp excess. |
| HerdFindings.AsWrittenRemovesExcessTwice | app.py:66-113 | From the same carried state, the source's ending inventory is exactly one clamp excess below the model's, and the two agree exactly when that year has no excess. After a year with an excess the carried states differ, so every later year differs too. |
| HerdFindings.AsWrittenGoesNegative | app.py:66-113 | For any valid configuration whose capacity is below 250, year 1 shows two failures in the source's formula: it gives a negative herd, and intake no longer equals kept plus culled. The model's herd stays non-negative and conserves head. |
| HerdFindings.CapacityTwoHundredGoesNegative | app.py:183-206 | A capacity of 200 entered through the dashboard on top of the defaults makes the source's year-1 ending herd negative. |

## Left out

- The Streamlit page is left out: layout, sidebar widgets, metrics, charts and the styled table. It is presentation only. The six values the dashboard writes into the configuration are modelled by `WithOverrides`.
- Building the `pandas.DataFrame` is left out. The report is a `seq<YearRecord>`.
- The display rounding is left out: `round(x, 2)` and the `int(...)` on reported head counts. Records keep exact values.
- The internal rate of return (`numpy_financial.irr`) is left out. It is a foreign floating-point root finder.
- IEEE-754 rounding is left out, because all quantities are exact reals. The stressed weanling price 2.6 × 0.85 is exactly 2.21 here.
- The default arguments of `simular_proyecto` are left out: `years=10` and `config=None`. Callers pass both explicitly. The default configuration is `NewConfig` with any name other than "Pesimista".
- `debug_secrets.py` is left out. It only prints secret and file-existence diagnostics.
- Degenerate parameters are excluded by `Valid`: a zero or negative purchase price (a divisor), negative prices, weights or costs, rates outside [0, 1], and a non-positive capacity.
- Engine.StepYear: the next-year inventory is the clamped herd minus open-cow and age culls. The source's own formula also subtracts the clamp excess (see Findings). `HerdFindings.EndingInventoryAsWritten` models that formula.
- Engine.AdvanceYear: like `StepYear`, one pass of the loop body computes the next-year inventory as the clamped herd minus open-cow and age culls, not the source's formula.
- Engine.SimularProyecto: the loop carries that corrected inventory from year to year, so its records match the source through the first year with an excess over capacity and differ from the next year on.

## Findings

| source | as written | input that shows it | evidently intended | confidence | as-written member | corrected member |
|---|---|---|---|---|---|---|
| app.py:113 | Next year's herd is the clamped herd minus all of the year's culls. The culls include the excess already removed by the clamp (app.py:68-70, 106), so the excess leaves the herd twice. | The defaults with capacity 200 (a value the dashboard accepts). In year 1, intake is 500, the excess is 300, the clamped herd is 200, pregnancies are 150 and age culls are 4.5, so culls total 304.5. The next herd as written is 200 − 304.5 = −104.5, and intake ≠ kept + culled. | The clamped herd minus open-cow and age culls: 195.5 in this example. Every head taken in is then either kept or culled, and the herd never goes negative. | high; not executed | HerdFindings.AsWrittenGoesNegative | HerdProperties.HerdNonNegative |
