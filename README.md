# E-commerce ROI calculator, modelled in Dafny

This project models the calculation core of an e-commerce ROI calculator. It also models the
state store that keeps the calculator's results in step with its inputs.

- `calculator_types.dfy` (module `CalculatorTypes`) holds the plain records the calculator
  reads and returns: site metrics, uplift parameters, calculated metrics and the ROI analysis.
  An optional property is an `Option`. JavaScript's `Infinity` is `Extended.Infinite`.
- `calculator.dfy` (module `Calculator`) holds the industry benchmark table and the scenario
  presets. It models the five functions of the library:
  - `calculateCurrentMetrics`: rounded transactions, revenue, revenue per visitor and the
    benchmark gap;
  - `calculateUplift`: relative conversion-rate and order-value growth, profit, percentage
    increase and the yearly cost of inaction;
  - `calculateMarginalImpact`: one lever moved on its own, measured against the rounded
    baseline;
  - `calculateROI`: three fixed horizons and a payback sentinel;
  - `validateMetrics`: every broken input rule, in a fixed order.

  `calculateMarginalImpact` and `validateMetrics` reassign local variables step by step, so
  they are methods, each proved equal to a specification function. The rest are functions.
- `calculator_store.dfy` (module `CalculatorStore`) models the store. `Store` is a class with
  the store's five fields, and each action is a method that updates them in place.
  - Each method is proved to produce exactly the state that a pure transition on `StoreState`
    describes.
  - Lemmas about those transitions state the store's invariant: the derived fields always
    equal `calculateUplift` and `calculateROI` applied to the inputs.
  - They also state what each action leaves alone, and that `recalculate` and `reset` are
    idempotent.
  - A partial update is modelled as JavaScript object spread, that is, as map union over the
    object's present keys.

Numbers are exact `real`s. `Math.round(x)` is `Floor(x + 1/2)`. Integers never wrap, because
the source only computes with JavaScript numbers.

Two facts about the code, established by the lemmas:

- The revenue increase is measured against the continuous baseline `CR/100 × sessions × AOV`,
  not against the rounded `currentMonthlyRevenue`.
- The main uplift path ignores `trafficIncrease`, `additionalTransactions` and `additionalAOV`.
  `trafficIncrease` reaches only the traffic marginal impact.

The calculator's test file expects two results the code does not produce:

- traffic compounding with the other levers, at 66200;
- absolute overrides applied, at 75000.

The model follows the code. `Calculator.UpliftAsWrittenExamples` proves what the code gives
for those inputs: 42000 and 0.

## Model

| member | source | states |
|---|---|---|
| Calculator.Round | src/lib/calculator.ts:21 | `Math.round` yields an integer within half a unit of its argument, a half rounded up |
| Calculator.LookupBenchmark | src/lib/calculator.ts:4-26 | the benchmark used is always one of the three table entries, with a positive CR and AOV |
| Calculator.UnknownIndustryIsRetail | src/lib/calculator.ts:26 | a known industry gets its own entry; a missing or unknown one gets retail's 2.8% / 80 |
| Calculator.RevenuePerVisitor | src/lib/calculator.ts:23 | defined exactly when sessions are non-zero, and then revenue per visitor × sessions = current revenue |
| Calculator.BenchmarkGap | src/lib/calculator.ts:28-30 | the gap is never negative; it is 0 exactly when revenue at benchmark ≤ current revenue, and otherwise their difference |
| Calculator.CalculateCurrentMetrics | src/lib/calculator.ts:20-52 | transactions are sessions × CR/100 rounded; revenue is transactions × AOV; revenue per visitor is present exactly when there are sessions, and times sessions gives revenue back; the benchmark CR is the industry's, or retail's for an unknown industry; revenue at benchmark is benchmark CR/100 × sessions × AOV; the gap is max(0, revenue at benchmark − revenue), so never negative; gapCRPts = benchmark CR − CR; every uplift figure is 0 and the uplift-only fields are absent |
| Calculator.GapWhenMeetingBenchmark | src/lib/calculator.ts:21-30 | a site whose CR meets its benchmark has a revenue gap of at most half an order's value, because revenue counts rounded transactions |
| Calculator.GapAtBenchmarkExample | src/lib/calculator.ts:21-30 | the retail CR met exactly on 10 sessions at 80 still leaves a gap of 22.4 |
| Calculator.BaselineExamples | src/lib/calculator.ts:21-23 | the reference site gives 2000 transactions, 200000 revenue and 2.0 per visitor; the extreme site 5e10; CR 0.01% on 100 sessions rounds to 0 transactions and 0 revenue |
| Calculator.CostOfInaction | src/lib/calculator.ts:105 | never negative; 0 exactly when the increase is not positive; otherwise 12 × the monthly increase |
| Calculator.TransactionUplift | src/lib/calculator.ts:76-84 | the uplift in transactions is the new rounded count minus `currentMonthlyTransactions`, although the code rounds crBase × sessions rather than sessions × CR/100 |
| Calculator.CalculateUplift | src/lib/calculator.ts:58-120 | the baseline fields are those of calculateCurrentMetrics; monthly revenue − increase = continuous baseline; profit = increase × margin/100; cost of inaction ≥ 0; transactionUplift, revenueIncreasePct and the three marginal impacts are the separately specified figures |
| Calculator.UpliftReportsNewFigures | src/lib/calculator.ts:91-105 | the reported new conversion rate is CR × (1 + g_cr), the new AOV is AOV × (1 + g_aov), the new transaction count is the rounded new conversion fraction × sessions, and the cost of inaction is the figure specified by CostOfInaction |
| Calculator.UpliftFormula | src/lib/calculator.ts:71-83 | projected revenue = continuous baseline × (1+g_cr)(1+g_aov), so the increase is the baseline times that multiplier minus 1 |
| Calculator.NewConversionRate | src/lib/calculator.ts:71-92 | the reported new conversion rate is CR × (1 + g_cr) |
| Calculator.UpliftIgnoresOtherLevers | src/lib/calculator.ts:65-119 | two parameter sets with the same relative levers give the same result apart from the traffic marginal impact, and the same result outright when trafficIncrease also agrees |
| Calculator.IncreasePctFormula | src/lib/calculator.ts:96 | on a positive continuous baseline the percentage is ((1+g_cr)(1+g_aov) − 1) × 100; otherwise it is exactly 0 |
| Calculator.ZeroGrowthIsNoUplift | src/lib/calculator.ts:65-105 | with zero CR and AOV growth, the increase, profit, cost of inaction, transaction uplift, percentage and both marginal impacts are 0 |
| Calculator.TransactionUpliftNonNegative | src/lib/calculator.ts:76-84 | non-negative CR growth on non-negative inputs never loses transactions |
| Calculator.IncreaseMonotoneInGrowth | src/lib/calculator.ts:71-83 | on a positive baseline, with a positive AOV factor, more CR growth gives a strictly larger increase |
| Calculator.WithPreset | src/components/PotentialImprovement.tsx:56-62 | choosing a preset sets the two relative levers to its percentages and keeps trafficIncrease, additionalTransactions and additionalAOV |
| Calculator.PresetsOrdered | src/lib/calculator.ts:10-14 | on a positive baseline, the conservative, likely and aggressive presets give strictly increasing positive increases |
| Calculator.UpliftExamples | project/src/__tests__/calculator.test.ts:42-66 | 10% CR growth on the reference site adds 20000; 20% AOV growth adds 40000 |
| Calculator.ProfitExamples | project/src/__tests__/calculator.test.ts:42-66 | at a 25% margin those increases keep 5000 and 10000 |
| Calculator.UpliftAsWrittenExamples | project/src/__tests__/calculator.test.ts:68-95 | for the combined-levers input the code gives 42000, not the 66200 the test expects; for the absolute-override input it gives 0, not 75000 |
| Calculator.Moved | src/lib/calculator.ts:134-145 | the moved lever is scaled by 1 + its growth/100 (an absent trafficIncrease leaves sessions as they are); the other two levers, margin, cost per click and industry never change |
| Calculator.CalculateMarginalImpact | src/lib/calculator.ts:126-151 | the if-chain over three local variables returns the isolated revenue, recounted with rounding, minus the rounded baseline revenue |
| Calculator.MarginalZeroGrowth | src/lib/calculator.ts:139-150 | a lever with zero growth has impact exactly 0, and so does traffic when trafficIncrease is absent |
| Calculator.MarginalAovIsProportional | src/lib/calculator.ts:142-150 | the AOV lever keeps the rounded transaction count, so its impact is the rounded baseline revenue × g_aov |
| Calculator.CurrentRevenueMonotone | src/lib/calculator.ts:21-22 | rounded revenue never falls when CR and sessions rise at a fixed non-negative AOV |
| Calculator.MarginalNonNegative | src/lib/calculator.ts:139-150 | non-negative CR growth, or a present non-negative traffic increase, never has a negative impact on non-negative inputs |
| Calculator.MarginalNotAdditive | src/lib/calculator.ts:126-151 | on the reference site with 10% CR and 10% AOV growth, each lever adds 20000 in isolation, while the combined increase is 42000 |
| Calculator.Payback | src/lib/calculator.ts:180-192 | Infinity exactly when the monthly profit is not positive; otherwise the months whose profit equals the investment |
| Calculator.ProjectROI | src/lib/calculator.ts:163-200 | exactly three projections, labelled '6 Months', '1 Year', '3 Years' with 6, 12, 36 months in order; the break-even point is the payback of the monthly profit (investment / profit, whose product with the profit is the investment), Infinity exactly when monthly profit ≤ 0, and every projection's payback equals it; lifetime value is the 36-month profit; every ratio is 0 when investment ≤ 0 |
| Calculator.RoiOfInputs | src/lib/calculator.ts:157-201 | for the site and uplift inputs: the break-even point is the payback of their monthly profit; each horizon's revenue growth is their monthly increase × months and its profit their monthly profit × months; with a positive investment each ratio is that profit / investment, and the ratios strictly rise across the horizons exactly when the monthly profit is positive |
| Calculator.ProjectionGrowth | src/lib/calculator.ts:171-179 | each horizon's revenue growth is the increase × months, its profit that growth × margin/100, which is the monthly profit × months, and its ratio that profit / investment |
| Calculator.RoiRatioIncreasing | src/lib/calculator.ts:171-179 | with a positive investment, the three ratios strictly increase exactly when the monthly profit is positive |
| Calculator.PaybackMeaning | src/lib/calculator.ts:176-192 | with a positive monthly profit, a horizon's profit covers the investment exactly when its months reach the break-even point |
| Calculator.RoiExample | project/src/__tests__/calculator.test.ts:98-115 | an increase of 20000 at 25% against 50000 pays back in 10 months, with ratios 0.6, 1.2 and 3.6 and a lifetime value of 180000 |
| Calculator.Violations | src/lib/calculator.ts:232-252 | at most one message per rule |
| Calculator.ValidateMetrics | src/lib/calculator.ts:232-252 | pushing the four messages in turn yields exactly the messages of the broken rules, in rule order |
| Calculator.ViolationsOfRules | src/lib/calculator.ts:235-249 | the result is the CR report, then the sessions, AOV and margin reports |
| Calculator.NoViolationsIffAllHold | src/lib/calculator.ts:232-252 | no message exactly when every rule in the list holds |
| Calculator.ValidIffNoErrors | src/lib/calculator.ts:235-249 | the result is empty exactly when 0 < CR ≤ 100, sessions > 0, AOV > 0 and 0 ≤ margin ≤ 100 |
| Calculator.MessageInjective | src/lib/calculator.ts:235-249 | distinct rules report distinct messages |
| Calculator.ReportedIffBroken | src/lib/calculator.ts:235-249 | a rule's message appears exactly when the rule is in the list and broken, whatever the other rules do |
| Calculator.ValidationExample | project/src/__tests__/calculator.test.ts:129-151 | CR −1, 0 sessions and AOV −10 give the first three messages in order; the reference site gives none; so does a CR of 0.005%, below the 0.01% the message names |
| CalculatorStore.MergeSiteIsSpread | src/store/calculatorStore.ts:49 | the merged site metrics, as an object, are the current object overridden by the keys present in the patch |
| CalculatorStore.MergeUpliftIsSpread | src/store/calculatorStore.ts:55 | the same for the uplift parameters |
| CalculatorStore.SiteObjectInjective | src/store/calculatorStore.ts:49 | the object determines the site-metrics record, so the spread fixes the merge uniquely |
| CalculatorStore.UpliftObjectInjective | src/store/calculatorStore.ts:55 | the same for uplift parameters |
| CalculatorStore.MergeSiteLaws | src/store/calculatorStore.ts:49 | an empty patch changes nothing; merging the same patch twice equals merging it once |
| CalculatorStore.MergeUpliftLaws | src/store/calculatorStore.ts:55 | the same for uplift patches |
| CalculatorStore.Recalculated | src/store/calculatorStore.ts:65-70 | recalculation leaves a current state and changes no input |
| CalculatorStore.RecalculateFixesExactlyCurrent | src/store/calculatorStore.ts:65-70 | a state is current exactly when recalculating it changes nothing, so recalculating twice equals recalculating once |
| CalculatorStore.ActionsKeepCurrent | src/store/calculatorStore.ts:41-79 | the initial state is current, and every action leaves the store current from any state |
| CalculatorStore.SiteUpdateFrame | src/store/calculatorStore.ts:48-52 | updateSiteMetrics spreads the patch over the site metrics and keeps the uplift parameters and the investment |
| CalculatorStore.UpliftUpdateFrame | src/store/calculatorStore.ts:54-58 | updateUpliftParams spreads the patch over the uplift parameters and keeps the site metrics and the investment |
| CalculatorStore.InvestmentUpdateFrame | src/store/calculatorStore.ts:60-63 | updateInvestment sets the investment, keeps both other inputs, and on a current state leaves the calculated metrics unchanged |
| CalculatorStore.EmptyUpdatesRecalculate | src/store/calculatorStore.ts:48-58 | an update with an empty patch is a plain recalculation |
| CalculatorStore.ResetRestoresInitial | src/store/calculatorStore.ts:24-79 | reset yields the initial state from any state: CR 2.0, 250000 sessions, AOV 95, margin 25, CPC 2.50, retail; uplift 5 / 2 / 0 / 0 / 0; investment 50000. Resetting twice equals resetting once |
| CalculatorStore.InitialFigures | src/store/calculatorStore.ts:41-46 | the store starts at 5000 transactions and 475000 revenue, with a projected increase of 33725 |
| CalculatorStore.Store.constructor | src/store/calculatorStore.ts:41-46 | the new store holds the initial inputs with results derived from them |
| CalculatorStore.Store.Recalculate | src/store/calculatorStore.ts:65-70 | the derived fields are recomputed from the inputs, and nothing else changes |
| CalculatorStore.Store.UpdateSiteMetrics | src/store/calculatorStore.ts:48-52 | the site metrics are merged with the patch, then recalculated |
| CalculatorStore.Store.UpdateUpliftParams | src/store/calculatorStore.ts:54-58 | the uplift parameters are merged with the patch, then recalculated |
| CalculatorStore.Store.UpdateInvestment | src/store/calculatorStore.ts:60-63 | the investment is set, then recalculated; the site metrics and uplift inputs are kept, and on a store that was current the calculated metrics do not change |
| CalculatorStore.Store.Reset | src/store/calculatorStore.ts:72-79 | the inputs are reset and recalculated, giving exactly the initial state |

## Left out

- Floating point: numbers are exact reals, so float drift, NaN and the overflow to Infinity are
  not modelled. The one NaN the core produces on its own, revenue per visitor at 0 sessions
  (0 / 0), is `None`.
- Calculator.GapWhenMeetingBenchmark: a site that meets its benchmark CR does not always
  have a zero gap, because current revenue counts rounded transactions. The lemma proves the
  true bound, half an order's value. `Calculator.BenchmarkGap` gives the exact "zero iff"
  statement in revenue terms.
- Calculator.TransactionUpliftNonNegative: assumes non-negative CR growth, CR and sessions.
  Without them, the sign of the uplift can flip.
- Calculator.MarginalNonNegative: assumes non-negative inputs, for the same reason.
- Calculator.CurrentRevenueMonotone: assumes non-negative inputs, for the same reason.
- Calculator.IncreaseMonotoneInGrowth: assumes a positive continuous baseline and a positive
  AOV factor. With either negative, more CR growth lowers the increase.
- Calculator.RoiRatioIncreasing: the ratios increase only when the monthly profit is
  positive. That needs both a positive increase and a positive margin, so the lemma is stated
  as an equivalence with a positive profit, for a positive investment.
- Industry lookup: `industry` is optional, because the calculator's tests build metrics without
  it. Object-prototype keys such as `constructor` are not modelled; those keys would resolve
  to something other than a benchmark in JavaScript.
- Calculator.Violations: the conversion-rate message says "between 0.01% and 100%", but the
  rule accepts any CR above 0. The model follows the code, and `ValidationExample` shows
  0.005% passing.
- Partial updates: a patch key is either absent or set to a value. A key present with the
  value `undefined` is not modelled. In JavaScript that would overwrite the field with
  `undefined`.
- The store library: `set` and `get` are plain field writes and reads. Subscribers,
  re-rendering and the state between an action's write and its recalculation are not modelled,
  because each action is a single method.
- `shareResults` is not modelled: it formats with `toLocaleString` and writes to the clipboard,
  which is I/O.
- `formatCurrency`, `formatPercentage` and `formatNumber` are not modelled: they wrap
  locale-dependent `Intl.NumberFormat` and float `toFixed`.
- The React components, the theming module and the app shell are not modelled: they are
  rendering and DOM side effects. The one input change a component makes through the store
  that the library does not already cover, choosing a scenario preset, is
  `Calculator.WithPreset`.
- The calculator's test expectations of 66200 (traffic compounding) and 75000 (absolute
  overrides) are not asserted, because the code does not implement either.
  `Calculator.UpliftAsWrittenExamples` states what the code gives instead.
