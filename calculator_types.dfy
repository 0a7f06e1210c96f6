/** The plain records the calculator consumes and produces (src/types/calculator.ts).
    JavaScript numbers are modelled as exact `real`s; an optional property is an `Option`. */
module CalculatorTypes {

  datatype Option<+T> = None | Some(value: T)

  /** A number that may be JavaScript's positive `Infinity`, the "never pays back" sentinel. */
  datatype Extended = Finite(value: real) | Infinite

  /** Raw site inputs. `industry` is optional here because callers (the tests among them)
      build metrics without it; a missing key falls back to the retail benchmark. */
  datatype SiteMetrics = SiteMetrics(
    conversionRate: real,     // percent
    monthlySessions: real,
    averageOrderValue: real,  // currency
    grossMargin: real,        // percent
    costPerClick: Option<real>,
    industry: Option<string>)

  /** Relative growth in percent, and the absolute fields the main formula ignores. */
  datatype UpliftParams = UpliftParams(
    conversionRateGrowth: real,
    aovIncrease: real,
    additionalTransactions: Option<real>,
    additionalAOV: Option<real>,
    trafficIncrease: Option<real>)

  datatype MarginalImpact = MarginalImpact(conversion: real, aov: real, traffic: real)

  datatype BenchmarkMetrics = BenchmarkMetrics(
    benchmarkCR: real,
    gapCRPts: real,
    gapRevenueMo: real,
    revAtBenchmarkMo: real)

  /** `revenuePerVisitor` is `None` where JavaScript would produce NaN (0 / 0 sessions);
      the five `Option` uplift fields are absent from a baseline-only result. */
  datatype CalculatedMetrics = CalculatedMetrics(
    currentMonthlyRevenue: real,
    currentMonthlyTransactions: int,
    revenuePerVisitor: Option<real>,
    potentialMonthlyRevenue: real,
    potentialRevenueIncrease: real,
    potentialProfit: real,
    newConversionRate: Option<real>,
    newAOV: Option<real>,
    newMonthlyTransactions: Option<int>,
    transactionUplift: Option<int>,
    revenueIncreasePct: Option<real>,
    marginalImpact: MarginalImpact,
    benchmarkMetrics: BenchmarkMetrics,
    costOfInactionYr: real)

  datatype ROIProjection = ROIProjection(
    period: string,
    months: nat,
    roiRatio: real,
    revenueGrowth: real,
    totalProfit: real,
    paybackMonths: Extended)

  datatype ROIAnalysis = ROIAnalysis(
    investment: real,
    projections: seq<ROIProjection>,
    breakEvenPoint: Extended,
    totalLifetimeValue: real)

  datatype Benchmark = Benchmark(crPct: real, aov: real)

  datatype ScenarioPreset = ScenarioPreset(crGrowthPct: real, aovIncreasePct: real)
}
