/** The calculation library (src/lib/calculator.ts): baseline metrics with a benchmark gap,
    relative uplift, per-lever marginal impact, fixed-horizon ROI projections and input
    validation. Every output is a closed-form function of the inputs; each figure the
    source binds to a `const` is a named function here, and the result records are
    assembled from those figures. */
module Calculator {
  import opened CalculatorTypes

  // ---------------------------------------------------------------------------
  // Static tables
  // ---------------------------------------------------------------------------

  /** Industry reference conversion rate (percent) and order value. */
  const Benchmarks: map<string, Benchmark> := map[
    "retail" := Benchmark(2.8, 80.0),
    "fashion" := Benchmark(2.2, 75.0),
    "luxury" := Benchmark(1.6, 350.0)]

  /** The industry whose benchmark is used for an unknown or missing key. */
  const DefaultIndustry: string := "retail"

  /** Named uplift scenarios: relative CR growth and AOV increase, in percent. */
  const ScenarioPresets: map<string, ScenarioPreset> := map[
    "conservative" := ScenarioPreset(5.0, 1.0),
    "likely" := ScenarioPreset(10.0, 3.0),
    "aggressive" := ScenarioPreset(20.0, 5.0)]

  // ---------------------------------------------------------------------------
  // Arithmetic helpers
  // ---------------------------------------------------------------------------

  /** JavaScript's Math.round: the nearest integer, a half rounded up. */
  function Round(x: real): (n: int)
    ensures x - 0.5 < n as real <= x + 0.5
  {
    (x + 0.5).Floor
  }

  function Max(a: real, b: real): (r: real)
    ensures r >= a && r >= b
    ensures r == a || r == b
  {
    if a >= b then a else b
  }

  lemma RoundMonotone(x: real, y: real)
    requires x <= y
    ensures Round(x) <= Round(y)
  {
  }

  lemma MulLeft(a: real, b: real, c: real)
    requires a <= b && c >= 0.0
    ensures a * c <= b * c
  {
  }

  lemma MulLeftStrict(a: real, b: real, c: real)
    requires c > 0.0
    ensures a < b <==> a * c < b * c
  {
  }

  lemma ScaleStrict(c: real, a: real, b: real)
    requires c > 0.0 && a < b
    ensures c * a < c * b
  {
  }

  lemma DivStrict(a: real, b: real, d: real)
    requires d > 0.0
    ensures a < b <==> a / d < b / d
    ensures a <= b <==> a / d <= b / d
  {
    assert a == (a / d) * d;
    assert b == (b / d) * d;
    MulLeftStrict(a / d, b / d, d);
  }

  lemma DivOfProduct(r: real, b: real, k: real)
    requires b != 0.0 && r == b * k
    ensures r / b == k
  {
  }

  lemma MulMono(a: real, b: real, c: real, d: real)
    requires 0.0 <= a <= b && 0.0 <= c <= d
    ensures a * c <= b * d
  {
    MulLeft(a, b, c);
    MulLeft(c, d, b);
  }

  lemma Regroup(c: real, s: real, v: real, g: real, a: real)
    ensures (c * g) * s * (v * a) == (c * s * v) * (g * a)
  {
  }

  // ---------------------------------------------------------------------------
  // Baseline: calculateCurrentMetrics
  // ---------------------------------------------------------------------------

  /** BENCHMARKS[industry] || BENCHMARKS.retail */
  function LookupBenchmark(industry: Option<string>): (b: Benchmark)
    ensures b in Benchmarks.Values
    ensures b.crPct > 0.0 && b.aov > 0.0
  {
    if industry.Some? && industry.value in Benchmarks then Benchmarks[industry.value]
    else Benchmarks[DefaultIndustry]
  }

  /** An unknown or missing industry is compared with the retail benchmark. */
  lemma UnknownIndustryIsRetail(industry: Option<string>)
    ensures industry.Some? && industry.value in Benchmarks ==>
      LookupBenchmark(industry) == Benchmarks[industry.value]
    ensures industry.None? || industry.value !in Benchmarks ==>
      LookupBenchmark(industry) == Benchmark(2.8, 80.0)
  {
  }

  /** currentMonthlyTransactions: sessions × CR / 100, rounded. */
  function CurrentTransactions(m: SiteMetrics): int
  {
    Round(m.monthlySessions * (m.conversionRate / 100.0))
  }

  /** currentMonthlyRevenue: the rounded transactions at the current order value. */
  function CurrentRevenue(m: SiteMetrics): real
  {
    CurrentTransactions(m) as real * m.averageOrderValue
  }

  /** revenuePerVisitor; `None` stands for the NaN of 0 / 0 when there are no sessions. */
  function RevenuePerVisitor(m: SiteMetrics): (rpv: Option<real>)
    ensures rpv.Some? <==> m.monthlySessions != 0.0
    ensures rpv.Some? ==> rpv.value * m.monthlySessions == CurrentRevenue(m)
  {
    if m.monthlySessions == 0.0 then None else Some(CurrentRevenue(m) / m.monthlySessions)
  }

  /** revAtBenchmarkMo: the benchmark conversion fraction at the site's traffic and AOV. */
  function RevenueAtBenchmark(m: SiteMetrics): real
  {
    LookupBenchmark(m.industry).crPct / 100.0 * m.monthlySessions * m.averageOrderValue
  }

  /** gapRevenueMo: the shortfall against the benchmark revenue, never negative. */
  function BenchmarkGap(m: SiteMetrics): (gap: real)
    ensures gap >= 0.0
    ensures gap == 0.0 <==> RevenueAtBenchmark(m) <= CurrentRevenue(m)
    ensures gap > 0.0 ==> gap == RevenueAtBenchmark(m) - CurrentRevenue(m)
  {
    Max(0.0, RevenueAtBenchmark(m) - CurrentRevenue(m))
  }

  /** Current-state figures and the benchmark gap; every uplift figure is zero and the
      uplift-only fields are absent. */
  function CalculateCurrentMetrics(m: SiteMetrics): (r: CalculatedMetrics)
    ensures r.currentMonthlyTransactions == CurrentTransactions(m)
    ensures r.currentMonthlyRevenue == CurrentRevenue(m)
    ensures r.currentMonthlyRevenue == r.currentMonthlyTransactions as real * m.averageOrderValue
    ensures r.revenuePerVisitor.Some? <==> m.monthlySessions != 0.0
    ensures r.revenuePerVisitor.Some? ==>
      r.revenuePerVisitor.value * m.monthlySessions == r.currentMonthlyRevenue
    ensures r.benchmarkMetrics.benchmarkCR == LookupBenchmark(m.industry).crPct
    ensures r.benchmarkMetrics.revAtBenchmarkMo
      == r.benchmarkMetrics.benchmarkCR / 100.0 * m.monthlySessions * m.averageOrderValue
    ensures r.benchmarkMetrics.gapRevenueMo
      == Max(0.0, r.benchmarkMetrics.revAtBenchmarkMo - r.currentMonthlyRevenue)
    ensures r.benchmarkMetrics.gapRevenueMo >= 0.0
    ensures r.benchmarkMetrics.gapCRPts == r.benchmarkMetrics.benchmarkCR - m.conversionRate
    ensures r.potentialMonthlyRevenue == 0.0 && r.potentialRevenueIncrease == 0.0
    ensures r.potentialProfit == 0.0 && r.costOfInactionYr == 0.0
    ensures r.marginalImpact == MarginalImpact(0.0, 0.0, 0.0)
    ensures r.newConversionRate.None? && r.newAOV.None? && r.newMonthlyTransactions.None?
    ensures r.transactionUplift.None? && r.revenueIncreasePct.None?
  {
    var benchmark := LookupBenchmark(m.industry);
    CalculatedMetrics(
      currentMonthlyRevenue := CurrentRevenue(m),
      currentMonthlyTransactions := CurrentTransactions(m),
      revenuePerVisitor := RevenuePerVisitor(m),
      potentialMonthlyRevenue := 0.0,
      potentialRevenueIncrease := 0.0,
      potentialProfit := 0.0,
      newConversionRate := None,
      newAOV := None,
      newMonthlyTransactions := None,
      transactionUplift := None,
      revenueIncreasePct := None,
      marginalImpact := MarginalImpact(0.0, 0.0, 0.0),
      benchmarkMetrics := BenchmarkMetrics(
        benchmarkCR := benchmark.crPct,
        gapCRPts := benchmark.crPct - m.conversionRate,
        gapRevenueMo := BenchmarkGap(m),
        revAtBenchmarkMo := RevenueAtBenchmark(m)),
      costOfInactionYr := 0.0)
  }

  /** A site whose conversion rate meets its benchmark can still show a gap, because the
      current revenue counts rounded transactions; that gap is at most half an order. */
  lemma GapWhenMeetingBenchmark(m: SiteMetrics)
    requires m.monthlySessions >= 0.0 && m.averageOrderValue >= 0.0
    requires m.conversionRate >= LookupBenchmark(m.industry).crPct
    ensures BenchmarkGap(m) <= m.averageOrderValue / 2.0
  {
    var bench := LookupBenchmark(m.industry).crPct;
    var cr, s, aov := m.conversionRate, m.monthlySessions, m.averageOrderValue;
    var x := s * (cr / 100.0);
    BenchmarkBelowCurrentRate(m);
    RoundedRevenueAbove(m);
    GapArith(RevenueAtBenchmark(m), CurrentRevenue(m), x, aov);
  }

  lemma BenchmarkBelowCurrentRate(m: SiteMetrics)
    requires m.monthlySessions >= 0.0 && m.averageOrderValue >= 0.0
    requires m.conversionRate >= LookupBenchmark(m.industry).crPct
    ensures RevenueAtBenchmark(m)
      <= (m.monthlySessions * (m.conversionRate / 100.0)) * m.averageOrderValue
  {
    BenchmarkRevenueBound(LookupBenchmark(m.industry).crPct, m.conversionRate,
      m.monthlySessions, m.averageOrderValue);
  }

  lemma RoundedRevenueAbove(m: SiteMetrics)
    requires m.averageOrderValue >= 0.0
    ensures CurrentRevenue(m)
      >= (m.monthlySessions * (m.conversionRate / 100.0) - 0.5) * m.averageOrderValue
  {
    var x := m.monthlySessions * (m.conversionRate / 100.0);
    RevenueFromFields(m, m.conversionRate, m.monthlySessions, m.averageOrderValue, Round(x));
    MulLeft(x - 0.5, Round(x) as real, m.averageOrderValue);
  }

  /** Revenue at most `x` orders, against revenue at least `x - 0.5` orders. */
  lemma GapArith(target: real, actual: real, x: real, aov: real)
    requires target <= x * aov && actual >= (x - 0.5) * aov
    ensures target - actual <= aov / 2.0
  {
    assert x * aov - (x - 0.5) * aov == aov / 2.0;
  }

  lemma BenchmarkRevenueBound(bench: real, cr: real, s: real, aov: real)
    requires bench <= cr && s >= 0.0 && aov >= 0.0
    ensures bench / 100.0 * s * aov <= (s * (cr / 100.0)) * aov
  {
    MulLeft(bench / 100.0, cr / 100.0, s);
    assert bench / 100.0 * s <= s * (cr / 100.0);
    MulLeft(bench / 100.0 * s, s * (cr / 100.0), aov);
  }

  /** The retail benchmark met exactly on 10 sessions: 0.28 rounds to no transaction. */
  lemma GapAtBenchmarkExample()
    ensures BenchmarkGap(SiteMetrics(2.8, 10.0, 80.0, 25.0, None, Some("retail"))) == 22.4
  {
  }

  /** The calculator's reference inputs: 2% of 100000 sessions at 100 per order. */
  const TestSite: SiteMetrics := SiteMetrics(2.0, 100000.0, 100.0, 25.0, None, None)

  lemma BaselineExamples()
    ensures CurrentTransactions(TestSite) == 2000 && CurrentRevenue(TestSite) == 200000.0
    ensures RevenuePerVisitor(TestSite) == Some(2.0)
    ensures CurrentRevenue(SiteMetrics(50.0, 10000000.0, 10000.0, 90.0, None, None)) == 50000000000.0
    ensures var small := SiteMetrics(0.01, 100.0, 1.0, 1.0, None, None);
      CurrentTransactions(small) == 0 && CurrentRevenue(small) == 0.0
  {
  }

  // ---------------------------------------------------------------------------
  // Uplift: calculateUplift
  // ---------------------------------------------------------------------------

  /** crBase: the conversion rate as a fraction. */
  function ConversionFraction(m: SiteMetrics): real
  {
    m.conversionRate / 100.0
  }

  /** crNew: the conversion fraction after the relative CR growth. */
  function NewConversionFraction(m: SiteMetrics, u: UpliftParams): real
  {
    ConversionFraction(m) * (1.0 + u.conversionRateGrowth / 100.0)
  }

  /** aovNew: the order value after the relative AOV increase. */
  function NewOrderValue(m: SiteMetrics, u: UpliftParams): real
  {
    m.averageOrderValue * (1.0 + u.aovIncrease / 100.0)
  }

  /** revCurrentMo: monthly revenue from the unrounded conversion fraction. */
  function ContinuousBaseline(m: SiteMetrics): real
  {
    ConversionFraction(m) * m.monthlySessions * m.averageOrderValue
  }

  /** revNewMo, the potentialMonthlyRevenue. */
  function ProjectedRevenue(m: SiteMetrics, u: UpliftParams): real
  {
    NewConversionFraction(m, u) * m.monthlySessions * NewOrderValue(m, u)
  }

  /** revUpliftMo, the potentialRevenueIncrease: measured against the continuous baseline,
      not against the rounded currentMonthlyRevenue. */
  function RevenueIncrease(m: SiteMetrics, u: UpliftParams): real
  {
    ProjectedRevenue(m, u) - ContinuousBaseline(m)
  }

  /** potentialProfit: the increase at the gross margin. */
  function Profit(m: SiteMetrics, u: UpliftParams): real
  {
    RevenueIncrease(m, u) * (m.grossMargin / 100.0)
  }

  /** Unfolding step: `Profit` in terms of the increase, for proofs that need it spelt out. */
  lemma ProfitAtGrossMargin(m: SiteMetrics, u: UpliftParams)
    ensures Profit(m, u) == RevenueIncrease(m, u) * (m.grossMargin / 100.0)
  {
  }

  /** costOfInactionYr: a year of the increase, and nothing for a loss. */
  function CostOfInaction(m: SiteMetrics, u: UpliftParams): (c: real)
    ensures c >= 0.0
    ensures c == 0.0 <==> RevenueIncrease(m, u) <= 0.0
    ensures c > 0.0 ==> c == 12.0 * RevenueIncrease(m, u)
  {
    Max(0.0, RevenueIncrease(m, u)) * 12.0
  }

  /** txNewMo: rounded transactions at the new conversion fraction. */
  function NewTransactions(m: SiteMetrics, u: UpliftParams): int
  {
    Round(NewConversionFraction(m, u) * m.monthlySessions)
  }

  /** txUpliftMo; its baseline count (crBase × sessions, rounded) is the same integer as
      currentMonthlyTransactions (sessions × CR / 100, rounded). */
  function TransactionUplift(m: SiteMetrics, u: UpliftParams): (t: int)
    ensures t == NewTransactions(m, u) - CurrentTransactions(m)
  {
    assert ConversionFraction(m) * m.monthlySessions == m.monthlySessions * (m.conversionRate / 100.0);
    NewTransactions(m, u) - Round(ConversionFraction(m) * m.monthlySessions)
  }

  /** revenueIncreasePct, 0 unless the continuous baseline is positive. */
  function IncreasePct(m: SiteMetrics, u: UpliftParams): real
  {
    var revCurrentMo := ContinuousBaseline(m);
    if revCurrentMo > 0.0 then (RevenueIncrease(m, u) / revCurrentMo) * 100.0 else 0.0
  }

  /** The baseline figures of calculateCurrentMetrics, overlaid with the relative uplift and
      the marginal impact of each lever. */
  function CalculateUplift(m: SiteMetrics, u: UpliftParams): (r: CalculatedMetrics)
    ensures var cur := CalculateCurrentMetrics(m);
      && r.currentMonthlyRevenue == cur.currentMonthlyRevenue
      && r.currentMonthlyTransactions == cur.currentMonthlyTransactions
      && r.revenuePerVisitor == cur.revenuePerVisitor
      && r.benchmarkMetrics == cur.benchmarkMetrics
    ensures r.potentialRevenueIncrease == RevenueIncrease(m, u)
    ensures r.potentialMonthlyRevenue - r.potentialRevenueIncrease == ContinuousBaseline(m)
    ensures r.potentialProfit == r.potentialRevenueIncrease * (m.grossMargin / 100.0)
    ensures r.costOfInactionYr >= 0.0
    ensures r.transactionUplift == Some(NewTransactions(m, u) - r.currentMonthlyTransactions)
    ensures r.revenueIncreasePct == Some(IncreasePct(m, u))
    ensures r.marginalImpact == MarginalImpact(
      MarginalImpactOf(Conversion, m, u), MarginalImpactOf(Aov, m, u), MarginalImpactOf(Traffic, m, u))
  {
    var current := CalculateCurrentMetrics(m);
    ProfitAtGrossMargin(m, u);
    current.(
      potentialMonthlyRevenue := ProjectedRevenue(m, u),
      potentialRevenueIncrease := RevenueIncrease(m, u),
      potentialProfit := Profit(m, u),
      costOfInactionYr := CostOfInaction(m, u),
      newConversionRate := Some(NewConversionFraction(m, u) * 100.0),
      newAOV := Some(NewOrderValue(m, u)),
      newMonthlyTransactions := Some(NewTransactions(m, u)),
      transactionUplift := Some(TransactionUplift(m, u)),
      revenueIncreasePct := Some(IncreasePct(m, u)),
      marginalImpact := MarginalImpact(
        MarginalImpactOf(Conversion, m, u),
        MarginalImpactOf(Aov, m, u),
        MarginalImpactOf(Traffic, m, u)))
  }

  /** The combined revenue multiplier of the two relative levers. */
  function Multiplier(u: UpliftParams): real
  {
    (1.0 + u.conversionRateGrowth / 100.0) * (1.0 + u.aovIncrease / 100.0)
  }

  lemma MultiplierOf(u: UpliftParams, growth: real, increase: real)
    requires u.conversionRateGrowth == growth && u.aovIncrease == increase
    ensures Multiplier(u) == (1.0 + growth / 100.0) * (1.0 + increase / 100.0)
  {
  }

  /** More CR growth at the same positive AOV factor is a larger multiplier. */
  lemma MultiplierMonotone(u: UpliftParams, v: UpliftParams)
    requires u.aovIncrease == v.aovIncrease && 1.0 + u.aovIncrease / 100.0 > 0.0
    requires u.conversionRateGrowth < v.conversionRateGrowth
    ensures Multiplier(u) < Multiplier(v)
  {
    MultiplierOf(u, u.conversionRateGrowth, u.aovIncrease);
    MultiplierOf(v, v.conversionRateGrowth, u.aovIncrease);
    var c := 1.0 + u.aovIncrease / 100.0;
    GrowthScales(u.conversionRateGrowth, v.conversionRateGrowth, c, Multiplier(u), Multiplier(v));
  }

  lemma GrowthScales(g: real, h: real, c: real, mg: real, mh: real)
    requires g < h && c > 0.0
    requires mg == (1.0 + g / 100.0) * c && mh == (1.0 + h / 100.0) * c
    ensures mg < mh
  {
    MulLeftStrict(1.0 + g / 100.0, 1.0 + h / 100.0, c);
  }

  /** The increase is the continuous baseline times the combined multiplier minus one. */
  lemma UpliftFormula(m: SiteMetrics, u: UpliftParams)
    ensures ProjectedRevenue(m, u) == ContinuousBaseline(m) * Multiplier(u)
    ensures RevenueIncrease(m, u) == ContinuousBaseline(m) * (Multiplier(u) - 1.0)
  {
    Regroup(ConversionFraction(m), m.monthlySessions, m.averageOrderValue,
            1.0 + u.conversionRateGrowth / 100.0, 1.0 + u.aovIncrease / 100.0);
  }

  /** The new conversion rate is the relative growth applied to the input rate. */
  lemma NewConversionRate(m: SiteMetrics, u: UpliftParams)
    ensures NewConversionFraction(m, u) * 100.0 == m.conversionRate * (1.0 + u.conversionRateGrowth / 100.0)
  {
  }

  /** The figures reported for the interface: the grown conversion rate and order value,
      the new rounded transaction count and a year of the positive increase. */
  lemma UpliftReportsNewFigures(m: SiteMetrics, u: UpliftParams)
    ensures var r := CalculateUplift(m, u);
      && r.newConversionRate == Some(m.conversionRate * (1.0 + u.conversionRateGrowth / 100.0))
      && r.newAOV == Some(m.averageOrderValue * (1.0 + u.aovIncrease / 100.0))
      && r.newMonthlyTransactions == Some(NewTransactions(m, u))
      && r.costOfInactionYr == CostOfInaction(m, u)
  {
    NewConversionRate(m, u);
    GrownOrderValue(m, u);
  }

  /** Unfolding step: the grown order value as a product, for proofs that need it spelt out. */
  lemma GrownOrderValue(m: SiteMetrics, u: UpliftParams)
    ensures NewOrderValue(m, u) == m.averageOrderValue * (1.0 + u.aovIncrease / 100.0)
  {
  }

  /** The main uplift path reads only the two relative levers: the absolute fields change
      nothing, and trafficIncrease reaches only the traffic marginal impact. */
  lemma UpliftIgnoresOtherLevers(m: SiteMetrics, u: UpliftParams, v: UpliftParams)
    requires u.conversionRateGrowth == v.conversionRateGrowth && u.aovIncrease == v.aovIncrease
    ensures var ru, rv := CalculateUplift(m, u), CalculateUplift(m, v);
      && ru.(marginalImpact := rv.marginalImpact) == rv
      && ru.marginalImpact.conversion == rv.marginalImpact.conversion
      && ru.marginalImpact.aov == rv.marginalImpact.aov
    ensures u.trafficIncrease == v.trafficIncrease ==> CalculateUplift(m, u) == CalculateUplift(m, v)
  {
    assert NewConversionFraction(m, u) == NewConversionFraction(m, v);
    assert NewOrderValue(m, u) == NewOrderValue(m, v);
    assert RevenueIncrease(m, u) == RevenueIncrease(m, v);
    assert Profit(m, u) == Profit(m, v) && CostOfInaction(m, u) == CostOfInaction(m, v);
    assert NewTransactions(m, u) == NewTransactions(m, v);
    assert TransactionUplift(m, u) == TransactionUplift(m, v);
    assert IncreasePct(m, u) == IncreasePct(m, v);
    assert Moved(Conversion, m, u) == Moved(Conversion, m, v);
    assert Moved(Aov, m, u) == Moved(Aov, m, v);
    if u.trafficIncrease == v.trafficIncrease {
      assert Moved(Traffic, m, u) == Moved(Traffic, m, v);
      assert MarginalImpactOf(Traffic, m, u) == MarginalImpactOf(Traffic, m, v);
    }
  }

  /** The percentage increase is the multiplier's growth, whatever the traffic and AOV;
      with no positive continuous baseline it is exactly 0. */
  lemma IncreasePctFormula(m: SiteMetrics, u: UpliftParams)
    ensures ContinuousBaseline(m) > 0.0 ==> IncreasePct(m, u) == (Multiplier(u) - 1.0) * 100.0
    ensures ContinuousBaseline(m) <= 0.0 ==> IncreasePct(m, u) == 0.0
  {
    var b := ContinuousBaseline(m);
    if b > 0.0 {
      UpliftFormula(m, u);
      DivOfProduct(RevenueIncrease(m, u), b, Multiplier(u) - 1.0);
    }
  }

  /** With no relative growth nothing improves: no increase, profit, cost of inaction,
      transaction uplift or percentage. */
  lemma ZeroGrowthIsNoUplift(m: SiteMetrics, u: UpliftParams)
    requires u.conversionRateGrowth == 0.0 && u.aovIncrease == 0.0
    ensures RevenueIncrease(m, u) == 0.0 && Profit(m, u) == 0.0 && CostOfInaction(m, u) == 0.0
    ensures TransactionUplift(m, u) == 0 && IncreasePct(m, u) == 0.0
    ensures MarginalImpactOf(Conversion, m, u) == 0.0 && MarginalImpactOf(Aov, m, u) == 0.0
  {
    assert Multiplier(u) == 1.0;
    UpliftFormula(m, u);
    IncreasePctFormula(m, u);
    MarginalZeroGrowth(m, u);
    assert NewConversionFraction(m, u) == ConversionFraction(m);
  }

  /** Non-negative CR growth on non-negative traffic never loses transactions. */
  lemma TransactionUpliftNonNegative(m: SiteMetrics, u: UpliftParams)
    requires u.conversionRateGrowth >= 0.0
    requires m.conversionRate >= 0.0 && m.monthlySessions >= 0.0
    ensures TransactionUplift(m, u) >= 0
  {
    var crBase := ConversionFraction(m);
    var crNew := NewConversionFraction(m, u);
    MulLeft(crBase, crNew, m.monthlySessions);
    RoundMonotone(crBase * m.monthlySessions, crNew * m.monthlySessions);
  }

  /** On a positive baseline, with a positive AOV factor, more CR growth always means a
      strictly larger increase. */
  lemma IncreaseMonotoneInGrowth(m: SiteMetrics, u: UpliftParams, v: UpliftParams)
    requires ContinuousBaseline(m) > 0.0
    requires u.aovIncrease == v.aovIncrease && 1.0 + u.aovIncrease / 100.0 > 0.0
    requires u.conversionRateGrowth < v.conversionRateGrowth
    ensures RevenueIncrease(m, u) < RevenueIncrease(m, v)
  {
    UpliftFormula(m, u);
    UpliftFormula(m, v);
    MultiplierMonotone(u, v);
    var b := ContinuousBaseline(m);
    ScaleStrict(b, Multiplier(u) - 1.0, Multiplier(v) - 1.0);
  }

  /** Choosing a preset: its two percentages become the relative levers. */
  function WithPreset(u: UpliftParams, p: ScenarioPreset): (v: UpliftParams)
    ensures v.conversionRateGrowth == p.crGrowthPct && v.aovIncrease == p.aovIncreasePct
    ensures v.trafficIncrease == u.trafficIncrease
    ensures v.additionalTransactions == u.additionalTransactions
    ensures v.additionalAOV == u.additionalAOV
  {
    u.(conversionRateGrowth := p.crGrowthPct, aovIncrease := p.aovIncreasePct)
  }

  /** On a positive baseline the presets are strictly ordered by the increase they project. */
  lemma PresetsOrdered(m: SiteMetrics, u: UpliftParams)
    requires ContinuousBaseline(m) > 0.0
    ensures var conservative := RevenueIncrease(m, WithPreset(u, ScenarioPresets["conservative"]));
      var likely := RevenueIncrease(m, WithPreset(u, ScenarioPresets["likely"]));
      var aggressive := RevenueIncrease(m, WithPreset(u, ScenarioPresets["aggressive"]));
      0.0 < conservative < likely < aggressive
  {
    var b := ContinuousBaseline(m);
    var c := WithPreset(u, ScenarioPresets["conservative"]);
    var l := WithPreset(u, ScenarioPresets["likely"]);
    var g := WithPreset(u, ScenarioPresets["aggressive"]);
    IncreaseAt(m, c, b, 1.0605, m.grossMargin);
    IncreaseAt(m, l, b, 1.133, m.grossMargin);
    IncreaseAt(m, g, b, 1.26, m.grossMargin);
    ScaleStrict(b, 0.0, 0.0605);
    ScaleStrict(b, 0.0605, 0.133);
    ScaleStrict(b, 0.133, 0.26);
  }

  /** The increase on a known baseline and multiplier, with its profit. */
  lemma IncreaseAt(m: SiteMetrics, u: UpliftParams, baseline: real, multiplier: real, margin: real)
    requires ContinuousBaseline(m) == baseline && Multiplier(u) == multiplier && m.grossMargin == margin
    ensures RevenueIncrease(m, u) == baseline * (multiplier - 1.0)
    ensures Profit(m, u) == baseline * (multiplier - 1.0) * (margin / 100.0)
  {
    UpliftFormula(m, u);
  }

  lemma UpliftExamples()
    ensures RevenueIncrease(TestSite, UpliftParams(10.0, 0.0, None, None, None)) == 20000.0
    ensures RevenueIncrease(TestSite, UpliftParams(0.0, 20.0, None, None, None)) == 40000.0
  {
    assert ContinuousBaseline(TestSite) == 200000.0;
    IncreaseAt(TestSite, UpliftParams(10.0, 0.0, None, None, None), 200000.0, 1.1, 25.0);
    IncreaseAt(TestSite, UpliftParams(0.0, 20.0, None, None, None), 200000.0, 1.2, 25.0);
  }

  /** At a 25% margin the reference increases of 20000 and 40000 keep 5000 and 10000. */
  lemma ProfitExamples()
    ensures Profit(TestSite, UpliftParams(10.0, 0.0, None, None, None)) == 5000.0
    ensures Profit(TestSite, UpliftParams(0.0, 20.0, None, None, None)) == 10000.0
  {
    assert ContinuousBaseline(TestSite) == 200000.0;
    IncreaseAt(TestSite, UpliftParams(10.0, 0.0, None, None, None), 200000.0, 1.1, 25.0);
    IncreaseAt(TestSite, UpliftParams(0.0, 20.0, None, None, None), 200000.0, 1.2, 25.0);
  }

  /** What the code gives where the calculator's test file expects traffic to compound
      (66200) or absolute overrides to apply (75000): 42000 and 0. */
  lemma UpliftAsWrittenExamples()
    ensures RevenueIncrease(TestSite, UpliftParams(10.0, 10.0, None, None, Some(10.0))) == 42000.0
    ensures RevenueIncrease(TestSite, UpliftParams(0.0, 0.0, Some(500.0), Some(10.0), None)) == 0.0
  {
    assert ContinuousBaseline(TestSite) == 200000.0;
    IncreaseAt(TestSite, UpliftParams(10.0, 10.0, None, None, Some(10.0)), 200000.0, 1.21, 25.0);
    IncreaseAt(TestSite, UpliftParams(0.0, 0.0, Some(500.0), Some(10.0), None), 200000.0, 1.0, 25.0);
  }

  // ---------------------------------------------------------------------------
  // Marginal impact: calculateMarginalImpact
  // ---------------------------------------------------------------------------

  datatype Lever = Conversion | Aov | Traffic

  /** The inputs with only `lever` moved by its growth; an absent trafficIncrease counts
      as 0. */
  function Moved(lever: Lever, m: SiteMetrics, u: UpliftParams): (n: SiteMetrics)
    ensures n.grossMargin == m.grossMargin && n.industry == m.industry
    ensures lever != Conversion ==> n.conversionRate == m.conversionRate
    ensures lever != Aov ==> n.averageOrderValue == m.averageOrderValue
    ensures lever != Traffic ==> n.monthlySessions == m.monthlySessions
    ensures n.costPerClick == m.costPerClick
    ensures lever == Conversion ==>
      n.conversionRate == m.conversionRate * (1.0 + u.conversionRateGrowth / 100.0)
    ensures lever == Aov ==>
      n.averageOrderValue == m.averageOrderValue * (1.0 + u.aovIncrease / 100.0)
    ensures lever == Traffic && u.trafficIncrease.Some? ==>
      n.monthlySessions == m.monthlySessions * (1.0 + u.trafficIncrease.value / 100.0)
    ensures lever == Traffic && u.trafficIncrease.None? ==> n.monthlySessions == m.monthlySessions
  {
    match lever
    case Conversion =>
      m.(conversionRate := m.conversionRate * (1.0 + u.conversionRateGrowth / 100.0))
    case Aov =>
      m.(averageOrderValue := m.averageOrderValue * (1.0 + u.aovIncrease / 100.0))
    case Traffic =>
      var t := if u.trafficIncrease.Some? then u.trafficIncrease.value else 0.0;
      m.(monthlySessions := m.monthlySessions * (1.0 + t / 100.0))
  }

  /** The change against the rounded baseline revenue when only `lever` moves. */
  function MarginalImpactOf(lever: Lever, m: SiteMetrics, u: UpliftParams): real
  {
    CurrentRevenue(Moved(lever, m, u)) - CurrentRevenue(m)
  }

  lemma RevenueFromFields(n: SiteMetrics, cr: real, sessions: real, orderValue: real, transactions: int)
    requires n.conversionRate == cr && n.monthlySessions == sessions && n.averageOrderValue == orderValue
    requires transactions == Round(sessions * (cr / 100.0))
    ensures CurrentTransactions(n) == transactions
    ensures CurrentRevenue(n) == transactions as real * orderValue
  {
    assert CurrentTransactions(n) == transactions;
  }

  lemma MarginalImpactOfMoved(lever: Lever, m: SiteMetrics, u: UpliftParams, n: SiteMetrics)
    requires n == m.(conversionRate := n.conversionRate, averageOrderValue := n.averageOrderValue,
                     monthlySessions := n.monthlySessions)
    requires lever != Conversion ==> n.conversionRate == m.conversionRate
    requires lever != Aov ==> n.averageOrderValue == m.averageOrderValue
    requires lever != Traffic ==> n.monthlySessions == m.monthlySessions
    requires lever == Conversion ==> n.conversionRate == m.conversionRate * (1.0 + u.conversionRateGrowth / 100.0)
    requires lever == Aov ==> n.averageOrderValue == m.averageOrderValue * (1.0 + u.aovIncrease / 100.0)
    requires lever == Traffic ==> (n.monthlySessions ==
      m.monthlySessions * (1.0 + (if u.trafficIncrease.Some? then u.trafficIncrease.value else 0.0) / 100.0))
    ensures MarginalImpactOf(lever, m, u) == CurrentRevenue(n) - CurrentRevenue(m)
  {
    assert Moved(lever, m, u) == n;
  }

  /** calculateMarginalImpact: start from the inputs, move the one lever, recount. */
  method CalculateMarginalImpact(lever: Lever, baseMetrics: SiteMetrics, uplift: UpliftParams)
    returns (impact: real)
    ensures impact == MarginalImpactOf(lever, baseMetrics, uplift)
  {
    var baseline := CalculateCurrentMetrics(baseMetrics).currentMonthlyRevenue;
    var newConversionRate := baseMetrics.conversionRate;
    var newAOV := baseMetrics.averageOrderValue;
    var newSessions := baseMetrics.monthlySessions;
    if lever == Conversion {
      newConversionRate := baseMetrics.conversionRate * (1.0 + uplift.conversionRateGrowth / 100.0);
    } else if lever == Aov {
      newAOV := baseMetrics.averageOrderValue * (1.0 + uplift.aovIncrease / 100.0);
    } else if lever == Traffic {
      var t := if uplift.trafficIncrease.Some? then uplift.trafficIncrease.value else 0.0;
      newSessions := baseMetrics.monthlySessions * (1.0 + t / 100.0);
    }
    var isolatedTransactions := Round(newSessions * (newConversionRate / 100.0));
    var isolatedRevenue := isolatedTransactions as real * newAOV;
    ghost var moved := baseMetrics.(conversionRate := newConversionRate, averageOrderValue := newAOV,
                                    monthlySessions := newSessions);
    MarginalImpactOfMoved(lever, baseMetrics, uplift, moved);
    RevenueFromFields(moved, newConversionRate, newSessions, newAOV, isolatedTransactions);
    assert baseline == CurrentRevenue(baseMetrics);
    impact := isolatedRevenue - baseline;
  }

  /** A lever that does not move has no impact; traffic with no trafficIncrease is one. */
  lemma MarginalZeroGrowth(m: SiteMetrics, u: UpliftParams)
    ensures u.conversionRateGrowth == 0.0 ==> MarginalImpactOf(Conversion, m, u) == 0.0
    ensures u.aovIncrease == 0.0 ==> MarginalImpactOf(Aov, m, u) == 0.0
    ensures u.trafficIncrease.None? || u.trafficIncrease.value == 0.0 ==>
      MarginalImpactOf(Traffic, m, u) == 0.0
  {
    if u.conversionRateGrowth == 0.0 {
      assert m.conversionRate * (1.0 + u.conversionRateGrowth / 100.0) == m.conversionRate;
      assert Moved(Conversion, m, u) == m;
    }
    if u.aovIncrease == 0.0 {
      assert m.averageOrderValue * (1.0 + u.aovIncrease / 100.0) == m.averageOrderValue;
      assert Moved(Aov, m, u) == m;
    }
    var t := if u.trafficIncrease.Some? then u.trafficIncrease.value else 0.0;
    if t == 0.0 {
      assert m.monthlySessions * (1.0 + t / 100.0) == m.monthlySessions;
      assert Moved(Traffic, m, u) == m;
    }
  }

  /** The AOV lever keeps the rounded transaction count, so its impact is exactly the
      rounded baseline revenue times the AOV growth. */
  lemma MarginalAovIsProportional(m: SiteMetrics, u: UpliftParams)
    ensures MarginalImpactOf(Aov, m, u) == CurrentRevenue(m) * (u.aovIncrease / 100.0)
  {
    var n := Moved(Aov, m, u);
    assert CurrentTransactions(n) == CurrentTransactions(m);
    var t := CurrentTransactions(m) as real;
    var aov := m.averageOrderValue;
    var a := u.aovIncrease / 100.0;
    assert CurrentRevenue(n) == t * (aov * (1.0 + a));
    assert t * (aov * (1.0 + a)) - t * aov == (t * aov) * a;
  }

  /** Revenue from rounded transactions never falls when the conversion rate and the
      traffic rise at a fixed non-negative order value. */
  lemma CurrentRevenueMonotone(m: SiteMetrics, n: SiteMetrics)
    requires 0.0 <= m.conversionRate <= n.conversionRate
    requires 0.0 <= m.monthlySessions <= n.monthlySessions
    requires m.averageOrderValue == n.averageOrderValue >= 0.0
    ensures CurrentRevenue(m) <= CurrentRevenue(n)
  {
    var x := m.monthlySessions * (m.conversionRate / 100.0);
    var y := n.monthlySessions * (n.conversionRate / 100.0);
    MulMono(m.monthlySessions, n.monthlySessions, m.conversionRate / 100.0, n.conversionRate / 100.0);
    RoundMonotone(x, y);
    assert CurrentTransactions(m) == Round(x) && CurrentTransactions(n) == Round(y);
    assert CurrentTransactions(m) as real <= CurrentTransactions(n) as real;
    MulLeft(CurrentTransactions(m) as real, CurrentTransactions(n) as real, m.averageOrderValue);
  }

  /** Non-negative conversion or traffic growth never has a negative impact when the
      inputs are non-negative. */
  lemma MarginalNonNegative(m: SiteMetrics, u: UpliftParams)
    requires m.conversionRate >= 0.0 && m.monthlySessions >= 0.0 && m.averageOrderValue >= 0.0
    ensures u.conversionRateGrowth >= 0.0 ==> MarginalImpactOf(Conversion, m, u) >= 0.0
    ensures u.trafficIncrease.Some? && u.trafficIncrease.value >= 0.0 ==>
      MarginalImpactOf(Traffic, m, u) >= 0.0
  {
    if u.conversionRateGrowth >= 0.0 {
      MulLeft(1.0, 1.0 + u.conversionRateGrowth / 100.0, m.conversionRate);
      assert m.conversionRate <= Moved(Conversion, m, u).conversionRate;
      CurrentRevenueMonotone(m, Moved(Conversion, m, u));
    }
    if u.trafficIncrease.Some? && u.trafficIncrease.value >= 0.0 {
      MulLeft(1.0, 1.0 + u.trafficIncrease.value / 100.0, m.monthlySessions);
      assert m.monthlySessions <= Moved(Traffic, m, u).monthlySessions;
      CurrentRevenueMonotone(m, Moved(Traffic, m, u));
    }
  }

  /** Isolated levers do not add up to the combined increase: 10% on CR and on AOV each
      add 20000, together 42000. */
  lemma MarginalNotAdditive()
    ensures var u := UpliftParams(10.0, 10.0, None, None, None);
      && MarginalImpactOf(Conversion, TestSite, u) == 20000.0
      && MarginalImpactOf(Aov, TestSite, u) == 20000.0
      && RevenueIncrease(TestSite, u) == 42000.0
  {
    var u := UpliftParams(10.0, 10.0, None, None, None);
    assert ContinuousBaseline(TestSite) == 200000.0;
    IncreaseAt(TestSite, u, 200000.0, 1.21, 25.0);
    RevenueFromFields(TestSite, 2.0, 100000.0, 100.0, 2000);
    RevenueFromFields(Moved(Conversion, TestSite, u), 2.2, 100000.0, 100.0, 2200);
    MarginalAovIsProportional(TestSite, u);
  }

  // ---------------------------------------------------------------------------
  // ROI: calculateROI
  // ---------------------------------------------------------------------------

  datatype Period = Period(name: string, months: nat)

  /** The three fixed horizons, in order. */
  const Periods: seq<Period> := [Period("6 Months", 6), Period("1 Year", 12), Period("3 Years", 36)]

  /** investment / monthly profit, or Infinity when the profit is not positive. */
  function Payback(investment: real, monthlyProfitIncrease: real): (p: Extended)
    ensures p.Infinite? <==> monthlyProfitIncrease <= 0.0
    ensures p.Finite? ==> p.value * monthlyProfitIncrease == investment
  {
    if monthlyProfitIncrease > 0.0 then Finite(investment / monthlyProfitIncrease) else Infinite
  }

  /** One horizon: the monthly increase extrapolated linearly over `p.months`. */
  function Project(p: Period, upliftMetrics: CalculatedMetrics, grossMargin: real, investment: real)
    : ROIProjection
  {
    var revenueGrowth := upliftMetrics.potentialRevenueIncrease * p.months as real;
    var totalProfit := revenueGrowth * (grossMargin / 100.0);
    var roiRatio := if investment > 0.0 then totalProfit / investment else 0.0;
    ROIProjection(p.name, p.months, roiRatio, revenueGrowth, totalProfit,
                  Payback(investment, upliftMetrics.potentialProfit))
  }

  /** Everything calculateROI does with the uplift figures once it has them. */
  function ProjectROI(upliftMetrics: CalculatedMetrics, grossMargin: real, investment: real)
    : (a: ROIAnalysis)
    ensures a.investment == investment
    ensures |a.projections| == 3
    ensures a.projections[0].period == "6 Months" && a.projections[0].months == 6
    ensures a.projections[1].period == "1 Year" && a.projections[1].months == 12
    ensures a.projections[2].period == "3 Years" && a.projections[2].months == 36
    ensures forall i :: 0 <= i < 3 ==> a.projections[i].paybackMonths == a.breakEvenPoint
    ensures a.breakEvenPoint == Payback(investment, upliftMetrics.potentialProfit)
    ensures a.breakEvenPoint.Infinite? <==> upliftMetrics.potentialProfit <= 0.0
    ensures a.totalLifetimeValue == a.projections[2].totalProfit
    ensures investment <= 0.0 ==> forall i :: 0 <= i < 3 ==> a.projections[i].roiRatio == 0.0
  {
    var monthlyProfitIncrease := upliftMetrics.potentialProfit;
    var projections := seq(|Periods|, i requires 0 <= i < |Periods| =>
      Project(Periods[i], upliftMetrics, grossMargin, investment));
    var breakEvenPoint := Payback(investment, monthlyProfitIncrease);
    ROIAnalysis(investment, projections, breakEvenPoint, projections[2].totalProfit)
  }

  /** The ROI analysis of the inputs: the break-even point is the payback of the monthly
      profit increase, each horizon extrapolates the monthly increase and its profit over
      its months, and with a positive investment the ratios rise across the horizons
      exactly when that profit is positive. */
  function CalculateROI(m: SiteMetrics, u: UpliftParams, investment: real): (a: ROIAnalysis)
    ensures a == ProjectROI(CalculateUplift(m, u), m.grossMargin, investment)
    ensures |a.projections| == 3 && a.investment == investment
  {
    var upliftMetrics := CalculateUplift(m, u);
    ProjectROI(upliftMetrics, m.grossMargin, investment)
  }

  /** The ROI analysis of the inputs: the break-even point is the payback of the monthly
      profit increase, each horizon extrapolates the monthly increase and its profit over
      its months, and with a positive investment the ratios rise across the horizons
      exactly when that profit is positive. */
  lemma RoiOfInputs(m: SiteMetrics, u: UpliftParams, investment: real)
    ensures var a := CalculateROI(m, u, investment);
      && a.breakEvenPoint == Payback(investment, Profit(m, u))
      && (forall i :: 0 <= i < 3 ==>
            && a.projections[i].revenueGrowth == RevenueIncrease(m, u) * a.projections[i].months as real
            && a.projections[i].totalProfit == Profit(m, u) * a.projections[i].months as real)
      && (investment > 0.0 ==> forall i :: 0 <= i < 3 ==>
            a.projections[i].roiRatio == a.projections[i].totalProfit / investment)
      && (investment > 0.0 ==>
            (a.projections[0].roiRatio < a.projections[1].roiRatio < a.projections[2].roiRatio
             <==> Profit(m, u) > 0.0))
  {
    UpliftProfit(m, u);
    ProjectionsOfUplift(CalculateROI(m, u, investment), CalculateUplift(m, u), m.grossMargin,
                        investment, RevenueIncrease(m, u), Profit(m, u));
  }

  /** The uplift figures carry the increase and its profit at the site's margin. */
  lemma UpliftProfit(m: SiteMetrics, u: UpliftParams)
    ensures var up := CalculateUplift(m, u);
      && up.potentialRevenueIncrease == RevenueIncrease(m, u)
      && up.potentialProfit == Profit(m, u)
      && ProfitAtMargin(up, m.grossMargin)
  {
    ProfitAtGrossMargin(m, u);
  }

  /** The analysis `a` of uplift figures with increase `increase` and profit `profit` at
      the margin, horizon by horizon. */
  lemma ProjectionsOfUplift(a: ROIAnalysis, up: CalculatedMetrics, grossMargin: real,
                            investment: real, increase: real, profit: real)
    requires a == ProjectROI(up, grossMargin, investment) && ProfitAtMargin(up, grossMargin)
    requires up.potentialRevenueIncrease == increase && up.potentialProfit == profit
    ensures a.breakEvenPoint == Payback(investment, profit)
    ensures forall i :: 0 <= i < 3 ==>
      && a.projections[i].revenueGrowth == increase * a.projections[i].months as real
      && a.projections[i].totalProfit == profit * a.projections[i].months as real
    ensures investment > 0.0 ==> forall i :: 0 <= i < 3 ==>
      a.projections[i].roiRatio == a.projections[i].totalProfit / investment
    ensures investment > 0.0 ==>
      (a.projections[0].roiRatio < a.projections[1].roiRatio < a.projections[2].roiRatio
       <==> profit > 0.0)
  {
    forall i | 0 <= i < 3
      ensures var pr := ProjectROI(up, grossMargin, investment).projections[i];
        && pr.revenueGrowth == up.potentialRevenueIncrease * pr.months as real
        && pr.totalProfit == up.potentialProfit * pr.months as real
        && (investment > 0.0 ==> pr.roiRatio == pr.totalProfit / investment)
    {
      ProjectionGrowth(up, grossMargin, investment, i);
    }
    if investment > 0.0 {
      RoiRatioIncreasing(up, grossMargin, investment);
    }
  }

  /** The uplift figures the projection relies on: profit is the increase at the margin. */
  predicate ProfitAtMargin(up: CalculatedMetrics, grossMargin: real)
  {
    up.potentialProfit == up.potentialRevenueIncrease * (grossMargin / 100.0)
  }

  /** Each horizon extrapolates the monthly increase linearly; its profit is the monthly
      profit times the months, and its ratio that profit over the investment. */
  lemma ProjectionGrowth(up: CalculatedMetrics, grossMargin: real, investment: real, i: nat)
    requires ProfitAtMargin(up, grossMargin) && i < 3
    ensures var pr := ProjectROI(up, grossMargin, investment).projections[i];
      && pr.revenueGrowth == up.potentialRevenueIncrease * pr.months as real
      && pr.totalProfit == pr.revenueGrowth * (grossMargin / 100.0)
      && pr.totalProfit == up.potentialProfit * pr.months as real
      && (investment > 0.0 ==> pr.roiRatio == pr.totalProfit / investment)
  {
    ProjectionAt(up, grossMargin, investment, i);
    var n := Periods[i].months as real;
    var inc, g := up.potentialRevenueIncrease, grossMargin / 100.0;
    assert inc * n * g == inc * g * n;
  }

  /** Unfolding step: the i-th projection is the i-th period projected. */
  lemma ProjectionAt(up: CalculatedMetrics, grossMargin: real, investment: real, i: nat)
    requires i < 3
    ensures ProjectROI(up, grossMargin, investment).projections[i]
      == Project(Periods[i], up, grossMargin, investment)
  {
  }

  /** With a positive investment the ROI ratio strictly rises across the three horizons
      exactly when the monthly profit increase is positive. */
  lemma RoiRatioIncreasing(up: CalculatedMetrics, grossMargin: real, investment: real)
    requires ProfitAtMargin(up, grossMargin) && investment > 0.0
    ensures var ps := ProjectROI(up, grossMargin, investment).projections;
      ps[0].roiRatio < ps[1].roiRatio < ps[2].roiRatio <==> up.potentialProfit > 0.0
  {
    var p := up.potentialProfit;
    ProjectionGrowth(up, grossMargin, investment, 0);
    ProjectionGrowth(up, grossMargin, investment, 1);
    ProjectionGrowth(up, grossMargin, investment, 2);
    DivStrict(p * 6.0, p * 12.0, investment);
    DivStrict(p * 12.0, p * 36.0, investment);
  }

  /** The break-even point is where cumulative profit reaches the investment: a horizon's
      profit covers the investment exactly when it is at least the break-even point. */
  lemma PaybackMeaning(up: CalculatedMetrics, grossMargin: real, investment: real, i: nat)
    requires ProfitAtMargin(up, grossMargin) && i < 3
    requires up.potentialProfit > 0.0
    ensures var a := ProjectROI(up, grossMargin, investment);
      && a.breakEvenPoint.Finite?
      && (a.projections[i].totalProfit >= investment
          <==> a.projections[i].months as real >= a.breakEvenPoint.value)
  {
    var a := ProjectROI(up, grossMargin, investment);
    ProjectionGrowth(up, grossMargin, investment, i);
    assert a.breakEvenPoint == Finite(investment / up.potentialProfit);
    CoversIffPastBreakEven(investment, up.potentialProfit, a.projections[i].months as real);
  }

  /** `n` months of profit `p` cover `investment` exactly when `n` reaches investment / p. */
  lemma CoversIffPastBreakEven(investment: real, p: real, n: real)
    requires p > 0.0
    ensures p * n >= investment <==> n >= investment / p
  {
    DivStrict(investment, p * n, p);
    assert (p * n) / p == n;
  }

  /** A monthly increase of 20000 at a 25% margin (the reference site with 10% CR growth)
      against an investment of 50000: payback in 10 months, ratios 0.6, 1.2 and 3.6. */
  lemma RoiExample(up: CalculatedMetrics)
    requires up.potentialRevenueIncrease == 20000.0 && ProfitAtMargin(up, 25.0)
    ensures var a := ProjectROI(up, 25.0, 50000.0);
      && a.breakEvenPoint == Finite(10.0)
      && a.projections[0].roiRatio == 0.6
      && a.projections[1].roiRatio == 1.2
      && a.projections[2].roiRatio == 3.6
      && a.totalLifetimeValue == 180000.0
  {
    ProjectionGrowth(up, 25.0, 50000.0, 0);
    ProjectionGrowth(up, 25.0, 50000.0, 1);
    ProjectionGrowth(up, 25.0, 50000.0, 2);
  }

  // ---------------------------------------------------------------------------
  // Validation: validateMetrics
  // ---------------------------------------------------------------------------

  /** The four input rules, in the order they are checked. */
  datatype Rule = ConversionRateInRange | SessionsPositive | OrderValuePositive | MarginInRange

  const Rules: seq<Rule> := [ConversionRateInRange, SessionsPositive, OrderValuePositive, MarginInRange]

  predicate Holds(rule: Rule, m: SiteMetrics)
  {
    match rule
    case ConversionRateInRange => 0.0 < m.conversionRate <= 100.0
    case SessionsPositive => m.monthlySessions > 0.0
    case OrderValuePositive => m.averageOrderValue > 0.0
    case MarginInRange => 0.0 <= m.grossMargin <= 100.0
  }

  function Message(rule: Rule): string
  {
    match rule
    case ConversionRateInRange => "Conversion rate must be between 0.01% and 100%"
    case SessionsPositive => "Monthly sessions must be greater than 0"
    case OrderValuePositive => "Average order value must be greater than 0"
    case MarginInRange => "Gross margin must be between 0% and 100%"
  }

  /** The message of `rule` if `m` breaks it. */
  function Report(rule: Rule, m: SiteMetrics): seq<string>
  {
    if Holds(rule, m) then [] else [Message(rule)]
  }

  /** The messages of the rules `m` breaks, in rule order. */
  function Violations(rules: seq<Rule>, m: SiteMetrics): (errs: seq<string>)
    ensures |errs| <= |rules|
  {
    if rules == [] then [] else Report(rules[0], m) + Violations(rules[1..], m)
  }

  /** validateMetrics: push one message per broken rule onto `errors`. */
  method ValidateMetrics(m: SiteMetrics) returns (errors: seq<string>)
    ensures errors == Violations(Rules, m)
  {
    errors := [];
    if m.conversionRate <= 0.0 || m.conversionRate > 100.0 {
      errors := errors + ["Conversion rate must be between 0.01% and 100%"];
    }
    assert errors == Report(ConversionRateInRange, m);
    if m.monthlySessions <= 0.0 {
      errors := errors + ["Monthly sessions must be greater than 0"];
    }
    assert errors == Report(ConversionRateInRange, m) + Report(SessionsPositive, m);
    if m.averageOrderValue <= 0.0 {
      errors := errors + ["Average order value must be greater than 0"];
    }
    assert errors == Report(ConversionRateInRange, m) + Report(SessionsPositive, m)
      + Report(OrderValuePositive, m);
    if m.grossMargin < 0.0 || m.grossMargin > 100.0 {
      errors := errors + ["Gross margin must be between 0% and 100%"];
    }
    ViolationsOfRules(m);
  }

  /** The rule list unrolled: one report per rule, in order. */
  lemma ViolationsOfRules(m: SiteMetrics)
    ensures Violations(Rules, m) == Report(ConversionRateInRange, m) + Report(SessionsPositive, m)
      + Report(OrderValuePositive, m) + Report(MarginInRange, m)
  {
    var r1, r2, r3 := Rules[1..], Rules[2..], Rules[3..];
    var a, b, c, d := Report(Rules[0], m), Report(r1[0], m), Report(r2[0], m), Report(r3[0], m);
    ViolationsStep(Rules, m);
    ViolationsStep(r1, m);
    ViolationsStep(r2, m);
    ViolationsStep(r3, m);
    assert r3[1..] == [];
    assert Violations(r3, m) == d;
    ConcatAssoc(a, b, c, d);
  }

  lemma ConcatAssoc<T>(a: seq<T>, b: seq<T>, c: seq<T>, d: seq<T>)
    ensures a + (b + (c + d)) == a + b + c + d
  {
  }

  lemma ViolationsStep(rules: seq<Rule>, m: SiteMetrics)
    requires rules != []
    ensures Violations(rules, m) == Report(rules[0], m) + Violations(rules[1..], m)
  {
  }

  /** The metrics every rule accepts, stated directly. */
  predicate ValidMetrics(m: SiteMetrics)
  {
    && 0.0 < m.conversionRate <= 100.0
    && m.monthlySessions > 0.0
    && m.averageOrderValue > 0.0
    && 0.0 <= m.grossMargin <= 100.0
  }

  lemma {:induction false} NoViolationsIffAllHold(rules: seq<Rule>, m: SiteMetrics)
    ensures Violations(rules, m) == [] <==> forall rule :: rule in rules ==> Holds(rule, m)
  {
    if rules != [] {
      NoViolationsIffAllHold(rules[1..], m);
      assert forall rule :: rule in rules <==> rule == rules[0] || rule in rules[1..];
    }
  }

  /** validateMetrics returns no message exactly for valid metrics. */
  lemma ValidIffNoErrors(m: SiteMetrics)
    ensures Violations(Rules, m) == [] <==> ValidMetrics(m)
  {
    ViolationsOfRules(m);
  }

  /** Distinct rules report distinct messages. */
  lemma MessageInjective(r1: Rule, r2: Rule)
    ensures Message(r1) == Message(r2) ==> r1 == r2
  {
  }

  /** Every rule is reported on its own: its message appears exactly when it is broken. */
  lemma {:induction false} ReportedIffBroken(rules: seq<Rule>, m: SiteMetrics, rule: Rule)
    ensures Message(rule) in Violations(rules, m) <==> rule in rules && !Holds(rule, m)
  {
    if rules != [] {
      ReportedIffBroken(rules[1..], m, rule);
      MessageInjective(rule, rules[0]);
      assert rule in rules <==> rule == rules[0] || rule in rules[1..];
    }
  }

  lemma ValidationExample()
    ensures Violations(Rules, SiteMetrics(-1.0, 0.0, -10.0, 25.0, None, None)) == [
      "Conversion rate must be between 0.01% and 100%",
      "Monthly sessions must be greater than 0",
      "Average order value must be greater than 0"]
    ensures Violations(Rules, TestSite) == []
    ensures Violations(Rules, TestSite.(conversionRate := 0.005)) == []
  {
    ViolationsOfRules(SiteMetrics(-1.0, 0.0, -10.0, 25.0, None, None));
    ViolationsOfRules(TestSite);
    ViolationsOfRules(TestSite.(conversionRate := 0.005));
  }
}
