/** The calculator's state store (src/store/calculatorStore.ts): three inputs and the two
    results derived from them. Every action writes some inputs and then recalculates, so
    the derived fields always match the inputs. The pure transitions on `StoreState` say
    what each action computes; the `Store` class performs the same updates in place. */
module CalculatorStore {
  import opened CalculatorTypes
  import opened Calculator

  // ---------------------------------------------------------------------------
  // Partial updates: `{ ...current, ...patch }`
  // ---------------------------------------------------------------------------

  /** A `Partial<SiteMetrics>`: `None` is a key the caller left out. */
  datatype SitePatch = SitePatch(
    conversionRate: Option<real>,
    monthlySessions: Option<real>,
    averageOrderValue: Option<real>,
    grossMargin: Option<real>,
    costPerClick: Option<real>,
    industry: Option<string>)

  /** A `Partial<UpliftParams>`. */
  datatype UpliftPatch = UpliftPatch(
    conversionRateGrowth: Option<real>,
    aovIncrease: Option<real>,
    additionalTransactions: Option<real>,
    additionalAOV: Option<real>,
    trafficIncrease: Option<real>)

  const NoSiteChange := SitePatch(None, None, None, None, None, None)
  const NoUpliftChange := UpliftPatch(None, None, None, None, None)

  /** The patched value if the key is present, the current one otherwise. */
  function Pick<T>(patch: Option<T>, current: T): T
  {
    if patch.Some? then patch.value else current
  }

  /** An optional property the patch may set; a present key makes it present. */
  function PickOptional<T>(patch: Option<T>, current: Option<T>): Option<T>
  {
    if patch.Some? then patch else current
  }

  function MergeSite(m: SiteMetrics, p: SitePatch): SiteMetrics
  {
    SiteMetrics(
      Pick(p.conversionRate, m.conversionRate),
      Pick(p.monthlySessions, m.monthlySessions),
      Pick(p.averageOrderValue, m.averageOrderValue),
      Pick(p.grossMargin, m.grossMargin),
      PickOptional(p.costPerClick, m.costPerClick),
      PickOptional(p.industry, m.industry))
  }

  function MergeUplift(u: UpliftParams, p: UpliftPatch): UpliftParams
  {
    UpliftParams(
      Pick(p.conversionRateGrowth, u.conversionRateGrowth),
      Pick(p.aovIncrease, u.aovIncrease),
      PickOptional(p.additionalTransactions, u.additionalTransactions),
      PickOptional(p.additionalAOV, u.additionalAOV),
      PickOptional(p.trafficIncrease, u.trafficIncrease))
  }

  /** A property value of a plain JavaScript object. */
  datatype Value = Num(real) | Text(string)

  datatype SiteKey = ConversionRate | MonthlySessions | AverageOrderValue | GrossMargin
                   | CostPerClick | Industry

  datatype UpliftKey = ConversionRateGrowth | AovIncrease | AdditionalTransactions
                     | AdditionalAOV | TrafficIncrease

  const SiteKeys: set<SiteKey> :=
    {ConversionRate, MonthlySessions, AverageOrderValue, GrossMargin, CostPerClick, Industry}

  const UpliftKeys: set<UpliftKey> :=
    {ConversionRateGrowth, AovIncrease, AdditionalTransactions, AdditionalAOV, TrafficIncrease}

  function NumOf(x: Option<real>): Option<Value>
  {
    if x.Some? then Some(Num(x.value)) else None
  }

  function TextOf(x: Option<string>): Option<Value>
  {
    if x.Some? then Some(Text(x.value)) else None
  }

  /** The value of property `k` of the site metrics, `None` where the key is absent. */
  function SiteProperty(m: SiteMetrics, k: SiteKey): Option<Value>
  {
    match k
    case ConversionRate => Some(Num(m.conversionRate))
    case MonthlySessions => Some(Num(m.monthlySessions))
    case AverageOrderValue => Some(Num(m.averageOrderValue))
    case GrossMargin => Some(Num(m.grossMargin))
    case CostPerClick => NumOf(m.costPerClick)
    case Industry => TextOf(m.industry)
  }

  function SitePatchProperty(p: SitePatch, k: SiteKey): Option<Value>
  {
    match k
    case ConversionRate => NumOf(p.conversionRate)
    case MonthlySessions => NumOf(p.monthlySessions)
    case AverageOrderValue => NumOf(p.averageOrderValue)
    case GrossMargin => NumOf(p.grossMargin)
    case CostPerClick => NumOf(p.costPerClick)
    case Industry => TextOf(p.industry)
  }

  function UpliftProperty(u: UpliftParams, k: UpliftKey): Option<Value>
  {
    match k
    case ConversionRateGrowth => Some(Num(u.conversionRateGrowth))
    case AovIncrease => Some(Num(u.aovIncrease))
    case AdditionalTransactions => NumOf(u.additionalTransactions)
    case AdditionalAOV => NumOf(u.additionalAOV)
    case TrafficIncrease => NumOf(u.trafficIncrease)
  }

  function UpliftPatchProperty(p: UpliftPatch, k: UpliftKey): Option<Value>
  {
    match k
    case ConversionRateGrowth => NumOf(p.conversionRateGrowth)
    case AovIncrease => NumOf(p.aovIncrease)
    case AdditionalTransactions => NumOf(p.additionalTransactions)
    case AdditionalAOV => NumOf(p.additionalAOV)
    case TrafficIncrease => NumOf(p.trafficIncrease)
  }

  /** Site metrics as the JavaScript object they are: one entry per present key. */
  function SiteObject(m: SiteMetrics): map<SiteKey, Value>
  {
    map k | k in SiteKeys && SiteProperty(m, k).Some? :: SiteProperty(m, k).value
  }

  function SitePatchObject(p: SitePatch): map<SiteKey, Value>
  {
    map k | k in SiteKeys && SitePatchProperty(p, k).Some? :: SitePatchProperty(p, k).value
  }

  function UpliftObject(u: UpliftParams): map<UpliftKey, Value>
  {
    map k | k in UpliftKeys && UpliftProperty(u, k).Some? :: UpliftProperty(u, k).value
  }

  function UpliftPatchObject(p: UpliftPatch): map<UpliftKey, Value>
  {
    map k | k in UpliftKeys && UpliftPatchProperty(p, k).Some? :: UpliftPatchProperty(p, k).value
  }

  /** The merge is object spread: the patch's entries override, every other entry stays. */
  lemma MergeSiteIsSpread(m: SiteMetrics, p: SitePatch)
    ensures SiteObject(MergeSite(m, p)) == SiteObject(m) + SitePatchObject(p)
  {
    forall k: SiteKey
      ensures SiteProperty(MergeSite(m, p), k)
        == if SitePatchProperty(p, k).Some? then SitePatchProperty(p, k) else SiteProperty(m, k)
    {
    }
  }

  lemma MergeUpliftIsSpread(u: UpliftParams, p: UpliftPatch)
    ensures UpliftObject(MergeUplift(u, p)) == UpliftObject(u) + UpliftPatchObject(p)
  {
    forall k: UpliftKey
      ensures UpliftProperty(MergeUplift(u, p), k)
        == if UpliftPatchProperty(p, k).Some? then UpliftPatchProperty(p, k) else UpliftProperty(u, k)
    {
    }
  }

  /** The object determines the record, so the spread above pins the merged record down. */
  lemma SiteObjectInjective(a: SiteMetrics, b: SiteMetrics)
    requires SiteObject(a) == SiteObject(b)
    ensures a == b
  {
    forall k | k in SiteKeys
      ensures SiteProperty(a, k) == SiteProperty(b, k)
    {
      assert k in SiteObject(a) <==> SiteProperty(a, k).Some?;
      assert k in SiteObject(b) <==> SiteProperty(b, k).Some?;
    }
    assert SiteProperty(a, CostPerClick) == SiteProperty(b, CostPerClick);
    assert SiteProperty(a, Industry) == SiteProperty(b, Industry);
  }

  lemma UpliftObjectInjective(a: UpliftParams, b: UpliftParams)
    requires UpliftObject(a) == UpliftObject(b)
    ensures a == b
  {
    forall k | k in UpliftKeys
      ensures UpliftProperty(a, k) == UpliftProperty(b, k)
    {
      assert k in UpliftObject(a) <==> UpliftProperty(a, k).Some?;
      assert k in UpliftObject(b) <==> UpliftProperty(b, k).Some?;
    }
    assert UpliftProperty(a, AdditionalTransactions) == UpliftProperty(b, AdditionalTransactions);
    assert UpliftProperty(a, AdditionalAOV) == UpliftProperty(b, AdditionalAOV);
    assert UpliftProperty(a, TrafficIncrease) == UpliftProperty(b, TrafficIncrease);
  }

  /** An empty patch changes nothing, and applying a patch twice is applying it once. */
  lemma MergeSiteLaws(m: SiteMetrics, p: SitePatch)
    ensures MergeSite(m, NoSiteChange) == m
    ensures MergeSite(MergeSite(m, p), p) == MergeSite(m, p)
  {
  }

  lemma MergeUpliftLaws(u: UpliftParams, p: UpliftPatch)
    ensures MergeUplift(u, NoUpliftChange) == u
    ensures MergeUplift(MergeUplift(u, p), p) == MergeUplift(u, p)
  {
  }

  // ---------------------------------------------------------------------------
  // The store's state and its transitions
  // ---------------------------------------------------------------------------

  datatype StoreState = StoreState(
    siteMetrics: SiteMetrics,
    upliftParams: UpliftParams,
    investment: real,
    calculatedMetrics: CalculatedMetrics,
    roiAnalysis: ROIAnalysis)

  /** The store's invariant: both derived fields are the calculator applied to the inputs. */
  predicate Current(s: StoreState)
  {
    && s.calculatedMetrics == CalculateUplift(s.siteMetrics, s.upliftParams)
    && s.roiAnalysis == CalculateROI(s.siteMetrics, s.upliftParams, s.investment)
  }

  /** The three inputs, which only the update actions and reset write. */
  function Inputs(s: StoreState): (SiteMetrics, UpliftParams, real)
  {
    (s.siteMetrics, s.upliftParams, s.investment)
  }

  const InitialSiteMetrics := SiteMetrics(2.0, 250000.0, 95.0, 25.0, Some(2.5), Some("retail"))
  const InitialUpliftParams := UpliftParams(5.0, 2.0, Some(0.0), Some(0.0), Some(0.0))
  const InitialInvestment := 50000.0

  /** recalculate: re-derive both results from the current inputs. */
  function Recalculated(s: StoreState): (r: StoreState)
    ensures Current(r)
    ensures Inputs(r) == Inputs(s)
  {
    s.(calculatedMetrics := CalculateUplift(s.siteMetrics, s.upliftParams),
       roiAnalysis := CalculateROI(s.siteMetrics, s.upliftParams, s.investment))
  }

  function WithSiteMetrics(s: StoreState, p: SitePatch): StoreState
  {
    Recalculated(s.(siteMetrics := MergeSite(s.siteMetrics, p)))
  }

  function WithUpliftParams(s: StoreState, p: UpliftPatch): StoreState
  {
    Recalculated(s.(upliftParams := MergeUplift(s.upliftParams, p)))
  }

  function WithInvestment(s: StoreState, investment: real): StoreState
  {
    Recalculated(s.(investment := investment))
  }

  function AfterReset(s: StoreState): StoreState
  {
    Recalculated(s.(siteMetrics := InitialSiteMetrics, upliftParams := InitialUpliftParams,
                    investment := InitialInvestment))
  }

  /** The state the store is created with. */
  function Initial(): StoreState
  {
    StoreState(InitialSiteMetrics, InitialUpliftParams, InitialInvestment,
      CalculateUplift(InitialSiteMetrics, InitialUpliftParams),
      CalculateROI(InitialSiteMetrics, InitialUpliftParams, InitialInvestment))
  }

  /** A state is current exactly when recalculating it changes nothing; so recalculating
      twice is recalculating once. */
  lemma RecalculateFixesExactlyCurrent(s: StoreState)
    ensures Current(s) <==> Recalculated(s) == s
    ensures Recalculated(Recalculated(s)) == Recalculated(s)
  {
  }

  /** Every action leaves the store current, whatever state it starts from. */
  lemma ActionsKeepCurrent(s: StoreState, site: SitePatch, uplift: UpliftPatch, investment: real)
    ensures Current(Initial())
    ensures Current(WithSiteMetrics(s, site))
    ensures Current(WithUpliftParams(s, uplift))
    ensures Current(WithInvestment(s, investment))
    ensures Current(AfterReset(s))
  {
  }

  /** updateSiteMetrics writes the spread of the patch over the site metrics and touches no
      other input. */
  lemma SiteUpdateFrame(s: StoreState, p: SitePatch)
    ensures var t := WithSiteMetrics(s, p);
      && SiteObject(t.siteMetrics) == SiteObject(s.siteMetrics) + SitePatchObject(p)
      && t.upliftParams == s.upliftParams
      && t.investment == s.investment
  {
    MergeSiteIsSpread(s.siteMetrics, p);
  }

  /** updateUpliftParams writes the spread of the patch over the uplift parameters and
      touches no other input. */
  lemma UpliftUpdateFrame(s: StoreState, p: UpliftPatch)
    ensures var t := WithUpliftParams(s, p);
      && UpliftObject(t.upliftParams) == UpliftObject(s.upliftParams) + UpliftPatchObject(p)
      && t.siteMetrics == s.siteMetrics
      && t.investment == s.investment
  {
    MergeUpliftIsSpread(s.upliftParams, p);
  }

  /** updateInvestment sets the investment only; on a current state the uplift figures do
      not depend on it and stay as they were. */
  lemma InvestmentUpdateFrame(s: StoreState, investment: real)
    ensures var t := WithInvestment(s, investment);
      && t.investment == investment
      && t.siteMetrics == s.siteMetrics
      && t.upliftParams == s.upliftParams
      && (Current(s) ==> t.calculatedMetrics == s.calculatedMetrics)
  {
  }

  /** An update with nothing in it is a plain recalculation. */
  lemma EmptyUpdatesRecalculate(s: StoreState)
    ensures WithSiteMetrics(s, NoSiteChange) == Recalculated(s)
    ensures WithUpliftParams(s, NoUpliftChange) == Recalculated(s)
  {
    MergeSiteLaws(s.siteMetrics, NoSiteChange);
    MergeUpliftLaws(s.upliftParams, NoUpliftChange);
  }

  /** reset forgets everything: it yields the initial state from any state, so resetting
      twice is resetting once. */
  lemma ResetRestoresInitial(s: StoreState)
    ensures AfterReset(s) == Initial()
    ensures AfterReset(AfterReset(s)) == AfterReset(s)
    ensures AfterReset(s).siteMetrics == SiteMetrics(2.0, 250000.0, 95.0, 25.0, Some(2.5), Some("retail"))
    ensures AfterReset(s).upliftParams == UpliftParams(5.0, 2.0, Some(0.0), Some(0.0), Some(0.0))
    ensures AfterReset(s).investment == 50000.0
  {
  }

  /** The figures the store starts with: 5000 orders of 95 a month, and a 5% CR and 2% AOV
      lift adding 7.1% to that revenue. */
  lemma InitialFigures()
    ensures Initial().calculatedMetrics.currentMonthlyTransactions == 5000
    ensures Initial().calculatedMetrics.currentMonthlyRevenue == 475000.0
    ensures Initial().calculatedMetrics.potentialRevenueIncrease == 33725.0
  {
    var r := CalculateUplift(InitialSiteMetrics, InitialUpliftParams);
    assert Initial().calculatedMetrics == r;
    InitialBaseline();
    InitialIncrease();
  }

  lemma InitialBaseline()
    ensures CurrentTransactions(InitialSiteMetrics) == 5000
    ensures CurrentRevenue(InitialSiteMetrics) == 475000.0
  {
  }

  lemma InitialIncrease()
    ensures RevenueIncrease(InitialSiteMetrics, InitialUpliftParams) == 33725.0
  {
    assert ContinuousBaseline(InitialSiteMetrics) == 475000.0;
    IncreaseAt(InitialSiteMetrics, InitialUpliftParams, 475000.0, 1.071, 25.0);
  }

  // ---------------------------------------------------------------------------
  // The store object
  // ---------------------------------------------------------------------------

  class Store {
    var siteMetrics: SiteMetrics
    var upliftParams: UpliftParams
    var investment: real
    var calculatedMetrics: CalculatedMetrics
    var roiAnalysis: ROIAnalysis

    function State(): StoreState
      reads this
    {
      StoreState(siteMetrics, upliftParams, investment, calculatedMetrics, roiAnalysis)
    }

    predicate Valid()
      reads this
    {
      Current(State())
    }

    constructor()
      ensures State() == Initial()
      ensures Valid()
    {
      siteMetrics := InitialSiteMetrics;
      upliftParams := InitialUpliftParams;
      investment := InitialInvestment;
      calculatedMetrics := CalculateUplift(InitialSiteMetrics, InitialUpliftParams);
      roiAnalysis := CalculateROI(InitialSiteMetrics, InitialUpliftParams, InitialInvestment);
    }

    method Recalculate()
      modifies this
      ensures State() == Recalculated(old(State()))
      ensures Valid()
    {
      var metrics := CalculateUplift(siteMetrics, upliftParams);
      var roi := CalculateROI(siteMetrics, upliftParams, investment);
      calculatedMetrics, roiAnalysis := metrics, roi;
    }

    method UpdateSiteMetrics(patch: SitePatch)
      modifies this
      ensures State() == WithSiteMetrics(old(State()), patch)
      ensures Valid()
    {
      siteMetrics := MergeSite(siteMetrics, patch);
      Recalculate();
    }

    method UpdateUpliftParams(patch: UpliftPatch)
      modifies this
      ensures State() == WithUpliftParams(old(State()), patch)
      ensures Valid()
    {
      upliftParams := MergeUplift(upliftParams, patch);
      Recalculate();
    }

    method UpdateInvestment(newInvestment: real)
      modifies this
      ensures State() == WithInvestment(old(State()), newInvestment)
      ensures Valid()
      ensures siteMetrics == old(siteMetrics) && upliftParams == old(upliftParams)
      ensures old(Valid()) ==> calculatedMetrics == old(calculatedMetrics)
    {
      InvestmentUpdateFrame(State(), newInvestment);
      investment := newInvestment;
      Recalculate();
    }

    method Reset()
      modifies this
      ensures State() == AfterReset(old(State()))
      ensures State() == Initial()
      ensures Valid()
    {
      siteMetrics, upliftParams, investment :=
        InitialSiteMetrics, InitialUpliftParams, InitialInvestment;
      Recalculate();
    }
  }
}
