/**
 Marketplace and operating economics, over exact reals: what a call leaves the
 Provider and the platform, what a cohort leaves after company cost, and the
 break-even counts read off them. `None` is the model's ValueError.
 */
module MarketCosts {
  import opened Wrappers
  import opened CostModel

  predicate IsFraction(x: real) { 0.0 <= x <= 1.0 }

  // ---- break-even counts ----

  /** The count the model reports: none when a unit gains nothing. */
  function UnitsToCover(cost: real, gain: real): Option<int> {
    if gain > 0.0 then Some(Ceil(cost / gain)) else None
  }

  /** What `n` units leave after a fixed cost. */
  function Surplus(n: int, gain: real, cost: real): real { n as real * gain - cost }

  lemma SurplusSign(n: int, gain: real, cost: real)
    requires gain > 0.0
    ensures Surplus(n, gain, cost) >= 0.0 <==> n as real >= cost / gain
  {
    var difference := n as real - cost / gain;
    assert cost / gain * gain == cost;
    assert difference * gain == n as real * gain - cost;
    if difference >= 0.0 { assert difference * gain >= 0.0; } else { assert difference * gain < 0.0; }
  }

  /** The reported count is the least that covers the cost; without one, only a free start covers anything. */
  lemma UnitsToCoverIsLeast(cost: real, gain: real, n: int)
    requires n >= 1 && cost >= 0.0
    ensures Surplus(n, gain, cost) >= 0.0
            <==> if UnitsToCover(cost, gain).Some? then n >= UnitsToCover(cost, gain).value
                 else cost == 0.0 && gain == 0.0
  {
    if gain > 0.0 {
      SurplusSign(n, gain, cost);
      CeilIsLeast(cost / gain, n);
    } else if gain < 0.0 {
      assert n as real * gain < 0.0;
    } else {
      assert n as real * gain == 0.0;
    }
  }

  // ---- one service ----

  datatype Service = Service(
    price: real, license: real, reviewMinutes: real, exceptionFraction: real, exceptionMinutes: real,
    execution: real, activeSeconds: real, mixFraction: real)

  datatype Stripe = Stripe(
    cardFraction: real, cardFixed: real, billingFraction: real, disputeReceived: real,
    paytoFraction: real, paytoFixed: real, paytoCap: real)

  datatype Cohort = Cohort(providers: int, jobs: int, company: real)

  datatype MarketInputs = MarketInputs(
    refundFraction: real, marketTake: real, ownTake: real, platformExceptionFraction: real, disputeFrequency: real,
    gst: real, providerHourly: real, platformHourly: real, platformExceptionMinutes: real,
    plan: real, monthlySupport: real, fixedAllocation: real, onboardingHours: real, onboardingHourly: real,
    providerCac: real, marketShare: real, services: seq<Service>, cohorts: seq<Cohort>, stripe: Stripe)

  datatype CallMoney = CallMoney(
    gross: real, retainedSales: real, fee: real, card: real, reviewAndRework: real, provider: real,
    platformVariable: real, platform: real)

  function Refund(m: MarketInputs, override: Option<real>): real {
    if override.Some? then override.value else m.refundFraction
  }

  function Take(m: MarketInputs, marketplace: bool): real { if marketplace then m.marketTake else m.ownTake }

  predicate ServiceAdmits(s: Service, m: MarketInputs, marketplace: bool, refund: real) {
    && IsFraction(refund) && IsFraction(Take(m, marketplace)) && IsFraction(m.platformExceptionFraction)
    && IsFraction(m.disputeFrequency) && IsFraction(s.exceptionFraction)
    && s.price >= 0.0 && s.license >= 0.0 && s.reviewMinutes >= 0.0 && s.exceptionMinutes >= 0.0
    && s.execution >= 0.0 && s.activeSeconds >= 0.0
    && m.gst >= 0.0 && m.providerHourly >= 0.0 && m.platformHourly >= 0.0 && m.platformExceptionMinutes >= 0.0
  }

  function Sales(s: Service, m: MarketInputs): real
    requires m.gst >= 0.0
  {
    s.price / (1.0 + m.gst)
  }

  function ServiceEconomics(s: Service, m: MarketInputs, marketplace: bool, override: Option<real>): Option<CallMoney> {
    var refund := Refund(m, override);
    if !ServiceAdmits(s, m, marketplace, refund) then None
    else
      var sales := Sales(s, m);
      var retained := sales * (1.0 - refund);
      var fee := sales * Take(m, marketplace) * (1.0 - refund);
      var card := s.price * m.stripe.cardFraction + m.stripe.cardFixed;
      var review := s.reviewMinutes / 60.0 * m.providerHourly;
      var rework := s.exceptionFraction * s.exceptionMinutes / 60.0 * m.providerHourly;
      var disputes := m.disputeFrequency * m.stripe.disputeReceived;
      var support := m.platformExceptionFraction * m.platformExceptionMinutes / 60.0 * m.platformHourly;
      Some(CallMoney(s.price, retained, fee, card, review + rework,
                     retained - fee - card - review - rework - s.license - disputes,
                     s.execution + support, fee - s.execution - support))
  }

  /**
   What a refund takes from a call: Provider and platform together lose exactly the
   retained sales it returns, the platform its fee, and neither recovers processing,
   labour, licence, dispute or execution cost.
   */
  lemma RefundsReturnOnlySales(s: Service, m: MarketInputs, marketplace: bool, lower: real, higher: real)
    requires ServiceEconomics(s, m, marketplace, Some(lower)).Some?
    requires ServiceEconomics(s, m, marketplace, Some(higher)).Some?
    ensures m.gst >= 0.0
    ensures var a := ServiceEconomics(s, m, marketplace, Some(lower)).value;
            var b := ServiceEconomics(s, m, marketplace, Some(higher)).value;
            && b.card == a.card && b.reviewAndRework == a.reviewAndRework && b.platformVariable == a.platformVariable
            && (a.provider + a.platform) - (b.provider + b.platform) == (higher - lower) * Sales(s, m)
            && a.platform - b.platform == (higher - lower) * (Sales(s, m) * Take(m, marketplace))
            && (higher == 1.0 ==> b.fee == 0.0 && b.retainedSales == 0.0)
  {
    var sales := Sales(s, m);
    var cut := sales * Take(m, marketplace);
    assert sales * (1.0 - lower) - sales * (1.0 - higher) == (higher - lower) * sales;
    assert cut * (1.0 - lower) - cut * (1.0 - higher) == (higher - lower) * cut;
  }

  /**
   Where the sales a call keeps go: whatever channel and refund, the two parties' gains, the processor,
   the Provider's labour and licence, disputes and the platform's own spending add up to them.
   */
  lemma CallMoneyAddsUp(s: Service, m: MarketInputs, marketplace: bool, override: Option<real>)
    requires ServiceEconomics(s, m, marketplace, override).Some?
    ensures var c := ServiceEconomics(s, m, marketplace, override).value;
            && c.gross == s.price && c.retainedSales * (1.0 + m.gst) == s.price * (1.0 - Refund(m, override))
            && c.fee == Take(m, marketplace) * c.retainedSales && c.platform + c.platformVariable == c.fee
            && c.provider + c.platform + c.card + c.reviewAndRework + s.license
               + m.disputeFrequency * m.stripe.disputeReceived + c.platformVariable == c.retainedSales
  {
    var refund, sales, take := Refund(m, override), Sales(s, m), Take(m, marketplace);
    assert sales * (1.0 + m.gst) == s.price;
    Commute(sales, 1.0 - refund, 1.0 + m.gst);
    Commute(sales, take, 1.0 - refund);
  }

  lemma Commute(x: real, y: real, z: real)
    ensures x * y * z == x * z * y
  {
  }

  predicate AllFractions(xs: seq<real>) { forall i :: 0 <= i < |xs| ==> IsFraction(xs[i]) }

  predicate NoneNegative(xs: seq<real>) { forall i :: 0 <= i < |xs| ==> xs[i] >= 0.0 }

  /** A call is priced exactly on probabilities that are fractions and budgets that are not negative. */
  lemma ServicePricedIff(s: Service, m: MarketInputs, marketplace: bool, override: Option<real>)
    ensures ServiceEconomics(s, m, marketplace, override).Some?
            <==> && AllFractions([Refund(m, override), Take(m, marketplace), m.platformExceptionFraction, m.disputeFrequency,
                                  s.exceptionFraction])
                 && NoneNegative([s.price, s.license, s.reviewMinutes, s.exceptionMinutes, s.execution, s.activeSeconds])
                 && NoneNegative([m.gst, m.providerHourly, m.platformHourly, m.platformExceptionMinutes])
  {
    var xs := [Refund(m, override), Take(m, marketplace), m.platformExceptionFraction, m.disputeFrequency, s.exceptionFraction];
    var ys := [s.price, s.license, s.reviewMinutes, s.exceptionMinutes, s.execution, s.activeSeconds];
    var zs := [m.gst, m.providerHourly, m.platformHourly, m.platformExceptionMinutes];
    assert AllFractions(xs) ==> IsFraction(xs[0]) && IsFraction(xs[1]) && IsFraction(xs[2]) && IsFraction(xs[3]) && IsFraction(xs[4]);
    assert NoneNegative(ys) ==> ys[0] >= 0.0 && ys[1] >= 0.0 && ys[2] >= 0.0 && ys[3] >= 0.0 && ys[4] >= 0.0 && ys[5] >= 0.0;
    assert NoneNegative(zs) ==> zs[0] >= 0.0 && zs[1] >= 0.0 && zs[2] >= 0.0 && zs[3] >= 0.0;
  }

  // ---- the marketplace ----

  /** One call averaged over services and channels. */
  datatype Blend = Blend(gross: real, fee: real, platform: real, reviewMinutes: real, activeSeconds: real)

  datatype MarketRow = MarketRow(
    providers: int, calls: int, gmv: real, revenue: real, before: real, company: real, after: real, activationTotal: real,
    firstMonth: real, payback: Option<real>, toCover: Option<int>, reviewHours: real, activeExecutions: real)

  /** The service rows for own customers and marketplace, the cohort rows and the blended call. */
  datatype Market = Market(services: seq<CallMoney>, cohorts: seq<MarketRow>, blended: Blend)

  predicate AllServicesAdmit(m: MarketInputs) {
    forall i :: 0 <= i < |m.services| ==>
      ServiceAdmits(m.services[i], m, false, m.refundFraction) && ServiceAdmits(m.services[i], m, true, m.refundFraction)
  }

  function Mix(a: real, b: real, share: real): real { (1.0 - share) * a + share * b }

  function BlendedCall(s: Service, m: MarketInputs): Blend
    requires ServiceAdmits(s, m, false, m.refundFraction) && ServiceAdmits(s, m, true, m.refundFraction)
  {
    var own, market := ServiceEconomics(s, m, false, None).value, ServiceEconomics(s, m, true, None).value;
    Blend(Mix(own.gross, market.gross, m.marketShare), Mix(own.fee, market.fee, m.marketShare),
          Mix(own.platform, market.platform, m.marketShare), s.reviewMinutes, s.activeSeconds)
  }

  /** The mix-weighted sum of the blended calls of the first `n` services. */
  function Blended(m: MarketInputs, n: nat): Blend
    requires n <= |m.services| && AllServicesAdmit(m)
  {
    if n == 0 then Blend(0.0, 0.0, 0.0, 0.0, 0.0)
    else AddWeighted(Blended(m, n - 1), m.services[n - 1].mixFraction, BlendedCall(m.services[n - 1], m))
  }

  function AddWeighted(b: Blend, weight: real, call: Blend): Blend {
    Blend(b.gross + weight * call.gross, b.fee + weight * call.fee, b.platform + weight * call.platform,
          b.reviewMinutes + weight * call.reviewMinutes, b.activeSeconds + weight * call.activeSeconds)
  }

  function MixTotal(ss: seq<Service>): real {
    if ss == [] then 0.0 else MixTotal(ss[..|ss| - 1]) + ss[|ss| - 1].mixFraction
  }

  function Abs(x: real): real { if x < 0.0 then -x else x }

  /** `math.isclose(x, 1)` with its default relative tolerance. */
  predicate CloseToOne(x: real) { Abs(x - 1.0) <= 0.000000001 * Max(Abs(x), 1.0) }

  predicate MarketAdmits(m: MarketInputs) {
    && m.plan >= 0.0 && m.monthlySupport >= 0.0 && m.fixedAllocation >= 0.0 && m.onboardingHours >= 0.0
    && m.onboardingHourly >= 0.0 && m.providerCac >= 0.0
    && IsFraction(m.marketShare) && CloseToOne(MixTotal(m.services))
    && (forall i :: 0 <= i < |m.services| ==> m.services[i].mixFraction >= 0.0)
    && AllServicesAdmit(m)
  }

  /** The marketplace answers exactly for priced services in a mix that adds up to one, nearly. */
  lemma MarketAdmitsIff(m: MarketInputs)
    ensures MarketAdmits(m)
            <==> && NoneNegative([m.plan, m.monthlySupport, m.fixedAllocation, m.onboardingHours, m.onboardingHourly, m.providerCac])
                 && 0.0 <= m.marketShare <= 1.0
                 && (var off := MixTotal(m.services) - 1.0;
                     if off < 0.0 then off >= -0.000000001 else off <= 0.000000001 * (1.0 + off))
                 && forall s :: s in m.services ==>
                      s.mixFraction >= 0.0 && ServiceEconomics(s, m, false, None).Some? && ServiceEconomics(s, m, true, None).Some?
  {
    var ys := [m.plan, m.monthlySupport, m.fixedAllocation, m.onboardingHours, m.onboardingHourly, m.providerCac];
    assert NoneNegative(ys) ==> ys[0] >= 0.0 && ys[1] >= 0.0 && ys[2] >= 0.0 && ys[3] >= 0.0 && ys[4] >= 0.0 && ys[5] >= 0.0;
  }

  predicate CohortAdmits(c: Cohort) { c.providers > 0 && c.jobs > 0 && c.company >= 0.0 }

  /** What one Provider leaves the platform in a month, before company cost. */
  function PerProvider(m: MarketInputs, jobs: int, platformPerCall: real): real {
    var collection := m.plan * (1.0 + m.gst) * (m.stripe.cardFraction + m.stripe.billingFraction) + m.stripe.cardFixed;
    m.plan - collection - m.monthlySupport - m.fixedAllocation + jobs as real * platformPerCall
  }

  function MarketRowOf(m: MarketInputs, b: Blend, c: Cohort): MarketRow {
    var per := PerProvider(m, c.jobs, b.platform);
    var n, calls := c.providers as real, c.providers * c.jobs;
    var activation := m.onboardingHours * m.onboardingHourly + m.providerCac;
    MarketRow(c.providers, calls, calls as real * b.gross, n * m.plan + calls as real * b.fee,
              n * per, c.company, Surplus(c.providers, per, c.company), n * activation,
              Surplus(c.providers, per, c.company) - n * activation,
              if per > 0.0 then Some(activation / per) else None, UnitsToCover(c.company, per),
              calls as real * b.reviewMinutes / 60.0, calls as real * b.activeSeconds / (30.0 * 86400.0))
  }

  function MarketRows(m: MarketInputs, b: Blend, cs: seq<Cohort>): seq<MarketRow> {
    seq(|cs|, i requires 0 <= i < |cs| => MarketRowOf(m, b, cs[i]))
  }

  /** The rows of service `k` stand at `2 * k` for own customers and `2 * k + 1` for the marketplace. */
  function ServiceRow(m: MarketInputs, i: nat): CallMoney
    requires i < 2 * |m.services| && AllServicesAdmit(m)
  {
    ServiceEconomics(m.services[i / 2], m, i % 2 == 1, None).value
  }

  function ServiceRows(m: MarketInputs, n: nat): seq<CallMoney>
    requires n <= |m.services| && AllServicesAdmit(m)
  {
    seq(2 * n, i requires 0 <= i < 2 * n => ServiceRow(m, i))
  }

  /** The two rows of service `k`. */
  lemma ServiceRowsAt(m: MarketInputs, k: nat)
    requires k < |m.services| && AllServicesAdmit(m)
    ensures Some(ServiceRow(m, 2 * k)) == ServiceEconomics(m.services[k], m, false, None)
    ensures Some(ServiceRow(m, 2 * k + 1)) == ServiceEconomics(m.services[k], m, true, None)
  {
    assert 2 * k / 2 == k && (2 * k + 1) / 2 == k;
  }

  lemma ServiceRowsExtend(m: MarketInputs, k: nat)
    requires k < |m.services| && AllServicesAdmit(m)
    ensures ServiceRows(m, k + 1) == ServiceRows(m, k) + [ServiceRow(m, 2 * k), ServiceRow(m, 2 * k + 1)]
  {
  }

  method PriceServices(m: MarketInputs) returns (rows: seq<CallMoney>)
    requires AllServicesAdmit(m)
    ensures rows == ServiceRows(m, |m.services|) && |rows| == 2 * |m.services|
    ensures forall k :: 0 <= k < |m.services| ==>
              && Some(rows[2 * k]) == ServiceEconomics(m.services[k], m, false, None)
              && Some(rows[2 * k + 1]) == ServiceEconomics(m.services[k], m, true, None)
  {
    rows := [];
    for k := 0 to |m.services|
      invariant rows == ServiceRows(m, k)
    {
      var own, market := ServiceEconomics(m.services[k], m, false, None), ServiceEconomics(m.services[k], m, true, None);
      ServiceRowsAt(m, k);
      ServiceRowsExtend(m, k);
      rows := rows + [own.value, market.value];
    }
    forall k | 0 <= k < |m.services|
      ensures && rows[2 * k] == ServiceRow(m, 2 * k) && rows[2 * k + 1] == ServiceRow(m, 2 * k + 1)
              && Some(rows[2 * k]) == ServiceEconomics(m.services[k], m, false, None)
              && Some(rows[2 * k + 1]) == ServiceEconomics(m.services[k], m, true, None)
    {
      ServiceRowsAt(m, k);
    }
  }

  /** Sums the blended calls, one service after another. */
  method BlendServices(m: MarketInputs) returns (b: Blend)
    requires AllServicesAdmit(m)
    ensures b == Blended(m, |m.services|)
  {
    b := Blend(0.0, 0.0, 0.0, 0.0, 0.0);
    for i := 0 to |m.services|
      invariant b == Blended(m, i)
    {
      var call := BlendedCall(m.services[i], m);
      b := AddWeighted(b, m.services[i].mixFraction, call);
    }
  }

  /** Rates each cohort in order; a bad one raises. */
  method RateCohorts(m: MarketInputs, b: Blend) returns (rows: Option<seq<MarketRow>>)
    ensures rows.Some? <==> forall i :: 0 <= i < |m.cohorts| ==>
                              1 <= m.cohorts[i].providers && 1 <= m.cohorts[i].jobs && 0.0 <= m.cohorts[i].company
    ensures rows.Some? ==> rows.value == MarketRows(m, b, m.cohorts)
  {
    var built: seq<MarketRow> := [];
    for i := 0 to |m.cohorts|
      invariant built == MarketRows(m, b, m.cohorts[..i])
      invariant forall k :: 0 <= k < i ==> CohortAdmits(m.cohorts[k])
    {
      if !CohortAdmits(m.cohorts[i]) { return None; }
      built := built + [MarketRowOf(m, b, m.cohorts[i])];
    }
    assert m.cohorts[..|m.cohorts|] == m.cohorts;
    rows := Some(built);
  }

  method MarketplaceEconomics(m: MarketInputs) returns (out: Option<Market>)
    ensures out.Some? <==> && MarketAdmits(m)
                           && forall i :: 0 <= i < |m.cohorts| ==>
                                1 <= m.cohorts[i].providers && 1 <= m.cohorts[i].jobs && 0.0 <= m.cohorts[i].company
    ensures out.Some? ==>
              var b := Blended(m, |m.services|);
              out.value == Market(ServiceRows(m, |m.services|), MarketRows(m, b, m.cohorts), b)
    ensures out.Some? ==> |out.value.services| == 2 * |m.services|
    ensures out.Some? ==> forall k :: 0 <= k < |m.services| ==>
              && Some(out.value.services[2 * k]) == ServiceEconomics(m.services[k], m, false, None)
              && Some(out.value.services[2 * k + 1]) == ServiceEconomics(m.services[k], m, true, None)
  {
    if !MarketAdmits(m) { return None; }
    var services := PriceServices(m);
    var b := BlendServices(m);
    var rows := RateCohorts(m, b);
    out := if rows.Some? then Some(Market(services, rows.value, b)) else None;
  }

  /** Recomputing the whole cohort with any Provider count, the reported count is the least that leaves nothing owing. */
  lemma MarketBreakEven(m: MarketInputs, b: Blend, c: Cohort, n: int)
    requires CohortAdmits(c) && n >= 1
    ensures var reported, again := MarketRowOf(m, b, c), MarketRowOf(m, b, c.(providers := n));
            again.after >= 0.0
            <==> if reported.toCover.Some? then n >= reported.toCover.value
                 else c.company == 0.0 && PerProvider(m, c.jobs, b.platform) == 0.0
  {
    UnitsToCoverIsLeast(c.company, PerProvider(m, c.jobs, b.platform), n);
  }

  /** A payback is reported exactly when a Provider gains, and that many months of the gain return its activation. */
  lemma MarketPaybackReturns(m: MarketInputs, b: Blend, c: Cohort)
    ensures var per, row := PerProvider(m, c.jobs, b.platform), MarketRowOf(m, b, c);
            && (row.payback.Some? <==> per > 0.0)
            && (row.payback.Some? ==> row.payback.value * per == m.onboardingHours * m.onboardingHourly + m.providerCac)
  {
  }

  // ---- the operating model ----

  datatype Hosting = Hosting(
    plan: real, meter: real, baselineMinutes: real, baselineExecution: real, providerCac: real, onboardingMinutes: real,
    execution: real, supportMonth: real, fixedAllocation: real, makeGood: real)

  datatype Reference = Reference(
    price: real, license: real, preparationMinutes: real, reviewMinutes: real, exceptionFraction: real,
    exceptionMinutes: real, hourly: real, adminMinutes: real, onboardingMinutes: real, baselineRefund: real,
    baselinePayment: real, baselinePaymentAdmin: real)

  datatype Mode = Hosted | ProviderEndpoint
  datatype Payment = Card | PayTo | ProviderInvoice

  datatype OperatingInputs = OperatingInputs(
    modes: map<Mode, Hosting>, service: Reference, stripe: Stripe,
    directTake: real, marketFirstTake: real, marketRepeatTake: real, retention: real, purchases: real,
    refund: real, meterCredit: real, disputeFrequency: real, badDebt: real, exceptionFraction: real, exceptionMinutes: real,
    platformHourly: real, onboardingHourly: real, churn: real, growth: real, gst: real, buyerCac: real, cohorts: seq<Cohort>)

  predicate HostingAdmits(h: Hosting) {
    && h.plan >= 0.0 && h.meter >= 0.0 && h.baselineMinutes >= 0.0 && h.baselineExecution >= 0.0 && h.providerCac >= 0.0
    && h.onboardingMinutes >= 0.0 && h.execution >= 0.0 && h.supportMonth >= 0.0 && h.fixedAllocation >= 0.0 && h.makeGood >= 0.0
  }

  predicate ReferenceAdmits(s: Reference) {
    && s.price >= 0.0 && s.license >= 0.0 && s.preparationMinutes >= 0.0 && s.reviewMinutes >= 0.0
    && IsFraction(s.exceptionFraction) && s.exceptionMinutes >= 0.0 && s.hourly >= 0.0 && s.adminMinutes >= 0.0
    && s.onboardingMinutes >= 0.0 && IsFraction(s.baselineRefund) && s.baselinePayment >= 0.0 && s.baselinePaymentAdmin >= 0.0
  }

  predicate StripeAdmits(s: Stripe) {
    && s.cardFraction >= 0.0 && s.cardFixed >= 0.0 && s.billingFraction >= 0.0 && s.disputeReceived >= 0.0
    && s.paytoFraction >= 0.0 && s.paytoFixed >= 0.0 && s.paytoCap >= 0.0
  }

  predicate OperatingAdmits(o: OperatingInputs, mode: Mode, share: real, payment: Payment) {
    && mode in o.modes && Hosted in o.modes
    && (payment == ProviderInvoice ==> share == 0.0)
    && (mode == ProviderEndpoint ==> share == 1.0)
    && IsFraction(share) && IsFraction(o.directTake) && IsFraction(o.marketFirstTake) && IsFraction(o.marketRepeatTake)
    && IsFraction(o.retention) && IsFraction(o.refund) && IsFraction(o.meterCredit) && IsFraction(o.disputeFrequency)
    && IsFraction(o.badDebt) && IsFraction(o.exceptionFraction) && IsFraction(o.churn) && IsFraction(o.growth)
    && IsFraction(o.modes[mode].makeGood)
    && (forall k :: k in o.modes ==> HostingAdmits(o.modes[k]))
    && ReferenceAdmits(o.service) && StripeAdmits(o.stripe)
    && o.exceptionMinutes >= 0.0 && o.platformHourly >= 0.0 && o.onboardingHourly >= 0.0 && o.gst >= 0.0 && o.buyerCac >= 0.0
    && o.purchases >= 1.0
  }

  function Probabilities(o: OperatingInputs, mode: Mode, share: real): seq<real>
    requires mode in o.modes
  {
    [share, o.directTake, o.marketFirstTake, o.marketRepeatTake, o.retention, o.refund, o.meterCredit, o.disputeFrequency,
     o.badDebt, o.exceptionFraction, o.churn, o.growth, o.service.exceptionFraction, o.service.baselineRefund,
     o.modes[mode].makeGood]
  }

  function HostingBudgets(h: Hosting): seq<real> {
    [h.plan, h.meter, h.baselineMinutes, h.baselineExecution, h.providerCac, h.onboardingMinutes, h.execution,
     h.supportMonth, h.fixedAllocation, h.makeGood]
  }

  function ServiceBudgets(s: Reference): seq<real> {
    [s.price, s.license, s.preparationMinutes, s.reviewMinutes, s.exceptionMinutes, s.hourly, s.adminMinutes,
     s.onboardingMinutes, s.baselinePayment, s.baselinePaymentAdmin]
  }

  function CommonBudgets(o: OperatingInputs): seq<real> {
    [o.exceptionMinutes, o.platformHourly, o.onboardingHourly, o.gst, o.buyerCac, o.stripe.cardFraction, o.stripe.cardFixed,
     o.stripe.billingFraction, o.stripe.disputeReceived, o.stripe.paytoFraction, o.stripe.paytoFixed, o.stripe.paytoCap]
  }

  lemma HostingAdmitsIff(h: Hosting)
    ensures HostingAdmits(h) <==> NoneNegative(HostingBudgets(h))
  {
    var xs := HostingBudgets(h);
    assert NoneNegative(xs) ==> xs[0] >= 0.0 && xs[1] >= 0.0 && xs[2] >= 0.0 && xs[3] >= 0.0 && xs[4] >= 0.0
                                && xs[5] >= 0.0 && xs[6] >= 0.0 && xs[7] >= 0.0 && xs[8] >= 0.0 && xs[9] >= 0.0;
  }

  lemma ReferenceAdmitsIff(s: Reference)
    ensures ReferenceAdmits(s) <==> NoneNegative(ServiceBudgets(s)) && IsFraction(s.exceptionFraction) && IsFraction(s.baselineRefund)
  {
    var xs := ServiceBudgets(s);
    assert NoneNegative(xs) ==> xs[0] >= 0.0 && xs[1] >= 0.0 && xs[2] >= 0.0 && xs[3] >= 0.0 && xs[4] >= 0.0
                                && xs[5] >= 0.0 && xs[6] >= 0.0 && xs[7] >= 0.0 && xs[8] >= 0.0 && xs[9] >= 0.0;
  }

  /**
   The operating model answers exactly for a known mode with its channel, probabilities that are
   fractions, budgets that are not negative, and relationships that include their first purchase.
   */
  lemma OperatingAdmitsIff(o: OperatingInputs, mode: Mode, share: real, payment: Payment)
    ensures OperatingAdmits(o, mode, share, payment)
            <==> && mode in o.modes && Hosted in o.modes && o.purchases >= 1.0
                 && (payment == ProviderInvoice ==> share == 0.0) && (mode == ProviderEndpoint ==> share == 1.0)
                 && AllFractions(Probabilities(o, mode, share))
                 && (forall k :: k in o.modes ==> NoneNegative(HostingBudgets(o.modes[k])))
                 && NoneNegative(ServiceBudgets(o.service)) && NoneNegative(CommonBudgets(o))
  {
    forall k | k in o.modes
      ensures HostingAdmits(o.modes[k]) <==> NoneNegative(HostingBudgets(o.modes[k]))
    {
      HostingAdmitsIff(o.modes[k]);
    }
    if mode in o.modes {
      var xs, ys := Probabilities(o, mode, share), CommonBudgets(o);
      assert AllFractions(xs) ==> && IsFraction(xs[0]) && IsFraction(xs[1]) && IsFraction(xs[2]) && IsFraction(xs[3])
                                  && IsFraction(xs[4]) && IsFraction(xs[5]) && IsFraction(xs[6]) && IsFraction(xs[7])
                                  && IsFraction(xs[8]) && IsFraction(xs[9]) && IsFraction(xs[10]) && IsFraction(xs[11])
                                  && IsFraction(xs[12]) && IsFraction(xs[13]) && IsFraction(xs[14]);
      assert NoneNegative(ys) ==> ys[0] >= 0.0 && ys[1] >= 0.0 && ys[2] >= 0.0 && ys[3] >= 0.0 && ys[4] >= 0.0 && ys[5] >= 0.0
                                  && ys[6] >= 0.0 && ys[7] >= 0.0 && ys[8] >= 0.0 && ys[9] >= 0.0 && ys[10] >= 0.0 && ys[11] >= 0.0;
      ReferenceAdmitsIff(o.service);
    }
  }

  /** Calls a bought relationship keeps: the first, then the retained repeats. */
  function RetainedCalls(o: OperatingInputs): real { 1.0 + (o.purchases - 1.0) * o.retention }

  function MarketTake(o: OperatingInputs): real
    requires RetainedCalls(o) != 0.0
  {
    (o.marketFirstTake + (RetainedCalls(o) - 1.0) * o.marketRepeatTake) / RetainedCalls(o)
  }

  function BlendedTake(o: OperatingInputs, share: real): real
    requires RetainedCalls(o) != 0.0
  {
    (1.0 - share) * o.directTake + share * MarketTake(o)
  }

  function Processor(o: OperatingInputs, payment: Payment): real {
    match payment
    case Card => o.service.price * o.stripe.cardFraction + o.stripe.cardFixed
    case PayTo =>
      var bill := o.service.price * o.stripe.paytoFraction + o.stripe.paytoFixed;
      if bill <= o.stripe.paytoCap then bill else o.stripe.paytoCap
    case ProviderInvoice => o.service.baselinePayment
  }

  /** What a call keeps of its price after tax, refunds and, on a Provider's own invoices, bad debt. */
  function Kept(o: OperatingInputs, payment: Payment): real
    requires o.gst >= 0.0
  {
    o.service.price / (1.0 + o.gst) * (1.0 - o.refund) * (if payment == ProviderInvoice then 1.0 - o.badDebt else 1.0)
  }

  /** Per-call and per-Provider figures that no cohort enters. */
  datatype Unit = Unit(
    retainedCalls: real, price: real, commission: real, providerCall: real, baselineCall: real, meter: real,
    admin: real, setup: real, support: real, makeGood: real, activation: real, replacement: real)

  function UnitOf(o: OperatingInputs, mode: Mode, share: real, payment: Payment): Unit
    requires OperatingAdmits(o, mode, share, payment) && RetainedCalls(o) != 0.0
  {
    var h, s := o.modes[mode], o.service;
    var sales, retained := s.price / (1.0 + o.gst), Kept(o, payment);
    var commission := retained * BlendedTake(o, share);
    var labor := (s.preparationMinutes + s.reviewMinutes + s.exceptionFraction * s.exceptionMinutes) / 60.0 * s.hourly;
    var baselineLabor := (h.baselineMinutes + s.baselinePaymentAdmin) / 60.0 * s.hourly;
    var disputes := o.disputeFrequency * o.stripe.disputeReceived;
    var meter := h.meter * (1.0 - o.meterCredit);
    var external := if mode == Hosted then 0.0 else o.modes[Hosted].execution;
    var activation := h.providerCac + h.onboardingMinutes / 60.0 * o.onboardingHourly;
    Unit(RetainedCalls(o), s.price, commission,
         retained - commission - Processor(o, payment) - labor - s.license - disputes - meter - external,
         sales * (1.0 - s.baselineRefund) - s.baselinePayment - baselineLabor - s.license - disputes - h.baselineExecution,
         meter, s.adminMinutes / 60.0 * s.hourly, s.onboardingMinutes / 60.0 * s.hourly,
         o.exceptionFraction * o.exceptionMinutes / 60.0 * o.platformHourly, s.price * h.makeGood,
         activation, activation * o.churn)
  }

  datatype OperatingRow = OperatingRow(
    providers: int, jobs: int, calls: int, gmv: real, revenue: real, steady: real, afterGrowth: real,
    allNewFirstMonth: Option<real>, toCover: Option<int>, payback: Option<real>, providerMonth: real, providerGain: real,
    firstMonthGain: real, humanHours: real, buyerAcquisition: real, replacement: real, growth: real, makeGood: real)

  /** Provider hours a month: preparing, reviewing and reworking every call, and administration. */
  function HumanHours(s: Reference, jobs: int): real {
    (jobs as real * (s.preparationMinutes + s.reviewMinutes + s.exceptionFraction * s.exceptionMinutes) + s.adminMinutes) / 60.0
  }

  function BuyerAcquisition(o: OperatingInputs, share: real, retainedCalls: real, jobs: int): real
    requires retainedCalls != 0.0
  {
    jobs as real * share / retainedCalls * o.buyerCac
  }

  /** What the processor takes from the Provider's own bill of plan and meter. */
  function Collection(o: OperatingInputs, bill: real): real {
    if bill == 0.0 then 0.0
    else bill * (1.0 + o.gst) * (o.stripe.cardFraction + o.stripe.billingFraction) + o.stripe.cardFixed
  }

  /** What one Provider leaves the platform before replacing churned Providers. */
  function BeforeReplacement(o: OperatingInputs, h: Hosting, u: Unit, share: real, jobs: int): real
    requires u.retainedCalls != 0.0
  {
    var bill := h.plan + jobs as real * u.meter;
    bill + jobs as real * u.commission - Collection(o, bill) - jobs as real * (h.execution + u.support + u.makeGood)
    - h.supportMonth - h.fixedAllocation - BuyerAcquisition(o, share, u.retainedCalls, jobs)
  }

  function AfterReplacement(o: OperatingInputs, h: Hosting, u: Unit, share: real, jobs: int): real
    requires u.retainedCalls != 0.0
  {
    BeforeReplacement(o, h, u, share, jobs) - u.replacement
  }

  function OperatingRowOf(o: OperatingInputs, h: Hosting, u: Unit, share: real, c: Cohort): OperatingRow
    requires u.retainedCalls != 0.0
  {
    var n, jobs := c.providers as real, c.jobs as real;
    var before, per := BeforeReplacement(o, h, u, share, c.jobs), AfterReplacement(o, h, u, share, c.jobs);
    var month, baseline := jobs * u.providerCall - h.plan - u.admin, jobs * u.baselineCall;
    var steady := Surplus(c.providers, per, c.company);
    var growth := n * o.growth * u.activation;
    OperatingRow(
      c.providers, c.jobs, c.providers * c.jobs, n * jobs * u.price,
      n * (h.plan + jobs * u.meter + jobs * u.commission), steady, steady - growth,
      if share == 0.0 then Some(n * before - c.company - n * u.activation) else None,
      UnitsToCover(c.company, per), if before > 0.0 then Some(u.activation / before) else None,
      month, month - baseline, month - baseline - u.setup, HumanHours(o.service, c.jobs),
      n * BuyerAcquisition(o, share, u.retainedCalls, c.jobs), n * u.replacement, growth, n * jobs * u.makeGood)
  }

  function OperatingRows(o: OperatingInputs, h: Hosting, u: Unit, share: real, cs: seq<Cohort>): seq<OperatingRow>
    requires u.retainedCalls != 0.0
  {
    seq(|cs|, i requires 0 <= i < |cs| => OperatingRowOf(o, h, u, share, cs[i]))
  }

  function CallsToCover(h: Hosting, u: Unit): Option<int> {
    UnitsToCover(h.plan + u.admin, u.providerCall - u.baselineCall)
  }

  datatype Operating = Operating(
    rows: seq<OperatingRow>, callsToCover: Option<int>, retainedCalls: real, marketTake: real)

  /** At least the first purchase is retained. */
  lemma RetainedAtLeastOne(o: OperatingInputs)
    requires o.purchases >= 1.0 && IsFraction(o.retention)
    ensures RetainedCalls(o) >= 1.0
  {
    assert (o.purchases - 1.0) * o.retention >= 0.0;
  }

  method OperatingEconomics(o: OperatingInputs, mode: Mode, share: real, payment: Payment) returns (out: Option<Operating>)
    ensures out.Some? <==> && OperatingAdmits(o, mode, share, payment)
                           && forall i :: 0 <= i < |o.cohorts| ==>
                                1 <= o.cohorts[i].providers && 1 <= o.cohorts[i].jobs && 0.0 <= o.cohorts[i].company
    ensures out.Some? ==>
              && RetainedCalls(o) != 0.0
              && var u := UnitOf(o, mode, share, payment);
              out.value == Operating(OperatingRows(o, o.modes[mode], u, share, o.cohorts), CallsToCover(o.modes[mode], u),
                                     RetainedCalls(o), MarketTake(o))
  {
    if !OperatingAdmits(o, mode, share, payment) { return None; }
    RetainedAtLeastOne(o);
    var u, h := UnitOf(o, mode, share, payment), o.modes[mode];
    var rows: seq<OperatingRow> := [];
    for i := 0 to |o.cohorts|
      invariant rows == OperatingRows(o, h, u, share, o.cohorts[..i])
      invariant forall k :: 0 <= k < i ==> CohortAdmits(o.cohorts[k])
    {
      if !CohortAdmits(o.cohorts[i]) { return None; }
      rows := rows + [OperatingRowOf(o, h, u, share, o.cohorts[i])];
    }
    assert o.cohorts[..|o.cohorts|] == o.cohorts;
    var improvement := u.providerCall - u.baselineCall;
    out := Some(Operating(rows, if improvement > 0.0 then Some(Ceil((h.plan + u.admin) / improvement)) else None,
                          u.retainedCalls, MarketTake(o)));
  }

  /** The Provider count is the least whose whole cohort covers company and replacement cost. */
  lemma ProviderBreakEven(o: OperatingInputs, h: Hosting, u: Unit, share: real, c: Cohort, n: int)
    requires u.retainedCalls != 0.0 && CohortAdmits(c) && n >= 1
    ensures var reported, again := OperatingRowOf(o, h, u, share, c), OperatingRowOf(o, h, u, share, c.(providers := n));
            again.steady >= 0.0
            <==> if reported.toCover.Some? then n >= reported.toCover.value
                 else c.company == 0.0 && AfterReplacement(o, h, u, share, c.jobs) == 0.0
  {
    UnitsToCoverIsLeast(c.company, AfterReplacement(o, h, u, share, c.jobs), n);
  }

  /** A payback is reported exactly for a gain before replacement, which returns the activation in that many months. */
  lemma OperatingPaybackReturns(o: OperatingInputs, h: Hosting, u: Unit, share: real, c: Cohort)
    requires u.retainedCalls != 0.0
    ensures var gain, row := BeforeReplacement(o, h, u, share, c.jobs), OperatingRowOf(o, h, u, share, c);
            && (row.payback.Some? <==> gain > 0.0)
            && (row.payback.Some? ==> row.payback.value * gain == u.activation)
            && (row.allNewFirstMonth.Some? <==> share == 0.0)
  {
  }

  /** The Call count is the least monthly volume at which a Provider gains on its existing delivery. */
  lemma CallBreakEven(o: OperatingInputs, h: Hosting, u: Unit, share: real, c: Cohort, jobs: int)
    requires u.retainedCalls != 0.0 && jobs >= 1 && h.plan + u.admin >= 0.0
    ensures OperatingRowOf(o, h, u, share, c.(jobs := jobs)).providerGain >= 0.0
            <==> if CallsToCover(h, u).Some? then jobs >= CallsToCover(h, u).value
                 else h.plan + u.admin == 0.0 && u.providerCall == u.baselineCall
  {
    UnitsToCoverIsLeast(h.plan + u.admin, u.providerCall - u.baselineCall, jobs);
    assert jobs as real * (u.providerCall - u.baselineCall) == jobs as real * u.providerCall - jobs as real * u.baselineCall;
  }

  lemma FourShares(n: real, a: real, b: real, c: real, d: real)
    ensures n * a + n * b + n * c - n * d == n * (a + b + c - d)
  {
  }

  /** What a call costs the two parties beyond what they pay each other. */
  function PaidOutside(o: OperatingInputs, mode: Mode, payment: Payment, u: Unit): real
    requires mode in o.modes && Hosted in o.modes
  {
    var h, s := o.modes[mode], o.service;
    Processor(o, payment) + s.license + o.disputeFrequency * o.stripe.disputeReceived + h.execution
    + (s.preparationMinutes + s.reviewMinutes + s.exceptionFraction * s.exceptionMinutes) / 60.0 * s.hourly
    + (if mode == Hosted then 0.0 else o.modes[Hosted].execution)
    + u.support + u.makeGood
  }

  lemma CallTransfersCancel(o: OperatingInputs, mode: Mode, share: real, payment: Payment)
    requires OperatingAdmits(o, mode, share, payment) && RetainedCalls(o) != 0.0
    ensures var u := UnitOf(o, mode, share, payment);
            && u.retainedCalls == RetainedCalls(o) && u.commission == Kept(o, payment) * BlendedTake(o, share)
            && u.providerCall + u.commission + u.meter - o.modes[mode].execution - u.support - u.makeGood
               == Kept(o, payment) - PaidOutside(o, mode, payment, u)
  {
  }

  /** A month's calls at `net` each, less administration, the Provider's fixed costs, collection and acquired buyers. */
  function MonthOf(o: OperatingInputs, h: Hosting, u: Unit, share: real, jobs: int, net: real): real
    requires u.retainedCalls != 0.0
  {
    jobs as real * net - u.admin - h.supportMonth - h.fixedAllocation
    - Collection(o, h.plan + jobs as real * u.meter) - BuyerAcquisition(o, share, u.retainedCalls, jobs)
  }

  lemma CallsTransfersCancel(o: OperatingInputs, h: Hosting, u: Unit, share: real, jobs: int, net: real)
    requires u.retainedCalls != 0.0 && net == u.providerCall + u.meter + u.commission - (h.execution + u.support + u.makeGood)
    ensures jobs as real * u.providerCall - h.plan - u.admin + BeforeReplacement(o, h, u, share, jobs)
            == MonthOf(o, h, u, share, jobs, net)
  {
    FourShares(jobs as real, u.providerCall, u.meter, u.commission, h.execution + u.support + u.makeGood);
  }

  lemma MonthTransfersCancel(o: OperatingInputs, h: Hosting, u: Unit, share: real, c: Cohort, net: real)
    requires u.retainedCalls != 0.0 && net == u.providerCall + u.meter + u.commission - (h.execution + u.support + u.makeGood)
    ensures OperatingRowOf(o, h, u, share, c).providerMonth + BeforeReplacement(o, h, u, share, c.jobs)
            == MonthOf(o, h, u, share, c.jobs, net)
  {
    CallsTransfersCancel(o, h, u, share, c.jobs, net);
    assert OperatingRowOf(o, h, u, share, c).providerMonth == c.jobs as real * u.providerCall - h.plan - u.admin;
  }

  /**
   A month of one Provider and the platform together: plan, meter and commission are transfers between
   the two. What the calls keep pays every outside cost, and the rest is theirs.
   */
  lemma TransfersCancel(o: OperatingInputs, mode: Mode, share: real, payment: Payment, c: Cohort)
    requires OperatingAdmits(o, mode, share, payment) && RetainedCalls(o) != 0.0
    ensures var h, u := o.modes[mode], UnitOf(o, mode, share, payment);
            && u.retainedCalls == RetainedCalls(o)
            && OperatingRowOf(o, h, u, share, c).providerMonth + BeforeReplacement(o, h, u, share, c.jobs)
               == MonthOf(o, h, u, share, c.jobs, Kept(o, payment) - PaidOutside(o, mode, payment, u))
  {
    CallTransfersCancel(o, mode, share, payment);
    var u := UnitOf(o, mode, share, payment);
    MonthTransfersCancel(o, o.modes[mode], u, share, c, Kept(o, payment) - PaidOutside(o, mode, payment, u));
  }

  /** Better retention never makes acquired demand dearer, and direct sales fund no buyer acquisition. */
  lemma RetentionLowersAcquisition(o: OperatingInputs, share: real, jobs: int, better: real)
    requires o.purchases >= 1.0 && IsFraction(o.retention) && o.retention <= better <= 1.0
    requires share >= 0.0 && jobs > 0 && o.buyerCac >= 0.0
    ensures var p := o.(retention := better);
            && RetainedCalls(o) >= 1.0 && RetainedCalls(p) >= RetainedCalls(o)
            && BuyerAcquisition(p, share, RetainedCalls(p), jobs) <= BuyerAcquisition(o, share, RetainedCalls(o), jobs)
            && (share == 0.0 ==> BuyerAcquisition(o, share, RetainedCalls(o), jobs) == 0.0)
  {
    var p := o.(retention := better);
    RetainedAtLeastOne(o);
    ProductNotNegative(better - o.retention, o.purchases - 1.0);
    assert (o.purchases - 1.0) * better - (o.purchases - 1.0) * o.retention == (better - o.retention) * (o.purchases - 1.0);
    var bought := jobs as real * share;
    ProductNotNegative(jobs as real, share);
    DivideByMore(bought, RetainedCalls(o), RetainedCalls(p));
    ScaleBy(bought / RetainedCalls(p), bought / RetainedCalls(o), o.buyerCac);
  }

  lemma ProductNotNegative(x: real, y: real)
    requires x >= 0.0 && y >= 0.0
    ensures x * y >= 0.0
  {
  }

  lemma FactorNotNegative(x: real, y: real)
    requires y > 0.0 && x * y >= 0.0
    ensures x >= 0.0 && (x * y == 0.0 ==> x == 0.0)
  {
    assert x < 0.0 ==> x * y < 0.0;
    assert x > 0.0 ==> x * y > 0.0;
  }

  lemma DivideByMore(x: real, a: real, b: real)
    requires x >= 0.0 && 0.0 < a <= b
    ensures 0.0 <= x / b <= x / a && (x == 0.0 ==> x / a == 0.0)
  {
    var q, r := x / a, x / b;
    assert q * a == x && r * b == x;
    FactorNotNegative(q, a);
    FactorNotNegative(r, b);
    ProductNotNegative(r, b - a);
    assert (q - r) * a == q * a - r * a == r * b - r * a == r * (b - a);
    FactorNotNegative(q - r, a);
  }

  lemma ScaleBy(x: real, y: real, k: real)
    requires x <= y && k >= 0.0
    ensures x * k <= y * k
  {
    ProductNotNegative(y - x, k);
    assert (y - x) * k == y * k - x * k;
  }
}
