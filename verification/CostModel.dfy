/**
 The workflow-subscription cost model, over exact reals. A public tier that does not
 fit is not silently priced: the total is then partial and has no margin.
 */
module CostModel {
  import opened Wrappers

  datatype Tier = Tier(size: real, monthly: real, egress: real)
  datatype Meter = Meter(included: real, overageRate: real)
  datatype ModelRate = ModelRate(inputPerMillion: real, outputPerMillion: real)

  datatype Rates = Rates(
    sandboxOptions: seq<Tier>, sandboxBase: real, createsPerSecond: real, vcpuSecond: real, gibSecond: real,
    connectorFreeCalls: real, connectorCallRate: real, connectorAddon: real, connectorCommitment: real,
    meters: seq<Meter>, seatMonth: real, models: map<string, ModelRate>, creditFeeFraction: real, minimumFee: real,
    accountingTiers: seq<Tier>, accountingEgressRate: real,
    cardFraction: real, billingFraction: real, cardFixedAud: real,
    bridgeConnection: real, bridgeComputeHour: real, bridgeEgress: real, bridgeCommitment: real)

  datatype Profile = Profile(
    workSeconds: real, attemptMultiplier: real, inputTokens: real, outputTokens: real,
    controlActionSeconds: real, supportMinutes: real)

  datatype Assumptions = Assumptions(
    daysPerMonth: real, jobsPerCustomer: real, priceAud: real, audPerUsd: real, vcpus: real, ramGib: real,
    bootstrapSeconds: real, peakFactor: real, targetUtilization: real, shortJob: Profile, heavyJob: Profile,
    connectorCalls: real, controlActionGib: real, controlCalls: real, fileMb: real, fileDays: real,
    metadataKb: real, metadataDays: real, dbIoMb: real, controlEgressMb: real, seats: real, regionFactor: real,
    orgsPerCustomer: real, accountingEgressKb: real, connectionsPerCustomer: real, bridgeSeconds: real, bridgeEgressMb: real,
    platformFixed: real, platformPerCustomer: real, supportFraction: real, supportHourly: real, remedyFraction: real)

  datatype Data = Data(rates: Rates, a: Assumptions)

  // ---- helpers ----

  function Max(x: real, y: real): real { if x >= y then x else y }

  function Overage(used: real, included: real, rate: real): real { Max(0.0, used - included) * rate }

  /** A commitment that includes credits is a floor on the bill, not an addition to it. */
  function CreditedBill(usage: real, commitment: real): real { Max(usage, commitment) }

  /** `math.ceil`. */
  function Ceil(x: real): (n: int)
    ensures n as real >= x && (n - 1) as real < x
  {
    if x.Floor as real == x then x.Floor else x.Floor + 1
  }

  /** The ceiling is the least integer not below. */
  lemma CeilIsLeast(x: real, n: int)
    ensures n >= Ceil(x) <==> n as real >= x
  {
    if n < Ceil(x) { assert n as real <= (Ceil(x) - 1) as real; }
    else { assert n as real >= Ceil(x) as real; }
  }

  function FirstFitting(tiers: seq<Tier>, needed: real): Option<Tier> {
    if tiers == [] then None else if needed <= tiers[0].size then Some(tiers[0]) else FirstFitting(tiers[1..], needed)
  }

  /** The tier scan of `xero_plan` and `e2b_plan`. */
  method FindTier(tiers: seq<Tier>, needed: real) returns (found: Option<Tier>)
    ensures found == FirstFitting(tiers, needed)
  {
    for i := 0 to |tiers|
      invariant FirstFitting(tiers, needed) == FirstFitting(tiers[i..], needed)
    {
      if needed <= tiers[i].size { return Some(tiers[i]); }
      assert tiers[i..][1..] == tiers[i + 1..];
    }
    assert tiers[|tiers|..] == [];
    found := None;
  }

  /** Over tiers that grow in size and price, the first fitting one is the cheapest that fits. */
  lemma {:induction false} FirstFittingIsCheapest(tiers: seq<Tier>, needed: real)
    requires forall i, j :: 0 <= i < j < |tiers| ==> tiers[i].size <= tiers[j].size && tiers[i].monthly <= tiers[j].monthly
    ensures FirstFitting(tiers, needed).None? <==> forall i :: 0 <= i < |tiers| ==> tiers[i].size < needed
    ensures FirstFitting(tiers, needed).Some? ==>
              && FirstFitting(tiers, needed).value in tiers && needed <= FirstFitting(tiers, needed).value.size
              && forall i :: 0 <= i < |tiers| && needed <= tiers[i].size ==>
                   FirstFitting(tiers, needed).value.monthly <= tiers[i].monthly
  {
    if tiers != [] && needed > tiers[0].size {
      FirstFittingIsCheapest(tiers[1..], needed);
      assert forall i :: 1 <= i < |tiers| ==> tiers[i] == tiers[1..][i - 1];
      assert forall t :: t in tiers[1..] ==> t in tiers;
    }
  }

  // ---- one month ----

  /** Quantities that follow from the customer count and the job profile alone. */
  datatype Load = Load(
    jobs: real, attempts: real, seconds: real, runtime: real, tools: real, concurrency: real, capacity: int,
    creates: real, organisations: real)

  function LoadOf(customers: int, d: Data, p: Profile): Load
    requires d.a.daysPerMonth != 0.0 && d.a.targetUtilization != 0.0
  {
    var a := d.a;
    var jobs := customers as real * a.jobsPerCustomer;
    var attempts := jobs * p.attemptMultiplier;
    var seconds := a.daysPerMonth * 24.0 * 3600.0;
    var runtime := p.workSeconds + a.bootstrapSeconds;
    var concurrency := attempts * runtime / seconds;
    Load(jobs, attempts, seconds, runtime, attempts * a.connectorCalls, concurrency,
         Ceil(concurrency * a.peakFactor / a.targetUtilization), attempts / seconds * a.peakFactor,
         customers as real * a.orgsPerCustomer)
  }

  function MeteredUnits(d: Data, p: Profile, l: Load): seq<real>
    requires d.a.daysPerMonth != 0.0
  {
    var a := d.a;
    [l.attempts * a.controlCalls,
     l.attempts * p.controlActionSeconds * a.controlActionGib / 3600.0,
     l.jobs * a.metadataKb / 1000000.0 * a.metadataDays / a.daysPerMonth,
     l.jobs * a.fileMb / 1000.0 * a.fileDays / a.daysPerMonth,
     l.attempts * a.dbIoMb / 1000.0,
     l.attempts * a.controlEgressMb / 1000.0]
  }

  function MeterBill(units: seq<real>, meters: seq<Meter>): real
    requires |units| == |meters|
  {
    if units == [] then 0.0
    else MeterBill(units[..|units| - 1], meters[..|meters| - 1])
         + Overage(units[|units| - 1], meters[|meters| - 1].included, meters[|meters| - 1].overageRate)
  }

  function SumPriced(lines: seq<Option<real>>): real {
    if lines == [] then 0.0
    else SumPriced(lines[..|lines| - 1]) + (if lines[|lines| - 1].Some? then lines[|lines| - 1].value else 0.0)
  }

  function SupportCost(jobs: real, fraction: real, minutes: real, hourly: real): real {
    jobs * fraction * minutes / 60.0 * hourly
  }

  function Revenue(customers: int, d: Data): real
    requires d.a.audPerUsd != 0.0
  {
    customers as real * d.a.priceAud / d.a.audPerUsd
  }

  /** Every cost line but the human support, in order: the support line goes between. */
  datatype OtherCosts = OtherCosts(
    compute: real, capacity: Option<real>, inference: real, connector: real, control: real,
    accounting: Option<real>, platform: real, payments: real, remedy: real)

  function Lines(c: OtherCosts, support: real): seq<Option<real>> {
    [Some(c.compute), c.capacity, Some(c.inference), Some(c.connector), Some(c.control), c.accounting,
     Some(c.platform), Some(c.payments), Some(support), Some(c.remedy)]
  }

  function Inference(d: Data, rate: ModelRate, p: Profile, l: Load): real {
    l.attempts * (p.inputTokens * rate.inputPerMillion + p.outputTokens * rate.outputPerMillion) / 1000000.0
  }

  /** Sandbox runtime at the processor and memory rates. */
  function Compute(d: Data, l: Load): real {
    l.attempts * l.runtime * (d.rates.vcpuSecond * d.a.vcpus + d.rates.gibSecond * d.a.ramGib)
  }

  /** One rate for each of the six metered resources. */
  predicate SixMeters(d: Data) { |d.rates.meters| == 6 }

  /** No division of the month itself is by zero. */
  predicate WellFormed(d: Data) {
    SixMeters(d) && d.a.daysPerMonth != 0.0 && d.a.targetUtilization != 0.0 && d.a.audPerUsd != 0.0
  }

  /** Tokens plus the credit-funding fee, which has a minimum. */
  function InferenceBill(d: Data, inference: real): real {
    inference + Max(inference * d.rates.creditFeeFraction, d.rates.minimumFee)
  }

  function ConnectorUsage(d: Data, tools: real): real {
    Overage(tools, d.rates.connectorFreeCalls, d.rates.connectorCallRate) + tools * d.rates.connectorAddon
  }

  function ControlBill(d: Data, resourceBill: real): real {
    d.rates.seatMonth * d.a.seats + resourceBill * d.a.regionFactor
  }

  function AccountingBill(d: Data, tier: Tier, attempts: real): real
    requires d.a.audPerUsd != 0.0
  {
    (tier.monthly + Overage(attempts * d.a.accountingEgressKb / 1000000.0, tier.egress, d.rates.accountingEgressRate))
    / d.a.audPerUsd
  }

  function PlatformReserve(customers: int, d: Data): real {
    d.a.platformFixed + customers as real * d.a.platformPerCustomer
  }

  function Payments(customers: int, d: Data): real
    requires d.a.audPerUsd != 0.0
  {
    Revenue(customers, d) * (d.rates.cardFraction + d.rates.billingFraction)
    + customers as real * d.rates.cardFixedAud / d.a.audPerUsd
  }

  function OtherCostsFrom(customers: int, d: Data, rate: ModelRate, p: Profile, l: Load): OtherCosts
    requires WellFormed(d)
  {
    var ep := FirstFitting(d.rates.sandboxOptions, l.capacity as real);
    var xp := FirstFitting(d.rates.accountingTiers, l.organisations);
    OtherCosts(
      Compute(d, l),
      if ep.None? then None else Some(d.rates.sandboxBase + ep.value.monthly),
      InferenceBill(d, Inference(d, rate, p, l)),
      CreditedBill(ConnectorUsage(d, l.tools), d.rates.connectorCommitment),
      ControlBill(d, MeterBill(MeteredUnits(d, p, l), d.rates.meters)),
      if xp.None? then None else Some(AccountingBill(d, xp.value, l.attempts)),
      PlatformReserve(customers, d), Payments(customers, d), Revenue(customers, d) * d.a.remedyFraction)
  }

  /** Everything was priced at a public rate. */
  predicate FullyPriced(d: Data, l: Load) {
    && FirstFitting(d.rates.sandboxOptions, l.capacity as real).Some?
    && l.creates <= d.rates.createsPerSecond
    && FirstFitting(d.rates.accountingTiers, l.organisations).Some?
  }

  function Unpriced(d: Data, l: Load): seq<string> {
    (if FirstFitting(d.rates.sandboxOptions, l.capacity as real).None?
     then ["E2B capacity subscription above public Pro options"] else [])
    + (if l.creates > d.rates.createsPerSecond then ["E2B creation-rate upgrade"] else [])
    + (if FirstFitting(d.rates.accountingTiers, l.organisations).None?
       then ["Xero Enterprise tier and egress allowance"] else [])
  }

  /** The alternative connector's bill, which the default bill does not include. */
  function BridgeBill(customers: int, d: Data, l: Load): real {
    var r := d.rates;
    CreditedBill(customers as real * d.a.connectionsPerCustomer * r.bridgeConnection
                 + l.tools * d.a.bridgeSeconds / 3600.0 * r.bridgeComputeHour
                 + l.jobs * d.a.bridgeEgressMb / 1000.0 * r.bridgeEgress, r.bridgeCommitment)
  }

  /** Everything about a month but its support fraction. */
  datatype Month = Month(
    load: Load, revenue: real, others: OtherCosts, unpriced: seq<string>, units: seq<real>, bridgeBill: real)

  function MonthOf(customers: int, d: Data, rate: ModelRate, p: Profile): Month
    requires WellFormed(d)
  {
    var l := LoadOf(customers, d, p);
    Month(l, Revenue(customers, d), OtherCostsFrom(customers, d, rate, p, l), Unpriced(d, l), MeteredUnits(d, p, l),
          BridgeBill(customers, d, l))
  }

  datatype Report = Report(
    jobs: real, attempts: real, supportFraction: real, runtime: real, revenue: real, costs: seq<Option<real>>,
    subtotal: real, unpriced: seq<string>, margin: Option<real>, costPerJob: real, cloudCostPerJob: real,
    supportHours: real, supportFte: real, maxSupportFraction: Option<real>, concurrency: real, capacity: int,
    creates: real, toolCallsPerMinute: real, controlActions: real, units: seq<real>, bridgeBill: real)

  datatype Outcome = Computed(report: Report) | ValueError(message: string) | ZeroDivision

  function ProfileOf(d: Data, heavy: bool): Profile { if heavy then d.a.heavyJob else d.a.shortJob }

  function FractionOf(d: Data, supportRate: Option<real>): real {
    if supportRate.Some? then supportRate.value else d.a.supportFraction
  }

  /** The support cost of every job needing support: what the threshold divides by. */
  function FullSupport(jobs: real, d: Data, p: Profile): real { jobs * p.supportMinutes / 60.0 * d.a.supportHourly }

  /** The support fraction at which thirty cents of each dollar are spent, before clamping at zero. */
  function Threshold(revenue: real, subtotal: real, support: real, full: real): real
    requires full != 0.0
  {
    (revenue * 0.30 - (subtotal - support)) / full
  }

  const FRACTION_ERROR := "support fraction must be between zero and one"

  /** The lines of cloud and platform: all but payments, support and the remedy reserve. */
  function CloudLines(costs: seq<Option<real>>): seq<Option<real>>
    requires |costs| == 10
  {
    costs[..7]
  }

  /** The report of one month at one support fraction. */
  function Assess(d: Data, p: Profile, sr: real, m: Month): Outcome
    requires WellFormed(d)
  {
    var l, support := m.load, SupportCost(m.load.jobs, sr, p.supportMinutes, d.a.supportHourly);
    var costs := Lines(m.others, support);
    var subtotal, full, complete := SumPriced(costs), FullSupport(l.jobs, d, p), m.unpriced == [];
    var hours := l.jobs * sr * p.supportMinutes / 60.0;
    if l.jobs == 0.0 || l.seconds == 0.0 || (complete && (m.revenue == 0.0 || full == 0.0)) then ZeroDivision
    else Computed(Report(
      l.jobs, l.attempts, sr, l.runtime, m.revenue, costs, subtotal, m.unpriced,
      if complete then Some((m.revenue - subtotal) / m.revenue) else None,
      subtotal / l.jobs, SumPriced(CloudLines(costs)) / l.jobs, hours, hours / 160.0,
      if complete then Some(Max(0.0, Threshold(m.revenue, subtotal, support, full))) else None,
      l.concurrency, l.capacity, l.creates, l.tools / l.seconds * d.a.peakFactor * 60.0,
      l.attempts * p.controlActionSeconds / l.seconds, m.units, m.bridgeBill))
  }

  function Calculate(customers: int, d: Data, model: string, supportRate: Option<real>, heavy: bool): Outcome
    requires SixMeters(d)
  {
    var sr, p := FractionOf(d, supportRate), ProfileOf(d, heavy);
    if customers <= 0 then ValueError("customers must be a positive integer")
    else if model !in d.rates.models then ValueError("unknown model class")
    else if !(0.0 <= sr <= 1.0) then ValueError(FRACTION_ERROR)
    else if !WellFormed(d) then ZeroDivision
    else Assess(d, p, sr, MonthOf(customers, d, d.rates.models[model], p))
  }

  // ---- the calculator ----

  /** Sums the priced lines, one after another. */
  method SumLines(lines: seq<Option<real>>) returns (total: real)
    ensures total == SumPriced(lines)
  {
    total := 0.0;
    for i := 0 to |lines|
      invariant total == SumPriced(lines[..i])
    {
      assert lines[..i + 1][..i] == lines[..i];
      if lines[i].Some? { total := total + lines[i].value; }
    }
    assert lines[..|lines|] == lines;
  }

  method BillMeters(units: seq<real>, meters: seq<Meter>) returns (bill: real)
    requires |units| == |meters|
    ensures bill == MeterBill(units, meters)
  {
    bill := 0.0;
    for i := 0 to |units|
      invariant bill == MeterBill(units[..i], meters[..i])
    {
      assert units[..i + 1][..i] == units[..i] && meters[..i + 1][..i] == meters[..i];
      bill := bill + Overage(units[i], meters[i].included, meters[i].overageRate);
    }
    assert units[..|units|] == units && meters[..|meters|] == meters;
  }

  /** The month behind a report, metering and tier scans included. */
  method PriceMonth(customers: int, d: Data, rate: ModelRate, p: Profile, l: Load)
    returns (others: OtherCosts, unpriced: seq<string>)
    requires WellFormed(d)
    ensures others == OtherCostsFrom(customers, d, rate, p, l) && unpriced == Unpriced(d, l)
  {
    var ep := FindTier(d.rates.sandboxOptions, l.capacity as real);
    var xp := FindTier(d.rates.accountingTiers, l.organisations);
    unpriced := [];
    if ep.None? { unpriced := unpriced + ["E2B capacity subscription above public Pro options"]; }
    if l.creates > d.rates.createsPerSecond { unpriced := unpriced + ["E2B creation-rate upgrade"]; }
    if xp.None? { unpriced := unpriced + ["Xero Enterprise tier and egress allowance"]; }
    var resourceBill := BillMeters(MeteredUnits(d, p, l), d.rates.meters);
    var accounting: Option<real> := None;
    if xp.Some? { accounting := Some(AccountingBill(d, xp.value, l.attempts)); }
    others := OtherCosts(
      Compute(d, l), if ep.None? then None else Some(d.rates.sandboxBase + ep.value.monthly),
      InferenceBill(d, Inference(d, rate, p, l)),
      CreditedBill(ConnectorUsage(d, l.tools), d.rates.connectorCommitment),
      ControlBill(d, resourceBill), accounting, PlatformReserve(customers, d), Payments(customers, d),
      Revenue(customers, d) * d.a.remedyFraction);
    assert others == OtherCostsFrom(customers, d, rate, p, l);
  }

  method RunCalculate(customers: int, d: Data, model: string, supportRate: Option<real>, heavy: bool)
    returns (out: Outcome)
    requires SixMeters(d)
    ensures out == Calculate(customers, d, model, supportRate, heavy)
  {
    if customers <= 0 { return ValueError("customers must be a positive integer"); }
    if model !in d.rates.models { return ValueError("unknown model class"); }
    var sr := if supportRate.None? then d.a.supportFraction else supportRate.value;
    if !(0.0 <= sr <= 1.0) { return ValueError(FRACTION_ERROR); }
    if d.a.daysPerMonth == 0.0 || d.a.targetUtilization == 0.0 || d.a.audPerUsd == 0.0 { return ZeroDivision; }
    var p, rate := if heavy then d.a.heavyJob else d.a.shortJob, d.rates.models[model];
    var l := LoadOf(customers, d, p);
    var others, unpriced := PriceMonth(customers, d, rate, p, l);
    out := CompileReport(d, p, sr, Month(l, Revenue(customers, d), others, unpriced, MeteredUnits(d, p, l),
                                         BridgeBill(customers, d, l)));
  }

  /** The report's own sums and ratios. */
  method CompileReport(d: Data, p: Profile, sr: real, m: Month) returns (out: Outcome)
    requires WellFormed(d)
    ensures out == Assess(d, p, sr, m)
  {
    var l, support := m.load, SupportCost(m.load.jobs, sr, p.supportMinutes, d.a.supportHourly);
    var costs := Lines(m.others, support);
    var subtotal := SumLines(costs);
    var cloud := SumLines(CloudLines(costs));
    var complete := m.unpriced == [];
    var full := FullSupport(l.jobs, d, p);
    if l.jobs == 0.0 || l.seconds == 0.0 || (complete && (m.revenue == 0.0 || full == 0.0)) { return ZeroDivision; }
    var margin: Option<real>, most: Option<real> := None, None;
    if complete {
      margin := Some((m.revenue - subtotal) / m.revenue);
      most := Some(Max(0.0, Threshold(m.revenue, subtotal, support, full)));
    }
    var hours := l.jobs * sr * p.supportMinutes / 60.0;
    out := Computed(Report(
      l.jobs, l.attempts, sr, l.runtime, m.revenue, costs, subtotal, m.unpriced, margin, subtotal / l.jobs,
      cloud / l.jobs, hours, hours / 160.0, most, l.concurrency, l.capacity, l.creates,
      l.tools / l.seconds * d.a.peakFactor * 60.0, l.attempts * p.controlActionSeconds / l.seconds, m.units, m.bridgeBill));
  }

  /** The list of unpriced components is empty exactly when everything was priced. */
  lemma UnpricedIff(d: Data, l: Load)
    ensures Unpriced(d, l) == [] <==> FullyPriced(d, l)
  {
  }

  /** Each error of the calculator, with exactly the inputs that raise it. */
  lemma CalculateErrorsIff(customers: int, d: Data, model: string, supportRate: Option<real>, heavy: bool)
    requires SixMeters(d)
    ensures var out := Calculate(customers, d, model, supportRate, heavy);
            var sr := if supportRate.Some? then supportRate.value else d.a.supportFraction;
            var known := customers >= 1 && model in d.rates.models;
            && (out == ValueError("customers must be a positive integer") <==> customers < 1)
            && (out == ValueError("unknown model class") <==> customers >= 1 && model !in d.rates.models)
            && (out == ValueError("support fraction must be between zero and one") <==> known && (sr < 0.0 || sr > 1.0))
            && (out.ValueError? <==> !known || sr < 0.0 || sr > 1.0)
  {
  }

  lemma {:induction false} NoTierFits(tiers: seq<Tier>, needed: real)
    ensures FirstFitting(tiers, needed).None? <==> forall t :: t in tiers ==> t.size < needed
  {
    if tiers != [] {
      NoTierFits(tiers[1..], needed);
      assert tiers == [tiers[0]] + tiers[1..];
    }
  }

  /** The list names exactly the components beyond every public tier, each once and in this order. */
  lemma UnpricedNames(d: Data, l: Load)
    ensures var beyond := forall t :: t in d.rates.sandboxOptions ==> t.size < l.capacity as real;
            var upgrade := d.rates.createsPerSecond < l.creates;
            var enterprise := forall t :: t in d.rates.accountingTiers ==> t.size < l.organisations;
            Unpriced(d, l) == (if beyond then ["E2B capacity subscription above public Pro options"] else [])
                              + (if upgrade then ["E2B creation-rate upgrade"] else [])
                              + (if enterprise then ["Xero Enterprise tier and egress allowance"] else [])
  {
    NoTierFits(d.rates.sandboxOptions, l.capacity as real);
    NoTierFits(d.rates.accountingTiers, l.organisations);
  }

  // ---- the threshold inverts the model ----

  lemma SupportIsLinear(jobs: real, fraction: real, d: Data, p: Profile)
    ensures SupportCost(jobs, fraction, p.supportMinutes, d.a.supportHourly) == fraction * FullSupport(jobs, d, p)
  {
    var x := jobs * p.supportMinutes;
    assert jobs * fraction * p.supportMinutes == fraction * x;
    assert fraction * x / 60.0 == fraction * (x / 60.0);
    assert fraction * (x / 60.0) * d.a.supportHourly == fraction * (x / 60.0 * d.a.supportHourly);
  }

  /** Only the support line depends on the support fraction. */
  lemma SubtotalSplits(c: OtherCosts, support: real)
    ensures SumPriced(Lines(c, support)) == SumPriced(Lines(c, 0.0)) + support
  {
    var s, z := Lines(c, support), Lines(c, 0.0);
    SumTen(s);
    SumTen(z);
  }

  lemma SumExtends(s: seq<Option<real>>, k: nat)
    requires 0 < k <= |s|
    ensures SumPriced(s[..k]) == SumPriced(s[..k - 1]) + Value(s[k - 1])
  {
    assert s[..k][..k - 1] == s[..k - 1];
  }

  lemma SumTen(s: seq<Option<real>>)
    requires |s| == 10
    ensures SumPriced(s) == Value(s[0]) + Value(s[1]) + Value(s[2]) + Value(s[3]) + Value(s[4]) + Value(s[5])
                            + Value(s[6]) + Value(s[7]) + Value(s[8]) + Value(s[9])
  {
    forall k: nat | 0 < k <= 10
      ensures SumPriced(s[..k]) == SumPriced(s[..k - 1]) + Value(s[k - 1])
    {
      SumExtends(s, k);
    }
    assert s[..10] == s && s[..0] == [];
    assert SumPriced(s[..5]) == Value(s[0]) + Value(s[1]) + Value(s[2]) + Value(s[3]) + Value(s[4]);
  }

  function Value(line: Option<real>): real { if line.Some? then line.value else 0.0 }

  /** The unclamped threshold of a month, which no support fraction enters. */
  function RawThreshold(d: Data, p: Profile, m: Month): real
    requires FullSupport(m.load.jobs, d, p) != 0.0
  {
    (m.revenue * 0.30 - SumPriced(Lines(m.others, 0.0))) / FullSupport(m.load.jobs, d, p)
  }

  /** A month with buyers to pay for it, support that costs something, and every component priced. */
  predicate Chargeable(d: Data, p: Profile, m: Month) {
    m.revenue > 0.0 && FullSupport(m.load.jobs, d, p) > 0.0 && m.unpriced == []
  }

  /** The arithmetic of the threshold: spending at most thirty percent is staying at or below it. */
  lemma ThirtyPercent(revenue: real, subtotal: real, base: real, full: real, fraction: real, margin: real, threshold: real)
    requires revenue > 0.0 && full > 0.0 && subtotal == base + fraction * full
    requires margin == (revenue - subtotal) / revenue && threshold == (revenue * 0.30 - base) / full
    ensures margin >= 0.7 <==> fraction <= threshold
    ensures margin == 0.7 <==> fraction == threshold
  {
    assert threshold * full == revenue * 0.30 - base;
    assert margin * revenue == revenue - subtotal;
    assert (margin - 0.7) * revenue == (threshold - fraction) * full by {
      assert (margin - 0.7) * revenue == margin * revenue - 0.7 * revenue;
      assert (threshold - fraction) * full == threshold * full - fraction * full;
    }
    SameSign(margin - 0.7, revenue, threshold - fraction, full);
  }

  lemma SameSign(x: real, a: real, y: real, b: real)
    requires a > 0.0 && b > 0.0 && x * a == y * b
    ensures (x >= 0.0 <==> y >= 0.0) && (x == 0.0 <==> y == 0.0)
  {
    if x > 0.0 { assert x * a > 0.0; } else if x < 0.0 { assert x * a < 0.0; }
    if y > 0.0 { assert y * b > 0.0; } else if y < 0.0 { assert y * b < 0.0; }
  }

  /** What one report says: its subtotal is the month without support plus the supported share. */
  lemma ReportShape(d: Data, p: Profile, sr: real, m: Month, r: Report)
    requires WellFormed(d) && Chargeable(d, p, m) && Assess(d, p, sr, m) == Computed(r)
    ensures r.subtotal == SumPriced(Lines(m.others, 0.0)) + sr * FullSupport(m.load.jobs, d, p)
    ensures r.margin == Some((m.revenue - r.subtotal) / m.revenue)
    ensures r.maxSupportFraction == Some(Max(0.0, RawThreshold(d, p, m)))
  {
    SupportIsLinear(m.load.jobs, sr, d, p);
    SubtotalSplits(m.others, SupportCost(m.load.jobs, sr, p.supportMinutes, d.a.supportHourly));
  }

  /**
   Over every month and support fraction: the reported threshold is the raw one clamped at
   zero, and the fraction meets the seventy percent margin exactly when it is at or below
   the raw threshold, with equality at it.
   */
  lemma MarginMeetsTargetIff(d: Data, p: Profile, sr: real, m: Month, r: Report)
    requires WellFormed(d) && Chargeable(d, p, m) && Assess(d, p, sr, m) == Computed(r)
    ensures r.margin.Some? && r.maxSupportFraction == Some(Max(0.0, RawThreshold(d, p, m)))
    ensures r.margin.value >= 0.7 <==> sr <= RawThreshold(d, p, m)
    ensures r.margin.value == 0.7 <==> sr == RawThreshold(d, p, m)
  {
    ReportShape(d, p, sr, m, r);
    ThirtyPercent(m.revenue, r.subtotal, SumPriced(Lines(m.others, 0.0)), FullSupport(m.load.jobs, d, p), sr,
                  r.margin.value, RawThreshold(d, p, m));
  }

  /** Reporting the month again at the reported threshold. */
  lemma ReportAgain(d: Data, p: Profile, sr: real, m: Month, r: Report)
    requires WellFormed(d) && Chargeable(d, p, m) && Assess(d, p, sr, m) == Computed(r)
    ensures r.maxSupportFraction == Some(Max(0.0, RawThreshold(d, p, m)))
    ensures var again := Assess(d, p, r.maxSupportFraction.value, m);
            && again.Computed? && again.report.margin.Some?
            && (again.report.margin == Some(0.7) <==> RawThreshold(d, p, m) >= 0.0)
            && (again.report.margin.value < 0.7 <==> RawThreshold(d, p, m) < 0.0)
  {
    MarginMeetsTargetIff(d, p, sr, m, r);
    MarginMeetsTargetIff(d, p, r.maxSupportFraction.value, m, Assess(d, p, r.maxSupportFraction.value, m).report);
  }

  /**
   Recomputing with the reported threshold gives a margin of exactly seventy percent exactly
   when the raw threshold lies between zero and one. Below zero it was clamped and the margin
   is missed; above one the calculator rejects its own output.
   */
  lemma ThresholdInvertsModelIff(customers: int, d: Data, model: string, first: Option<real>, heavy: bool, r: Report)
    requires WellFormed(d) && Calculate(customers, d, model, first, heavy) == Computed(r)
    requires model in d.rates.models
    requires Chargeable(d, ProfileOf(d, heavy), MonthOf(customers, d, d.rates.models[model], ProfileOf(d, heavy)))
    ensures r.maxSupportFraction.Some?
    ensures var raw := RawThreshold(d, ProfileOf(d, heavy), MonthOf(customers, d, d.rates.models[model], ProfileOf(d, heavy)));
            var again := Calculate(customers, d, model, r.maxSupportFraction, heavy);
            && (again.Computed? && again.report.margin == Some(0.7) <==> 0.0 <= raw <= 1.0)
            && (raw < 0.0 ==> again.Computed? && again.report.margin.Some? && again.report.margin.value < 0.7)
            && (raw > 1.0 ==> again == ValueError(FRACTION_ERROR))
  {
    var p := ProfileOf(d, heavy);
    ReportAgain(d, p, FractionOf(d, first), MonthOf(customers, d, d.rates.models[model], p), r);
  }

  // ---- the two ways it fails are reached ----

  const FREE_JOB := Profile(0.0, 1.0, 0.0, 0.0, 0.0, 60.0)

  const FREE_METER := Meter(0.0, 0.0)

  /** One customer, one job a month, an hour of support at one dollar, and nothing else to pay but a fixed reserve. */
  function SmallMonth(price: real, fixed: real): Data {
    Data(
      Rates([Tier(1.0, 0.0, 0.0)], 0.0, 1.0, 0.0, 0.0, 0.0, 0.0, 0.0, 0.0,
            [FREE_METER, FREE_METER, FREE_METER, FREE_METER, FREE_METER, FREE_METER],
            0.0, map["base" := ModelRate(0.0, 0.0)], 0.0, 0.0, [Tier(1.0, 0.0, 0.0)], 0.0, 0.0, 0.0, 0.0, 0.0, 0.0, 0.0, 0.0),
      Assumptions(30.0, 1.0, price, 1.0, 0.0, 0.0, 0.0, 1.0, 1.0, FREE_JOB, FREE_JOB,
                  0.0, 0.0, 0.0, 0.0, 0.0, 0.0, 0.0, 0.0, 0.0, 0.0, 1.0, 1.0, 0.0, 0.0, 0.0, 0.0,
                  fixed, 0.0, 0.0, 1.0, 0.0))
  }

  function SmallMonthOf(price: real, fixed: real): Month {
    MonthOf(1, SmallMonth(price, fixed), ModelRate(0.0, 0.0), FREE_JOB)
  }

  lemma SmallLoad(price: real, fixed: real)
    ensures var l := SmallMonthOf(price, fixed).load;
            l.jobs == 1.0 && l.seconds == 2592000.0 && l.attempts == 1.0 && l.runtime == 0.0 && l.tools == 0.0
            && l.capacity == 0 && 0.0 < l.creates < 1.0 && l.organisations == 1.0
  {
  }

  lemma FreeMeters(d: Data, l: Load)
    requires SixMeters(d) && d.a.daysPerMonth != 0.0
    requires d.rates.meters == [FREE_METER, FREE_METER, FREE_METER, FREE_METER, FREE_METER, FREE_METER]
    ensures MeterBill(MeteredUnits(d, FREE_JOB, l), d.rates.meters) == 0.0
  {
    FreeBill(MeteredUnits(d, FREE_JOB, l), d.rates.meters);
  }

  lemma {:induction false} FreeBill(units: seq<real>, meters: seq<Meter>)
    requires |units| == |meters| && forall i :: 0 <= i < |meters| ==> meters[i] == FREE_METER
    ensures MeterBill(units, meters) == 0.0
  {
    if units != [] { FreeBill(units[..|units| - 1], meters[..|meters| - 1]); }
  }

  /** Its raw threshold is thirty percent of the price less the reserve. */
  lemma SmallMonthThreshold(price: real, fixed: real)
    requires price > 0.0
    ensures var d, m := SmallMonth(price, fixed), SmallMonthOf(price, fixed);
            && Calculate(1, d, "base", None, false).Computed? && Chargeable(d, FREE_JOB, m)
            && RawThreshold(d, FREE_JOB, m) == price * 0.30 - fixed
  {
    var d, m := SmallMonth(price, fixed), SmallMonthOf(price, fixed);
    SmallLoad(price, fixed);
    FreeMeters(d, m.load);
    assert m.others == OtherCosts(0.0, Some(0.0), 0.0, 0.0, 0.0, Some(0.0), fixed, 0.0, 0.0);
    SumTen(Lines(m.others, 0.0));
    assert FullSupport(m.load.jobs, d, FREE_JOB) == 1.0;
  }

  lemma SmallMonthReport(price: real, fixed: real)
    requires price > 0.0
    ensures var d := SmallMonth(price, fixed);
            var first := Calculate(1, d, "base", None, false);
            && first.Computed? && first.report.maxSupportFraction == Some(Max(0.0, price * 0.30 - fixed))
            && var again := Calculate(1, d, "base", first.report.maxSupportFraction, false);
            && (price * 0.30 - fixed > 1.0 ==> again == ValueError(FRACTION_ERROR))
            && (price * 0.30 - fixed < 0.0 ==>
                  again.Computed? && again.report.margin.Some? && again.report.margin.value < 0.7)
  {
    SmallMonthThreshold(price, fixed);
    var d := SmallMonth(price, fixed);
    var r := Calculate(1, d, "base", None, false).report;
    MarginMeetsTargetIff(d, FREE_JOB, 0.0, SmallMonthOf(price, fixed), r);
    ThresholdInvertsModelIff(1, d, "base", None, false, r);
  }

  /** A dear plan reports a threshold of thirty, which is refused; a cheap one under a large reserve is clamped and misses. */
  lemma ThresholdFailsBothWays()
    ensures var dear := Calculate(1, SmallMonth(100.0, 0.0), "base", None, false);
            dear.Computed? && dear.report.maxSupportFraction == Some(30.0)
            && Calculate(1, SmallMonth(100.0, 0.0), "base", Some(30.0), false) == ValueError(FRACTION_ERROR)
    ensures var cheap := Calculate(1, SmallMonth(1.0, 1.0), "base", None, false);
            cheap.Computed? && cheap.report.maxSupportFraction == Some(0.0)
            && var again := Calculate(1, SmallMonth(1.0, 1.0), "base", Some(0.0), false);
            again.Computed? && again.report.margin.Some? && again.report.margin.value < 0.7
  {
    SmallMonthReport(100.0, 0.0);
    SmallMonthReport(1.0, 1.0);
  }
}
