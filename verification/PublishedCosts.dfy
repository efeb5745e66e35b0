/**
 The subscription model on the published planning inputs, figure by figure, and on inputs that all
 differ. Every figure is an exact fraction.
 */
module PublishedCosts {
  import opened Wrappers
  import opened CostModel

  // ---- evaluating sums and scans ----

  lemma FittingTier(tiers: seq<Tier>, needed: real, k: nat)
    requires k <= |tiers| && forall i :: 0 <= i < k ==> tiers[i].size < needed
    requires k < |tiers| ==> needed <= tiers[k].size
    ensures FirstFitting(tiers, needed) == if k < |tiers| then Some(tiers[k]) else None
  {
    if tiers != [] && needed > tiers[0].size { FittingTier(tiers[1..], needed, k - 1); }
  }

  function OverageOf(units: seq<real>, meters: seq<Meter>, i: nat): real
    requires i < |units| == |meters|
  {
    Overage(units[i], meters[i].included, meters[i].overageRate)
  }

  lemma SixMeterBill(units: seq<real>, meters: seq<Meter>)
    requires |units| == |meters| == 6
    ensures MeterBill(units, meters)
            == OverageOf(units, meters, 0) + OverageOf(units, meters, 1) + OverageOf(units, meters, 2)
               + OverageOf(units, meters, 3) + OverageOf(units, meters, 4) + OverageOf(units, meters, 5)
  {
    forall k: nat | 0 < k <= 6
      ensures MeterBill(units[..k], meters[..k]) == MeterBill(units[..k - 1], meters[..k - 1]) + OverageOf(units, meters, k - 1)
    {
      assert units[..k][..k - 1] == units[..k - 1] && meters[..k][..k - 1] == meters[..k - 1];
    }
    assert units[..6] == units && meters[..6] == meters;
    assert MeterBill(units[..3], meters[..3])
           == OverageOf(units, meters, 0) + OverageOf(units, meters, 1) + OverageOf(units, meters, 2);
  }

  lemma SumSeven(s: seq<Option<real>>)
    requires |s| == 7
    ensures SumPriced(s) == Value(s[0]) + Value(s[1]) + Value(s[2]) + Value(s[3]) + Value(s[4]) + Value(s[5]) + Value(s[6])
  {
    forall k: nat | 0 < k <= 7
      ensures SumPriced(s[..k]) == SumPriced(s[..k - 1]) + Value(s[k - 1])
    {
      SumExtends(s, k);
    }
    assert s[..7] == s && s[..0] == [];
    assert SumPriced(s[..4]) == Value(s[0]) + Value(s[1]) + Value(s[2]) + Value(s[3]);
  }

  // ---- the subscription model ----

  /** The rates and assumptions that the repository publishes. */
  const PUBLISHED := Data(
    Rates([Tier(100.0, 0.0, 0.0), Tier(600.0, 500.0, 0.0), Tier(1100.0, 1000.0, 0.0)], 150.0, 5.0,
          0.000014, 0.0000045, 100000.0, 0.0003, 0.0001, 29.0,
          [Meter(25000000.0, 0.000002), Meter(250.0, 0.3), Meter(50.0, 0.2),
           Meter(100.0, 0.03), Meter(50.0, 0.2), Meter(50.0, 0.12)],
          25.0, map["economy" := ModelRate(0.1, 0.5), "premium" := ModelRate(2.0, 10.0)],
          0.055, 0.8,
          [Tier(5.0, 0.0, 0.0), Tier(50.0, 35.0, 10.0), Tier(1000.0, 245.0, 50.0), Tier(10000.0, 1445.0, 250.0)],
          2.4, 0.017, 0.007, 0.3, 0.29, 0.72, 0.5, 50.0),
    Assumptions(30.0, 300.0, 49.0, 1.5, 2.0, 4.0, 5.0, 10.0, 0.7,
                Profile(120.0, 1.1, 12000.0, 1500.0, 40.0, 5.0), Profile(600.0, 1.15, 100000.0, 10000.0, 80.0, 10.0),
                5.0, 1.0, 25.0, 2.2, 30.0, 20.0, 90.0, 0.5, 6.0,
                2.0, 1.0, 1.0, 50.0, 2.0, 1.0, 2.0,
                100.0, 0.25, 0.01, 60.0, 0.01))

  /** A month in which every rate and assumption differs and every free allowance runs out. */
  const VARIED := Data(
    Rates([Tier(1.0, 11.0, 0.0), Tier(40.0, 13.0, 0.0), Tier(90.0, 17.0, 0.0)], 19.0, 23.0,
          0.00003, 0.000007, 100.0, 0.029, 0.0031, 37.0,
          [Meter(41.0, 0.43), Meter(2.0, 0.53), Meter(0.00059, 0.61),
           Meter(0.67, 0.71), Meter(0.73, 0.79), Meter(0.83, 0.89)],
          97.0, map["base" := ModelRate(101.0, 103.0)],
          0.107, 0.5,
          [Tier(5.0, 109.0, 1.0), Tier(50.0, 113.0, 0.002)],
          127.0, 0.0131, 0.0137, 1.39, 1.49, 151.0, 1.57, 16.3),
    Assumptions(29.0, 31.0, 1670.0, 1.25, 3.0, 5.0, 7.0, 1100.0, 0.6,
                Profile(13.0, 1.7, 1900.0, 2300.0, 59.0, 61.0), Profile(71.0, 1.9, 2700.0, 3100.0, 67.0, 6.0),
                6.0, 8.0, 9.0, 21.0, 17.0, 33.0, 34.0, 35.0, 36.0,
                4.0, 1.5, 2.0, 38.0, 39.0, 42.0, 44.0,
                46.0, 48.0, 0.05, 52.0, 0.054))

  function HundredCustomersLoad(): Load {
    Load(30000.0, 33000.0, 2592000.0, 125.0, 165000.0, 1375.0 / 864.0, 23,
               55.0 / 432.0, 100.0)
  }

  function HundredCustomersOthers(): OtherCosts {
    OtherCosts(189.75, Some(150.0), 67.88925, 36.0, 102.76, Some(490.0 / 3.0),
                     125.0, 98.4, 98.0 / 3.0)
  }

  lemma HundredCustomersLoadIs()
    ensures LoadOf(100, PUBLISHED, PUBLISHED.a.shortJob) == HundredCustomersLoad()
  {
  }

  lemma HundredCustomersUnitsAre()
    ensures MeteredUnits(PUBLISHED, PUBLISHED.a.shortJob, HundredCustomersLoad()) == [825000.0, 1100.0 / 3.0, 1.8, 66.0,
        16.5, 198.0]
    ensures MeterBill(MeteredUnits(PUBLISHED, PUBLISHED.a.shortJob, HundredCustomersLoad()), PUBLISHED.rates.meters) == 52.76
  {
    var units := MeteredUnits(PUBLISHED, PUBLISHED.a.shortJob, HundredCustomersLoad());
    assert units == [825000.0, 1100.0 / 3.0, 1.8, 66.0, 16.5, 198.0];
    SixMeterBill(units, PUBLISHED.rates.meters);
  }

  lemma HundredCustomersOthersAre()
    ensures OtherCostsFrom(100, PUBLISHED, ModelRate(0.1, 0.5), PUBLISHED.a.shortJob,
        HundredCustomersLoad()) == HundredCustomersOthers()
    ensures Unpriced(PUBLISHED, HundredCustomersLoad()) == []
  {
    HundredCustomersUnitsAre();
    FittingTier(PUBLISHED.rates.sandboxOptions, 23.0, 0);
    FittingTier(PUBLISHED.rates.accountingTiers, 100.0, 2);
  }

  function HundredCustomersMonth(): Month {
    Month(HundredCustomersLoad(), 9800.0 / 3.0, HundredCustomersOthers(), [],
          [825000.0, 1100.0 / 3.0, 1.8, 66.0, 16.5, 198.0], 121.0)
  }

  lemma HundredCustomersMonthIs()
    ensures WellFormed(PUBLISHED) && MonthOf(100, PUBLISHED, ModelRate(0.1, 0.5),
        PUBLISHED.a.shortJob) == HundredCustomersMonth()
  {
    HundredCustomersLoadIs();
    HundredCustomersUnitsAre();
    HundredCustomersOthersAre();
  }

  lemma HundredCustomersSums()
    ensures var costs := Lines(HundredCustomersOthers(), 1500.0);
            SumPriced(costs) == 2465.79925 && SumPriced(CloudLines(costs)) == 10016791.0 / 12000.0
  {
    var costs := Lines(HundredCustomersOthers(), 1500.0);
    SumTen(costs);
    SumSeven(CloudLines(costs));
  }

  /** A hundred customers on the published inputs: every figure of the report. */
  lemma HundredCustomers()
    ensures Calculate(100, PUBLISHED, "economy", None, false)
            == Computed(Report(
              30000.0, 33000.0, 0.01, 125.0, 9800.0 / 3.0,
              [Some(189.75), Some(150.0), Some(67.88925), Some(36.0), Some(102.76),
               Some(490.0 / 3.0), Some(125.0), Some(98.4), Some(1500.0), Some(98.0 / 3.0)],
              2465.79925, [], Some(9610409.0 / 39200000.0), 9863197.0 / 120000000.0, 10016791.0 / 360000000.0,
              25.0, 0.15625, Some(56803.0 / 600000000.0), 1375.0 / 864.0, 23, 55.0 / 432.0, 1375.0 / 36.0,
              55.0 / 108.0, [825000.0, 1100.0 / 3.0, 1.8, 66.0, 16.5, 198.0], 121.0))
  {
    HundredCustomersMonthIs();
    HundredCustomersSums();
    assert SupportCost(30000.0, 0.01, PUBLISHED.a.shortJob.supportMinutes, PUBLISHED.a.supportHourly) == 1500.0;
  }

  function HeavyThousandLoad(): Load {
    Load(300000.0, 345000.0, 2592000.0, 605.0, 1725000.0, 69575.0 / 864.0, 1151,
               575.0 / 432.0, 1000.0)
  }

  function HeavyThousandOthers(): OtherCosts {
    OtherCosts(9601.35, None, 109192.5, 660.0, 2558.7, Some(490.0 / 3.0),
                     350.0, 984.0, 980.0 / 3.0)
  }

  lemma HeavyThousandLoadIs()
    ensures LoadOf(1000, PUBLISHED, PUBLISHED.a.heavyJob) == HeavyThousandLoad()
  {
  }

  lemma HeavyThousandUnitsAre()
    ensures MeteredUnits(PUBLISHED, PUBLISHED.a.heavyJob, HeavyThousandLoad()) == [8625000.0, 23000.0 / 3.0, 18.0, 660.0,
        172.5, 2070.0]
    ensures MeterBill(MeteredUnits(PUBLISHED, PUBLISHED.a.heavyJob, HeavyThousandLoad()), PUBLISHED.rates.meters) == 2508.7
  {
    var units := MeteredUnits(PUBLISHED, PUBLISHED.a.heavyJob, HeavyThousandLoad());
    assert units == [8625000.0, 23000.0 / 3.0, 18.0, 660.0, 172.5, 2070.0];
    SixMeterBill(units, PUBLISHED.rates.meters);
  }

  lemma HeavyThousandOthersAre()
    ensures OtherCostsFrom(1000, PUBLISHED, ModelRate(2.0, 10.0), PUBLISHED.a.heavyJob,
        HeavyThousandLoad()) == HeavyThousandOthers()
    ensures Unpriced(PUBLISHED, HeavyThousandLoad()) == ["E2B capacity subscription above public Pro options"]
  {
    HeavyThousandUnitsAre();
    FittingTier(PUBLISHED.rates.sandboxOptions, 1151.0, 3);
    FittingTier(PUBLISHED.rates.accountingTiers, 1000.0, 2);
  }

  function HeavyThousandMonth(): Month {
    Month(HeavyThousandLoad(), 98000.0 / 3.0, HeavyThousandOthers(), ["E2B capacity subscription above public Pro options"],
          [8625000.0, 23000.0 / 3.0, 18.0, 660.0, 172.5, 2070.0], 1225.0)
  }

  lemma HeavyThousandMonthIs()
    ensures WellFormed(PUBLISHED) && MonthOf(1000, PUBLISHED, ModelRate(2.0, 10.0),
        PUBLISHED.a.heavyJob) == HeavyThousandMonth()
  {
    HeavyThousandLoadIs();
    HeavyThousandUnitsAre();
    HeavyThousandOthersAre();
  }

  lemma HeavyThousandSums()
    ensures var costs := Lines(HeavyThousandOthers(), 150000.0);
            SumPriced(costs) == 273836.55 && SumPriced(CloudLines(costs)) == 7351553.0 / 60.0
  {
    var costs := Lines(HeavyThousandOthers(), 150000.0);
    SumTen(costs);
    SumSeven(CloudLines(costs));
  }

  /** A thousand customers with heavy jobs, the dearer model and five percent support, again on the published inputs. */
  lemma HeavyThousand()
    ensures Calculate(1000, PUBLISHED, "premium", Some(0.05), true)
            == Computed(Report(
              300000.0, 345000.0, 0.05, 605.0, 98000.0 / 3.0,
              [Some(9601.35), None, Some(109192.5), Some(660.0), Some(2558.7),
               Some(490.0 / 3.0), Some(350.0), Some(984.0), Some(150000.0), Some(980.0 / 3.0)],
              273836.55, ["E2B capacity subscription above public Pro options"], None, 0.9127885, 7351553.0 / 18000000.0,
              2500.0, 15.625, None, 69575.0 / 864.0, 1151, 575.0 / 432.0, 14375.0 / 36.0,
              575.0 / 54.0, [8625000.0, 23000.0 / 3.0, 18.0, 660.0, 172.5, 2070.0], 1225.0))
  {
    HeavyThousandMonthIs();
    HeavyThousandSums();
    assert SupportCost(300000.0, 0.05, PUBLISHED.a.heavyJob.supportMinutes, PUBLISHED.a.supportHourly) == 150000.0;
  }

  function VariedMonthLoad(): Load {
    Load(217.0, 412.3, 2505600.0, 78.0, 2473.8, 53599.0 / 4176000.0, 24,
               45353.0 / 250560.0, 14.0)
  }

  function VariedMonthOthers(): OtherCosts {
    OtherCosts(4.019925, Some(32.0), 270.1983312, 76.50898, 1543842095923.0 / 543750000.0, Some(91.78860784),
                     382.0, 258.4176, 505.008)
  }

  lemma VariedMonthLoadIs()
    ensures LoadOf(7, VARIED, VARIED.a.heavyJob) == VariedMonthLoad()
  {
  }

  lemma VariedMonthUnitsAre()
    ensures MeteredUnits(VARIED, VARIED.a.heavyJob, VariedMonthLoad()) == [3710.7, 276241.0 / 4500.0, 121737.0 / 14500000.0,
        77469.0 / 29000.0, 14.4305, 14.8428]
    ensures MeterBill(MeteredUnits(VARIED, VARIED.a.heavyJob, VariedMonthLoad()),
        VARIED.rates.meters) == 1332867095923.0 / 815625000.0
  {
    var units := MeteredUnits(VARIED, VARIED.a.heavyJob, VariedMonthLoad());
    assert units == [3710.7, 276241.0 / 4500.0, 121737.0 / 14500000.0, 77469.0 / 29000.0, 14.4305, 14.8428];
    SixMeterBill(units, VARIED.rates.meters);
  }

  lemma VariedMonthOthersAre()
    ensures OtherCostsFrom(7, VARIED, ModelRate(101.0, 103.0), VARIED.a.heavyJob, VariedMonthLoad()) == VariedMonthOthers()
    ensures Unpriced(VARIED, VariedMonthLoad()) == []
  {
    VariedMonthUnitsAre();
    FittingTier(VARIED.rates.sandboxOptions, 24.0, 1);
    FittingTier(VARIED.rates.accountingTiers, 14.0, 1);
  }

  function VariedMonthMonth(): Month {
    Month(VariedMonthLoad(), 9352.0, VariedMonthOthers(), [],
          [3710.7, 276241.0 / 4500.0, 121737.0 / 14500000.0, 77469.0 / 29000.0, 14.4305, 14.8428], 4779.77136)
  }

  lemma VariedMonthMonthIs()
    ensures WellFormed(VARIED) && MonthOf(7, VARIED, ModelRate(101.0, 103.0), VARIED.a.heavyJob) == VariedMonthMonth()
  {
    VariedMonthLoadIs();
    VariedMonthUnitsAre();
    VariedMonthOthersAre();
  }

  lemma VariedMonthSums()
    ensures var costs := Lines(VariedMonthOthers(), 56.42);
            SumPriced(costs) == 9821454524479.0 / 2175000000.0 && SumPriced(CloudLines(costs)) == 8038290344479.0 / 2175000000.0
  {
    var costs := Lines(VariedMonthOthers(), 56.42);
    SumTen(costs);
    SumSeven(CloudLines(costs));
  }

  /** The varied month: every figure of the report. */
  lemma VariedMonth()
    ensures Calculate(7, VARIED, "base", None, true)
            == Computed(Report(
              217.0, 412.3, 0.05, 78.0, 9352.0,
              [Some(4.019925), Some(32.0), Some(270.1983312), Some(76.50898), Some(1543842095923.0 / 543750000.0),
               Some(91.78860784), Some(382.0), Some(258.4176), Some(56.42), Some(505.008)],
              9821454524479.0 / 2175000000.0, [], Some(62988895063.0 / 121800000000.0), 9821454524479.0 / 471975000000.0,
                  8038290344479.0 / 471975000000.0,
              1.085, 0.00678125, Some(0.0), 53599.0 / 4176000.0, 24, 45353.0 / 250560.0, 45353.0 / 696.0,
              276241.0 / 25056000.0, [3710.7, 276241.0 / 4500.0, 121737.0 / 14500000.0, 77469.0 / 29000.0, 14.4305, 14.8428],
                  4779.77136))
  {
    VariedMonthMonthIs();
    VariedMonthSums();
    assert SupportCost(217.0, 0.05, VARIED.a.heavyJob.supportMinutes, VARIED.a.supportHourly) == 56.42;
  }

  /** The plans a count of connections or of running sandboxes takes. */
  lemma PublishedPlans()
    ensures var xero, sandboxes := PUBLISHED.rates.accountingTiers, PUBLISHED.rates.sandboxOptions;
            && FirstFitting(xero, 50.0) == Some(xero[1]) && FirstFitting(xero, 51.0) == Some(xero[2])
            && FirstFitting(xero, 1001.0) == Some(xero[3]) && FirstFitting(xero, 10001.0) == None
            && FirstFitting(sandboxes, 100.0) == Some(sandboxes[0]) && FirstFitting(sandboxes, 101.0) == Some(sandboxes[1])
            && FirstFitting(sandboxes, 1101.0) == None
  {
    FittingTier(PUBLISHED.rates.accountingTiers, 50.0, 1);
    FittingTier(PUBLISHED.rates.accountingTiers, 51.0, 2);
    FittingTier(PUBLISHED.rates.accountingTiers, 1001.0, 3);
    FittingTier(PUBLISHED.rates.accountingTiers, 10001.0, 4);
    FittingTier(PUBLISHED.rates.sandboxOptions, 100.0, 0);
    FittingTier(PUBLISHED.rates.sandboxOptions, 101.0, 1);
    FittingTier(PUBLISHED.rates.sandboxOptions, 1101.0, 3);
  }
}
