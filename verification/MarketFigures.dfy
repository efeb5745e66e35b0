/**
 The marketplace and operating models, figure by figure, on the assumptions that the
 repository publishes and on assumptions that all differ.
 */
module MarketFigures {
  import opened Wrappers
  import opened CostModel
  import opened MarketCosts

  const STRIPE := Stripe(0.017, 0.3, 0.007, 25.0, 0.01, 0.3, 3.5)
  const STRIPE_VARIED := Stripe(0.031, 0.7, 0.011, 13.0, 0.017, 0.9, 9.0)

  /** The marketplace assumptions that the repository publishes. */
  const MARKET := MarketInputs(
    0.02, 0.15, 0.05, 0.01, 0.002, 0.1, 90.0, 60.0, 5.0,
    199.0, 75.0, 30.0, 4.0, 90.0, 1500.0, 0.25,
    [Service(29.0, 3.0, 0.0, 0.03, 5.0, 0.3, 10.0, 0.8),
     Service(249.0, 10.0, 20.0, 0.1, 30.0, 1.2, 90.0, 0.2),
     Service(0.5, 0.05, 0.0, 0.0, 0.0, 0.1, 5.0, 0.0)],
    [Cohort(5, 50, 15000.0), Cohort(50, 100, 40000.0), Cohort(500, 200, 180000.0)], STRIPE)

  /** Marketplace assumptions that all differ. */
  const MARKET_VARIED := MarketInputs(
    0.07, 0.19, 0.03, 0.13, 0.011, 0.21, 83.0, 71.0, 17.0,
    311.0, 29.0, 23.0, 3.0, 61.0, 419.0, 0.35,
    [Service(127.0, 5.0, 11.0, 0.09, 37.0, 0.6, 19.0, 0.3),
     Service(59.0, 2.0, 7.0, 0.02, 43.0, 0.8, 31.0, 0.7)],
    [Cohort(3, 14, 230.0), Cohort(2, 1, 999.0)], STRIPE_VARIED)

  /** The operating assumptions that the repository publishes. */
  const OPERATING := OperatingInputs(
    map[Hosted := Hosting(199.0, 5.0, 120.0, 0.0, 500.0, 60.0, 1.2, 35.0, 10.0, 0.001),
        ProviderEndpoint := Hosting(0.0, 0.0, 78.0, 1.2, 100.0, 15.0, 0.1, 5.0, 5.0, 0.0001)],
    Reference(990.0, 0.0, 15.0, 60.0, 0.1, 30.0, 90.0, 30.0, 90.0, 0.02, 0.0, 0.0), STRIPE,
    0.0, 0.15, 0.05, 0.6, 3.0, 0.02,
    0.005, 0.002, 0.005, 0.01, 5.0, 60.0,
    90.0, 0.03, 0.05, 0.1, 60.0, [Cohort(5, 10, 15000.0), Cohort(100, 20, 40000.0), Cohort(1000, 30, 180000.0)])

  /** Operating assumptions that all differ. */
  const OPERATING_VARIED := OperatingInputs(
    map[Hosted := Hosting(61.0, 3.0, 97.0, 0.65, 210.0, 33.0, 0.85, 19.0, 7.0, 0.003),
        ProviderEndpoint := Hosting(0.0, 0.0, 101.0, 0.95, 230.0, 39.0, 0.45, 17.0, 8.0, 0.002)],
    Reference(410.0, 11.0, 16.0, 41.0, 0.18, 27.0, 67.0, 57.0, 49.0, 0.026, 0.31, 6.0), STRIPE_VARIED,
    0.03, 0.17, 0.07, 0.45, 5.0, 0.06,
    0.14, 0.013, 0.22, 0.12, 9.0, 53.0,
    47.0, 0.04, 0.08, 0.15, 37.0, [Cohort(3, 14, 230.0), Cohort(2, 1, 999.0)])

  lemma VariedMarketService0()
    ensures ServiceEconomics(MARKET_VARIED.services[0], MARKET_VARIED, false, None)
            == Some(CallMoney(127.0, 11811.0 / 121.0, 35433.0 / 12100.0, 4.637, 118939.0 / 6000.0, 47248121.0 / 726000.0,
                    19291.0 / 6000.0, -208231.0 / 726000.0))
  {
  }

  lemma VariedMarketService0InMarket()
    ensures ServiceEconomics(MARKET_VARIED.services[0], MARKET_VARIED, true, None)
            == Some(CallMoney(127.0, 11811.0 / 121.0, 224409.0 / 12100.0, 4.637, 118939.0 / 6000.0, 35909561.0 / 726000.0,
                    19291.0 / 6000.0, 11130329.0 / 726000.0))
  {
  }

  lemma VariedMarketService1()
    ensures ServiceEconomics(MARKET_VARIED.services[1], MARKET_VARIED, false, None)
            == Some(CallMoney(59.0, 5487.0 / 121.0, 16461.0 / 12100.0, 2.529, 10.873, 688289.0 / 24200.0, 20491.0 / 6000.0,
                    -1491751.0 / 726000.0))
  {
  }

  lemma VariedMarketService1InMarket()
    ensures ServiceEconomics(MARKET_VARIED.services[1], MARKET_VARIED, true, None)
            == Some(CallMoney(59.0, 5487.0 / 121.0, 104253.0 / 12100.0, 2.529, 10.873, 102541.0 / 4840.0, 20491.0 / 6000.0,
                    3775769.0 / 726000.0))
  {
  }

  lemma VariedMarketBlend1()
    requires AllServicesAdmit(MARKET_VARIED)
    ensures Blended(MARKET_VARIED, 1) == Blend(38.1, 1523619.0 / 605000.0, 752053.0 / 484000.0, 3.3, 5.7)
  {
    VariedMarketService0();
    VariedMarketService0InMarket();
    var call := BlendedCall(MARKET_VARIED.services[0], MARKET_VARIED);
    assert call == Blend(127.0, 507873.0 / 60500.0, 752053.0 / 145200.0, 11.0, 19.0);
  }

  lemma VariedMarketBlend2()
    requires AllServicesAdmit(MARKET_VARIED)
    ensures Blended(MARKET_VARIED, 2) == Blend(79.4, 1587603.0 / 302500.0, 6871981.0 / 3630000.0, 8.2, 27.4)
  {
    VariedMarketService1();
    VariedMarketService1InMarket();
    VariedMarketBlend1();
    var call := BlendedCall(MARKET_VARIED.services[1], MARKET_VARIED);
    assert call == Blend(59.0, 235941.0 / 60500.0, 351881.0 / 726000.0, 7.0, 31.0);
  }

  lemma VariedMarketAdmits()
    ensures MarketAdmits(MARKET_VARIED)
  {
    var ss := MARKET_VARIED.services;
    assert MixTotal(ss[..1]) == 0.3 by { assert ss[..1][..0] == ss[..0]; }
    assert MixTotal(ss[..2]) == 1.0 by { assert ss[..2][..1] == ss[..1]; }
    assert ss[..2] == ss;
  }

  lemma VariedMarketRow0()
    ensures MarketRowOf(MARKET_VARIED, Blend(79.4, 1587603.0 / 302500.0, 6871981.0 / 3630000.0, 8.2, 27.4),
        MARKET_VARIED.cohorts[0])
            == MarketRow(3, 42, 3334.8, 174455913.0 / 151250.0, 4882322557.0 / 6050000.0, 230.0, 3490822557.0 / 6050000.0,
                    1806.0,
              -7435477443.0 / 6050000.0, Some(1560900000.0 / 697474651.0), Some(1), 5.74, 959.0 / 2160000.0)
  {
  }

  lemma VariedMarketRow1()
    ensures MarketRowOf(MARKET_VARIED, Blend(79.4, 1587603.0 / 302500.0, 6871981.0 / 3630000.0, 8.2, 27.4),
        MARKET_VARIED.cohorts[1])
            == MarketRow(2, 2, 158.8, 95665103.0 / 151250.0, 554455474.0 / 1134375.0, 999.0, -578785151.0 / 1134375.0, 1204.0,
              -1944572651.0 / 1134375.0, Some(682893750.0 / 277227737.0), Some(5), 41.0 / 150.0, 137.0 / 6480000.0)
  {
  }

  /** The blended call of the varied assumptions, which the rows above rate. */
  lemma VariedMarket()
    ensures MarketAdmits(MARKET_VARIED) && Blended(MARKET_VARIED, 2) == Blend(79.4, 1587603.0 / 302500.0,
        6871981.0 / 3630000.0, 8.2, 27.4)
  {
    VariedMarketAdmits();
    VariedMarketBlend2();
  }

  /** An introduction pays the platform its share of the sale. */
  lemma PublishedIntroduction()
    ensures ServiceEconomics(MARKET.services[0], MARKET, true, Some(0.0))
            == Some(CallMoney(29.0, 290.0 / 11.0, 87.0 / 22.0, 0.793, 0.225, 25219.0 / 1375.0, 0.35, 793.0 / 220.0))
  {
  }

  /** Forty more minutes of review cost the report's Provider sixty and the platform nothing. */
  lemma PublishedReport()
    ensures ServiceEconomics(MARKET.services[1], MARKET, true, None)
            == Some(CallMoney(249.0, 12201.0 / 55.0, 36603.0 / 1100.0, 4.533, 34.5, 1534257.0 / 11000.0, 1.25, 8807.0 / 275.0))
    ensures ServiceEconomics(MARKET.services[1].(reviewMinutes := 60.0), MARKET, true, None)
            == Some(CallMoney(249.0, 12201.0 / 55.0, 36603.0 / 1100.0, 4.533, 94.5, 874257.0 / 11000.0, 1.25, 8807.0 / 275.0))
  {
  }

  function VariedHostedUnit(): Unit {
    Unit(2.8, 410.0, 711063.0 / 40250.0, 9127423.0 / 40250.0, 15187349.0 / 69000.0, 2.58,
         63.65, 3283.0 / 60.0, 0.954, 1.23, 235.85, 9.434)
  }

  lemma VariedHostedFigures()
    ensures RetainedCalls(OPERATING_VARIED) == 2.8 && MarketTake(OPERATING_VARIED) == 37.0 / 350.0
    ensures OperatingAdmits(OPERATING_VARIED, Hosted, 0.3, PayTo)
    ensures UnitOf(OPERATING_VARIED, Hosted, 0.3, PayTo) == VariedHostedUnit()
    ensures CallsToCover(OPERATING_VARIED.modes[Hosted], VariedHostedUnit()) == Some(19)
  {
  }

  lemma VariedHostedRow0()
    ensures OperatingRowOf(OPERATING_VARIED, OPERATING_VARIED.modes[Hosted], VariedHostedUnit(), 0.3,
        OPERATING_VARIED.cohorts[0])
            == OperatingRow(
              3, 14, 42, 17220.0, 2970849.0 / 2875.0, 139055159.0 / 359375.0, 237426193.0 / 718750.0,
              None, Some(2), Some(339034375.0 / 309176587.0),
              35076217.0 / 11500.0, -270698.0 / 8625.0, -2970517.0 / 34500.0, 15.384,
              166.5, 28.302, 56.604, 51.66)
  {
  }

  lemma VariedHostedRow1()
    ensures OperatingRowOf(OPERATING_VARIED, OPERATING_VARIED.modes[Hosted], VariedHostedUnit(), 0.3,
        OPERATING_VARIED.cohorts[1])
            == OperatingRow(
              2, 1, 2, 820.0, 3270158.0 / 20125.0, -37388791577.0 / 40250000.0, -38907665577.0 / 40250000.0,
              None, Some(29), Some(18985925000.0 / 3580395423.0),
              8220521.0 / 80500.0, -56988317.0 / 483000.0, -27805489.0 / 161000.0, 1.981,
              111.0 / 14.0, 18.868, 37.736, 2.46)
  {
  }

  function VariedInvoiceUnit(): Unit {
    Unit(2.8, 410.0, 225459.0 / 28750.0, 4899681.0 / 28750.0, 15187349.0 / 69000.0, 2.58,
         63.65, 3283.0 / 60.0, 0.954, 1.23, 235.85, 9.434)
  }

  lemma VariedInvoiceFigures()
    ensures RetainedCalls(OPERATING_VARIED) == 2.8 && MarketTake(OPERATING_VARIED) == 37.0 / 350.0
    ensures OperatingAdmits(OPERATING_VARIED, Hosted, 0.0, ProviderInvoice)
    ensures UnitOf(OPERATING_VARIED, Hosted, 0.0, ProviderInvoice) == VariedInvoiceUnit()
    ensures CallsToCover(OPERATING_VARIED.modes[Hosted], VariedInvoiceUnit()) == None
  {
  }

  lemma VariedInvoiceRow0()
    ensures OperatingRowOf(OPERATING_VARIED, OPERATING_VARIED.modes[Hosted], VariedInvoiceUnit(), 0.0,
        OPERATING_VARIED.cohorts[0])
            == OperatingRow(
              3, 14, 42, 17220.0, 8922939.0 / 14375.0, 101216893.0 / 718750.0, 30266384.0 / 359375.0,
              Some(-386992607.0 / 718750.0), Some(2), Some(339034375.0 / 191247637.0),
              130023693.0 / 57500.0, -35371534.0 / 43125.0, -150924761.0 / 172500.0, 15.384,
              0.0, 28.302, 56.604, 51.66)
  {
  }

  function VariedEndpointUnit(): Unit {
    Unit(2.8, 410.0, 142598.0 / 4025.0, 16518307.0 / 80500.0, 14858449.0 / 69000.0, 0.0,
         63.65, 3283.0 / 60.0, 0.954, 0.82, 260.55, 10.422)
  }

  lemma VariedEndpointFigures()
    ensures RetainedCalls(OPERATING_VARIED) == 2.8 && MarketTake(OPERATING_VARIED) == 37.0 / 350.0
    ensures OperatingAdmits(OPERATING_VARIED, ProviderEndpoint, 1.0, Card)
    ensures UnitOf(OPERATING_VARIED, ProviderEndpoint, 1.0, Card) == VariedEndpointUnit()
    ensures CallsToCover(OPERATING_VARIED.modes[ProviderEndpoint], VariedEndpointUnit()) == None
  {
  }

  lemma VariedEndpointRow0()
    ensures OperatingRowOf(OPERATING_VARIED, OPERATING_VARIED.modes[ProviderEndpoint], VariedEndpointUnit(), 1.0,
        OPERATING_VARIED.cohorts[0])
            == OperatingRow(
              3, 14, 42, 17220.0, 855588.0 / 575.0, 5788009.0 / 11500.0, 5068891.0 / 11500.0,
              None, Some(1), Some(998775.0 / 976952.0),
              32304639.0 / 11500.0, -3547613.0 / 17250.0, -2994317.0 / 11500.0, 15.384,
              555.0, 31.266, 62.532, 34.44)
  {
  }

  function HostedByCardUnit(): Unit {
    Unit(2.2, 990.0, 0.0, 742.845, 701.95, 4.975,
         45.0, 135.0, 0.05, 0.99, 590.0, 17.7)
  }

  lemma HostedByCardFigures()
    ensures RetainedCalls(OPERATING) == 2.2 && MarketTake(OPERATING) == 21.0 / 220.0
    ensures OperatingAdmits(OPERATING, Hosted, 0.0, Card)
    ensures UnitOf(OPERATING, Hosted, 0.0, Card) == HostedByCardUnit()
    ensures CallsToCover(OPERATING.modes[Hosted], HostedByCardUnit()) == Some(6)
  {
  }

  lemma HostedByCardRow0()
    ensures OperatingRowOf(OPERATING, OPERATING.modes[Hosted], HostedByCardUnit(), 0.0, OPERATING.cohorts[0])
            == OperatingRow(
              5, 10, 50, 49500.0, 1243.75, -14216.085, -14363.585,
              Some(-17077.585), Some(96), Some(590000.0 / 174483.0),
              7184.45, 164.95, 29.95, 13.5,
              0.0, 88.5, 147.5, 49.5)
  {
  }

  /** The first published cohort, if the inputs are admitted. */
  function FirstRow(o: OperatingInputs, mode: Mode, share: real, payment: Payment): Option<OperatingRow> {
    if OperatingAdmits(o, mode, share, payment) && o.cohorts != [] && RetainedCalls(o) != 0.0
      then Some(OperatingRowOf(o, o.modes[mode], UnitOf(o, mode, share, payment), share, o.cohorts[0]))
    else None
  }

  /** PayTo, capped, gains the Provider more than a card. */
  lemma HostedByPayTo()
    ensures var row := FirstRow(OPERATING, Hosted, 0.0, PayTo);
            row.Some? && row.value.providerGain == 301.25 && row.value.providerMonth == 7320.75
  {
  }

  /** So does its own invoice, after bad debt. */
  lemma HostedByInvoice()
    ensures var row := FirstRow(OPERATING, Hosted, 0.0, ProviderInvoice);
            row.Some? && row.value.providerGain == 292.15 && row.value.providerMonth == 7311.65
  {
  }

  /** A Provider that already pays for cards keeps the difference. */
  lemma CardBefore()
    ensures var row := FirstRow(OPERATING.(service := OPERATING.service.(baselinePayment := 17.13)), Hosted, 0.0, Card);
            row.Some? && row.value.providerGain == 336.25 && row.value.providerMonth == 7184.45
  {
  }

  /** Two hours of review lose against the existing delivery. */
  lemma SlowReview()
    ensures var row := FirstRow(OPERATING.(service := OPERATING.service.(reviewMinutes := 120.0)), Hosted, 0.0, Card);
            row.Some? && row.value.providerGain == -735.05 && row.value.providerMonth == 6284.45
  {
  }

  /** A month in which every sale is refunded loses money. */
  lemma AllRefunded()
    ensures var row := FirstRow(OPERATING.(refund := 1.0), Hosted, 0.0, Card);
            row.Some? && row.value.providerGain == -8655.05 && row.value.providerMonth == -1635.55
  {
  }

  /** So does a month of unpaid invoices. */
  lemma InvoicesUnpaid()
    ensures var row := FirstRow(OPERATING.(badDebt := 1.0), Hosted, 0.0, ProviderInvoice);
            row.Some? && row.value.providerGain == -8483.75 && row.value.providerMonth == -1464.25
  {
  }

  /** An existing endpoint sold through the market earns, but no more than before. */
  lemma EndpointMarket()
    ensures var row := FirstRow(OPERATING, ProviderEndpoint, 1.0, Card);
            row.Some? && row.value.providerGain == -116403.0 / 110.0 && row.value.providerMonth == 361861.0 / 55.0
  {
  }
}
