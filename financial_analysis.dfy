/** The year-by-year solar projection: the per-year quantities, the
    accumulator fold that specifies the projection loop, the summary
    metrics, and the imperative loop itself, proved to compute that fold. */
module FinancialAnalysis {
  import opened Types

  /** The sales tax (VAT) in percent; fixed, not a parameter. */
  const SalesTax: real := 12.0

  /** `b` raised to a natural power; the projection only ever raises a
      growth factor to the whole number `year - 1`. */
  function Pow(b: real, n: nat): (r: real)
    ensures b >= 0.0 ==> r >= 0.0
    ensures b == 1.0 ==> r == 1.0
    ensures n == 0 ==> r == 1.0
  {
    if n == 0 then 1.0 else b * Pow(b, n - 1)
  }

  // ---------------------------------------------------------------------
  // Quantities of one projected year (year >= 1; year 1 is unescalated)
  // ---------------------------------------------------------------------

  /** Output after `year - 1` years of panel degradation. */
  function DegradedProduction(inp: InputData, year: nat): real
    requires year >= 1
  {
    inp.annualProduction * Pow(1.0 - inp.panelDegradation / 100.0, year - 1)
  }

  /** Energy unit price after `year - 1` years of tariff escalation. */
  function CurrentKwhPrice(inp: InputData, year: nat): real
    requires year >= 1
  {
    inp.kwhPrice * Pow(1.0 + inp.electricityPriceIncrease / 100.0, year - 1)
  }

  /** The multiplier that adds sales tax and municipal tax to avoided energy. */
  function SavingsTaxFactor(inp: InputData): real
  {
    1.0 + SalesTax / 100.0 + inp.municipalTaxRate / 100.0
  }

  /** The multiplier that adds sales tax (only) to residual grid energy. */
  function GridTaxFactor(): real
  {
    1.0 + SalesTax / 100.0
  }

  /** Tax-inclusive value of the energy the system offsets in `year`. */
  function AnnualSavings(inp: InputData, year: nat): real
    requires year >= 1
  {
    DegradedProduction(inp, year) * CurrentKwhPrice(inp, year) * SavingsTaxFactor(inp)
  }

  /** Maintenance plus twelve monthly fixed charges, both escalated by inflation. */
  function AnnualMaintenanceAndFixed(inp: InputData, year: nat): real
    requires year >= 1
  {
    inp.maintenanceCost * Pow(1.0 + inp.inflationRate / 100.0, year - 1)
    + inp.fixedCharge * Pow(1.0 + inp.inflationRate / 100.0, year - 1) * 12.0
  }

  /** Twelve months of residual grid energy at the power and distribution
      charges, both escalated by the electricity price increase, before tax. */
  function AnnualGridEnergyCostWithoutTax(inp: InputData, year: nat): real
    requires year >= 1
  {
    inp.gridEnergyKwh
      * (inp.powerCharge * Pow(1.0 + inp.electricityPriceIncrease / 100.0, year - 1)
         + inp.distributionCharge * Pow(1.0 + inp.electricityPriceIncrease / 100.0, year - 1))
      * 12.0
  }

  /** Residual grid energy cost with sales tax (and no municipal tax). */
  function AnnualGridEnergyCost(inp: InputData, year: nat): real
    requires year >= 1
  {
    AnnualGridEnergyCostWithoutTax(inp, year) * GridTaxFactor()
  }

  /** All running costs of `year`. */
  function AnnualCosts(inp: InputData, year: nat): real
    requires year >= 1
  {
    AnnualMaintenanceAndFixed(inp, year) + AnnualGridEnergyCost(inp, year)
  }

  // ---------------------------------------------------------------------
  // The projection loop as a fold over the years
  // ---------------------------------------------------------------------

  /** The loop's local state after some number of years. */
  datatype Accumulators = Accumulators(
    yearlyData: seq<YearlyData>,
    cumulativeSavings: real,
    cumulativeCosts: real,
    paybackPeriod: Option<nat>,
    totalLifetimeProduction: real,
    totalMaintenanceAndFixedCharges: real,
    totalGridEnergyCost: real)

  /** Before year 1: the net position is minus the system cost, the cost
      so far is the system cost, nothing else has accrued. */
  function Initial(inp: InputData): Accumulators
  {
    Accumulators([], -inp.systemCost, inp.systemCost, None, 0.0, 0.0, 0.0)
  }

  /** One iteration of the projection loop for `year`. */
  function Step(inp: InputData, acc: Accumulators, year: nat): Accumulators
    requires year >= 1
  {
    var savings := AnnualSavings(inp, year);
    var costs := AnnualCosts(inp, year);
    var net := savings - costs;
    var cumulativeSavings := acc.cumulativeSavings + net;
    var cumulativeCosts := acc.cumulativeCosts + costs;
    Accumulators(
      acc.yearlyData + [YearlyData(year, savings, costs, net, cumulativeSavings, cumulativeCosts)],
      cumulativeSavings,
      cumulativeCosts,
      if acc.paybackPeriod.None? && cumulativeSavings >= 0.0 then Some(year) else acc.paybackPeriod,
      acc.totalLifetimeProduction + DegradedProduction(inp, year),
      acc.totalMaintenanceAndFixedCharges + AnnualMaintenanceAndFixed(inp, year),
      acc.totalGridEnergyCost + AnnualGridEnergyCost(inp, year))
  }

  /** The loop's state after years 1..n. */
  function Run(inp: InputData, n: nat): Accumulators
  {
    if n == 0 then Initial(inp) else Step(inp, Run(inp, n - 1), n)
  }

  // ---------------------------------------------------------------------
  // Summary metrics
  // ---------------------------------------------------------------------

  /** Return on investment in percent of the system cost; undefined
      (`None`) for a zero system cost. */
  function Roi(totalNetSavings: real, systemCost: real): (r: Option<real>)
    ensures r.Some? <==> systemCost != 0.0
    ensures r.Some? ==> r.value * systemCost == totalNetSavings * 100.0
  {
    if systemCost == 0.0 then None else Some(totalNetSavings / systemCost * 100.0)
  }

  /** Levelized cost of energy: cost per unit of lifetime production, and 0
      when there is no positive production to divide by. */
  function Lcoe(totalCost: real, totalLifetimeProduction: real): (r: real)
    ensures totalLifetimeProduction > 0.0 ==> r * totalLifetimeProduction == totalCost
    ensures totalLifetimeProduction <= 0.0 ==> r == 0.0
  {
    if totalLifetimeProduction > 0.0 then totalCost / totalLifetimeProduction else 0.0
  }

  /** The results derived from the loop's final state. */
  function Summarize(inp: InputData, acc: Accumulators): AnalysisResults
  {
    AnalysisResults(
      acc.yearlyData,
      acc.paybackPeriod,
      acc.cumulativeSavings,
      acc.cumulativeCosts,
      Roi(acc.cumulativeSavings, inp.systemCost),
      Lcoe(acc.cumulativeCosts, acc.totalLifetimeProduction),
      acc.totalMaintenanceAndFixedCharges,
      acc.totalGridEnergyCost)
  }

  /** The whole projection over the system's lifetime. */
  function Analysis(inp: InputData): AnalysisResults
  {
    Summarize(inp, Run(inp, inp.systemLifetime))
  }

  // ---------------------------------------------------------------------
  // The projection loop
  // ---------------------------------------------------------------------

  /** Projects years 1..systemLifetime, appending one record per year and
      keeping the running totals and the first payback year. */
  method Analyze(inp: InputData) returns (results: AnalysisResults)
    ensures results == Analysis(inp)
  {
    var yearlyData: seq<YearlyData> := [];
    var cumulativeSavings := -inp.systemCost;
    var cumulativeCosts := inp.systemCost;
    var paybackPeriod: Option<nat> := None;
    var totalLifetimeProduction := 0.0;
    var totalMaintenanceAndFixedCharges := 0.0;
    var totalGridEnergyCost := 0.0;

    var year: nat := 1;
    while year <= inp.systemLifetime
      invariant 1 <= year <= inp.systemLifetime + 1
      invariant Run(inp, year - 1) == Accumulators(
        yearlyData, cumulativeSavings, cumulativeCosts, paybackPeriod,
        totalLifetimeProduction, totalMaintenanceAndFixedCharges, totalGridEnergyCost)
    {
      var degradedProduction := DegradedProduction(inp, year);
      totalLifetimeProduction := totalLifetimeProduction + degradedProduction;
      var totalAnnualSavings := AnnualSavings(inp, year);
      var annualMaintenanceAndFixed := AnnualMaintenanceAndFixed(inp, year);
      totalMaintenanceAndFixedCharges := totalMaintenanceAndFixedCharges + annualMaintenanceAndFixed;
      var annualGridEnergyCost := AnnualGridEnergyCost(inp, year);
      totalGridEnergyCost := totalGridEnergyCost + annualGridEnergyCost;
      var totalAnnualCosts := annualMaintenanceAndFixed + annualGridEnergyCost;

      var netSavings := totalAnnualSavings - totalAnnualCosts;
      cumulativeSavings := cumulativeSavings + netSavings;
      cumulativeCosts := cumulativeCosts + totalAnnualCosts;

      yearlyData := yearlyData + [YearlyData(
        year, totalAnnualSavings, totalAnnualCosts, netSavings, cumulativeSavings, cumulativeCosts)];

      if paybackPeriod.None? && cumulativeSavings >= 0.0 {
        paybackPeriod := Some(year);
      }
      year := year + 1;
    }

    var totalNetSavings := cumulativeSavings;
    var totalCost := cumulativeCosts;
    var roi := if inp.systemCost == 0.0 then None else Some(totalNetSavings / inp.systemCost * 100.0);
    var lcoe := if totalLifetimeProduction > 0.0 then totalCost / totalLifetimeProduction else 0.0;

    results := AnalysisResults(
      yearlyData, paybackPeriod, totalNetSavings, totalCost, roi, lcoe,
      totalMaintenanceAndFixedCharges, totalGridEnergyCost);
  }
}
