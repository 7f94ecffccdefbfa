/** What the projection guarantees: the shape of the yearly series, the
    running-sum identities, the cost reconciliation, payback as the first
    crossing of zero, non-decreasing cumulative costs, the summary metrics,
    the unescalated first year and the behaviour in kwhPrice. */
module AnalysisProperties {
  import opened Types
  import opened FinancialAnalysis

  // ---------------------------------------------------------------------
  // Reference sums over the columns of a series
  // ---------------------------------------------------------------------

  /** Sum of the netSavings column. */
  function NetSavingsSum(rows: seq<YearlyData>): real
  {
    if rows == [] then 0.0 else NetSavingsSum(rows[..|rows| - 1]) + rows[|rows| - 1].netSavings
  }

  /** Sum of the annualCosts column. */
  function AnnualCostsSum(rows: seq<YearlyData>): real
  {
    if rows == [] then 0.0 else AnnualCostsSum(rows[..|rows| - 1]) + rows[|rows| - 1].annualCosts
  }

  /** Maintenance and fixed charges of years 1..n. */
  function MaintenanceAndFixedSum(inp: InputData, n: nat): real
  {
    if n == 0 then 0.0 else MaintenanceAndFixedSum(inp, n - 1) + AnnualMaintenanceAndFixed(inp, n)
  }

  /** Tax-inclusive residual grid energy cost of years 1..n. */
  function GridEnergyCostSum(inp: InputData, n: nat): real
  {
    if n == 0 then 0.0 else GridEnergyCostSum(inp, n - 1) + AnnualGridEnergyCost(inp, n)
  }

  /** Lifetime production of years 1..n. */
  function ProductionSum(inp: InputData, n: nat): real
  {
    if n == 0 then 0.0 else ProductionSum(inp, n - 1) + DegradedProduction(inp, n)
  }

  // ---------------------------------------------------------------------
  // Shape of the series
  // ---------------------------------------------------------------------

  /** After n years there are n records, record i is year i+1, and each
      record holds that year's savings, costs and their difference. */
  lemma {:induction false} SeriesShape(inp: InputData, n: nat)
    ensures |Run(inp, n).yearlyData| == n
    ensures forall i :: 0 <= i < n ==>
      var r := Run(inp, n).yearlyData[i];
      r.year == i + 1
      && r.annualSavings == AnnualSavings(inp, i + 1)
      && r.annualCosts == AnnualCosts(inp, i + 1)
      && r.netSavings == r.annualSavings - r.annualCosts
  {
    if n > 0 {
      SeriesShape(inp, n - 1);
    }
  }

  /** Records are only ever appended: the first n records do not depend on
      how many more years are projected. */
  lemma {:induction false} SeriesAppendOnly(inp: InputData, n: nat, m: nat)
    requires n <= m
    ensures |Run(inp, n).yearlyData| <= |Run(inp, m).yearlyData|
    ensures Run(inp, n).yearlyData == Run(inp, m).yearlyData[..|Run(inp, n).yearlyData|]
  {
    SeriesShape(inp, n);
    SeriesShape(inp, m);
    if n < m {
      SeriesAppendOnly(inp, n, m - 1);
      SeriesShape(inp, m - 1);
    }
  }

  /** Record i of any longer run carries the running totals of Run(inp, i+1). */
  lemma RecordCarriesRunningTotals(inp: InputData, n: nat, i: nat)
    requires i < n
    ensures |Run(inp, n).yearlyData| == n
    ensures Run(inp, n).yearlyData[i].cumulativeSavings == Run(inp, i + 1).cumulativeSavings
    ensures Run(inp, n).yearlyData[i].cumulativeCosts == Run(inp, i + 1).cumulativeCosts
  {
    SeriesShape(inp, n);
    SeriesShape(inp, i);
    SeriesAppendOnly(inp, i + 1, n);
  }

  // ---------------------------------------------------------------------
  // Running sums and cost reconciliation
  // ---------------------------------------------------------------------

  /** The running net position is the system cost's negative plus all net
      savings so far, and the running cost is the system cost plus all
      annual costs so far. */
  lemma {:induction false} RunningTotals(inp: InputData, n: nat)
    ensures Run(inp, n).cumulativeSavings == -inp.systemCost + NetSavingsSum(Run(inp, n).yearlyData)
    ensures Run(inp, n).cumulativeCosts == inp.systemCost + AnnualCostsSum(Run(inp, n).yearlyData)
  {
    if n > 0 {
      RunningTotals(inp, n - 1);
      var rows := Run(inp, n).yearlyData;
      assert rows[..|rows| - 1] == Run(inp, n - 1).yearlyData;
    }
  }

  /** Every record's cumulative columns are running sums of the series up
      to and including that record. */
  lemma CumulativeColumns(inp: InputData, n: nat, i: nat)
    requires i < n
    ensures |Run(inp, n).yearlyData| == n
    ensures var rows := Run(inp, n).yearlyData;
      rows[i].cumulativeSavings == -inp.systemCost + NetSavingsSum(rows[..i + 1])
      && rows[i].cumulativeCosts == inp.systemCost + AnnualCostsSum(rows[..i + 1])
  {
    RecordCarriesRunningTotals(inp, n, i);
    RunningTotals(inp, i + 1);
    SeriesShape(inp, i + 1);
    SeriesAppendOnly(inp, i + 1, n);
  }

  /** The running cost equals the system cost plus the two cost totals the
      loop keeps for the breakdown. */
  lemma {:induction false} CostReconciliation(inp: InputData, n: nat)
    ensures Run(inp, n).cumulativeCosts
      == inp.systemCost + Run(inp, n).totalMaintenanceAndFixedCharges + Run(inp, n).totalGridEnergyCost
  {
    if n > 0 {
      CostReconciliation(inp, n - 1);
    }
  }

  /** The production total the loop keeps is the sum of the degraded
      production of every projected year. */
  lemma {:induction false} ProductionTotal(inp: InputData, n: nat)
    ensures Run(inp, n).totalLifetimeProduction == ProductionSum(inp, n)
  {
    if n > 0 {
      ProductionTotal(inp, n - 1);
    }
  }

  /** Each breakdown total the loop keeps is the sum of its own per-year
      term: maintenance with fixed charges, and grid energy cost. */
  lemma {:induction false} BreakdownTotals(inp: InputData, n: nat)
    ensures Run(inp, n).totalMaintenanceAndFixedCharges == MaintenanceAndFixedSum(inp, n)
    ensures Run(inp, n).totalGridEnergyCost == GridEnergyCostSum(inp, n)
  {
    if n > 0 {
      BreakdownTotals(inp, n - 1);
    }
  }

  // ---------------------------------------------------------------------
  // Payback period
  // ---------------------------------------------------------------------

  /** Payback after n years is the first year k <= n with a non-negative
      running net position, and absent when there is none. */
  lemma {:induction false} PaybackIsFirstCrossing(inp: InputData, n: nat)
    ensures Run(inp, n).paybackPeriod.Some? ==>
      var p := Run(inp, n).paybackPeriod.value;
      1 <= p <= n
      && Run(inp, p).cumulativeSavings >= 0.0
      && forall k :: 1 <= k < p ==> Run(inp, k).cumulativeSavings < 0.0
    ensures Run(inp, n).paybackPeriod.None? ==>
      forall k :: 1 <= k <= n ==> Run(inp, k).cumulativeSavings < 0.0
  {
    if n > 0 {
      PaybackIsFirstCrossing(inp, n - 1);
    }
  }

  /** Once set, the payback period never changes. */
  lemma {:induction false} PaybackStable(inp: InputData, n: nat, m: nat)
    requires n <= m
    requires Run(inp, n).paybackPeriod.Some?
    ensures Run(inp, m).paybackPeriod == Run(inp, n).paybackPeriod
  {
    if n < m {
      PaybackStable(inp, n, m - 1);
    }
  }

  // ---------------------------------------------------------------------
  // Non-negative costs
  // ---------------------------------------------------------------------

  /** The parameter domains under which no year has negative costs. */
  predicate CostsDomain(inp: InputData)
  {
    inp.maintenanceCost >= 0.0 && inp.fixedCharge >= 0.0
    && inp.powerCharge >= 0.0 && inp.distributionCharge >= 0.0 && inp.gridEnergyKwh >= 0.0
    && inp.inflationRate >= -100.0 && inp.electricityPriceIncrease >= -100.0
  }

  lemma NonNegativeProduct(x: real, y: real)
    requires x >= 0.0 && y >= 0.0
    ensures x * y >= 0.0
  {
  }

  /** Every year's costs are non-negative under the cost domains. */
  lemma AnnualCostsNonNegative(inp: InputData, year: nat)
    requires CostsDomain(inp)
    requires year >= 1
    ensures AnnualMaintenanceAndFixed(inp, year) >= 0.0
    ensures AnnualGridEnergyCost(inp, year) >= 0.0
    ensures AnnualCosts(inp, year) >= 0.0
  {
  }

  /** Under the cost domains the cumulative cost column never decreases. */
  lemma CumulativeCostsNonDecreasing(inp: InputData, n: nat, i: nat, j: nat)
    requires CostsDomain(inp)
    requires i <= j < n
    ensures |Run(inp, n).yearlyData| == n
    ensures Run(inp, n).yearlyData[i].cumulativeCosts <= Run(inp, n).yearlyData[j].cumulativeCosts
  {
    RecordCarriesRunningTotals(inp, n, i);
    RecordCarriesRunningTotals(inp, n, j);
    RunCostsNonDecreasing(inp, i + 1, j + 1);
  }

  lemma {:induction false} RunCostsNonDecreasing(inp: InputData, k: nat, m: nat)
    requires CostsDomain(inp)
    requires k <= m
    ensures Run(inp, k).cumulativeCosts <= Run(inp, m).cumulativeCosts
  {
    if k < m {
      RunCostsNonDecreasing(inp, k, m - 1);
      AnnualCostsNonNegative(inp, m);
    }
  }

  // ---------------------------------------------------------------------
  // The whole projection and its summary
  // ---------------------------------------------------------------------

  /** The projection's series has one record per year of the lifetime, in
      order, each with its year's savings, costs and net savings. */
  lemma AnalysisSeries(inp: InputData)
    ensures |Analysis(inp).yearlyData| == inp.systemLifetime
    ensures inp.systemLifetime == 0 ==> Analysis(inp).yearlyData == []
    ensures forall i :: 0 <= i < inp.systemLifetime ==>
      var r := Analysis(inp).yearlyData[i];
      r.year == i + 1
      && r.annualSavings == AnnualSavings(inp, i + 1)
      && r.annualCosts == AnnualCosts(inp, i + 1)
      && r.netSavings == r.annualSavings - r.annualCosts
  {
    SeriesShape(inp, inp.systemLifetime);
  }

  /** Total net savings and total cost are the last record's cumulative
      values (the seeds when nothing was projected), are the running sums
      over the whole series, and the total cost splits into system cost,
      maintenance with fixed charges, and grid energy. */
  lemma AnalysisTotals(inp: InputData)
    ensures var a := Analysis(inp); var rows := a.yearlyData;
      |rows| == inp.systemLifetime
      && a.totalNetSavings == (if rows == [] then -inp.systemCost else rows[|rows| - 1].cumulativeSavings)
      && a.totalCost == (if rows == [] then inp.systemCost else rows[|rows| - 1].cumulativeCosts)
      && a.totalNetSavings == -inp.systemCost + NetSavingsSum(rows)
      && a.totalCost == inp.systemCost + AnnualCostsSum(rows)
      && a.totalCost == inp.systemCost + a.totalMaintenanceAndFixedCharges + a.totalGridEnergyCost
  {
    var n := inp.systemLifetime;
    SeriesShape(inp, n);
    RunningTotals(inp, n);
    CostReconciliation(inp, n);
  }

  /** The two cost-breakdown totals of the result are the lifetime sums of
      their own per-year terms, and with the system cost they make up the
      total cost. */
  lemma AnalysisBreakdown(inp: InputData)
    ensures var a := Analysis(inp);
      a.totalMaintenanceAndFixedCharges == MaintenanceAndFixedSum(inp, inp.systemLifetime)
      && a.totalGridEnergyCost == GridEnergyCostSum(inp, inp.systemLifetime)
      && a.totalCost == inp.systemCost + MaintenanceAndFixedSum(inp, inp.systemLifetime)
                        + GridEnergyCostSum(inp, inp.systemLifetime)
  {
    BreakdownTotals(inp, inp.systemLifetime);
    CostReconciliation(inp, inp.systemLifetime);
  }

  /** Under the cost domains the cumulativeCosts column of the result never
      decreases from one year to any later one. */
  lemma AnalysisCumulativeCostsNonDecreasing(inp: InputData)
    requires CostsDomain(inp)
    ensures var rows := Analysis(inp).yearlyData;
      |rows| == inp.systemLifetime
      && forall i, j :: 0 <= i <= j < |rows| ==> rows[i].cumulativeCosts <= rows[j].cumulativeCosts
  {
    var n := inp.systemLifetime;
    SeriesShape(inp, n);
    forall i, j | 0 <= i <= j < n
      ensures Run(inp, n).yearlyData[i].cumulativeCosts <= Run(inp, n).yearlyData[j].cumulativeCosts
    {
      CumulativeCostsNonDecreasing(inp, n, i, j);
    }
  }

  /** Payback, read off the series: if it is year p, record p is the first
      with a non-negative cumulative saving; if absent, every record's
      cumulative saving is negative. */
  lemma AnalysisPayback(inp: InputData)
    ensures var a := Analysis(inp); var rows := a.yearlyData;
      |rows| == inp.systemLifetime
      && (a.paybackPeriod.Some? ==>
            1 <= a.paybackPeriod.value <= |rows|
            && rows[a.paybackPeriod.value - 1].cumulativeSavings >= 0.0
            && forall i :: 0 <= i < a.paybackPeriod.value - 1 ==> rows[i].cumulativeSavings < 0.0)
      && (a.paybackPeriod.None? ==> forall i :: 0 <= i < |rows| ==> rows[i].cumulativeSavings < 0.0)
  {
    var n := inp.systemLifetime;
    SeriesShape(inp, n);
    PaybackIsFirstCrossing(inp, n);
    forall i | 0 <= i < n
      ensures Run(inp, n).yearlyData[i].cumulativeSavings == Run(inp, i + 1).cumulativeSavings
    {
      RecordCarriesRunningTotals(inp, n, i);
    }
  }

  /** LCOE is total cost per unit of lifetime production (0 without positive
      production); ROI is total net savings in percent of the system cost,
      undefined exactly when that cost is 0. */
  lemma AnalysisMetrics(inp: InputData)
    ensures var a := Analysis(inp); var produced := ProductionSum(inp, inp.systemLifetime);
      (produced > 0.0 ==> a.lcoe * produced == a.totalCost)
      && (produced <= 0.0 ==> a.lcoe == 0.0)
      && (a.roi.Some? <==> inp.systemCost != 0.0)
      && (a.roi.Some? ==> a.roi.value * inp.systemCost == a.totalNetSavings * 100.0)
  {
    ProductionTotal(inp, inp.systemLifetime);
  }

  // ---------------------------------------------------------------------
  // Particular parameter choices
  // ---------------------------------------------------------------------

  /** Year 1 uses the unescalated parameters. */
  lemma FirstYearUnescalated(inp: InputData)
    ensures DegradedProduction(inp, 1) == inp.annualProduction
    ensures AnnualSavings(inp, 1) == inp.annualProduction * inp.kwhPrice * (1.12 + inp.municipalTaxRate / 100.0)
    ensures AnnualCosts(inp, 1)
      == inp.maintenanceCost + 12.0 * inp.fixedCharge
         + 12.0 * 1.12 * inp.gridEnergyKwh * (inp.powerCharge + inp.distributionCharge)
  {
  }

  /** Savings carry sales tax and municipal tax, residual grid energy only
      sales tax: the municipal rate moves savings and never costs. */
  lemma TaxTreatment(inp: InputData, year: nat, municipalTaxRate: real)
    requires year >= 1
    ensures AnnualSavings(inp, year)
      == DegradedProduction(inp, year) * CurrentKwhPrice(inp, year) * (1.12 + inp.municipalTaxRate / 100.0)
    ensures AnnualGridEnergyCost(inp, year) == AnnualGridEnergyCostWithoutTax(inp, year) * 1.12
    ensures AnnualCosts(inp.(municipalTaxRate := municipalTaxRate), year) == AnnualCosts(inp, year)
  {
  }

  /** Without degradation, inflation or tariff escalation every year has
      year 1's savings and costs. */
  lemma FlatYears(inp: InputData, year: nat)
    requires inp.panelDegradation == 0.0 && inp.inflationRate == 0.0 && inp.electricityPriceIncrease == 0.0
    requires year >= 1
    ensures AnnualSavings(inp, year) == AnnualSavings(inp, 1)
    ensures AnnualCosts(inp, year) == AnnualCosts(inp, 1)
  {
  }

  /** The application's default parameters. */
  const Defaults: InputData := InputData(
    systemCost := 20000.0, annualProduction := 3900.0, kwhPrice := 1.13, systemLifetime := 15,
    maintenanceCost := 250.0, municipalTaxRate := 14.0, inflationRate := 1.0,
    electricityPriceIncrease := 1.0, panelDegradation := 1.0, fixedCharge := 14.0,
    powerCharge := 0.06, distributionCharge := 0.25, gridEnergyKwh := 100.0)

  /** The first record of any projection that runs at least a year. */
  lemma FirstRecord(inp: InputData)
    requires inp.systemLifetime >= 1
    ensures |Analysis(inp).yearlyData| == inp.systemLifetime
    ensures var r := Analysis(inp).yearlyData[0];
      r.year == 1 && r.annualSavings == AnnualSavings(inp, 1) && r.annualCosts == AnnualCosts(inp, 1)
      && r.netSavings == AnnualSavings(inp, 1) - AnnualCosts(inp, 1)
      && r.cumulativeSavings == -inp.systemCost + (AnnualSavings(inp, 1) - AnnualCosts(inp, 1))
      && r.cumulativeCosts == inp.systemCost + AnnualCosts(inp, 1)
  {
    SeriesShape(inp, inp.systemLifetime);
    RecordCarriesRunningTotals(inp, inp.systemLifetime, 0);
  }

  /** Year 1 under the defaults: 5552.82 saved, 834.64 spent, and the net
      position stands at -15281.82. */
  lemma DefaultsFirstYear()
    ensures |Analysis(Defaults).yearlyData| == 15
    ensures var r := Analysis(Defaults).yearlyData[0];
      r.year == 1 && r.annualSavings == 5552.82 && r.annualCosts == 834.64
      && r.netSavings == 4718.18 && r.cumulativeSavings == -15281.82
  {
    assert AnnualSavings(Defaults, 1) == 5552.82;
    assert AnnualCosts(Defaults, 1) == 834.64;
    FirstRecord(Defaults);
  }

  /** Under the defaults the net position first turns non-negative in year 5. */
  lemma DefaultsPayback()
    ensures Analysis(Defaults).paybackPeriod == Some(5)
  {
    assert Run(Defaults, 1).cumulativeSavings < 0.0;
    assert Run(Defaults, 2).cumulativeSavings < 0.0;
    assert Run(Defaults, 3).cumulativeSavings < 0.0;
    assert Run(Defaults, 4).cumulativeSavings < 0.0;
    assert Run(Defaults, 4).paybackPeriod == None;
    assert Pow(1.01, 4) == 1.04060401;
    assert Pow(0.99, 4) == 0.96059601;
    assert AnnualSavings(Defaults, 5) == 5550.599205146989275282;
    assert AnnualCosts(Defaults, 5) == 868.5297309064;
    assert Run(Defaults, 5).cumulativeSavings >= 0.0;
    assert Run(Defaults, 5).paybackPeriod == Some(5);
    PaybackStable(Defaults, 5, 15);
  }

  // ---------------------------------------------------------------------
  // Monotonicity in the energy price
  // ---------------------------------------------------------------------

  /** The parameter domains under which a dearer tariff cannot lower savings. */
  predicate SavingsDomain(inp: InputData)
  {
    inp.annualProduction >= 0.0 && inp.panelDegradation <= 100.0
    && inp.electricityPriceIncrease >= -100.0 && inp.municipalTaxRate >= 0.0
  }

  lemma {:induction false} AnnualSavingsMonotoneInPrice(inp: InputData, price: real, year: nat)
    requires SavingsDomain(inp) && inp.kwhPrice <= price && year >= 1
    ensures AnnualSavings(inp, year) <= AnnualSavings(inp.(kwhPrice := price), year)
  {
    var produced := DegradedProduction(inp, year);
    var escalation := Pow(1.0 + inp.electricityPriceIncrease / 100.0, year - 1);
    NonNegativeProduct(inp.annualProduction, Pow(1.0 - inp.panelDegradation / 100.0, year - 1));
    var weight := produced * escalation * SavingsTaxFactor(inp);
    NonNegativeProduct(produced, escalation);
    NonNegativeProduct(produced * escalation, SavingsTaxFactor(inp));
    assert AnnualSavings(inp, year) == weight * inp.kwhPrice;
    assert AnnualSavings(inp.(kwhPrice := price), year) == weight * price;
  }

  /** Year n moves the running net position by that year's net savings. */
  lemma NetPositionStep(inp: InputData, n: nat)
    requires n >= 1
    ensures Run(inp, n).cumulativeSavings
      == Run(inp, n - 1).cumulativeSavings + (AnnualSavings(inp, n) - AnnualCosts(inp, n))
  {
  }

  /** A year's costs do not depend on the energy price. */
  lemma CostsIgnorePrice(inp: InputData, price: real, year: nat)
    requires year >= 1
    ensures AnnualCosts(inp.(kwhPrice := price), year) == AnnualCosts(inp, year)
  {
  }

  /** Raising kwhPrice, all else fixed, never lowers the running net position. */
  lemma {:induction false} NetPositionMonotoneInPrice(inp: InputData, price: real, n: nat)
    requires SavingsDomain(inp) && inp.kwhPrice <= price
    ensures Run(inp, n).cumulativeSavings <= Run(inp.(kwhPrice := price), n).cumulativeSavings
  {
    if n > 0 {
      var dearer := inp.(kwhPrice := price);
      NetPositionMonotoneInPrice(inp, price, n - 1);
      AnnualSavingsMonotoneInPrice(inp, price, n);
      CostsIgnorePrice(inp, price, n);
      NetPositionStep(dearer, n);
      NetPositionStep(inp, n);
    }
  }

  /** Raising kwhPrice, all else fixed, never lowers total net savings. */
  lemma TotalNetSavingsMonotoneInPrice(inp: InputData, price: real)
    requires SavingsDomain(inp) && inp.kwhPrice <= price
    ensures Analysis(inp).totalNetSavings <= Analysis(inp.(kwhPrice := price)).totalNetSavings
  {
    NetPositionMonotoneInPrice(inp, price, inp.systemLifetime);
  }

  /** The bound on the price increase in SavingsDomain is needed: with the
      tariff falling by 300 % a year, year 2's escalation factor is -2, so a
      dearer kwhPrice lowers the net position after two years. */
  lemma PriceMonotonicityNeedsEscalationBound()
    ensures var inp := Defaults.(panelDegradation := 0.0, electricityPriceIncrease := -300.0, systemLifetime := 2);
      Run(inp.(kwhPrice := 2.0), 2).cumulativeSavings < Run(inp, 2).cumulativeSavings
  {
  }
}
