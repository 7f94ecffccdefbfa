/** The records that flow in and out of the projection engine: the flat
    parameter record, one record per projected year, and the summary. */
module Types {

  datatype Option<+T> = None | Some(value: T)

  /** The caller-supplied parameters. Percentages are given as percent
      (14 means 14 %); the lifetime is a whole number of years. */
  datatype InputData = InputData(
    systemCost: real,
    annualProduction: real,
    kwhPrice: real,
    systemLifetime: nat,
    maintenanceCost: real,
    municipalTaxRate: real,
    inflationRate: real,
    electricityPriceIncrease: real,
    panelDegradation: real,
    fixedCharge: real,
    powerCharge: real,
    distributionCharge: real,
    gridEnergyKwh: real)

  /** One projected year; `year` is 1-based. */
  datatype YearlyData = YearlyData(
    year: nat,
    annualSavings: real,
    annualCosts: real,
    netSavings: real,
    cumulativeSavings: real,
    cumulativeCosts: real)

  /** The outcome of a projection. `roi` is `None` where the division by a
      zero system cost has no finite value. */
  datatype AnalysisResults = AnalysisResults(
    yearlyData: seq<YearlyData>,
    paybackPeriod: Option<nat>,
    totalNetSavings: real,
    totalCost: real,
    roi: Option<real>,
    lcoe: real,
    totalMaintenanceAndFixedCharges: real,
    totalGridEnergyCost: real)
}
