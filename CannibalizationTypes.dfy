/** The data shapes of the cannibalization analysis: a client -> product family -> SKU
    hierarchy of monthly sales, the detection rules, and the detected cases. */
module CannibalizationTypes {
  import opened Prelude

  /** Months per year; every SKU vector has one position per month, January first. */
  const MonthsPerYear: nat := 12

  datatype SkuMonthlyData = SkuMonthlyData(name: string, salesVector: seq<real>, metaVector: seq<real>)

  datatype FamilyGroup = FamilyGroup(name: string, totalVolumen: real, skus: seq<SkuMonthlyData>)

  datatype ClientNode = ClientNode(
    id: string,
    matriz: string,
    name: string,
    route: string,
    gerencia: string,
    jefatura: string,
    families: seq<FamilyGroup>)

  /** `dropThreshold` and `growthThreshold` are fractions (0.4 means 40%); `minVolume` is the
      smallest combined pre + post average considered; `splitMonth` is a calendar month. */
  datatype DetectionRules = DetectionRules(
    dropThreshold: real,
    growthThreshold: real,
    minVolume: real,
    splitMonth: int)

  /** One detected case. `volumeLost`/`volumeGained` are the estimated post-split volumes,
      `netBalance` is gained minus lost, `substitutionRate` the percentage of the loss the
      cannibal covers, `impactScore` the ranking key. */
  datatype DetectedCannibalization = DetectedCannibalization(
    id: string,
    clientName: string,
    matriz: string,
    gerencia: string,
    jefatura: string,
    route: string,
    family: string,
    victimSku: string,
    cannibalSku: string,
    volumeLost: real,
    volumeGained: real,
    netBalance: real,
    substitutionRate: Number,
    impactScore: real)

  /** The documented shape of a SKU record: twelve monthly sales and twelve monthly targets. */
  predicate WellFormedSku(sku: SkuMonthlyData)
  {
    |sku.salesVector| == MonthsPerYear && |sku.metaVector| == MonthsPerYear
  }

  predicate IsCalendarMonth(m: int)
  {
    1 <= m <= 12
  }

  /** A split month that leaves at least one month before and one month after the split. */
  predicate ComparableSplitMonth(m: int)
  {
    2 <= m <= 11
  }
}
