/** The records shared by the engine and its callers (src/types.ts), with the
    ranges their documentation gives written as validity predicates. Field
    names follow the source and its JSON factor file. */
module LcaTypes {
  import opened Prelude

  /** A number the user set or the system guessed. `isEstimated` and the
      optional `confidence` are provenance only: no computation reads them. */
  datatype EstimatedValue = EstimatedValue(value: real, isEstimated: bool, confidence: Option<real>)

  datatype Metal = Aluminium | Copper

  datatype EnergyMix = EnergyMix(gridFraction: EstimatedValue)

  /** The knobs the user controls: one scenario. */
  datatype InputParams = InputParams(
    metal: Metal,
    recycledContentFraction: EstimatedValue,
    transportDistanceKm: EstimatedValue,
    energyMix: EnergyMix,
    endOfLifeRecoveryRate: EstimatedValue)

  datatype PrimaryProduction = PrimaryProduction(
    mining_energy_MJ: real,
    mining_direct_emissions_CO2e: real,
    processing_energy_MJ: real,
    EF_energy_grid_CO2e_per_MJ: real)

  datatype Recycling = Recycling(recycling_credit_CO2e: real, recycling_energy_MJ: real)

  datatype Transport = Transport(EF_transport_CO2e_per_tkm: real)

  datatype OtherImpacts = OtherImpacts(water_m3: real)

  /** The static per-metal constants, all per kg of metal. */
  datatype LcaFactors = LcaFactors(
    reusePotentialFraction: real,
    primaryProduction: PrimaryProduction,
    recycling: Recycling,
    transport: Transport,
    otherImpacts: OtherImpacts)

  datatype Summary = Summary(
    totalCO2e_kg: real,
    totalEnergy_MJ: real,
    totalWater_m3: real,
    circularityIndex: int)

  datatype Co2eBreakdown = Co2eBreakdown(mining: real, processing: real, transport: real, recyclingCredit: real)

  datatype EnergyBreakdown = EnergyBreakdown(mining: real, processing: real, recycling: real)

  datatype Breakdown = Breakdown(co2e: Co2eBreakdown, energy: EnergyBreakdown)

  datatype SankeyNode = SankeyNode(name: string)

  datatype SankeyLink = SankeyLink(source: nat, target: nat, value: real)

  datatype SankeyData = SankeyData(nodes: seq<SankeyNode>, links: seq<SankeyLink>)

  /** What the engine hands to the UI. */
  datatype LcaResult = LcaResult(summary: Summary, breakdown: Breakdown, sankey: SankeyData)

  /** `confidence`, when present, lies in [0,1]. */
  predicate ValidConfidence(e: EstimatedValue) {
    e.confidence.Some? ==> 0.0 <= e.confidence.value <= 1.0
  }

  /** A share: a value in [0,1] with a valid confidence. */
  predicate IsFraction(e: EstimatedValue) {
    0.0 <= e.value <= 1.0 && ValidConfidence(e)
  }

  /** The documented ranges of the inputs: three shares and a distance in km. */
  predicate ValidInputs(inputs: InputParams) {
    && IsFraction(inputs.recycledContentFraction)
    && ValidConfidence(inputs.transportDistanceKm) && inputs.transportDistanceKm.value >= 0.0
    && IsFraction(inputs.energyMix.gridFraction)
    && IsFraction(inputs.endOfLifeRecoveryRate)
  }

  /** The documented ranges of the factors: the reuse potential is a share and
      the recycling credit is an emission saved, so not positive. */
  predicate ValidFactors(factors: LcaFactors) {
    && 0.0 <= factors.reusePotentialFraction <= 1.0
    && factors.recycling.recycling_credit_CO2e <= 0.0
  }

  /** The documented ranges of a result: the circularity index is a score out of
      100 and the recycling credit is not positive. */
  predicate ValidResult(r: LcaResult) {
    && 0 <= r.summary.circularityIndex <= 100
    && r.breakdown.co2e.recyclingCredit <= 0.0
  }

  /** The share of production energy assumed clean: what the grid does not supply. */
  function CleanShare(mix: EnergyMix): (clean: real)
    ensures clean + mix.gridFraction.value == 1.0
    ensures IsFraction(mix.gridFraction) ==> 0.0 <= clean <= 1.0
  {
    1.0 - mix.gridFraction.value
  }
}
