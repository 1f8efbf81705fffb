/** The LCA engine (src/lib/lcaEngine.ts): per kg of metal, the CO2e, energy
    and water footprint with its breakdown by stage, the circularity index and
    the Sankey flow graph. The factor file `lcaFactors.json` is the parameter
    `table`. */
module LcaEngine {
  import opened Prelude
  import opened LcaTypes

  /** The factor file: one record per metal. */
  datatype FactorTable = FactorTable(aluminium: LcaFactors, copper: LcaFactors)

  /** What `computeImpacts` returns. */
  datatype Impacts = Impacts(totalCO2e: real, totalEnergy: real, totalWater: real, breakdown: Breakdown)

  /** The transported mass: one kg is a thousandth of a tonne. */
  const TonnesPerKg: real := 0.001

  /** Links whose value does not exceed this are dropped from the flow graph. */
  const MinVisibleFlow: real := 0.001

  /** The seven Sankey nodes, in the order the link indices refer to. */
  const SankeyNodes: seq<SankeyNode> := [
    SankeyNode("Virgin Material"),   // 0
    SankeyNode("Recycled Scrap"),    // 1
    SankeyNode("Processing"),        // 2
    SankeyNode("Final Product"),     // 3
    SankeyNode("End of Life"),       // 4
    SankeyNode("Recovered"),         // 5
    SankeyNode("Landfilled")         // 6
  ]

  function FactorsFor(table: FactorTable, metal: Metal): LcaFactors {
    match metal
    case Aluminium => table.aluminium
    case Copper => table.copper
  }

  /** The virgin share of the input material. */
  function PrimaryShare(inputs: InputParams): real {
    1.0 - inputs.recycledContentFraction.value
  }

  // ---------------------------------------------------------------------
  // Impacts
  // ---------------------------------------------------------------------

  /** The footprint per kg of metal. Its totals are exactly the sums of the
      stages it reports, and water is the factor constant whatever the inputs. */
  function ComputeImpacts(inputs: InputParams, factors: LcaFactors): (r: Impacts)
    ensures r.totalCO2e == r.breakdown.co2e.mining + r.breakdown.co2e.processing
                           + r.breakdown.co2e.transport + r.breakdown.co2e.recyclingCredit
    ensures r.totalEnergy == r.breakdown.energy.mining + r.breakdown.energy.processing
                             + r.breakdown.energy.recycling
    ensures r.totalWater == factors.otherImpacts.water_m3
    ensures inputs.recycledContentFraction.value >= 0.0 && factors.recycling.recycling_credit_CO2e <= 0.0
            ==> r.breakdown.co2e.recyclingCredit <= 0.0
  {
    var rc := inputs.recycledContentFraction.value;
    var grid := inputs.energyMix.gridFraction.value;
    var pp := factors.primaryProduction;
    var primary := PrimaryShare(inputs);
    var co2eMining := primary * (pp.mining_direct_emissions_CO2e
                                 + pp.mining_energy_MJ * pp.EF_energy_grid_CO2e_per_MJ * grid);
    var co2eProcessing := primary * (pp.processing_energy_MJ * pp.EF_energy_grid_CO2e_per_MJ * grid);
    var co2eTransport := inputs.transportDistanceKm.value * TonnesPerKg
                         * factors.transport.EF_transport_CO2e_per_tkm;
    var co2eCredit := rc * factors.recycling.recycling_credit_CO2e;
    var energyPrimary := primary * (pp.mining_energy_MJ + pp.processing_energy_MJ);
    var energyRecycling := rc * factors.recycling.recycling_energy_MJ;
    Impacts(
      co2eMining + co2eProcessing + co2eTransport + co2eCredit,
      energyPrimary + energyRecycling,
      factors.otherImpacts.water_m3,
      Breakdown(
        Co2eBreakdown(co2eMining, co2eProcessing, co2eTransport, co2eCredit),
        EnergyBreakdown(primary * pp.mining_energy_MJ, primary * pp.processing_energy_MJ, energyRecycling)))
  }

  function WithRecycledContent(inputs: InputParams, rc: real): InputParams {
    inputs.(recycledContentFraction := inputs.recycledContentFraction.(value := rc))
  }

  function WithDistance(inputs: InputParams, km: real): InputParams {
    inputs.(transportDistanceKm := inputs.transportDistanceKm.(value := km))
  }

  function WithGridFraction(inputs: InputParams, grid: real): InputParams {
    inputs.(energyMix := EnergyMix(inputs.energyMix.gridFraction.(value := grid)))
  }

  /** With no recycled content there is no recycling credit and no recycling
      energy, and the energy is that of mining plus processing. */
  lemma NoRecycledContent(inputs: InputParams, factors: LcaFactors)
    requires inputs.recycledContentFraction.value == 0.0
    ensures ComputeImpacts(inputs, factors).breakdown.co2e.recyclingCredit == 0.0
    ensures ComputeImpacts(inputs, factors).breakdown.energy.recycling == 0.0
    ensures ComputeImpacts(inputs, factors).totalEnergy
            == factors.primaryProduction.mining_energy_MJ + factors.primaryProduction.processing_energy_MJ
  {
  }

  /** Transport emissions are distance times a thousandth of a tonne times the
      per-tonne-km factor: nothing at distance 0, the factor itself at 1000 km
      (one tonne-km), additive and homogeneous in the distance, and unaffected
      by the recycled share or the grid fraction. */
  lemma TransportIsLinearInDistance(inputs: InputParams, factors: LcaFactors, d1: real, d2: real, k: real, rc: real, grid: real)
    ensures ComputeImpacts(WithDistance(inputs, 0.0), factors).breakdown.co2e.transport == 0.0
    ensures ComputeImpacts(WithDistance(inputs, 1000.0), factors).breakdown.co2e.transport
            == factors.transport.EF_transport_CO2e_per_tkm
    ensures ComputeImpacts(WithDistance(inputs, d1 + d2), factors).breakdown.co2e.transport
            == ComputeImpacts(WithDistance(inputs, d1), factors).breakdown.co2e.transport
               + ComputeImpacts(WithDistance(inputs, d2), factors).breakdown.co2e.transport
    ensures ComputeImpacts(WithDistance(inputs, k * d1), factors).breakdown.co2e.transport
            == k * ComputeImpacts(WithDistance(inputs, d1), factors).breakdown.co2e.transport
    ensures ComputeImpacts(WithGridFraction(WithRecycledContent(inputs, rc), grid), factors).breakdown.co2e.transport
            == ComputeImpacts(inputs, factors).breakdown.co2e.transport
  {
    var ef := factors.transport.EF_transport_CO2e_per_tkm;
    assert (d1 + d2) * TonnesPerKg * ef == d1 * TonnesPerKg * ef + d2 * TonnesPerKg * ef;
    assert (k * d1) * TonnesPerKg * ef == k * (d1 * TonnesPerKg * ef);
  }

  /** All factors that are amounts of energy or emissions are non-negative. */
  predicate NonNegativeProductionFactors(factors: LcaFactors) {
    && factors.primaryProduction.mining_energy_MJ >= 0.0
    && factors.primaryProduction.mining_direct_emissions_CO2e >= 0.0
    && factors.primaryProduction.processing_energy_MJ >= 0.0
    && factors.primaryProduction.EF_energy_grid_CO2e_per_MJ >= 0.0
  }

  /** The CO2e of one kg of virgin material at grid fraction `grid`. */
  function VirginCO2e(factors: LcaFactors, grid: real): real {
    var pp := factors.primaryProduction;
    pp.mining_direct_emissions_CO2e + pp.mining_energy_MJ * pp.EF_energy_grid_CO2e_per_MJ * grid
    + pp.processing_energy_MJ * pp.EF_energy_grid_CO2e_per_MJ * grid
  }

  /** The CO2e total as a mix of virgin material and scrap plus transport; a
      helper for the lemma below. */
  lemma TotalCO2eAsMix(inputs: InputParams, factors: LcaFactors)
    ensures var r := inputs.recycledContentFraction.value;
            ComputeImpacts(inputs, factors).totalCO2e
            == (1.0 - r) * VirginCO2e(factors, inputs.energyMix.gridFraction.value)
               + ComputeImpacts(inputs, factors).breakdown.co2e.transport
               + r * factors.recycling.recycling_credit_CO2e
  {
  }

  /** Under the usual signs of the factors (production amounts non-negative, the
      recycling credit not positive), raising the recycled share never raises
      the CO2e total. */
  lemma MoreRecycledContentNeverRaisesCO2e(inputs: InputParams, factors: LcaFactors, rc: real)
    requires NonNegativeProductionFactors(factors) && factors.recycling.recycling_credit_CO2e <= 0.0
    requires inputs.energyMix.gridFraction.value >= 0.0
    requires inputs.recycledContentFraction.value <= rc
    ensures ComputeImpacts(WithRecycledContent(inputs, rc), factors).totalCO2e
            <= ComputeImpacts(inputs, factors).totalCO2e
  {
    var pp := factors.primaryProduction;
    var grid := inputs.energyMix.gridFraction.value;
    var r0 := inputs.recycledContentFraction.value;
    var virgin := VirginCO2e(factors, grid);
    var credit := factors.recycling.recycling_credit_CO2e;
    MulNonNegative(pp.mining_energy_MJ, pp.EF_energy_grid_CO2e_per_MJ);
    MulNonNegative(pp.mining_energy_MJ * pp.EF_energy_grid_CO2e_per_MJ, grid);
    MulNonNegative(pp.processing_energy_MJ, pp.EF_energy_grid_CO2e_per_MJ);
    MulNonNegative(pp.processing_energy_MJ * pp.EF_energy_grid_CO2e_per_MJ, grid);
    assert virgin >= 0.0;
    MulNonNegative(rc - r0, virgin - credit);
    var moved := WithRecycledContent(inputs, rc);
    TotalCO2eAsMix(inputs, factors);
    TotalCO2eAsMix(moved, factors);
    assert ComputeImpacts(moved, factors).breakdown.co2e.transport
           == ComputeImpacts(inputs, factors).breakdown.co2e.transport;
  }

  // ---------------------------------------------------------------------
  // Circularity index
  // ---------------------------------------------------------------------

  /** The weighted score 40% recycled content, 30% reuse potential, 30%
      end-of-life recovery, scaled to 100 and rounded as `Math.round` does; a
      score out of 100 whenever the three shares lie in [0,1]. */
  function ComputeCircularityIndex(inputs: InputParams, factors: LcaFactors): (n: int)
    ensures var x := 40.0 * inputs.recycledContentFraction.value + 30.0 * factors.reusePotentialFraction
                     + 30.0 * inputs.endOfLifeRecoveryRate.value;
            n as real - 0.5 <= x < n as real + 0.5
    ensures 0.0 <= inputs.recycledContentFraction.value <= 1.0
            && 0.0 <= factors.reusePotentialFraction <= 1.0
            && 0.0 <= inputs.endOfLifeRecoveryRate.value <= 1.0
            ==> 0 <= n <= 100
  {
    var recycledContentComponent := 0.4 * inputs.recycledContentFraction.value;
    var reusePotentialComponent := 0.3 * factors.reusePotentialFraction;
    var materialRetentionComponent := 0.3 * inputs.endOfLifeRecoveryRate.value;
    var index := (recycledContentComponent + reusePotentialComponent + materialRetentionComponent) * 100.0;
    RoundHalfUp(index)
  }

  // ---------------------------------------------------------------------
  // Sankey flow graph
  // ---------------------------------------------------------------------

  /** The six links of the flow graph before filtering. The shares into
      Processing add up to one, and so do the shares out of End of Life. */
  function AllLinks(inputs: InputParams): (links: seq<SankeyLink>)
    ensures |links| == 6
    ensures forall k :: 0 <= k < 6 ==> links[k].source < |SankeyNodes| && links[k].target < |SankeyNodes|
    ensures links[0].value + links[1].value == 1.0
    ensures links[4].value + links[5].value == 1.0
    ensures IsFraction(inputs.recycledContentFraction) && IsFraction(inputs.endOfLifeRecoveryRate)
            ==> forall k :: 0 <= k < 6 ==> 0.0 <= links[k].value <= 1.0
  {
    var primaryShare := PrimaryShare(inputs);
    var landfillShare := 1.0 - inputs.endOfLifeRecoveryRate.value;
    [
      SankeyLink(0, 2, primaryShare),
      SankeyLink(1, 2, inputs.recycledContentFraction.value),
      SankeyLink(2, 3, 1.0),
      SankeyLink(3, 4, 1.0),
      SankeyLink(4, 5, inputs.endOfLifeRecoveryRate.value),
      SankeyLink(4, 6, landfillShare)
    ]
  }

  predicate Visible(link: SankeyLink) {
    link.value > MinVisibleFlow
  }

  /** `links.filter(link => link.value > 0.001)`: exactly the visible links,
      never more of them than there were. */
  function VisibleLinks(links: seq<SankeyLink>): (r: seq<SankeyLink>)
    ensures |r| <= |links|
    ensures forall l :: l in r <==> l in links && Visible(l)
  {
    if links == [] then []
    else if Visible(links[0]) then [links[0]] + VisibleLinks(links[1..])
    else VisibleLinks(links[1..])
  }

  /** Filtering keeps the original order: it distributes over concatenation. */
  lemma {:induction false} VisibleLinksKeepsOrder(a: seq<SankeyLink>, b: seq<SankeyLink>)
    ensures VisibleLinks(a + b) == VisibleLinks(a) + VisibleLinks(b)
  {
    if a == [] {
      assert a + b == b;
    } else {
      assert (a + b)[0] == a[0];
      assert (a + b)[1..] == a[1..] + b;
      VisibleLinksKeepsOrder(a[1..], b);
    }
  }

  /** The flow graph: the seven fixed nodes, and of the six links exactly those
      whose value exceeds 0.001. */
  function GenerateSankeyData(inputs: InputParams): (s: SankeyData)
    ensures s.nodes == SankeyNodes
    ensures forall l :: l in s.links <==> l in AllLinks(inputs) && l.value > MinVisibleFlow
    ensures forall l :: l in s.links ==> l.value > MinVisibleFlow
  {
    SankeyData(SankeyNodes, VisibleLinks(AllLinks(inputs)))
  }

  /** There is a link out of Recycled Scrap exactly when the recycled share
      exceeds 0.001; in particular none when it is 0. */
  lemma ScrapLinkIffRecycledContent(inputs: InputParams)
    ensures (exists l :: l in GenerateSankeyData(inputs).links && l.source == 1)
            <==> inputs.recycledContentFraction.value > MinVisibleFlow
  {
    var all := AllLinks(inputs);
    var s := GenerateSankeyData(inputs);
    if inputs.recycledContentFraction.value > MinVisibleFlow {
      assert all[1] in all;
      assert all[1] in s.links;
    } else {
      forall l | l in s.links ensures l.source != 1 {
        assert l in all;
        var k :| 0 <= k < 6 && all[k] == l;
      }
    }
  }

  /** The two full flows, Processing to Final Product and Final Product to End
      of Life, always survive the filter. */
  lemma ProductFlowsAlwaysShown(inputs: InputParams)
    ensures SankeyLink(2, 3, 1.0) in GenerateSankeyData(inputs).links
    ensures SankeyLink(3, 4, 1.0) in GenerateSankeyData(inputs).links
  {
    var all := AllLinks(inputs);
    assert all[2] == SankeyLink(2, 3, 1.0) && all[2] in all;
    assert all[3] == SankeyLink(3, 4, 1.0) && all[3] in all;
  }

  /** The flow graph depends only on the recycled share and the end-of-life
      recovery rate. */
  lemma SankeyDependsOnlyOnSharedFlows(a: InputParams, b: InputParams)
    requires a.recycledContentFraction.value == b.recycledContentFraction.value
    requires a.endOfLifeRecoveryRate.value == b.endOfLifeRecoveryRate.value
    ensures GenerateSankeyData(a) == GenerateSankeyData(b)
  {
    assert PrimaryShare(a) == PrimaryShare(b);
    assert AllLinks(a) == AllLinks(b);
  }

  // ---------------------------------------------------------------------
  // The orchestrator
  // ---------------------------------------------------------------------

  /** The full result for one scenario, with the factors of `inputs.metal`. Its
      summary totals are the sums of its breakdown, its graph has only visible
      links, and it keeps the documented ranges when its inputs and factors do. */
  function CalculateLCA(inputs: InputParams, table: FactorTable): (r: LcaResult)
    ensures r.summary.totalCO2e_kg == r.breakdown.co2e.mining + r.breakdown.co2e.processing
                                      + r.breakdown.co2e.transport + r.breakdown.co2e.recyclingCredit
    ensures r.summary.totalEnergy_MJ == r.breakdown.energy.mining + r.breakdown.energy.processing
                                        + r.breakdown.energy.recycling
    ensures r.summary.totalWater_m3 == FactorsFor(table, inputs.metal).otherImpacts.water_m3
    ensures r.sankey.nodes == SankeyNodes
    ensures forall l :: l in r.sankey.links ==> l.value > MinVisibleFlow
    ensures ValidInputs(inputs) && ValidFactors(FactorsFor(table, inputs.metal)) ==> ValidResult(r)
  {
    var factors := FactorsFor(table, inputs.metal);
    var impacts := ComputeImpacts(inputs, factors);
    var circularityIndex := ComputeCircularityIndex(inputs, factors);
    var sankeyData := GenerateSankeyData(inputs);
    LcaResult(
      Summary(impacts.totalCO2e, impacts.totalEnergy, impacts.totalWater, circularityIndex),
      impacts.breakdown,
      sankeyData)
  }

  /** How `CalculateLCA` assembles its parts; a helper for the lemmas below. */
  lemma CalculateLCAParts(inputs: InputParams, table: FactorTable)
    ensures var f := FactorsFor(table, inputs.metal);
            var impacts := ComputeImpacts(inputs, f);
            CalculateLCA(inputs, table) == LcaResult(
              Summary(impacts.totalCO2e, impacts.totalEnergy, impacts.totalWater, ComputeCircularityIndex(inputs, f)),
              impacts.breakdown,
              GenerateSankeyData(inputs))
  {
  }

  /** Only the entry for `inputs.metal` is read: two tables that agree on it give
      the same result. */
  lemma CalculateLCASelectsByMetal(inputs: InputParams, t1: FactorTable, t2: FactorTable)
    requires FactorsFor(t1, inputs.metal) == FactorsFor(t2, inputs.metal)
    ensures CalculateLCA(inputs, t1) == CalculateLCA(inputs, t2)
  {
  }

  /** Inputs that agree on the metal and on every `.value` agree on the result:
      `isEstimated` and `confidence` are never read. */
  predicate SameValues(a: InputParams, b: InputParams) {
    && a.metal == b.metal
    && a.recycledContentFraction.value == b.recycledContentFraction.value
    && a.transportDistanceKm.value == b.transportDistanceKm.value
    && a.energyMix.gridFraction.value == b.energyMix.gridFraction.value
    && a.endOfLifeRecoveryRate.value == b.endOfLifeRecoveryRate.value
  }

  lemma ProvenanceIsNotRead(a: InputParams, b: InputParams, table: FactorTable)
    requires SameValues(a, b)
    ensures CalculateLCA(a, table) == CalculateLCA(b, table)
  {
    var f := FactorsFor(table, a.metal);
    assert ComputeImpacts(a, f) == ComputeImpacts(b, f);
    assert ComputeCircularityIndex(a, f) == ComputeCircularityIndex(b, f);
    assert GenerateSankeyData(a) == GenerateSankeyData(b);
  }

  // ---------------------------------------------------------------------
  // The two engine test scenarios. The factor file is not part of this
  // model, so the factor-independent parts are proved for every table and the
  // expected numbers for an illustrative table.
  // ---------------------------------------------------------------------

  /** Pure primary aluminium: no recycled content, 100 km, all-grid energy, 80%
      recovery. */
  const PrimaryAluminiumScenario: InputParams := InputParams(
    Aluminium,
    EstimatedValue(0.0, false, None),
    EstimatedValue(100.0, false, None),
    EnergyMix(EstimatedValue(1.0, false, None)),
    EstimatedValue(0.8, false, None))

  /** High-recycling copper: 75% recycled content, 50 km, half-grid energy, 90%
      recovery. */
  const RecycledCopperScenario: InputParams := InputParams(
    Copper,
    EstimatedValue(0.75, false, None),
    EstimatedValue(50.0, false, None),
    EnergyMix(EstimatedValue(0.5, false, None)),
    EstimatedValue(0.9, false, None))

  /** For every factor table, the primary aluminium scenario uses mining plus
      processing energy only, shows no Recycled Scrap link, and scores 51 exactly
      when the aluminium reuse potential lies in [53/60, 11/12). */
  lemma PrimaryAluminiumForAnyTable(table: FactorTable)
    ensures CalculateLCA(PrimaryAluminiumScenario, table).summary.totalEnergy_MJ
            == table.aluminium.primaryProduction.mining_energy_MJ + table.aluminium.primaryProduction.processing_energy_MJ
    ensures forall l :: l in CalculateLCA(PrimaryAluminiumScenario, table).sankey.links ==> l.source != 1
    ensures CalculateLCA(PrimaryAluminiumScenario, table).summary.circularityIndex == 51
            <==> 53.0 / 60.0 <= table.aluminium.reusePotentialFraction < 11.0 / 12.0
  {
    var f := table.aluminium;
    var n := ComputeCircularityIndex(PrimaryAluminiumScenario, f);
    assert n == 51 <==> 53.0 / 60.0 <= f.reusePotentialFraction < 11.0 / 12.0 by {
      var x := 30.0 * f.reusePotentialFraction + 24.0;
      assert n as real - 0.5 <= x < n as real + 0.5;
    }
    NoRecycledContent(PrimaryAluminiumScenario, f);
    ScrapLinkIffRecycledContent(PrimaryAluminiumScenario);
    CalculateLCAParts(PrimaryAluminiumScenario, table);
  }

  /** An illustrative factor table under which both test scenarios give the
      numbers the engine's tests expect. */
  const IllustrativeTable: FactorTable := FactorTable(
    LcaFactors(0.9, PrimaryProduction(30.0, 3.21, 150.0, 0.1), Recycling(-0.5, 10.0), Transport(1.0), OtherImpacts(1.2)),
    LcaFactors(0.86, PrimaryProduction(20.0, 4.0, 40.0, 0.05), Recycling(-4.8, 25.0), Transport(1.35), OtherImpacts(0.8)))

  /** The first engine test: about 21.31 kg CO2e, 180 MJ and a score of 51. */
  lemma PrimaryAluminiumUnderIllustrativeTable()
    ensures CalculateLCA(PrimaryAluminiumScenario, IllustrativeTable).summary == Summary(21.31, 180.0, 1.2, 51)
  {
    var al := ComputeImpacts(PrimaryAluminiumScenario, IllustrativeTable.aluminium);
    assert al.totalCO2e == 21.31 by {
      assert al.breakdown.co2e == Co2eBreakdown(6.21, 15.0, 0.1, 0.0);
    }
    assert al.totalEnergy == 180.0 by {
      assert al.breakdown.energy == EnergyBreakdown(30.0, 150.0, 0.0);
    }
    assert ComputeCircularityIndex(PrimaryAluminiumScenario, IllustrativeTable.aluminium) == 51;
    CalculateLCAParts(PrimaryAluminiumScenario, IllustrativeTable);
  }

  /** The second engine test: a net negative -2.1575 kg CO2e with a credit of
      -3.6, 33.75 MJ, a score of 83 and a virgin flow of 0.25. */
  lemma RecycledCopperUnderIllustrativeTable()
    ensures CalculateLCA(RecycledCopperScenario, IllustrativeTable).summary == Summary(-2.1575, 33.75, 0.8, 83)
    ensures CalculateLCA(RecycledCopperScenario, IllustrativeTable).breakdown.co2e.recyclingCredit == -3.6
    ensures SankeyLink(0, 2, 0.25) in CalculateLCA(RecycledCopperScenario, IllustrativeTable).sankey.links
  {
    var cu := ComputeImpacts(RecycledCopperScenario, IllustrativeTable.copper);
    assert cu.totalCO2e == -2.1575 by {
      assert cu.breakdown.co2e == Co2eBreakdown(1.125, 0.25, 0.0675, -3.6);
    }
    assert cu.totalEnergy == 33.75 by {
      assert cu.breakdown.energy == EnergyBreakdown(5.0, 10.0, 18.75);
    }
    assert ComputeCircularityIndex(RecycledCopperScenario, IllustrativeTable.copper) == 83;
    var links := AllLinks(RecycledCopperScenario);
    assert links[0] == SankeyLink(0, 2, 0.25) && links[0] in links;
    CalculateLCAParts(RecycledCopperScenario, IllustrativeTable);
  }
}
