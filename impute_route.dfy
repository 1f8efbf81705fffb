/** The quick-compare calculator and its HTTP handler
    (src/app/api/impute/route.ts). The process list of `lca-aluminium.json` is
    the parameter `processes`; the framework's request parsing and response
    objects are plain values. */
module ImputeRoute {
  import opened Prelude

  /** One life-cycle inventory record of the process list. */
  datatype Process = Process(
    process_id: string,
    gCO2_per_kg: real,
    energy_kWh_per_kg: real,
    transport_gCO2_per_kg: real)

  /** recycledContent in percent (0-100), gridEmissions in gCO2e/kWh,
      transportDistance in km. */
  datatype QuickCompareInput = QuickCompareInput(recycledContent: real, gridEmissions: real, transportDistance: real)

  datatype GwpBreakdown = GwpBreakdown(materialProduction: real, transport: real, gridEnergy: real)

  /** GWP in kg CO2e, energy in kWh. */
  datatype QuickResult = QuickResult(totalGwp: real, gwpBreakdown: GwpBreakdown, totalEnergy: real, circularityScore: real)

  const PrimaryProcessId: string := "AL_INGOT_PRIMARY_ELCD_V1"
  const RecycledProcessId: string := "AL_INGOT_RECYCLED_ELCD_V1"
  const MissingProcessMessage: string :=
    "Core LCI process data is missing or has incorrect process_id in lca-aluminium.json."

  /** The distance the inventory's transport figure is given for. */
  const BaselineTransportDistanceKm: real := 500.0

  /** The fixed placeholders of the circularity score. */
  const EndOfLifeRecoveryPlaceholder: real := 0.85
  const ReusePotentialPlaceholder: real := 0.5
  const MaterialLossPlaceholder: real := 0.05

  /** `processes.find(p => p.process_id === id)`: the first record with that
      id, or None when there is none. */
  function Find(processes: seq<Process>, id: string): (r: Option<Process>)
    ensures r.None? <==> forall i :: 0 <= i < |processes| ==> processes[i].process_id != id
    ensures r.Some? ==> exists i :: 0 <= i < |processes| && processes[i] == r.value && r.value.process_id == id
                                    && forall j :: 0 <= j < i ==> processes[j].process_id != id
  {
    if processes == [] then None
    else if processes[0].process_id == id then Some(processes[0])
    else
      var r := Find(processes[1..], id);
      assert r.Some? ==> exists i :: 0 <= i < |processes[1..]| && processes[1..][i] == r.value
                                     && forall j :: 0 <= j < i ==> processes[1..][j].process_id != id;
      assert r.Some? ==> exists i :: 1 <= i < |processes| && processes[i] == r.value
                                     && forall j :: 0 <= j < i ==> processes[j].process_id != id;
      r
  }

  /** The linear mix of a primary and a recycled figure by the recycled
      percentage: the primary figure at 0%, the recycled one at 100%, and
      between the two in between. */
  function Mix(recycledContent: real, primary: real, recycled: real): (m: real)
    ensures recycledContent == 0.0 ==> m == primary
    ensures recycledContent == 100.0 ==> m == recycled
    ensures 0.0 <= recycledContent <= 100.0 ==>
              (primary <= m <= recycled) || (recycled <= m <= primary)
  {
    var recycledRatio := recycledContent / 100.0;
    var primaryRatio := 1.0 - recycledRatio;
    var m := primaryRatio * primary + recycledRatio * recycled;
    if 0.0 <= recycledContent <= 100.0 then
      MixBetween(recycledRatio, primary, recycled);
      m
    else
      m
  }

  /** A mix with a share in [0,1] lies between its two ends; a helper for
      `Mix`. */
  lemma MixBetween(share: real, a: real, b: real)
    requires 0.0 <= share <= 1.0
    ensures (a <= (1.0 - share) * a + share * b <= b) || (b <= (1.0 - share) * a + share * b <= a)
  {
    var m := (1.0 - share) * a + share * b;
    assert m == a + share * (b - a);
    if a <= b {
      MulNonNegative(share, b - a);
      MulNonNegative(1.0 - share, b - a);
      assert b - m == (1.0 - share) * (b - a);
    } else {
      MulNonNegative(share, a - b);
      MulNonNegative(1.0 - share, a - b);
      assert m - b == (1.0 - share) * (a - b);
    }
  }

  /** The figures before `toFixed`. The material GWP and the energy are the mix
      of the two processes, the transport GWP scales the mixed baseline by the
      distance over 500 km, and the grid GWP prices the mixed energy at the grid
      intensity; the total is the sum of the three parts, and with the fixed
      placeholders the circularity score is 45 plus 0.4 per recycled percent. */
  function UnroundedLCA(input: QuickCompareInput, primary: Process, recycled: Process): (r: QuickResult)
    ensures r.gwpBreakdown.materialProduction == Mix(input.recycledContent, primary.gCO2_per_kg, recycled.gCO2_per_kg) / 1000.0
    ensures r.totalEnergy == Mix(input.recycledContent, primary.energy_kWh_per_kg, recycled.energy_kWh_per_kg)
    ensures r.gwpBreakdown.transport
            == Mix(input.recycledContent, primary.transport_gCO2_per_kg, recycled.transport_gCO2_per_kg) / 1000.0
               * (input.transportDistance / BaselineTransportDistanceKm)
    ensures r.gwpBreakdown.gridEnergy == r.totalEnergy * input.gridEmissions / 1000.0
    ensures r.totalGwp == r.gwpBreakdown.materialProduction + r.gwpBreakdown.transport + r.gwpBreakdown.gridEnergy
    ensures r.circularityScore == 45.0 + 0.4 * input.recycledContent
  {
    var recycledRatio := input.recycledContent / 100.0;
    var primaryRatio := 1.0 - recycledRatio;
    var materialGwpInGrams := primaryRatio * primary.gCO2_per_kg + recycledRatio * recycled.gCO2_per_kg;
    var materialGwp := materialGwpInGrams / 1000.0;
    var materialEnergy := primaryRatio * primary.energy_kWh_per_kg + recycledRatio * recycled.energy_kWh_per_kg;
    var baselineTransportGwpInGrams := primaryRatio * primary.transport_gCO2_per_kg
                                       + recycledRatio * recycled.transport_gCO2_per_kg;
    var transportGwp := (baselineTransportGwpInGrams / 1000.0) * (input.transportDistance / BaselineTransportDistanceKm);
    var gridGwp := materialEnergy * (input.gridEmissions / 1000.0);
    var totalGwp := materialGwp + transportGwp + gridGwp;
    var recycledContentNormalized := input.recycledContent / 100.0;
    var circularityScore := 100.0 * (
      0.4 * recycledContentNormalized +
      0.3 * EndOfLifeRecoveryPlaceholder +
      0.2 * ReusePotentialPlaceholder +
      0.1 * (1.0 - MaterialLossPlaceholder));
    QuickResult(totalGwp, GwpBreakdown(materialGwp, transportGwp, gridGwp), materialEnergy, circularityScore)
  }

  /** Transport GWP is nothing at 0 km, the mixed baseline at 500 km, and
      additive in the distance. */
  lemma TransportScalesWithDistance(input: QuickCompareInput, primary: Process, recycled: Process, d1: real, d2: real)
    ensures UnroundedLCA(input.(transportDistance := 0.0), primary, recycled).gwpBreakdown.transport == 0.0
    ensures UnroundedLCA(input.(transportDistance := BaselineTransportDistanceKm), primary, recycled).gwpBreakdown.transport
            == Mix(input.recycledContent, primary.transport_gCO2_per_kg, recycled.transport_gCO2_per_kg) / 1000.0
    ensures UnroundedLCA(input.(transportDistance := d1 + d2), primary, recycled).gwpBreakdown.transport
            == UnroundedLCA(input.(transportDistance := d1), primary, recycled).gwpBreakdown.transport
               + UnroundedLCA(input.(transportDistance := d2), primary, recycled).gwpBreakdown.transport
  {
    var base := Mix(input.recycledContent, primary.transport_gCO2_per_kg, recycled.transport_gCO2_per_kg) / 1000.0;
    assert base * ((d1 + d2) / BaselineTransportDistanceKm)
           == base * (d1 / BaselineTransportDistanceKm) + base * (d2 / BaselineTransportDistanceKm);
  }

  /** Within the slider range 0-100% the placeholder circularity score lies in
      [45,85]. */
  lemma CircularityScoreRange(input: QuickCompareInput, primary: Process, recycled: Process)
    requires 0.0 <= input.recycledContent <= 100.0
    ensures 45.0 <= UnroundedLCA(input, primary, recycled).circularityScore <= 85.0
  {
  }

  /** Each figure to three decimals, the score to one, as `toFixed` does. */
  function Rounded(r: QuickResult): (s: QuickResult)
    ensures r.totalGwp - 0.0005 <= s.totalGwp <= r.totalGwp + 0.0005
    ensures r.gwpBreakdown.materialProduction - 0.0005 <= s.gwpBreakdown.materialProduction
            <= r.gwpBreakdown.materialProduction + 0.0005
    ensures r.gwpBreakdown.transport - 0.0005 <= s.gwpBreakdown.transport <= r.gwpBreakdown.transport + 0.0005
    ensures r.gwpBreakdown.gridEnergy - 0.0005 <= s.gwpBreakdown.gridEnergy <= r.gwpBreakdown.gridEnergy + 0.0005
    ensures r.totalEnergy - 0.0005 <= s.totalEnergy <= r.totalEnergy + 0.0005
    ensures r.circularityScore - 0.05 <= s.circularityScore <= r.circularityScore + 0.05
  {
    QuickResult(
      ToFixed(r.totalGwp, 3),
      GwpBreakdown(ToFixed(r.gwpBreakdown.materialProduction, 3),
                   ToFixed(r.gwpBreakdown.transport, 3),
                   ToFixed(r.gwpBreakdown.gridEnergy, 3)),
      ToFixed(r.totalEnergy, 3),
      ToFixed(r.circularityScore, 1))
  }

  /** `calculateQuickCompareLCA`: an error exactly when either process id is
      missing from the list; otherwise the rounded figures of the first record
      with each id. */
  function CalculateQuickCompareLCA(input: QuickCompareInput, processes: seq<Process>): (r: Result<QuickResult>)
    ensures r.Error? <==> Find(processes, PrimaryProcessId).None? || Find(processes, RecycledProcessId).None?
    ensures r.Error? ==> r.message == MissingProcessMessage
    ensures r.Ok? ==> r.value == Rounded(UnroundedLCA(input, Find(processes, PrimaryProcessId).value,
                                                      Find(processes, RecycledProcessId).value))
  {
    var primaryProcess := Find(processes, PrimaryProcessId);
    var recycledProcess := Find(processes, RecycledProcessId);
    if primaryProcess.None? || recycledProcess.None? then Error(MissingProcessMessage)
    else Ok(Rounded(UnroundedLCA(input, primaryProcess.value, recycledProcess.value)))
  }

  // ---------------------------------------------------------------------
  // POST /api/impute
  // ---------------------------------------------------------------------

  /** The `project` of the request body; an absent field is None. */
  datatype Project = Project(recycledContent: Option<real>, gridEmissions: Option<real>, transportDistance: Option<real>)

  /** What `request.json()` yields: a parse failure, the JSON `null`, or an
      object whose `project` may be absent. */
  datatype RequestBody = Unparsable(reason: string) | NullBody | Body(project: Option<Project>)

  datatype ImputationRecord = ImputationRecord(field: string, methodName: string, confidence: real, source: string)

  /** The input fields, unchanged, plus the results. */
  datatype ImputedProject = ImputedProject(recycledContent: real, gridEmissions: real, transportDistance: real, results: QuickResult)

  datatype ResponseBody =
    | Message(message: string)
    | ServerError(message: string, error: string)
    | Imputed(project_imputed: ImputedProject, imputation_meta: seq<ImputationRecord>)

  datatype Response = Response(status: int, body: ResponseBody)

  const ResultsRecord: ImputationRecord := ImputationRecord(
    "results", "Rule-based deterministic calculation from LCI data", 0.6, "CircularMetal LCA v1 Calculator")

  predicate HasRequiredFields(project: Option<Project>) {
    && project.Some?
    && project.value.recycledContent.Some?
    && project.value.gridEmissions.Some?
    && project.value.transportDistance.Some?
  }

  function InputOf(project: Project): QuickCompareInput
    requires HasRequiredFields(Some(project))
  {
    QuickCompareInput(project.recycledContent.value, project.gridEmissions.value, project.transportDistance.value)
  }

  /** The handler: 400 exactly when the body is an object whose project lacks
      one of the three fields; 500 when the body cannot be read or the process
      data is missing; otherwise 200 with the input fields unchanged, the
      results, and exactly one provenance record, for the field "results" with
      confidence 0.6. */
  function Post(request: RequestBody, processes: seq<Process>): (resp: Response)
    ensures resp.status == 200 || resp.status == 400 || resp.status == 500
    ensures resp.status == 400 <==> request.Body? && !HasRequiredFields(request.project)
    ensures resp.status == 500 <==>
              || request.Unparsable?
              || request.NullBody?
              || (request.Body? && HasRequiredFields(request.project)
                  && CalculateQuickCompareLCA(InputOf(request.project.value), processes).Error?)
    ensures resp.status == 200 <==> resp.body.Imputed?
    ensures resp.status == 200 ==>
              && request.Body? && HasRequiredFields(request.project)
              && var project := request.project.value;
              && var imputed := resp.body.project_imputed;
              && Some(imputed.recycledContent) == project.recycledContent
              && Some(imputed.gridEmissions) == project.gridEmissions
              && Some(imputed.transportDistance) == project.transportDistance
              && Ok(imputed.results) == CalculateQuickCompareLCA(InputOf(project), processes)
              && |resp.body.imputation_meta| == 1
              && resp.body.imputation_meta[0].field == "results"
              && resp.body.imputation_meta[0].confidence == 0.6
  {
    match request
    case Unparsable(reason) => Response(500, ServerError("Internal Server Error", reason))
    case NullBody => Response(500, ServerError("Internal Server Error", "Cannot read properties of null (reading 'project')"))
    case Body(project) =>
      if !HasRequiredFields(project) then
        Response(400, Message("Missing required project parameters."))
      else
        match CalculateQuickCompareLCA(InputOf(project.value), processes)
        case Error(message) => Response(500, ServerError("Internal Server Error", message))
        case Ok(lcaResult) =>
          var p := project.value;
          var projectImputed := ImputedProject(p.recycledContent.value, p.gridEmissions.value, p.transportDistance.value, lcaResult);
          Response(200, Imputed(projectImputed, [ResultsRecord]))
  }
}
