# CircularMetal LCA core in Dafny

A model of the deterministic logic of the CircularMetal life-cycle assessment
tool for aluminium and copper, with proofs about it. It has five parts:

- **The LCA engine** (`lca_engine.dfy`, module `LcaEngine`). Per kg of metal
  it computes the CO2e, energy and water footprint with a breakdown by stage,
  the circularity index out of 100, and the seven-node Sankey flow graph with
  its near-zero links removed. The per-metal factor file is a parameter
  `table: FactorTable` holding one `LcaFactors` record per metal.
- **The shared records** (`types.dfy`, module `LcaTypes`). These are the
  inputs, factors and results as datatypes. The ranges their doc comments give
  are validity predicates.
- **The decision-tree recycling-rate predictor and its one-hot encoder**
  (`recycling_model.dfy`, module `RecyclingModel`).
  - The tree is a datatype. Its walk is a recursive function `Predict`.
  - `PredictRecyclingRate` is the source's `while` loop, proved equal to
    `Predict`, with the tree depth as its termination measure.
  - The encoder is a loop that fills a map (`FillOneHot`), proved equal to the
    one-hot function `OneHot`.
  - The serialized tree is a parameter.
- **The quick-compare calculator and its HTTP handler** (`impute_route.dfy`,
  module `ImputeRoute`). It looks up two inventory records by id and mixes
  them linearly by the recycled percentage. It scales transport against a
  500 km baseline and scores circularity with fixed placeholders. It rounds
  the figures as `toFixed` does. `Post` validates the request and shapes the
  200, 400 and 500 responses. The process list of the inventory file is a
  parameter.
- **The compare page's own logic** (`compare_page.dfy`, module
  `ComparePage`). It holds the configuration state as a class updated by
  `HandleConfigChange`, the page's circularity-score variant, and the rule
  that picks one of three recommendations.

`prelude.dfy` (module `Prelude`) holds `Option`, `Result`, `Math.round`
(`RoundHalfUp`) and `parseFloat(x.toFixed(d))` (`ToFixed`) on exact reals.

Numbers are `real` throughout. JavaScript's `undefined` is `None`. A thrown
error is `Result.Error`.

The circularity index weights are fixed at 40/30/30, as in
`src/lib/lcaEngine.ts:78-80`.

## Model

| member | source | states |
|---|---|---|
| Prelude.RoundHalfUp | src/lib/lcaEngine.ts:84 | `Math.round` gives the integer n with n - 1/2 <= x < n + 1/2, the nearest integer with halves rounded up |
| Prelude.ToFixed | src/app/api/impute/route.ts:72-81 | rounding to d decimals gives a whole number of units of the last place, within half a unit of the value, with the sign of the value |
| LcaTypes.CleanShare | src/types.ts:27-31 | the clean share and the grid fraction add up to 1; the clean share is in [0,1] when the grid fraction is |
| LcaEngine.ComputeImpacts | src/lib/lcaEngine.ts:8-69 | total CO2e is exactly the sum of the four reported stages; total energy is exactly the sum of the three reported stages; water is the factor constant whatever the inputs; the recycling credit is not positive when the recycled share is not negative and the credit factor is not positive |
| LcaEngine.NoRecycledContent | src/lib/lcaEngine.ts:12-46 | with no recycled content there is no recycling credit and no recycling energy, and the energy is mining plus processing energy |
| LcaEngine.TransportIsLinearInDistance | src/lib/lcaEngine.ts:28-30 | transport CO2e is 0 at 0 km and equals the per-tonne-km factor at 1000 km; it is additive and homogeneous in the distance and independent of the recycled share and the grid fraction |
| LcaEngine.MoreRecycledContentNeverRaisesCO2e | src/lib/lcaEngine.ts:12-35 | with non-negative production factors, a non-positive recycling credit and a non-negative grid fraction, raising the recycled share never raises total CO2e |
| LcaEngine.ComputeCircularityIndex | src/lib/lcaEngine.ts:75-85 | the index is the nearest integer to 40 rc + 30 reuse + 30 eol; it lies in [0,100] when the three shares lie in [0,1] |
| LcaEngine.AllLinks | src/lib/lcaEngine.ts:94-114 | six links between the seven nodes; the two flows into Processing add up to 1, as do the two out of End of Life; every value is in [0,1] when the shares are |
| LcaEngine.VisibleLinks | src/lib/lcaEngine.ts:117 | the filter keeps exactly the links whose value exceeds 0.001 and never adds any |
| LcaEngine.VisibleLinksKeepsOrder | src/lib/lcaEngine.ts:117 | the filter distributes over concatenation, so it keeps the links in their original order |
| LcaEngine.GenerateSankeyData | src/lib/lcaEngine.ts:91-123 | the seven fixed nodes in order; a link is shown exactly when it is one of the six and its value exceeds 0.001 |
| LcaEngine.ScrapLinkIffRecycledContent | src/lib/lcaEngine.ts:109-117 | a link out of Recycled Scrap is shown exactly when the recycled share exceeds 0.001 |
| LcaEngine.ProductFlowsAlwaysShown | src/lib/lcaEngine.ts:110-117 | the links Processing to Final Product and Final Product to End of Life, both of value 1, are always shown |
| LcaEngine.SankeyDependsOnlyOnSharedFlows | src/lib/lcaEngine.ts:91-117 | two inputs with the same recycled share and recovery rate give the same graph |
| LcaEngine.CalculateLCA | src/lib/lcaEngine.ts:128-144 | the summary totals equal the breakdown sums; water is the metal's factor; the nodes are fixed and every link is visible; valid inputs and factors give a circularity index in [0,100] and a non-positive credit |
| LcaEngine.CalculateLCASelectsByMetal | src/lib/lcaEngine.ts:129 | only the factor entry for the chosen metal is read: two tables that agree on it give the same result |
| LcaEngine.ProvenanceIsNotRead | src/types.ts:7-11 | inputs that differ only in `isEstimated` and `confidence` give the same result |
| LcaEngine.PrimaryAluminiumForAnyTable | frontend/src/lib/lcaEngine.test.ts:9-30 | for every factor table the pure primary aluminium case uses mining plus processing energy only and shows no Recycled Scrap link; it scores 51 exactly when the reuse potential lies in [53/60, 11/12) |
| LcaEngine.PrimaryAluminiumUnderIllustrativeTable | frontend/src/lib/lcaEngine.test.ts:20-25 | under an illustrative table the case gives 21.31 kg CO2e, 180 MJ and a score of 51 |
| LcaEngine.RecycledCopperUnderIllustrativeTable | frontend/src/lib/lcaEngine.test.ts:34-58 | under the same table the copper case gives -2.1575 kg CO2e, a credit of -3.6, 33.75 MJ, a score of 83 and a virgin flow of 0.25 |
| RecyclingModel.Predict | src/lib/interface.ts:23-44 | a prediction, when there is one, is the value of one of the tree's leaves |
| RecyclingModel.PredictRecyclingRate | src/lib/interface.ts:23-44 | the loop returns exactly what the recursive walk defines, and terminates on every tree |
| RecyclingModel.ValueMakesALeaf | src/lib/interface.ts:27-43 | a node that carries a value is a leaf, and its value is returned, even when it also names a feature |
| RecyclingModel.MalformedNodeGivesNone | src/lib/interface.ts:29-32 | a decision node with a missing or empty feature, a feature the input lacks or a missing threshold gives None |
| RecyclingModel.DecisionGoesLeftIffAtMostThreshold | src/lib/interface.ts:35-39 | at a sound decision node the walk goes left when the input is at most the threshold and right otherwise |
| RecyclingModel.PredictionIsARate | src/lib/interface.ts:18-22 | if every leaf holds a rate in [0,1], so does every prediction |
| RecyclingModel.NoneOnlyFromMissingField | src/lib/interface.ts:29-32 | when the input has every feature the tree names, the walk gives None exactly when it reaches a node with a missing feature or threshold |
| RecyclingModel.OneHot | src/lib/interface.ts:66-79 | the keys are exactly the listed columns; every value is 0 or 1; a value is 1 exactly when its key is one of the three named keys |
| RecyclingModel.FillOneHot | src/lib/interface.ts:66-79 | setting every column to 0 and then each named key that is a column to 1 yields exactly the one-hot encoding |
| RecyclingModel.CreateModelInput | src/lib/interface.ts:54-81 | the encoder returns the one-hot encoding of the thirteen columns for the keys it builds from its arguments |
| RecyclingModel.KeysOfDifferentFamilies | src/lib/interface.ts:71-74 | the material, product type and region keys begin with 'm', 'p' and 'r' |
| RecyclingModel.OneHotPerFamily | src/lib/interface.ts:66-79 | within each of the three key families at most one key is 1 |
| RecyclingModel.AtMostThreeOnes | src/lib/interface.ts:66-79 | at most three values of the encoding are 1 |
| RecyclingModel.UnrecognisedLeavesFamilyZero | src/lib/interface.ts:71-79 | a material, product type or region that names no column leaves its whole family at 0, with no error |
| RecyclingModel.BeverageCanExample | src/lib/interface.ts:71-79 | for aluminium, "Beverage Can" and EU the product type keeps its space; their three columns are 1 and the others shown are 0 |
| RecyclingModel.EncodedInputNeverLacksAKey | src/lib/interface.ts:29 | for a tree that names only the thirteen columns, a prediction on an encoded input fails only at a node with a missing feature or threshold |
| ImputeRoute.Find | src/app/api/impute/route.ts:28-29 | None exactly when no record has the id; otherwise the first record that has it |
| ImputeRoute.Mix | src/app/api/impute/route.ts:35-44 | the mix is the primary figure at 0%, the recycled one at 100%, and between the two for percentages in [0,100] |
| ImputeRoute.UnroundedLCA | src/app/api/impute/route.ts:35-70 | material GWP and energy are mixes of the two records; transport is the mixed baseline over 1000 times distance over 500 km; grid GWP is energy times grid intensity over 1000; the total is the sum of the three; the score is 45 + 0.4 rc |
| ImputeRoute.TransportScalesWithDistance | src/app/api/impute/route.ts:49-51 | transport GWP is 0 at 0 km and the mixed baseline at 500 km, and it is additive in the distance |
| ImputeRoute.CircularityScoreRange | src/app/api/impute/route.ts:60-70 | for a recycled content in [0,100] the placeholder score lies in [45,85] |
| ImputeRoute.Rounded | src/app/api/impute/route.ts:72-81 | the total GWP, the three GWP parts and the energy each move by at most 0.0005, the score by at most 0.05 |
| ImputeRoute.CalculateQuickCompareLCA | src/app/api/impute/route.ts:26-82 | an error, with the source's message, exactly when either process id is missing; otherwise the rounded figures for the first record with each id |
| ImputeRoute.Post | src/app/api/impute/route.ts:85-117 | the status is 200, 400 or 500; 400 exactly when a field is missing; 500 exactly when the body is unreadable or null or the process data is missing; on 200 the input fields are unchanged, the results are the calculator's, and there is exactly one provenance record, for "results" with confidence 0.6 |
| ComparePage.WithField | src/app/compare/page.tsx:28-29 | the chosen field takes the new value and every other field keeps its value |
| ComparePage.ComparePageState.constructor | src/app/compare/page.tsx:21-26 | the page opens with 10% recycled content, 450 gCO2/kWh, 500 km and a 75% recycling rate |
| ComparePage.ComparePageState.HandleConfigChange | src/app/compare/page.tsx:28-34 | the new configuration is the old one with only the chosen field replaced |
| ComparePage.CircularityScore | src/app/compare/page.tsx:41-48 | the score is the nearest integer to 0.4 rc + 0.3 rr + 16 - td/500 |
| ComparePage.ScoreWithinSliderRanges | src/app/compare/page.tsx:41-48 | within the slider ranges the score is an integer in [6,86] |
| ComparePage.ScoreIgnoresGridEmissions | src/app/compare/page.tsx:41-48 | the grid intensity does not affect the score |
| ComparePage.ScoreMonotone | src/app/compare/page.tsx:41-48 | more recycled content or a higher recycling rate never lowers the score; a longer distance never raises it |
| ComparePage.InitialScore | src/app/compare/page.tsx:21-50 | the opening configuration scores 42 |
| ComparePage.Recommend | src/app/compare/page.tsx:194-198 | exactly one recommendation: recycled content below 50% first, then a grid above 500, otherwise transport |
| ComparePage.RecommendationMessage | src/app/compare/page.tsx:194-198 | the message shown: the recycled-content text below 50%, otherwise the grid text above 500 gCO2/kWh, otherwise the transport text |
| ComparePage.RecommendationTextsDistinct | src/app/compare/page.tsx:195-198 | the three messages differ, so the text shown tells which recommendation was chosen |
| ComparePage.RecommendationIgnoresDistanceAndRate | src/app/compare/page.tsx:194-198 | neither the transport distance nor the recycling rate affects the recommendation |

## Left out

- User interface rendering is not modelled because it is presentation. This covers the pages' markup, the slider widgets, the Sankey and stacked-bar charts (`src/components/Sankey.tsx`, `src/components/StackedBar.tsx`) and the `frontend/` components.
- `src/app/api/compare/route.ts` and `src/lib/supabaseClient.ts` are not part of this model. The first is a second HTTP handler outside this core; the second is an external database client.
- Framework plumbing is left out: `NextResponse`, the asynchronous `request.json()`, `console` logging and the stack behaviour of `throw`/`catch`. A parsed request body is the `RequestBody` datatype, and a response is a status plus a body datatype.
- The factor file, the inventory file and the tree file are not available. Each is a parameter, so the test expectations are proved for every table where they do not depend on the numbers and for one illustrative table where they do.
- Floating point is not modelled. Every number is an exact `real`, so rounding error in the sums and the exact decimal output of the test's closeness checks are not captured.
- Prelude.ToFixed: rounds half away from zero on the exact value. The number-to-string conversion of `toFixed` and `parseFloat` is not modelled; the contract states the decimal grid, the half-unit bound and the sign, not which of two equally near grid points is chosen.
- ImputeRoute.Rounded: does not state that the rounded parts add up to the rounded total, because they need not.
- A tree node whose `value` is `null`, and feature names that coincide with JavaScript object prototype keys such as `toString`, are not modelled. A feature input is a plain map.
- A decision node without a `left` or `right` child cannot be expressed in the tree datatype. The source would fail on the next step of the walk.
- `Post` does not model extra fields of the request's `project`, which the source would copy into `project_imputed`. It also does not model fields that are present but `null` or not numbers. Only presence or absence of the three fields is modelled.
- A metal with no entry in the factor file is not modelled. `FactorTable` has one entry per metal. In the source, `factors` would be undefined and `src/lib/lcaEngine.ts:17` would throw a TypeError.
- The `Recommendation` interface of `src/types.ts:96-103` is not modelled because no core code uses it.
- No linear-regression energy imputer is modelled, and neither is any code that feeds the encoder's output into the predictor: no file of the program implements either. `EncodedInputNeverLacksAKey` states what such a caller would get.
- Idempotence and determinism of the calculations are not stated as lemmas. Every model function is a mathematical function, so equal arguments always give equal results.
