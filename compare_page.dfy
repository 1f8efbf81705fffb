/** The quick-compare page's own logic (src/app/compare/page.tsx): its
    configuration state and the update the sliders make to it, its
    circularity-score variant, and the rule that picks one recommendation. */
module ComparePage {
  import opened Prelude

  /** recycledContent and recyclingRate in percent, gridEmissions in
      gCO2/kWh, transportDistance in km. */
  datatype ProjectConfig = ProjectConfig(
    recycledContent: real,
    gridEmissions: real,
    transportDistance: real,
    recyclingRate: real)

  /** `keyof ProjectConfig`. */
  datatype ConfigField = RecycledContent | GridEmissions | TransportDistance | RecyclingRate

  const InitialConfig: ProjectConfig := ProjectConfig(10.0, 450.0, 500.0, 75.0)

  /** The values the sliders can produce: 0 up to their maxima. */
  predicate InSliderRanges(c: ProjectConfig) {
    && 0.0 <= c.recycledContent <= 100.0
    && 0.0 <= c.gridEmissions <= 1000.0
    && 0.0 <= c.transportDistance <= 5000.0
    && 0.0 <= c.recyclingRate <= 100.0
  }

  function Get(c: ProjectConfig, field: ConfigField): real {
    match field
    case RecycledContent => c.recycledContent
    case GridEmissions => c.gridEmissions
    case TransportDistance => c.transportDistance
    case RecyclingRate => c.recyclingRate
  }

  /** `{ ...config, [field]: value }`: `field` becomes `value`, every other
      field keeps its value. */
  function WithField(c: ProjectConfig, field: ConfigField, value: real): (c': ProjectConfig)
    ensures Get(c', field) == value
    ensures forall other :: other != field ==> Get(c', other) == Get(c, other)
  {
    match field
    case RecycledContent => c.(recycledContent := value)
    case GridEmissions => c.(gridEmissions := value)
    case TransportDistance => c.(transportDistance := value)
    case RecyclingRate => c.(recyclingRate := value)
  }

  /** The page's state: the configuration `useState` holds. */
  class ComparePageState {
    var config: ProjectConfig

    constructor ()
      ensures config == InitialConfig
    {
      config := InitialConfig;
    }

    /** `handleConfigChange`: replaces the configuration by one in which only
        `field` has changed. */
    method HandleConfigChange(field: ConfigField, value: real)
      modifies this
      ensures config == WithField(old(config), field, value)
    {
      var newConfig := WithField(config, field, value);
      config := newConfig;
    }
  }

  /** The page's circularity score: 40% recycled content, 30% recycling rate,
      20% a mock reuse potential of 0.3 and 10% one minus distance over
      5000 km, scaled to 100 and rounded as `Math.round` does. It is the
      nearest integer to 0.4 rc + 0.3 rr + 16 - td/500. */
  function CircularityScore(c: ProjectConfig): (n: int)
    ensures var x := 0.4 * c.recycledContent + 0.3 * c.recyclingRate + 16.0 - c.transportDistance / 500.0;
            n as real - 0.5 <= x < n as real + 0.5
  {
    var recycledNorm := c.recycledContent / 100.0;
    var recyclingNorm := c.recyclingRate / 100.0;
    var reuseNorm := 0.3;
    var lossNorm := 1.0 - c.transportDistance / 5000.0;
    RoundHalfUp(100.0 * (0.4 * recycledNorm + 0.3 * recyclingNorm + 0.2 * reuseNorm + 0.1 * lossNorm))
  }

  /** Within the slider ranges the score is an integer in [6,86]. */
  lemma ScoreWithinSliderRanges(c: ProjectConfig)
    requires InSliderRanges(c)
    ensures 6 <= CircularityScore(c) <= 86
  {
    var x := 0.4 * c.recycledContent + 0.3 * c.recyclingRate + 16.0 - c.transportDistance / 500.0;
    assert 6.0 <= x <= 86.0;
    RoundHalfUpWithin(100.0 * (0.4 * (c.recycledContent / 100.0) + 0.3 * (c.recyclingRate / 100.0)
                               + 0.2 * 0.3 + 0.1 * (1.0 - c.transportDistance / 5000.0)), 6, 86);
  }

  /** The grid intensity does not enter the score. */
  lemma ScoreIgnoresGridEmissions(c: ProjectConfig, value: real)
    ensures CircularityScore(WithField(c, GridEmissions, value)) == CircularityScore(c)
  {
  }

  /** More recycled content or a higher recycling rate never lowers the score;
      a longer transport distance never raises it. */
  lemma ScoreMonotone(c: ProjectConfig, value: real)
    ensures value >= c.recycledContent ==> CircularityScore(WithField(c, RecycledContent, value)) >= CircularityScore(c)
    ensures value >= c.recyclingRate ==> CircularityScore(WithField(c, RecyclingRate, value)) >= CircularityScore(c)
    ensures value >= c.transportDistance ==> CircularityScore(WithField(c, TransportDistance, value)) <= CircularityScore(c)
  {
    var base := 100.0 * (0.4 * (c.recycledContent / 100.0) + 0.3 * (c.recyclingRate / 100.0)
                         + 0.2 * 0.3 + 0.1 * (1.0 - c.transportDistance / 5000.0));
    var c1 := WithField(c, RecycledContent, value);
    var c2 := WithField(c, RecyclingRate, value);
    var c3 := WithField(c, TransportDistance, value);
    if value >= c.recycledContent {
      RoundHalfUpMonotone(base, 100.0 * (0.4 * (c1.recycledContent / 100.0) + 0.3 * (c1.recyclingRate / 100.0)
                                         + 0.2 * 0.3 + 0.1 * (1.0 - c1.transportDistance / 5000.0)));
    }
    if value >= c.recyclingRate {
      RoundHalfUpMonotone(base, 100.0 * (0.4 * (c2.recycledContent / 100.0) + 0.3 * (c2.recyclingRate / 100.0)
                                         + 0.2 * 0.3 + 0.1 * (1.0 - c2.transportDistance / 5000.0)));
    }
    if value >= c.transportDistance {
      RoundHalfUpMonotone(100.0 * (0.4 * (c3.recycledContent / 100.0) + 0.3 * (c3.recyclingRate / 100.0)
                                   + 0.2 * 0.3 + 0.1 * (1.0 - c3.transportDistance / 5000.0)), base);
    }
  }

  /** The page opens with a score of 42 (41.5 rounded up). */
  lemma InitialScore()
    ensures CircularityScore(InitialConfig) == 42
  {
  }

  datatype Recommendation = IncreaseRecycledContent | SwitchToRenewableGrid | OptimizeTransport

  /** Exactly one recommendation, by priority: recycled content below 50%
      first, then a grid above 500 gCO2/kWh, otherwise transport. */
  function Recommend(c: ProjectConfig): (r: Recommendation)
    ensures r == IncreaseRecycledContent <==> c.recycledContent < 50.0
    ensures r == SwitchToRenewableGrid <==> c.recycledContent >= 50.0 && c.gridEmissions > 500.0
    ensures r == OptimizeTransport <==> c.recycledContent >= 50.0 && c.gridEmissions <= 500.0
  {
    if c.recycledContent < 50.0 then IncreaseRecycledContent
    else if c.gridEmissions > 500.0 then SwitchToRenewableGrid
    else OptimizeTransport
  }

  const IncreaseRecycledContentText: string :=
    "Increasing recycled content has the largest impact on reducing GWP and improving circularity."
  const SwitchToRenewableGridText: string :=
    "Switching to renewable energy grid would significantly reduce carbon footprint."
  const OptimizeTransportText: string :=
    "Consider optimizing transport distance to further improve environmental performance."

  function RecommendationText(r: Recommendation): string {
    match r
    case IncreaseRecycledContent => IncreaseRecycledContentText
    case SwitchToRenewableGrid => SwitchToRenewableGridText
    case OptimizeTransport => OptimizeTransportText
  }

  /** The message the page shows for a configuration. */
  function RecommendationMessage(c: ProjectConfig): (text: string)
    ensures c.recycledContent < 50.0 ==> text == IncreaseRecycledContentText
    ensures c.recycledContent >= 50.0 && c.gridEmissions > 500.0 ==> text == SwitchToRenewableGridText
    ensures c.recycledContent >= 50.0 && c.gridEmissions <= 500.0 ==> text == OptimizeTransportText
  {
    RecommendationText(Recommend(c))
  }

  /** The three messages differ (they have different lengths), so the text
      shown tells which recommendation was chosen. */
  lemma RecommendationTextsDistinct(r1: Recommendation, r2: Recommendation)
    ensures RecommendationText(r1) == RecommendationText(r2) ==> r1 == r2
  {
    assert |IncreaseRecycledContentText| == 93;
    assert |SwitchToRenewableGridText| == 79;
    assert |OptimizeTransportText| == 84;
  }

  /** Neither the transport distance nor the recycling rate affects the choice. */
  lemma RecommendationIgnoresDistanceAndRate(c: ProjectConfig, td: real, rr: real)
    ensures Recommend(WithField(WithField(c, TransportDistance, td), RecyclingRate, rr)) == Recommend(c)
  {
  }
}
