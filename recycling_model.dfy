/** The decision-tree recycling-rate predictor and its one-hot encoder
    (src/lib/interface.ts). The tree artifact `tree_model.json` is the
    parameter `model`. */
module RecyclingModel {
  import opened Prelude

  /** A node of the serialized tree. A node whose `value` is present is a leaf,
      whatever else it carries; every other node is a decision node, and both
      of its children are present. */
  datatype TreeNode =
    | Leaf(value: real, feature: Option<string>, threshold: Option<real>)
    | Decision(feature: Option<string>, threshold: Option<real>, left: TreeNode, right: TreeNode)

  /** The one-hot encoded input: feature name to number. */
  type FeatureInput = map<string, real>

  function Depth(t: TreeNode): nat {
    match t
    case Leaf(_, _, _) => 0
    case Decision(_, _, l, r) => 1 + if Depth(l) < Depth(r) then Depth(r) else Depth(l)
  }

  function LeafValues(t: TreeNode): set<real> {
    match t
    case Leaf(v, _, _) => {v}
    case Decision(_, _, l, r) => LeafValues(l) + LeafValues(r)
  }

  /** The safety check at a decision node: a non-empty feature name that the
      input carries, and a threshold. */
  predicate CanSplit(feature: Option<string>, threshold: Option<real>, input: FeatureInput) {
    feature.Some? && feature.value != "" && feature.value in input && threshold.Some?
  }

  /** The walk, as a recursive definition: the value of the leaf reached by
      going left where the input is at most the threshold and right otherwise,
      or None at the first node that fails the safety check. What it returns is
      always the value of one of the tree's leaves. */
  function Predict(t: TreeNode, input: FeatureInput): (r: Option<real>)
    ensures r.Some? ==> r.value in LeafValues(t)
  {
    match t
    case Leaf(v, _, _) => Some(v)
    case Decision(f, th, l, rt) =>
      if !CanSplit(f, th, input) then None
      else if input[f.value] <= th.value then Predict(l, input)
      else Predict(rt, input)
  }

  /** `predictRecyclingRate`: the loop that walks down from the root. It stops
      after at most `Depth(model)` steps. */
  method PredictRecyclingRate(model: TreeNode, input: FeatureInput) returns (r: Option<real>)
    ensures r == Predict(model, input)
  {
    var node := model;
    while node.Decision?
      invariant Predict(node, input) == Predict(model, input)
      decreases Depth(node)
    {
      if node.feature.None? || node.feature.value == "" || node.feature.value !in input || node.threshold.None? {
        return None;
      }
      if input[node.feature.value] <= node.threshold.value {
        node := node.left;
      } else {
        node := node.right;
      }
    }
    return Some(node.value);
  }

  /** A node that carries a value is a leaf even when it also names a feature. */
  lemma ValueMakesALeaf(v: real, feature: Option<string>, threshold: Option<real>, input: FeatureInput)
    ensures Predict(Leaf(v, feature, threshold), input) == Some(v)
  {
  }

  /** A decision node with a missing or empty feature, a feature the input
      lacks, or a missing threshold ends the walk with None. */
  lemma MalformedNodeGivesNone(t: TreeNode, input: FeatureInput)
    requires t.Decision?
    requires t.feature.None? || t.feature.value == "" || t.feature.value !in input || t.threshold.None?
    ensures Predict(t, input) == None
  {
  }

  /** At a sound decision node the walk goes left exactly when the input is at
      most the threshold. */
  lemma DecisionGoesLeftIffAtMostThreshold(t: TreeNode, input: FeatureInput)
    requires t.Decision? && CanSplit(t.feature, t.threshold, input)
    ensures input[t.feature.value] <= t.threshold.value ==> Predict(t, input) == Predict(t.left, input)
    ensures input[t.feature.value] > t.threshold.value ==> Predict(t, input) == Predict(t.right, input)
  {
  }

  /** If every leaf holds a rate in [0,1], a prediction is a rate in [0,1]. */
  lemma PredictionIsARate(t: TreeNode, input: FeatureInput)
    requires forall v :: v in LeafValues(t) ==> 0.0 <= v <= 1.0
    ensures Predict(t, input).Some? ==> 0.0 <= Predict(t, input).value <= 1.0
  {
  }

  /** Every non-empty feature named at a decision node is in `keys`. */
  predicate FeaturesAmong(t: TreeNode, keys: set<string>) {
    match t
    case Leaf(_, _, _) => true
    case Decision(f, _, l, r) =>
      (f.Some? && f.value != "" ==> f.value in keys) && FeaturesAmong(l, keys) && FeaturesAmong(r, keys)
  }

  /** The walk stops at a decision node whose feature is missing or empty or
      whose threshold is missing, as opposed to one whose feature the input
      lacks. */
  predicate StopsAtMissingField(t: TreeNode, input: FeatureInput) {
    match t
    case Leaf(_, _, _) => false
    case Decision(f, th, l, rt) =>
      if f.None? || f.value == "" || th.None? then true
      else if f.value !in input then false
      else if input[f.value] <= th.value then StopsAtMissingField(l, input)
      else StopsAtMissingField(rt, input)
  }

  /** When the input carries every feature the tree names, the walk fails only
      at a node with a missing field, never for a key the input lacks. */
  lemma {:induction false} NoneOnlyFromMissingField(t: TreeNode, input: FeatureInput)
    requires FeaturesAmong(t, input.Keys)
    ensures Predict(t, input).None? <==> StopsAtMissingField(t, input)
  {
    match t
    case Leaf(_, _, _) =>
    case Decision(f, th, l, rt) =>
      if f.None? || f.value == "" || th.None? {
      } else if input[f.value] <= th.value {
        NoneOnlyFromMissingField(l, input);
      } else {
        NoneOnlyFromMissingField(rt, input);
      }
  }

  // ---------------------------------------------------------------------
  // The one-hot encoder
  // ---------------------------------------------------------------------

  /** The thirteen feature columns the tree was trained on. */
  const AllFeatures: seq<string> := [
    "material_Aluminium", "material_Copper",
    "product_type_Automotive Components", "product_type_Beverage Can",
    "product_type_Building Construction", "product_type_Cookware",
    "product_type_Electronics (PCB)", "product_type_Industrial Cable",
    "product_type_Packaging Foil",
    "region_EU", "region_IN", "region_NA", "region_SEA"
  ]

  const MaterialPrefix: string := "material_"
  const ProductTypePrefix: string := "product_type_"
  const RegionPrefix: string := "region_"

  predicate HasPrefix(key: string, prefix: string) {
    |prefix| <= |key| && key[..|prefix|] == prefix
  }

  /** The three keys the arguments name. The product type is used verbatim,
      spaces included. */
  function MaterialKey(material: string): string { MaterialPrefix + material }
  function ProductTypeKey(productType: string): string { ProductTypePrefix + productType }
  function RegionKey(region: string): string { RegionPrefix + region }

  /** One-hot encoding over a list of feature columns: every column, 1 where it
      is one of the three named keys and 0 elsewhere. */
  function OneHot(features: seq<string>, materialKey: string, productTypeKey: string, regionKey: string): (input: FeatureInput)
    ensures input.Keys == set f | f in features
    ensures forall k :: k in input ==> input[k] == 0.0 || input[k] == 1.0
    ensures forall k :: k in input ==> (input[k] == 1.0 <==> k == materialKey || k == productTypeKey || k == regionKey)
  {
    map f | f in features :: if f == materialKey || f == productTypeKey || f == regionKey then 1.0 else 0.0
  }

  /** The encoding `createModelInput` computes, over the thirteen columns. */
  function ModelInput(material: string, productType: string, region: string): FeatureInput {
    OneHot(AllFeatures, MaterialKey(material), ProductTypeKey(productType), RegionKey(region))
  }

  /** The body of `createModelInput` for a given column list: set every column
      to 0, then set each of the three keys to 1 if it is a column. */
  method FillOneHot(features: seq<string>, materialKey: string, productTypeKey: string, regionKey: string)
    returns (input: FeatureInput)
    ensures input == OneHot(features, materialKey, productTypeKey, regionKey)
  {
    input := map[];
    var i := 0;
    while i < |features|
      invariant 0 <= i <= |features|
      invariant input.Keys == set f | f in features[..i]
      invariant forall k :: k in input ==> input[k] == 0.0
    {
      assert features[..i + 1] == features[..i] + [features[i]];
      input := input[features[i] := 0.0];
      i := i + 1;
    }
    assert features[..i] == features;
    if materialKey in input { input := input[materialKey := 1.0]; }
    if productTypeKey in input { input := input[productTypeKey := 1.0]; }
    if regionKey in input { input := input[regionKey := 1.0]; }
    assert input.Keys == OneHot(features, materialKey, productTypeKey, regionKey).Keys;
  }

  /** `createModelInput`: the thirteen columns, with the keys built from the
      arguments. */
  method CreateModelInput(material: string, productType: string, region: string) returns (input: FeatureInput)
    ensures input == ModelInput(material, productType, region)
  {
    var materialKey := MaterialPrefix + material;
    var productTypeKey := ProductTypePrefix + productType;
    var regionKey := RegionPrefix + region;
    input := FillOneHot(AllFeatures, materialKey, productTypeKey, regionKey);
  }

  /** The three key families are told apart by their first letter. */
  lemma KeysOfDifferentFamilies(material: string, productType: string, region: string)
    ensures MaterialKey(material)[0] == 'm'
    ensures ProductTypeKey(productType)[0] == 'p'
    ensures RegionKey(region)[0] == 'r'
  {
  }

  /** In each of the three families at most one key is 1. */
  lemma OneHotPerFamily(material: string, productType: string, region: string, prefix: string, k1: string, k2: string)
    requires prefix == MaterialPrefix || prefix == ProductTypePrefix || prefix == RegionPrefix
    requires var input := ModelInput(material, productType, region);
             k1 in input && k2 in input && input[k1] == 1.0 && input[k2] == 1.0
    requires HasPrefix(k1, prefix) && HasPrefix(k2, prefix)
    ensures k1 == k2
  {
    KeysOfDifferentFamilies(material, productType, region);
    assert k1[0] == prefix[0] && k2[0] == prefix[0];
  }

  /** So at most three features are 1. */
  lemma AtMostThreeOnes(material: string, productType: string, region: string)
    ensures var input := ModelInput(material, productType, region);
            |set k | k in input && input[k] == 1.0| <= 3
  {
    var input := ModelInput(material, productType, region);
    var ones := set k | k in input && input[k] == 1.0;
    var named := {MaterialKey(material), ProductTypeKey(productType), RegionKey(region)};
    assert ones <= named;
    SubsetCardinality(ones, named);
  }

  lemma SubsetCardinality(a: set<string>, b: set<string>)
    requires a <= b
    ensures |a| <= |b|
  {
    if a != {} {
      var x :| x in a;
      SubsetCardinality(a - {x}, b - {x});
    }
  }

  /** An unrecognised material, product type or region leaves its whole family
      at 0, and nothing fails. */
  lemma UnrecognisedLeavesFamilyZero(material: string, productType: string, region: string, k: string)
    requires var input := ModelInput(material, productType, region); k in input
    ensures MaterialKey(material) !in AllFeatures && HasPrefix(k, MaterialPrefix)
            ==> ModelInput(material, productType, region)[k] == 0.0
    ensures ProductTypeKey(productType) !in AllFeatures && HasPrefix(k, ProductTypePrefix)
            ==> ModelInput(material, productType, region)[k] == 0.0
    ensures RegionKey(region) !in AllFeatures && HasPrefix(k, RegionPrefix)
            ==> ModelInput(material, productType, region)[k] == 0.0
  {
    KeysOfDifferentFamilies(material, productType, region);
  }

  /** One column of the encoding; a helper for the example below. */
  lemma OneHotAt(features: seq<string>, materialKey: string, productTypeKey: string, regionKey: string, i: nat)
    requires i < |features|
    ensures var input := OneHot(features, materialKey, productTypeKey, regionKey);
            var k := features[i];
            k in input && input[k] == if k == materialKey || k == productTypeKey || k == regionKey then 1.0 else 0.0
  {
  }

  /** The documented example, an aluminium beverage can from the EU: the
      product type keeps its space, and exactly the three matching columns
      are 1. */
  lemma BeverageCanExample()
    ensures var input := ModelInput("Aluminium", "Beverage Can", "EU");
            && "material_Aluminium" in input && input["material_Aluminium"] == 1.0
            && "product_type_Beverage Can" in input && input["product_type_Beverage Can"] == 1.0
            && "region_EU" in input && input["region_EU"] == 1.0
            && "material_Copper" in input && input["material_Copper"] == 0.0
            && "region_IN" in input && input["region_IN"] == 0.0
  {
    var mk, pk, rk := MaterialKey("Aluminium"), ProductTypeKey("Beverage Can"), RegionKey("EU");
    assert mk == AllFeatures[0];
    assert pk == AllFeatures[3];
    assert rk == AllFeatures[9];
    OneHotAt(AllFeatures, mk, pk, rk, 0);
    OneHotAt(AllFeatures, mk, pk, rk, 3);
    OneHotAt(AllFeatures, mk, pk, rk, 9);
    OneHotAt(AllFeatures, mk, pk, rk, 1);
    OneHotAt(AllFeatures, mk, pk, rk, 10);
    assert |AllFeatures[1]| != |mk| && AllFeatures[1][0] != pk[0] && AllFeatures[1][0] != rk[0];
    assert AllFeatures[10][0] != mk[0] && AllFeatures[10][0] != pk[0] && AllFeatures[10][7] != rk[7];
  }

  /** For a tree that names only the thirteen features, a prediction on an
      encoded input fails only at a node with a missing feature or threshold. */
  lemma EncodedInputNeverLacksAKey(t: TreeNode, material: string, productType: string, region: string)
    requires FeaturesAmong(t, set f | f in AllFeatures)
    ensures Predict(t, ModelInput(material, productType, region)).None?
            <==> StopsAtMissingField(t, ModelInput(material, productType, region))
  {
    NoneOnlyFromMissingField(t, ModelInput(material, productType, region));
  }
}
