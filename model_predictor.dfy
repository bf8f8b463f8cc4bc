/** The crop predictor: the four crop classes, the result shaping around the
    trained classifier, the demo prediction, and the simulated distribution of
    the region's area over the classes. */
module ModelPredictor {
  import opened Common

  /** The crop classes, by class id. */
  const CROP_LABELS: seq<string> := ["Paddy/Rice", "Millet/Pulses", "Cash Crops", "Fallow/Barren"]
  /** The display colour of each class, by class id. */
  const CROP_COLORS: seq<string> := ["#2ecc71", "#f39c12", "#8b4513", "#95a5a6"]

  // ---------------------------------------------------------------------
  // The classifier and the prediction result
  // ---------------------------------------------------------------------

  /** What the scaler and the random forest give for one feature vector: the
      predicted class and the probability vector. */
  datatype ModelOutput = ModelOutput(prediction: int, probabilities: seq<real>)

  /** The trained model as an oracle; `None` stands for a call that raised. */
  datatype Classifier = Classifier(run: seq<real> -> Option<ModelOutput>)

  /** One entry of `all_probabilities`. */
  datatype ClassProbability = ClassProbability(crop: string, probability: real, color: string)

  /** The dictionary `predict_crop` returns; `features` and `demo_mode` are
      keys that only one of the two shapes carries. */
  datatype Prediction = Prediction(
    predictedCrop: string,
    cropId: int,
    confidence: real,
    color: string,
    allProbabilities: seq<ClassProbability>,
    features: Option<seq<real>>,
    demoMode: Option<bool>)

  function Probabilities(table: seq<ClassProbability>): (r: seq<real>)
    ensures |r| == |table| && forall i :: 0 <= i < |table| ==> r[i] == table[i].probability
  {
    seq(|table|, i requires 0 <= i < |table| => table[i].probability)
  }

  /** One entry per class, in class order, each with that class's colour. */
  predicate LabelledByIndex(table: seq<ClassProbability>) {
    |table| == |CROP_LABELS| &&
    forall i :: 0 <= i < |table| ==> table[i].crop == CROP_LABELS[i] && table[i].color == CROP_COLORS[i]
  }

  /** Python accepts an index `i` into a list of length `n` when `-n <= i < n`. */
  predicate PyInRange(n: int, i: int) {
    -n <= i < n
  }

  /** The position Python reads for index `i` of a list of length `n`. */
  function PyPos(n: int, i: int): (p: int)
    requires PyInRange(n, i)
    ensures 0 <= p < n
    ensures i >= 0 ==> p == i
  {
    if i < 0 then n + i else i
  }

  /** The fixed prediction used when no model is available. */
  function DemoPrediction(): (r: Prediction)
    ensures r.demoMode == Some(true) && r.features.None?
    ensures r.cropId == 0 && r.predictedCrop == CROP_LABELS[0] && r.color == CROP_COLORS[0]
    ensures LabelledByIndex(r.allProbabilities)
    ensures r.confidence == r.allProbabilities[0].probability
    ensures forall i :: 0 <= i < |r.allProbabilities| ==> r.allProbabilities[i].probability <= r.confidence
    ensures Sum(Probabilities(r.allProbabilities)) == 1.0
  {
    var table := [
      ClassProbability("Paddy/Rice", 0.85, "#2ecc71"),
      ClassProbability("Millet/Pulses", 0.10, "#f39c12"),
      ClassProbability("Cash Crops", 0.03, "#8b4513"),
      ClassProbability("Fallow/Barren", 0.02, "#95a5a6")
    ];
    var p := Probabilities(table);
    assert p == [0.85, 0.10, 0.03, 0.02];
    assert p[3..][1..] == [];
    assert Sum(p[3..]) == 0.02;
    assert Sum(p[2..]) == 0.05 by { assert p[2..][1..] == p[3..]; }
    assert Sum(p[1..]) == 0.15 by { assert p[1..][1..] == p[2..]; }
    Prediction("Paddy/Rice", 0, 0.85, "#2ecc71", table, None, Some(true))
  }

  /** `all_probabilities` built from a probability vector with at least one
      entry per class. */
  function ProbabilityTable(p: seq<real>): (t: seq<ClassProbability>)
    requires |p| >= |CROP_LABELS|
    ensures LabelledByIndex(t)
    ensures forall i :: 0 <= i < |t| ==> t[i].probability == p[i]
  {
    seq(|CROP_LABELS|, i requires 0 <= i < |CROP_LABELS| => ClassProbability(CROP_LABELS[i], p[i], CROP_COLORS[i]))
  }

  /** The live path of `predict_crop` raises (and so falls back to the demo
      prediction) when there is no model, when the model raises, when the
      probability vector is shorter than the class list, or when the class
      index is outside what Python's list indexing accepts. */
  predicate PredictionFails(model: Option<Classifier>, features: seq<real>) {
    model.None? ||
    model.value.run(features).None? ||
    |model.value.run(features).value.probabilities| < |CROP_LABELS| ||
    !PyInRange(|CROP_LABELS|, model.value.run(features).value.prediction)
  }

  /** The result of `predict_crop` for a feature vector. */
  function CropPrediction(model: Option<Classifier>, features: seq<real>): (r: Prediction)
    ensures model.None? ==> r == DemoPrediction()
    ensures PredictionFails(model, features) ==> r == DemoPrediction()
    ensures r.demoMode.Some? <==> PredictionFails(model, features)
    ensures !PredictionFails(model, features) ==>
      var out := model.value.run(features).value;
      var at := PyPos(|CROP_LABELS|, out.prediction);
      && r.cropId == out.prediction
      && r.predictedCrop == CROP_LABELS[at]
      && r.color == CROP_COLORS[at]
      && r.confidence == out.probabilities[PyPos(|out.probabilities|, out.prediction)]
      && LabelledByIndex(r.allProbabilities)
      && (forall i :: 0 <= i < |r.allProbabilities| ==> r.allProbabilities[i].probability == out.probabilities[i])
      && r.features == Some(features)
  {
    if PredictionFails(model, features) then DemoPrediction()
    else
      var out := model.value.run(features).value;
      var at := PyPos(|CROP_LABELS|, out.prediction);
      Prediction(
        CROP_LABELS[at], out.prediction,
        out.probabilities[PyPos(|out.probabilities|, out.prediction)],
        CROP_COLORS[at], ProbabilityTable(out.probabilities), Some(features), None)
  }

  /** A random forest trained on the four classes predicts one of them and
      gives one probability per class. */
  predicate WellFormedOutput(out: ModelOutput) {
    0 <= out.prediction < |CROP_LABELS| <= |out.probabilities|
  }

  /** The predicted label, its colour and its confidence all belong to the
      same class id, whether the prediction is live or the demo one. */
  lemma PredictionIndexConsistent(model: Option<Classifier>, features: seq<real>)
    requires model.Some? && model.value.run(features).Some? ==> WellFormedOutput(model.value.run(features).value)
    ensures var r := CropPrediction(model, features);
      && 0 <= r.cropId < |CROP_LABELS|
      && r.predictedCrop == CROP_LABELS[r.cropId]
      && r.color == CROP_COLORS[r.cropId]
      && LabelledByIndex(r.allProbabilities)
      && r.confidence == r.allProbabilities[r.cropId].probability
  {
  }

  /** `predict_crop` builds `all_probabilities` in a loop over the classes. */
  method PredictCrop(model: Option<Classifier>, features: seq<real>) returns (r: Prediction)
    ensures r == CropPrediction(model, features)
  {
    if model.None? {
      return DemoPrediction();
    }
    var output := model.value.run(features);
    if output.None? {
      return DemoPrediction();
    }
    var k, p := output.value.prediction, output.value.probabilities;
    var table: seq<ClassProbability> := [];
    for i := 0 to |CROP_LABELS|
      invariant i <= |p|
      invariant |table| == i
      invariant forall j :: 0 <= j < i ==> table[j] == ClassProbability(CROP_LABELS[j], p[j], CROP_COLORS[j])
    {
      if i >= |p| {
        // probabilities[i] raises IndexError
        return DemoPrediction();
      }
      table := table + [ClassProbability(CROP_LABELS[i], p[i], CROP_COLORS[i])];
    }
    if !PyInRange(|CROP_LABELS|, k) {
      // crop_labels[prediction] raises IndexError
      return DemoPrediction();
    }
    var at := PyPos(|CROP_LABELS|, k);
    r := Prediction(CROP_LABELS[at], k, p[PyPos(|p|, k)], CROP_COLORS[at], table, Some(features), None);
  }

  // ---------------------------------------------------------------------
  // The simulated area distribution
  // ---------------------------------------------------------------------

  /** The random draws of `predict_area_distribution`: four variations, the
      area estimate, and one confidence per class, all within the bounds of
      the `random.uniform` calls that make them. */
  datatype AreaDraw = AreaDraw(variation: seq<real>, areaEstimate: real, confidences: seq<real>)

  predicate ValidAreaDraw(d: AreaDraw) {
    && |d.variation| == |CROP_LABELS|
    && (forall i :: 0 <= i < |d.variation| ==> -0.05 <= d.variation[i] <= 0.05)
    && 10000.0 <= d.areaEstimate <= 50000.0
    && |d.confidences| == |CROP_LABELS|
    && (forall i :: 0 <= i < |d.confidences| ==> 0.75 <= d.confidences[i] <= 0.95)
  }

  /** One entry of `crop_distribution`. */
  datatype CropArea = CropArea(crop: string, areaHa: real, percentage: real, color: string, confidence: real)

  /** The dictionary `predict_area_distribution` returns. */
  datatype AreaDistribution = AreaDistribution(totalAreaHa: real, dominantCrop: string, cropDistribution: seq<CropArea>)

  function Areas(d: seq<CropArea>): (r: seq<real>)
    ensures |r| == |d| && forall i :: 0 <= i < |d| ==> r[i] == d[i].areaHa
  {
    seq(|d|, i requires 0 <= i < |d| => d[i].areaHa)
  }

  function Percentages(d: seq<CropArea>): (r: seq<real>)
    ensures |r| == |d| && forall i :: 0 <= i < |d| ==> r[i] == d[i].percentage
  {
    seq(|d|, i requires 0 <= i < |d| => d[i].percentage)
  }

  /** A missing `mean_ndvi` reads as 0.5. */
  function MeanNdviOrDefault(meanNdvi: Option<real>): real {
    meanNdvi.GetOr(0.5)
  }

  /** The class a mean NDVI falls into: strict lower thresholds 0.65, 0.5 and 0.35. */
  function Bucket(meanNdvi: real): (c: nat)
    ensures c < |CROP_LABELS|
    ensures c == 0 <==> meanNdvi > 0.65
    ensures c == 2 <==> 0.5 < meanNdvi <= 0.65
    ensures c == 1 <==> 0.35 < meanNdvi <= 0.5
    ensures c == 3 <==> meanNdvi <= 0.35
  {
    if meanNdvi > 0.65 then 0
    else if meanNdvi > 0.5 then 2
    else if meanNdvi > 0.35 then 1
    else 3
  }

  /** The base distribution of a class: it sums to 1, and the class's own
      share leads every other share by at least 0.1. */
  function BaseDistribution(c: nat): (d: seq<real>)
    requires c < |CROP_LABELS|
    ensures |d| == |CROP_LABELS|
    ensures Sum(d) == 1.0
    ensures forall j :: 0 <= j < |d| ==> d[j] > 0.0
    ensures forall j :: 0 <= j < |d| && j != c ==> d[c] - d[j] >= 0.1
  {
    if c == 0 then [0.55, 0.25, 0.15, 0.05]
    else if c == 2 then [0.20, 0.30, 0.40, 0.10]
    else if c == 1 then [0.15, 0.50, 0.25, 0.10]
    else [0.05, 0.15, 0.10, 0.70]
  }

  /** Each base share plus its variation, clamped from below at 0.01. */
  function Perturbed(base: seq<real>, variation: seq<real>): (r: seq<real>)
    requires |variation| == |base|
    ensures |r| == |base|
    ensures forall i :: 0 <= i < |r| ==> r[i] >= 0.01 && r[i] >= base[i] + variation[i]
    ensures forall i :: 0 <= i < |r| ==> r[i] == 0.01 || r[i] == base[i] + variation[i]
  {
    seq(|base|, i requires 0 <= i < |base| => Max(0.01, base[i] + variation[i]))
  }

  /** Each element divided by the total. */
  function Normalized(s: seq<real>): (r: seq<real>)
    requires Sum(s) != 0.0
    ensures |r| == |s|
    ensures forall i :: 0 <= i < |r| ==> r[i] == s[i] / Sum(s)
    ensures Sum(r) == 1.0
  {
    var r := seq(|s|, i requires 0 <= i < |s| => s[i] / Sum(s));
    SumDivided(s, r, Sum(s));
    r
  }

  /** The class shares of a region in class `c` under the given variations:
      all positive, summing to 1. */
  function Shares(c: nat, variation: seq<real>): (r: seq<real>)
    requires c < |CROP_LABELS| && |variation| == |CROP_LABELS|
    ensures |r| == |CROP_LABELS|
    ensures Sum(r) == 1.0
    ensures forall i :: 0 <= i < |r| ==> r[i] > 0.0
  {
    var p := Perturbed(BaseDistribution(c), variation);
    SumPositive(p);
    Normalized(p)
  }

  /** The bucket's own class keeps a perturbed share at least as large as
      class `j`'s: its base share leads by at least 0.1, and two variations
      within [-0.05, 0.05] move the shares apart by at most 0.1. */
  lemma PerturbedOrder(c: nat, variation: seq<real>, j: nat)
    requires c < |CROP_LABELS| && |variation| == |CROP_LABELS| && j < |CROP_LABELS|
    requires -0.05 <= variation[j] <= 0.05 && -0.05 <= variation[c] <= 0.05
    ensures Perturbed(BaseDistribution(c), variation)[j] <= Perturbed(BaseDistribution(c), variation)[c]
  {
    var base := BaseDistribution(c);
    assert base[c] >= 0.4;
  }

  /** With both variations strictly inside (-0.05, 0.05) the lead is strict. */
  lemma PerturbedStrictOrder(c: nat, variation: seq<real>, j: nat)
    requires c < |CROP_LABELS| && |variation| == |CROP_LABELS| && j < |CROP_LABELS| && j != c
    requires -0.05 < variation[j] < 0.05 && -0.05 < variation[c] < 0.05
    ensures Perturbed(BaseDistribution(c), variation)[j] < Perturbed(BaseDistribution(c), variation)[c]
  {
    var base := BaseDistribution(c);
    assert base[c] >= 0.4;
  }

  /** Normalising keeps the order of two elements. */
  lemma NormalizedOrder(s: seq<real>, j: nat, k: nat)
    requires j < |s| && k < |s| && Sum(s) > 0.0 && s[j] <= s[k]
    ensures Normalized(s)[j] <= Normalized(s)[k]
  {
    DivideMonotone(s[j], s[k], Sum(s));
  }

  lemma DivideMonotone(a: real, b: real, t: real)
    requires t > 0.0 && a <= b
    ensures a / t <= b / t
  {
  }

  /** Normalising keeps a strict order of two elements. */
  lemma NormalizedStrictOrder(s: seq<real>, j: nat, k: nat)
    requires j < |s| && k < |s| && Sum(s) > 0.0 && s[j] < s[k]
    ensures Normalized(s)[j] < Normalized(s)[k]
  {
    DivideStrictMonotone(s[j], s[k], Sum(s));
  }

  lemma DivideStrictMonotone(a: real, b: real, t: real)
    requires t > 0.0 && a < b
    ensures a / t < b / t
  {
  }

  /** With every variation in [-0.05, 0.05], the bucket's own class has a
      share at least as large as every other class's. */
  lemma DominantShare(c: nat, variation: seq<real>)
    requires c < |CROP_LABELS| && |variation| == |CROP_LABELS|
    requires forall i :: 0 <= i < |variation| ==> -0.05 <= variation[i] <= 0.05
    ensures forall j :: 0 <= j < |CROP_LABELS| ==> Shares(c, variation)[j] <= Shares(c, variation)[c]
  {
    var p := Perturbed(BaseDistribution(c), variation);
    SumPositive(p);
    assert Shares(c, variation) == Normalized(p);
    forall j | 0 <= j < |CROP_LABELS|
      ensures Shares(c, variation)[j] <= Shares(c, variation)[c]
    {
      PerturbedOrder(c, variation, j);
      NormalizedOrder(p, j, c);
    }
  }

  /** With every variation strictly inside (-0.05, 0.05), the bucket's own
      class has the unique largest share. */
  lemma StrictlyDominantShare(c: nat, variation: seq<real>)
    requires c < |CROP_LABELS| && |variation| == |CROP_LABELS|
    requires forall i :: 0 <= i < |variation| ==> -0.05 < variation[i] < 0.05
    ensures forall j :: 0 <= j < |CROP_LABELS| && j != c ==> Shares(c, variation)[j] < Shares(c, variation)[c]
  {
    var p := Perturbed(BaseDistribution(c), variation);
    SumPositive(p);
    assert Shares(c, variation) == Normalized(p);
    forall j | 0 <= j < |CROP_LABELS| && j != c
      ensures Shares(c, variation)[j] < Shares(c, variation)[c]
    {
      PerturbedStrictOrder(c, variation, j);
      NormalizedStrictOrder(p, j, c);
    }
  }

  /** At the extremes of the variation a tie is reached: in the Cash Crops
      bucket, Millet/Pulses can get the same share as Cash Crops. */
  lemma TieAtExtremeVariation()
    ensures Shares(2, [0.0, 0.05, -0.05, 0.0])[1] == Shares(2, [0.0, 0.05, -0.05, 0.0])[2]
  {
    var p := Perturbed(BaseDistribution(2), [0.0, 0.05, -0.05, 0.0]);
    assert p[1] == p[2];
  }

  /** The class the NDVI record's mean falls into; a missing mean reads as
      0.5, which is Millet/Pulses. */
  function ClassOf(meanNdvi: Option<real>): (c: nat)
    ensures c < |CROP_LABELS|
    ensures meanNdvi.Some? ==> c == Bucket(meanNdvi.value)
    ensures meanNdvi.None? ==> c == 1
  {
    Bucket(MeanNdviOrDefault(meanNdvi))
  }

  /** The `crop_distribution` entry of class `i`: its share of the area
      estimate and of 100. */
  function CropAreaOf(shares: seq<real>, draw: AreaDraw, i: nat): (e: CropArea)
    requires i < |CROP_LABELS| && |shares| == |CROP_LABELS| && |draw.confidences| == |CROP_LABELS|
    ensures e.crop == CROP_LABELS[i] && e.color == CROP_COLORS[i] && e.confidence == draw.confidences[i]
    ensures e.areaHa == Scale(shares, draw.areaEstimate)[i] && e.percentage == Scale(shares, 100.0)[i]
  {
    CropArea(CROP_LABELS[i], Scale(shares, draw.areaEstimate)[i], Scale(shares, 100.0)[i], CROP_COLORS[i], draw.confidences[i])
  }

  /** The `crop_distribution` entries for the given class shares, in class order. */
  function EntryTable(shares: seq<real>, draw: AreaDraw): (t: seq<CropArea>)
    requires |shares| == |CROP_LABELS| && |draw.confidences| == |CROP_LABELS|
    ensures |t| == |CROP_LABELS|
    ensures forall i :: 0 <= i < |t| ==> t[i] == CropAreaOf(shares, draw, i)
  {
    seq(|CROP_LABELS|, i requires 0 <= i < |CROP_LABELS| => CropAreaOf(shares, draw, i))
  }

  /** The result of `predict_area_distribution` (before rounding). */
  function AreaDistributionOf(meanNdvi: Option<real>, draw: AreaDraw): (r: AreaDistribution)
    requires ValidAreaDraw(draw)
    ensures 10000.0 <= r.totalAreaHa <= 50000.0 && r.totalAreaHa == draw.areaEstimate
    ensures r.dominantCrop == CROP_LABELS[ClassOf(meanNdvi)]
    ensures meanNdvi.None? ==> r.dominantCrop == "Millet/Pulses"
    ensures r.cropDistribution == EntryTable(Shares(ClassOf(meanNdvi), draw.variation), draw)
  {
    AreaDistribution(
      draw.areaEstimate, CROP_LABELS[ClassOf(meanNdvi)],
      EntryTable(Shares(ClassOf(meanNdvi), draw.variation), draw))
  }

  /** Each entry of the table carries its class's label and colour, its
      share times the estimate as area, its share times 100 as percentage
      and its drawn confidence, hence one in [0.75, 0.95]. */
  lemma EntryTableFields(shares: seq<real>, draw: AreaDraw)
    requires |shares| == |CROP_LABELS| && |draw.confidences| == |CROP_LABELS|
    requires forall i :: 0 <= i < |draw.confidences| ==> 0.75 <= draw.confidences[i] <= 0.95
    ensures var t := EntryTable(shares, draw);
      forall i :: 0 <= i < |t| ==>
        && t[i].crop == CROP_LABELS[i]
        && t[i].color == CROP_COLORS[i]
        && t[i].areaHa == shares[i] * draw.areaEstimate
        && t[i].percentage == shares[i] * 100.0
        && t[i].confidence == draw.confidences[i]
        && 0.75 <= t[i].confidence <= 0.95
  {
    var t := EntryTable(shares, draw);
    forall i | 0 <= i < |t|
      ensures t[i].areaHa == shares[i] * draw.areaEstimate && t[i].percentage == shares[i] * 100.0
    {
      ScaleIndex(shares, draw.areaEstimate, i);
      ScaleIndex(shares, 100.0, i);
    }
  }

  /** Each entry carries its class's label and colour by index, an area of
      its share of the estimate, a percentage of its share of 100, and a
      drawn confidence in [0.75, 0.95]. */
  lemma AreaDistributionEntries(meanNdvi: Option<real>, draw: AreaDraw)
    requires ValidAreaDraw(draw)
    ensures var r := AreaDistributionOf(meanNdvi, draw);
      && |r.cropDistribution| == |CROP_LABELS|
      && forall i :: 0 <= i < |r.cropDistribution| ==>
        && r.cropDistribution[i].crop == CROP_LABELS[i]
        && r.cropDistribution[i].color == CROP_COLORS[i]
        && r.cropDistribution[i].areaHa == Shares(ClassOf(meanNdvi), draw.variation)[i] * r.totalAreaHa
        && r.cropDistribution[i].percentage == Shares(ClassOf(meanNdvi), draw.variation)[i] * 100.0
        && 0.75 <= r.cropDistribution[i].confidence <= 0.95
  {
    var shares := Shares(ClassOf(meanNdvi), draw.variation);
    var r := AreaDistributionOf(meanNdvi, draw);
    EntryTableFields(shares, draw);
    assert r.cropDistribution == EntryTable(shares, draw) && r.totalAreaHa == draw.areaEstimate;
  }

  /** Positive shares summing to 1 give every entry a positive part of the
      area, at most all of it, and a percentage in (0, 100]. */
  lemma EntryTableBounds(shares: seq<real>, draw: AreaDraw)
    requires |shares| == |CROP_LABELS| && |draw.confidences| == |CROP_LABELS| && draw.areaEstimate > 0.0
    requires Sum(shares) == 1.0 && forall i :: 0 <= i < |shares| ==> shares[i] > 0.0
    ensures var t := EntryTable(shares, draw);
      forall i :: 0 <= i < |t| ==>
        && 0.0 < t[i].areaHa <= draw.areaEstimate
        && 0.0 < t[i].percentage <= 100.0
  {
    var t := EntryTable(shares, draw);
    forall i | 0 <= i < |t|
      ensures 0.0 < t[i].areaHa <= draw.areaEstimate
      ensures 0.0 < t[i].percentage <= 100.0
    {
      ElementAtMostSum(shares, i);
      ScaleIndex(shares, draw.areaEstimate, i);
      ScaleIndex(shares, 100.0, i);
      ScaledShare(shares[i], draw.areaEstimate, t[i].areaHa);
      ScaledShare(shares[i], 100.0, t[i].percentage);
    }
  }

  /** Every class gets a positive part of the area, at most all of it. */
  lemma AreaDistributionBounds(meanNdvi: Option<real>, draw: AreaDraw)
    requires ValidAreaDraw(draw)
    ensures var r := AreaDistributionOf(meanNdvi, draw);
      forall i :: 0 <= i < |r.cropDistribution| ==>
        && 0.0 < r.cropDistribution[i].areaHa <= r.totalAreaHa
        && 0.0 < r.cropDistribution[i].percentage <= 100.0
  {
    EntryTableBounds(Shares(ClassOf(meanNdvi), draw.variation), draw);
  }

  lemma ScaledShare(share: real, total: real, x: real)
    requires 0.0 < share <= 1.0 && total > 0.0 && x == share * total
    ensures 0.0 < x <= total
  {
  }

  /** An element of a sequence of positive reals is at most the sum. */
  lemma {:induction false} ElementAtMostSum(s: seq<real>, i: nat)
    requires i < |s|
    requires forall j :: 0 <= j < |s| ==> s[j] > 0.0
    ensures s[i] <= Sum(s)
  {
    if i == 0 {
      if |s| > 1 {
        SumPositive(s[1..]);
      }
    } else {
      ElementAtMostSum(s[1..], i - 1);
    }
  }

  /** The areas of the table are the shares scaled by the estimate, the
      percentages the shares scaled by 100. */
  lemma EntryTableColumns(shares: seq<real>, draw: AreaDraw)
    requires |shares| == |CROP_LABELS| && |draw.confidences| == |CROP_LABELS|
    ensures Areas(EntryTable(shares, draw)) == Scale(shares, draw.areaEstimate)
    ensures Percentages(EntryTable(shares, draw)) == Scale(shares, 100.0)
  {
  }

  /** Shares summing to 1 give areas summing to the estimate and
      percentages summing to 100. */
  lemma EntryTableTotals(shares: seq<real>, draw: AreaDraw)
    requires |shares| == |CROP_LABELS| && |draw.confidences| == |CROP_LABELS| && Sum(shares) == 1.0
    ensures Sum(Areas(EntryTable(shares, draw))) == draw.areaEstimate
    ensures Sum(Percentages(EntryTable(shares, draw))) == 100.0
  {
    EntryTableColumns(shares, draw);
    SumScale(shares, draw.areaEstimate);
    SumScale(shares, 100.0);
  }

  /** The areas add up to the area estimate and the percentages to 100. */
  lemma AreaDistributionTotals(meanNdvi: Option<real>, draw: AreaDraw)
    requires ValidAreaDraw(draw)
    ensures var r := AreaDistributionOf(meanNdvi, draw);
      && Sum(Areas(r.cropDistribution)) == r.totalAreaHa
      && Sum(Percentages(r.cropDistribution)) == 100.0
  {
    EntryTableTotals(Shares(ClassOf(meanNdvi), draw.variation), draw);
  }

  /** The entry of a largest share has the largest area and percentage. */
  lemma EntryTableOrder(shares: seq<real>, draw: AreaDraw, c: nat)
    requires |shares| == |CROP_LABELS| && |draw.confidences| == |CROP_LABELS| && draw.areaEstimate > 0.0
    requires c < |CROP_LABELS|
    requires forall j :: 0 <= j < |shares| ==> shares[j] <= shares[c]
    ensures var t := EntryTable(shares, draw);
      forall j :: 0 <= j < |t| ==> t[j].percentage <= t[c].percentage && t[j].areaHa <= t[c].areaHa
  {
    var t := EntryTable(shares, draw);
    ScaleIndex(shares, draw.areaEstimate, c);
    ScaleIndex(shares, 100.0, c);
    forall j | 0 <= j < |t|
      ensures t[j].percentage <= t[c].percentage && t[j].areaHa <= t[c].areaHa
    {
      ScaleIndex(shares, draw.areaEstimate, j);
      ScaleIndex(shares, 100.0, j);
      ScaledOrder(shares[j], shares[c], 100.0, t[j].percentage, t[c].percentage);
      ScaledOrder(shares[j], shares[c], draw.areaEstimate, t[j].areaHa, t[c].areaHa);
    }
  }

  lemma ScaledOrder(a: real, b: real, k: real, x: real, y: real)
    requires a <= b && k > 0.0 && x == a * k && y == b * k
    ensures x <= y
  {
  }

  /** The entry of the crop reported as dominant has the largest area and
      percentage of all entries. */
  lemma DominantCropHasLargestShare(meanNdvi: Option<real>, draw: AreaDraw)
    requires ValidAreaDraw(draw)
    ensures var r := AreaDistributionOf(meanNdvi, draw);
      var c := ClassOf(meanNdvi);
      && r.cropDistribution[c].crop == r.dominantCrop
      && forall j :: 0 <= j < |r.cropDistribution| ==>
           r.cropDistribution[j].percentage <= r.cropDistribution[c].percentage &&
           r.cropDistribution[j].areaHa <= r.cropDistribution[c].areaHa
  {
    var c := ClassOf(meanNdvi);
    DominantShare(c, draw.variation);
    EntryTableOrder(Shares(c, draw.variation), draw, c);
  }

  /** `predict_area_distribution` fills `crop_distribution` in a loop over the classes. */
  method PredictAreaDistribution(meanNdvi: Option<real>, draw: AreaDraw) returns (r: AreaDistribution)
    requires ValidAreaDraw(draw)
    ensures r == AreaDistributionOf(meanNdvi, draw)
  {
    var c := ClassOf(meanNdvi);
    var shares := Shares(c, draw.variation);
    var entries: seq<CropArea> := [];
    for i := 0 to |CROP_LABELS|
      invariant |entries| == i
      invariant forall j :: 0 <= j < i ==> entries[j] == CropAreaOf(shares, draw, j)
    {
      entries := entries + [CropAreaOf(shares, draw, i)];
    }
    assert entries == EntryTable(shares, draw);
    r := AreaDistribution(draw.areaEstimate, CROP_LABELS[c], entries);
  }
}
