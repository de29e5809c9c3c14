/** The adapter in front of the trained model (`run_model`): the API sends six features
    in one order, the model takes four of them in another. */
module FeatureAdapter {
  import opened Wrappers
  import opened Http

  /** Positions of the named features in the list the API receives. */
  const TotalSpend: nat := 0
  const AvgSpend: nat := 1
  const NumTransactions: nat := 2
  const TotalUnits: nat := 3
  const UniqueProducts: nat := 4
  const RecencyDays: nat := 5

  /** How many features a request must carry. */
  const FeatureCount: nat := 6

  const ExpectedFeaturesMessage: string :=
    "Expected 6 features: total_spend, avg_spend, num_transactions, total_units, unique_products, recency_days"

  /** The error `run_model` raises for a short feature list. */
  const TooFewFeatures: HttpError := HttpError(BadRequest, Message(ExpectedFeaturesMessage))

  /** For each input of the model, in the model's order (recency, frequency, total spend,
      average spend), the position of that feature in the API's list. */
  const ModelOrder: seq<nat> := [RecencyDays, NumTransactions, TotalSpend, AvgSpend]

  /** The six features by name, as the API documents them. */
  datatype FeatureSet = FeatureSet(
    totalSpend: real, avgSpend: real, numTransactions: real,
    totalUnits: real, uniqueProducts: real, recencyDays: real)

  /** The feature list a client sends for a feature set, in the API's order. */
  function ToList(fs: FeatureSet): (r: seq<real>)
    ensures |r| == FeatureCount
    ensures r[TotalSpend] == fs.totalSpend && r[AvgSpend] == fs.avgSpend
    ensures r[NumTransactions] == fs.numTransactions && r[TotalUnits] == fs.totalUnits
    ensures r[UniqueProducts] == fs.uniqueProducts && r[RecencyDays] == fs.recencyDays
  {
    [fs.totalSpend, fs.avgSpend, fs.numTransactions, fs.totalUnits, fs.uniqueProducts, fs.recencyDays]
  }

  /** The input vector built for the model, or the 400 error for fewer than six features. */
  function ModelInput(features: seq<real>): (r: Result<seq<real>, HttpError>)
    ensures r.Failure? <==> |features| < FeatureCount
    ensures r.Failure? ==> r.error == TooFewFeatures
    ensures r.Success? ==> |r.value| == |ModelOrder|
    ensures r.Success? ==>
      forall j :: 0 <= j < |ModelOrder| ==> r.value[j] == features[ModelOrder[j]]
  {
    if |features| < 6 then
      Failure(TooFewFeatures)
    else
      Success([features[5], features[2], features[0], features[1]])
  }

  /** `run_model`: the model's prediction for the reordered input; `predict` stands for the
      trained model loaded from disk. */
  function RunModel(features: seq<real>, predict: seq<real> -> real): (r: Result<real, HttpError>)
    ensures r.Failure? <==> |features| < FeatureCount
    ensures r.Failure? ==> r.error == TooFewFeatures
    ensures r.Success? ==> r.value == predict(ModelInput(features).value)
  {
    match ModelInput(features)
    case Failure(e) => Failure(e)
    case Success(input) => Success(predict(input))
  }

  /** Named, the model's input is recency, frequency, total spend and average spend. */
  lemma ModelInputOfFeatureSet(fs: FeatureSet)
    ensures ModelInput(ToList(fs))
         == Success([fs.recencyDays, fs.numTransactions, fs.totalSpend, fs.avgSpend])
  {
  }

  /** Only positions 0, 1, 2 and 5 reach the model: total units, unique products and
      anything past the sixth feature have no influence on the prediction. */
  lemma {:induction false} RunModelIgnoresOtherFeatures(f: seq<real>, g: seq<real>, predict: seq<real> -> real)
    requires |f| >= FeatureCount && |g| >= FeatureCount
    requires forall j :: 0 <= j < |ModelOrder| ==> f[ModelOrder[j]] == g[ModelOrder[j]]
    ensures RunModel(f, predict) == RunModel(g, predict)
  {
    var a, b := ModelInput(f).value, ModelInput(g).value;
    forall j | 0 <= j < |ModelOrder|
      ensures a[j] == b[j]
    {
    }
    assert a == b;
  }

  /** A list of one to five features satisfies the request schema yet is refused here. */
  lemma ShortListRefused(features: seq<real>)
    requires 1 <= |features| < FeatureCount
    ensures forall predict: seq<real> -> real :: RunModel(features, predict) == Failure(TooFewFeatures)
  {
  }
}
