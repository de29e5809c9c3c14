/** `POST /predict_customer_value`: run the model, compute the heuristic probability, ask
    the LLM for an interpretation, check its reply and overwrite the server's own figures. */
module Endpoint {
  import opened Wrappers
  import opened Json
  import opened Http
  import opened PyText
  import opened Rounding
  import opened FeatureAdapter
  import opened Probability

  const CustomerIdKey: string := "customer_id"
  const SpendKey: string := "predicted_future_spend_30d"
  const ProbabilityKey: string := "purchase_probability_30d"
  const SegmentKey: string := "customer_segment"
  const InsightKey: string := "insight"
  const ActionKey: string := "recommended_action"

  /** The keys the LLM's object must carry. */
  const RequiredKeys: set<string> := {CustomerIdKey, SpendKey, SegmentKey, InsightKey, ActionKey}

  /** The keys whose values the server computes itself and imposes on the reply. */
  const ServerKeys: set<string> := {CustomerIdKey, SpendKey, ProbabilityKey}

  const InvalidJsonMessage: string := "Invalid JSON from LLM"
  const MissingKeysMessage: string := "Missing keys in LLM response"
  const LlmFailurePrefix: string := "LLM call failed: "

  /** The request body, `CustomerPredictionRequest`. */
  datatype CustomerPredictionRequest = CustomerPredictionRequest(customerId: string, features: seq<real>)

  /** The schema's constraints: a non-empty identifier and at least one feature. The
      framework refuses a body that breaks them before the endpoint runs. */
  predicate ValidRequest(data: CustomerPredictionRequest)
  {
    |data.customerId| >= 1 && |data.features| >= 1
  }

  /** What the LLM call gives back: the reply's content, or the exception it raised. */
  datatype LlmReply = Completed(content: string) | Raised(reason: string)

  /** The error for an LLM call that raised; the exception's text follows a fixed prefix. */
  function LlmCallFailed(reason: string): (e: HttpError)
    ensures e.status == BadGateway && e.detail.Message?
    ensures |e.detail.text| == |LlmFailurePrefix| + |reason|
    ensures e.detail.text[..|LlmFailurePrefix|] == LlmFailurePrefix
    ensures e.detail.text[|LlmFailurePrefix|..] == reason
  {
    HttpError(BadGateway, Message(LlmFailurePrefix + reason))
  }

  /** `llm_input`: the stripped identifier, the prediction rounded to cents and the
      probability; the same three values are later forced onto the reply. */
  function ServerFigures(data: CustomerPredictionRequest, predict: seq<real> -> real): (m: map<string, Value>)
    requires |data.features| >= FeatureCount
    ensures m.Keys == ServerKeys
    ensures m[CustomerIdKey] == Str(Strip(data.customerId))
    ensures m[SpendKey] == Num(Round2(predict(ModelInput(data.features).value)))
    ensures m[ProbabilityKey] == Num(PurchaseProbability(data.features))
  {
    map[CustomerIdKey := Str(Strip(data.customerId)),
        SpendKey := Num(Round2(RunModel(data.features, predict).value)),
        ProbabilityKey := Num(PurchaseProbability(data.features))]
  }

  /** `predict_customer_value`. `predict` stands for the trained model, `callLlm` for the
      chat completion (given the payload the prompt is built from) and `loads` for
      `json.loads`, `None` meaning that it raised a decoding error. */
  method PredictCustomerValue(
    data: CustomerPredictionRequest,
    predict: seq<real> -> real,
    callLlm: map<string, Value> -> LlmReply,
    loads: string -> Option<Value>)
    returns (r: Result<map<string, Value>, HttpError>)
    requires ValidRequest(data)
    // fewer than six features: 400, before the model, the probability or the LLM is used
    ensures |data.features| < FeatureCount <==> r == Failure(TooFewFeatures)
    ensures |data.features| >= FeatureCount ==>
      var reply := callLlm(ServerFigures(data, predict));
      // the LLM call raised: 502
      && (reply.Raised? ==> r == Failure(LlmCallFailed(reply.reason)))
      // the reply is not JSON: 502
      && (reply.Completed? && loads(reply.content).None? ==>
            r == Failure(HttpError(BadGateway, Structured(InvalidJsonMessage, Str(reply.content)))))
      // JSON, but not an object: `parsed.keys()` raises and the framework answers 500
      && (reply.Completed? && loads(reply.content).Some? && !loads(reply.content).value.Obj? ==>
            r == Failure(HttpError(InternalServerError, Unhandled)))
      // an object lacking a required key: 502
      && (reply.Completed? && loads(reply.content).Some? && loads(reply.content).value.Obj? ==>
            var parsed := loads(reply.content).value.fields;
            && (!(RequiredKeys <= parsed.Keys) ==> r == Failure(HttpError(BadGateway, Structured(MissingKeysMessage, Obj(parsed)))))
            && (RequiredKeys <= parsed.Keys ==> r == Success(parsed + ServerFigures(data, predict))))
    // a result always carries the required keys and the probability
    ensures r.Success? ==> RequiredKeys + ServerKeys <= r.value.Keys
    // the server's figures win over whatever the LLM wrote
    ensures r.Success? ==>
      && r.value[CustomerIdKey] == Str(Strip(data.customerId))
      && r.value[SpendKey] == Num(Round2(RunModel(data.features, predict).value))
      && r.value[ProbabilityKey] == Num(PurchaseProbability(data.features))
    // every other key of the LLM's object comes through untouched
    ensures r.Success? ==>
      var reply := callLlm(ServerFigures(data, predict));
      && reply.Completed? && loads(reply.content).Some? && loads(reply.content).value.Obj?
      && var parsed := loads(reply.content).value.fields;
      && r.value.Keys == parsed.Keys + ServerKeys
      && forall k :: k in parsed && k !in ServerKeys ==> r.value[k] == parsed[k]
  {
    var prediction := RunModel(data.features, predict);
    if prediction.Failure? {
      return Failure(prediction.error);
    }
    var futureSpend := prediction.value;
    var probability := PurchaseProbability(data.features);

    var llmInput := map[
      CustomerIdKey := Str(Strip(data.customerId)),
      SpendKey := Num(Round2(futureSpend)),
      ProbabilityKey := Num(probability)];
    var reply := callLlm(llmInput);
    if reply.Raised? {
      return Failure(LlmCallFailed(reply.reason));
    }

    var decoded := loads(reply.content);
    if decoded.None? {
      return Failure(HttpError(BadGateway, Structured(InvalidJsonMessage, Str(reply.content))));
    }
    if !decoded.value.Obj? {
      return Failure(HttpError(InternalServerError, Unhandled));
    }
    var parsed := decoded.value.fields;
    if !(RequiredKeys <= parsed.Keys) {
      return Failure(HttpError(BadGateway, Structured(MissingKeysMessage, Obj(parsed))));
    }

    ghost var fromLlm := parsed;
    parsed := parsed[CustomerIdKey := Str(Strip(data.customerId))];
    parsed := parsed[SpendKey := Num(Round2(futureSpend))];
    parsed := parsed[ProbabilityKey := Num(probability)];
    assert parsed == fromLlm + llmInput;
    return Success(parsed);
  }

  /** The schema counts characters before stripping: an identifier of blanks only is
      accepted, and the customer id the endpoint then uses is empty. */
  lemma BlankIdentifierAccepted(id: string, features: seq<real>)
    requires |id| >= 1 && AllSpaceIn(id, 0, |id|) && |features| >= 1
    ensures ValidRequest(CustomerPredictionRequest(id, features)) && Strip(id) == []
  {
    StripAllSpace(id);
  }

  /** The schema admits one to five features, which `run_model` then refuses with 400. */
  lemma SchemaAdmitsShortFeatureLists(id: string, features: seq<real>, predict: seq<real> -> real)
    requires |id| >= 1 && 1 <= |features| < FeatureCount
    ensures ValidRequest(CustomerPredictionRequest(id, features))
    ensures RunModel(features, predict) == Failure(TooFewFeatures)
  {
  }
}
