# Customer value prediction API — a Dafny model

This project models the server side of a customer-value prediction service: a single
endpoint, `POST /predict_customer_value`, that takes a customer identifier and a list of
behavioural features, asks a trained regression model for the customer's spend over the
next thirty days, computes a heuristic purchase probability, has an LLM write a
business interpretation, and returns the LLM's JSON object with the server's own figures
forced onto it.

The model has one Dafny module per concern of `app.py`:

- `FeatureAdapter` (`adapter.dfy`) — `run_model`: refuse a list of fewer than six
  features with HTTP 400, otherwise pick four of them, in the model's order
  `[recency_days, num_transactions, total_spend, avg_spend] = [f[5], f[2], f[0], f[1]]`,
  and hand them to the trained model. The trained model is a parameter `predict`.
- `Probability` (`probability.dfy`) — `purchase_probability_30d`: `0.6 * recency score +
  0.4 * frequency score`, clamped to `[0.05, 0.95]`, rounded to two decimals; proved to
  stay in the interval, to depend only on `f[2]` and `f[5]`, to rise with transactions
  and fall with recency.
- `Rounding` (`rounding.dfy`) — Python's `round(x, 2)`, over exact reals: nearest cent,
  ties to the even cent; proved nearest, monotone, exact on whole cents.
- `PyText` (`pytext.dfy`) — Python's `str.strip()`, index-based as CPython does it.
- `Endpoint` (`endpoint.dfy`) — `predict_customer_value` as a method: the request
  schema's constraints, the four ways the endpoint fails (400 short list, 502 LLM call
  raised, 502 reply not JSON, 502 a required key missing; and the uncaught 500 when the
  reply is JSON but not an object), and the in-place overwrite of `customer_id`,
  `predicted_future_spend_30d` and `purchase_probability_30d` in the parsed object.
  The model, the LLM call and `json.loads` are parameters of the method.
- `Json`, `Http`, `Wrappers` — JSON values, the HTTP errors, `Option` and `Result`.

The probability function indexes `features[5]` without a check of its own; its
precondition `|features| >= 6` is therefore a real demand on callers, and the endpoint
method verifies only because it calls it after `run_model`'s length check has passed.

The API documents its input as exactly six features in a fixed order and its probability
as a number in `[0, 1]`. The model follows the code where it says more: any list of six
or more features is accepted, everything past the sixth is ignored, and the probability
returned lies in `[0.05, 0.95]`.

## Model

| member | source | states |
|---|---|---|
| `FeatureAdapter.ToList` | app.py:96-104 | A named feature set becomes a list of exactly six values: total spend, average spend, transactions, units, unique products and recency at positions 0 to 5. |
| `FeatureAdapter.ModelInput` | app.py:107-119 | Fails, with the 400 error and its message, exactly when fewer than six features arrive; otherwise yields four values, the j-th being the feature at API position `ModelOrder[j]` (recency, frequency, total spend, average spend). |
| `FeatureAdapter.RunModel` | app.py:86-122 | Fails with 400 exactly when fewer than six features arrive; otherwise returns the model's prediction on the reordered four-vector. |
| `FeatureAdapter.ModelInputOfFeatureSet` | app.py:88-104 | For a feature set sent in the API's order, the model sees `[recency_days, num_transactions, total_spend, avg_spend]`. |
| `FeatureAdapter.RunModelIgnoresOtherFeatures` | app.py:114-121 | Two lists of at least six features that agree at positions 5, 2, 0 and 1 give the same prediction, whatever their other entries or lengths. |
| `FeatureAdapter.ShortListRefused` | app.py:107-111 | A list of one to five features, which the request schema admits, is refused with 400 whatever the model. |
| `Probability.FrequencyScore` | app.py:137 | The frequency score is the smaller of `num_txns / 10` and 1. |
| `Probability.RecencyScore` | app.py:138 | The recency score is the larger of 0 and `1 - recency_days / 45`. |
| `Probability.RawProbability` | app.py:137-140 | The weighted score is at least 0 when the transactions are non-negative and at most 1 when the recency is non-negative. |
| `Probability.Clamp` | app.py:141 | The clamp lands in `[0.05, 0.95]`, leaves values inside unchanged and sends values below or above to the nearer end. |
| `Probability.UnroundedProbability` | app.py:134-141 | Before rounding the probability lies in `[0.05, 0.95]` for every input, negative or huge ones included. |
| `Probability.PurchaseProbability` | app.py:128-141 | The returned probability lies in `[0.05, 0.95]` and within half a cent of the unrounded one. |
| `Probability.ProbabilityDependsOnlyOnFrequencyAndRecency` | app.py:134-135 | Two lists that agree on `f[2]` and `f[5]` get the same probability. |
| `Probability.UnroundedMonotoneInTransactions` | app.py:137-141 | Before rounding, more transactions never lower the probability. |
| `Probability.UnroundedAntitoneInRecency` | app.py:138-141 | Before rounding, a larger recency never raises the probability. |
| `Probability.ProbabilityMonotoneInTransactions` | app.py:137-141 | After rounding, more transactions never lower the probability. |
| `Probability.ProbabilityAntitoneInRecency` | app.py:138-141 | After rounding, a larger recency never raises the probability. |
| `Probability.ProbabilityCeiling` | app.py:137-141 | Ten or more transactions and a recency of at most zero give exactly 0.95. |
| `Probability.ProbabilityFloor` | app.py:137-141 | No transactions and a recency of 45 days or more give exactly 0.05. |
| `Probability.ProbabilityOfSampleCustomer` | app.py:134-141 | Seven transactions with the last four days ago give 0.83. |
| `Rounding.RoundHalfEven` | app.py:141 | Rounding to an integer moves a value by at most one half, and a tie goes to the even integer. |
| `Rounding.RoundHalfEvenIsNearest` | app.py:141 | No integer is nearer to the value than the one it rounds to. |
| `Rounding.RoundHalfEvenMonotone` | app.py:141 | Rounding never reverses the order of two values. |
| `Rounding.RoundHalfEvenOfInt` | app.py:141 | An integer rounds to itself. |
| `Rounding.Round2` | app.py:195 | `round(x, 2)` is a whole number of cents and differs from `x` by at most 0.005. |
| `Rounding.Round2Nearest` | app.py:229 | No whole number of cents is nearer to `x` than `round(x, 2)`. |
| `Rounding.Round2Monotone` | app.py:141 | `round(x, 2)` is monotone. |
| `Rounding.Round2OfCents` | app.py:141 | A whole number of cents is left unchanged by `round(x, 2)`. |
| `Rounding.Round2WithinCents` | app.py:141 | `round(x, 2)` keeps a value inside any interval whose ends are whole cents, such as `[0.05, 0.95]`. |
| `PyText.Strip` | app.py:228 | `s.strip()` is no longer than `s` and neither starts nor ends with whitespace. |
| `PyText.SkipSpace` | app.py:194 | The scan from the left stops at the first non-whitespace character, and everything it passed is whitespace. |
| `PyText.SkipSpaceBack` | app.py:194 | The scan from the right stops after the last non-whitespace character, and everything it passed is whitespace. |
| `PyText.StripIsTrimmedInfix` | app.py:194 | `s.strip()` is a contiguous piece of `s` with only whitespace cut off at either end, and it neither starts nor ends with whitespace. |
| `PyText.StripLeavesTrimmed` | app.py:228 | A string with no whitespace at either end strips to itself. |
| `PyText.StripIdempotent` | app.py:228 | Stripping twice equals stripping once. |
| `PyText.StripAllSpace` | app.py:194 | A string of whitespace only strips to the empty string. |
| `Endpoint.LlmCallFailed` | app.py:171-175 | An LLM exception becomes a 502 whose message is the fixed prefix `LLM call failed: ` followed by the exception's text, which can be read back from it. |
| `Endpoint.ServerFigures` | app.py:193-197 | The payload for the LLM has exactly the keys `customer_id`, `predicted_future_spend_30d` and `purchase_probability_30d`, holding the stripped identifier, the model's output on the reordered features rounded to cents, and the heuristic probability. |
| `Endpoint.PredictCustomerValue` | app.py:184-232 | 400 exactly when fewer than six features arrive; 502 with the reason when the LLM call raises; 502 with `{"error": "Invalid JSON from LLM", "raw": reply}` when it is not JSON; 500 when it is JSON but not an object; 502 with `{"error": "Missing keys in LLM response", "raw": parsed}` when a required key is missing; otherwise the parsed object with the three server figures (stripped id, model output rounded to cents, heuristic probability) written over it — the same values sent to the LLM — and every other key unchanged. |
| `Endpoint.BlankIdentifierAccepted` | app.py:72 | The schema counts characters before stripping, so every non-empty identifier made of whitespace only is valid and becomes the empty customer id. |
| `Endpoint.SchemaAdmitsShortFeatureLists` | app.py:71-73 | A request with a non-empty identifier and one to five features satisfies the schema, and `run_model` then refuses it with 400. |

## Left out

- `model.predict` and `joblib.load`: a foreign trained model; it is the parameter `predict`, any function from the four-vector to a real, and a model that fails to load stops the server before any request.
- The Groq client and `call_llm`'s request options (model name, temperature, token limit, JSON response format): network I/O; the call is the parameter `callLlm`, which returns the reply's content or the exception's text.
- `SYSTEM_PROMPT`, `build_messages` and `json.dumps`: prompt text building; `callLlm` is given the `llm_input` payload itself, not the messages built from it.
- `json.loads`: a library parser; it is the parameter `loads`, `None` standing for a decoding error.
- Binary floating point: features, predictions and probabilities are exact reals, so NaN, infinities and representation error are absent; `Rounding` rounds the exact value half to even, so for example Python's `round(2.675, 2) == 2.67` (2.675 is stored slightly below) has no counterpart.
- A reply whose content is `None` (a `TypeError` in `json.loads`, answered with 500): the reply content is always a string here.
- The framework's own handling: request-body parsing and its 422 answer are the precondition `ValidRequest`; the response model, which re-validates the returned object and keeps only its six declared fields, is not applied, so the model states the object the function returns.
- CORS middleware, environment loading and routing: framework plumbing with no logic of its own.
- The browser dashboard that calls this endpoint is not part of this model.
