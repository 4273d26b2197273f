/**
 * The `/predict` handler: project the questionnaire, ask the classifier for
 * its class and class probabilities, label the class, pick the confidence of
 * the predicted class and apply the severity policy. The classifier is not
 * part of the model: its two operations are parameters of the handler.
 */
module Handler {
  import opened Wrappers
  import opened Features
  import opened Threshold

  /** What went wrong inside the handler's `try` block. */
  datatype Fault =
    | AttributeMissing(name: string)           // getattr on a name the record lacks
    | IndexOutOfBounds(index: int, size: nat)  // proba[prediction] outside the vector

  /** The handler turns every fault into an HTTP 500 carrying the fault. */
  datatype HttpError = HttpError(status: int, fault: Fault)

  /** The JSON body of a successful response (confidence not rounded). */
  datatype Response = Response(prediction: int, predictedClass: string, confidence: real, finalClass: string)

  /** Maps the classifier's raw output to the class label. */
  function PredictedClass(prediction: int): (c: string)
    ensures c == "Depressed" <==> prediction == 1
    ensures c in {"Depressed", "Not Depressed"}
  {
    if prediction == 1 then "Depressed" else "Not Depressed"
  }

  /**
   * Python/numpy indexing `s[i]`: a negative index counts from the end, and an
   * index outside `-|s| .. |s|-1` raises (here `None`).
   */
  function PyIndex(s: seq<real>, i: int): (r: Option<real>)
    ensures r.Some? <==> -|s| <= i < |s|
    ensures 0 <= i < |s| ==> r == Some(s[i])
    ensures -|s| <= i < 0 ==> r == Some(s[|s| + i])
  {
    if 0 <= i < |s| then Some(s[i])
    else if -|s| <= i < 0 then Some(s[|s| + i])
    else None
  }

  /** Builds the response from the classifier's outputs on the projected vector. */
  function Respond(prediction: int, proba: seq<real>): (r: Result<Response, HttpError>)
    ensures r.Success? <==> -|proba| <= prediction < |proba|
    ensures r.Failure? ==> r.error == HttpError(500, IndexOutOfBounds(prediction, |proba|))
    ensures r.Success? ==>
      && r.value.prediction == prediction
      && r.value.predictedClass == PredictedClass(prediction)
      && PyIndex(proba, prediction) == Some(r.value.confidence)
      && r.value.finalClass == ApplyThresholdLogic(r.value.predictedClass, r.value.confidence)
  {
    match PyIndex(proba, prediction)
    case None => Failure(HttpError(500, IndexOutOfBounds(prediction, |proba|)))
    case Some(confidence) =>
      var predictedClass := PredictedClass(prediction);
      Success(Response(prediction, predictedClass, confidence, ApplyThresholdLogic(predictedClass, confidence)))
  }

  /**
   * `predict_depression`, with `predict` and `predictProba` standing for the
   * classifier's `predict(...)[0]` and `predict_proba(...)[0]` on one row.
   */
  function PredictDepression(data: SRQ20Input, predict: seq<int> -> int, predictProba: seq<int> -> seq<real>)
    : (r: Result<Response, HttpError>)
    ensures var v := AsVector(data);
      r.Success? <==> -|predictProba(v)| <= predict(v) < |predictProba(v)|
    ensures r.Failure? ==>
      var v := AsVector(data);
      r.error == HttpError(500, IndexOutOfBounds(predict(v), |predictProba(v)|))
    ensures r.Success? ==>
      var v := AsVector(data);
      && r.value.prediction == predict(v)
      && r.value.predictedClass == PredictedClass(r.value.prediction)
      && (r.value.predictedClass == "Depressed" <==> r.value.prediction == 1)
      && PyIndex(predictProba(v), predict(v)) == Some(r.value.confidence)
      && r.value.finalClass == ApplyThresholdLogic(r.value.predictedClass, r.value.confidence)
      && r.value.finalClass in SEVERITY_LABELS
  {
    ProjectFeatures(data);
    match Project(data, FEATURES)
    // every FEATURES name is a field, so the comprehension cannot raise
    case None => assert false; Failure(HttpError(500, AttributeMissing("")))
    case Some(v) => Respond(predict(v), predictProba(v))
  }

  /**
   * For a binary classifier (class 0 or 1, two probabilities) the handler
   * always answers, and the confidence is the probability of the predicted class.
   */
  lemma BinaryClassifierAnswers(data: SRQ20Input, predict: seq<int> -> int, predictProba: seq<int> -> seq<real>)
    requires predict(AsVector(data)) in {0, 1}
    requires |predictProba(AsVector(data))| == 2
    ensures var r := PredictDepression(data, predict, predictProba);
      && r.Success?
      && r.value.confidence == predictProba(AsVector(data))[predict(AsVector(data))]
      && (r.value.predictedClass == "Depressed" <==> predict(AsVector(data)) == 1)
  {
  }

  /** The worked examples of the policy through the handler's last step. */
  lemma RespondExamples()
    ensures Respond(1, [0.08, 0.92]) == Success(Response(1, "Depressed", 0.92, SEVERE))
    ensures Respond(0, [0.60, 0.40]) == Success(Response(0, "Not Depressed", 0.60, MODERATE))
    ensures Respond(1, [0.50, 0.50]) == Success(Response(1, "Depressed", 0.50, NO_DEPRESSION))
    ensures Respond(2, [0.50, 0.50]).Failure?
  {
  }
}
