/**
 * The decision logic of the `/predict` handler: no regressor, an input error,
 * a feature-count mismatch, an exception from the regressor, or a prediction.
 * The regressor is an opaque function that only accepts 40-slot vectors.
 */
module PredictHandler {
  import opened Wrappers
  import opened FeatureSchema
  import opened FeatureEncoder

  /** The vectors the regressor accepts: exactly `ExpectedFeatures` slots. */
  type FeatureVector = v: seq<Number> | |v| == ExpectedFeatures
    witness seq(ExpectedFeatures, _ => Int(0))

  /** Exceptions the regressor may raise, sorted by the handler clause that catches them. */
  datatype Raised = ValueOrTypeError | OtherException

  /** One call of `regressor.predict`: its first output, or the exception it raised. */
  datatype RegressorOutcome = Returned(y: real) | Threw(raised: Raised)

  /** A loaded regressor; absent when the model file could not be loaded. */
  type Regressor = FeatureVector -> RegressorOutcome

  /** Why a request was answered with an input error. */
  datatype Cause = BadField(error: FieldError) | RegressorRejected

  /** What the handler renders. */
  datatype Response =
    | ModelUnavailable
    | InputError(cause: Cause)
    | CountMismatch(expected: int, got: int)
    | UnexpectedError
    | Prediction(value: int)

  /** Python's `int(x)` on a float: truncation toward zero. */
  function TruncateToInt(x: real): (n: int)
    ensures x >= 0.0 ==> n as real <= x < n as real + 1.0
    ensures x < 0.0 ==> n as real - 1.0 < x <= n as real
  {
    if x >= 0.0 then x.Floor else -((-x).Floor)
  }

  /** The response to one regressor outcome: a returned value becomes the
      truncated prediction, a `ValueError`/`TypeError` an input error, any
      other exception an unexpected error. */
  function Respond(outcome: RegressorOutcome): (r: Response)
    ensures r.Prediction? <==> outcome.Returned?
    ensures outcome.Returned? ==> r.value == TruncateToInt(outcome.y)
    ensures r == UnexpectedError <==> outcome == Threw(OtherException)
    ensures outcome == Threw(ValueOrTypeError) ==> r == InputError(RegressorRejected)
    ensures !r.ModelUnavailable? && !r.CountMismatch?
  {
    match outcome
    case Returned(y) => Prediction(TruncateToInt(y))
    case Threw(ValueOrTypeError) => InputError(RegressorRejected)
    case Threw(OtherException) => UnexpectedError
  }

  /**
   * `predict`: refuses without a regressor, encodes the form, re-checks the
   * feature count and only then calls the regressor. The count check never
   * fires, because the encoder always yields `ExpectedFeatures` slots.
   */
  method Predict(regressor: Option<Regressor>, form: Form, p: Parsers) returns (r: Response)
    ensures regressor.None? ==> r == ModelUnavailable
    ensures regressor.Some? && Encoded(form, p).Failure? ==> r == InputError(BadField(Encoded(form, p).error))
    ensures regressor.Some? && Encoded(form, p).Success? ==>
      |Encoded(form, p).value| == ExpectedFeatures && r == Respond(regressor.value(Encoded(form, p).value))
    ensures !r.CountMismatch?
  {
    if regressor.None? {
      return ModelUnavailable;
    }
    var encoded := GetEncodedFeatures(form, p);
    if encoded.Failure? {
      return InputError(BadField(encoded.error));
    }
    var tempArray := encoded.value;
    var expectedFeatures := ExpectedFeatures;
    if |tempArray| != expectedFeatures {
      return CountMismatch(expectedFeatures, |tempArray|);
    }
    var outcome := regressor.value(tempArray);
    return Respond(outcome);
  }
}
