/**
 * The HTTP handlers of `app/api.py` as functions of the current model
 * slot: per-trip feature assembly, batch stacking in request order, and
 * the mapping of exceptions to status codes. FastAPI routing is not
 * modelled; a handler's result is either a response body or an
 * `HTTPException(status, detail)`.
 */
module Api {
  import opened Wrappers
  import opened Exceptions
  import opened Frames
  import opened Schemas
  import opened Preprocessing
  import opened Model
  import Config

  datatype Health = Health(status: string, modelVersion: string)

  datatype ModelInfo = ModelInfo(
    modelName: string,
    modelVersion: string,
    task: string,
    predictionTarget: string,
    numFeatures: nat,
    features: seq<string>)

  datatype PredictionResponse = PredictionResponse(
    predictedDurationSeconds: real,
    modelVersion: string,
    inferenceTimeMs: real)

  datatype BatchPredictionResponse = BatchPredictionResponse(
    predictions: seq<real>,
    modelVersion: string,
    inferenceTimeMs: real)

  /** What a handler produces: a body, or an `HTTPException`. */
  datatype Response<T> = Reply(body: T) | HttpError(status: int, detail: string)

  const SINGLE_FAILURE_DETAIL: string := "Internal server error during prediction"
  const BATCH_FAILURE_DETAIL: string := "Internal server error during batch prediction"

  /**
   * The two `except` clauses: a `ValueError` is a client error carrying
   * `str(e)`; any other exception is a server error whose detail is the
   * handler's fixed text and never the exception's own.
   */
  function HttpErrorFor<T>(e: Exception, serverDetail: string): (r: Response<T>)
    ensures r.HttpError?
    ensures r.status == 400 <==> e.ValueError?
    ensures r.status == 400 || r.status == 500
    ensures e.ValueError? ==> r.detail == e.message
    ensures !e.ValueError? ==> r.detail == serverDetail
  {
    if e.ValueError? then HttpError(400, e.message) else HttpError(500, serverDetail)
  }

  /** `GET /health`. */
  function HealthCheck(): (r: Health)
    ensures r.status == "ok" && r.modelVersion == Config.MODEL_VERSION
  {
    Health("ok", Config.MODEL_VERSION)
  }

  /** `GET /model_info`: the schema it reports has eighteen features. */
  function GetModelInfo(): (r: ModelInfo)
    ensures r.numFeatures == 18
    ensures r.numFeatures == |r.features|
    ensures r.features == Config.FeatureColumns()
  {
    ModelInfo(Config.MODEL_NAME, Config.MODEL_VERSION, Config.MODEL_TASK, Config.PREDICTION_TARGET,
      |Config.FeatureColumns()|, Config.FeatureColumns())
  }

  /** `POST /predict`: assemble the features, score them, or map the exception. */
  function PredictTripDuration(model: Option<Booster>, N: Numerics, request: TripRequest, elapsedMs: real): (r: Response<PredictionResponse>)
    ensures BuildFeatures(request, N).Err? ==>
      r == HttpError(400, BuildFeatures(request, N).error.message)
    ensures BuildFeatures(request, N).Ok? && model.None? ==>
      r == HttpError(500, SINGLE_FAILURE_DETAIL)
    ensures r.Reply? ==>
      && model.Some? && BuildFeatures(request, N).Ok?
      && var out := model.value.predict(BuildFeatures(request, N).value);
      && out != []
      && r.body == PredictionResponse(out[0], Config.MODEL_VERSION, elapsedMs)
    ensures BuildFeatures(request, N).Ok? && model.Some? ==>
      var out := model.value.predict(BuildFeatures(request, N).value);
      r == if out == [] then HttpError(500, SINGLE_FAILURE_DETAIL)
           else Reply(PredictionResponse(out[0], Config.MODEL_VERSION, elapsedMs))
  {
    match BuildFeatures(request, N)
    case Err(e) => HttpErrorFor(e, SINGLE_FAILURE_DETAIL)
    case Ok(features) =>
      match PredictOne(model, features, elapsedMs)
      case Err(e) => HttpErrorFor(e, SINGLE_FAILURE_DETAIL)
      case Ok((prediction, ms)) => Reply(PredictionResponse(prediction, Config.MODEL_VERSION, ms))
  }

  /** `build_features_from_input` applied to each trip of a batch, in request order. */
  function TripFeatures(trips: seq<TripRequest>, N: Numerics): (results: seq<Result<Frame, Exception>>)
    ensures |results| == |trips|
    ensures forall k :: 0 <= k < |trips| ==> results[k] == BuildFeatures(trips[k], N)
  {
    seq(|trips|, k requires 0 <= k < |trips| => BuildFeatures(trips[k], N))
  }

  /**
   * The list comprehension: it runs the per-trip outcomes in order and
   * stops at the first exception, otherwise yielding every frame.
   */
  function CollectFrames(results: seq<Result<Frame, Exception>>): (r: Result<seq<Frame>, Exception>)
    ensures r.Ok? <==> forall k :: 0 <= k < |results| ==> results[k].Ok?
    ensures r.Ok? ==> |r.value| == |results|
    ensures r.Ok? ==> forall k :: 0 <= k < |results| ==> r.value[k] == results[k].value
  {
    if results == [] then Ok([])
    else
      match results[0]
      case Err(e) => Err(e)
      case Ok(f) =>
        match CollectFrames(results[1..])
        case Err(e) => Err(e)
        case Ok(rest) =>
          assert forall k :: 1 <= k < |results| ==> results[1..][k - 1] == results[k];
          Ok([f] + rest)
  }

  /** Outcome k is the first exception of the list. */
  predicate FirstFailure(results: seq<Result<Frame, Exception>>, k: nat)
  {
    && k < |results|
    && results[k].Err?
    && forall j :: 0 <= j < k ==> results[j].Ok?
  }

  /** A failing comprehension raises the exception of its first failing trip. */
  lemma {:induction false} CollectFramesFirstFailure(results: seq<Result<Frame, Exception>>)
    requires CollectFrames(results).Err?
    ensures exists k: nat :: FirstFailure(results, k) && CollectFrames(results).error == results[k].error
  {
    if results[0].Err? {
      assert FirstFailure(results, 0);
    } else {
      var tail := results[1..];
      CollectFramesFirstFailure(tail);
      var k: nat :| FirstFailure(tail, k) && CollectFrames(tail).error == tail[k].error;
      assert tail[k] == results[k + 1];
      forall j | 0 <= j < k + 1 ensures results[j].Ok? {
        if j > 0 { assert tail[j - 1] == results[j]; }
      }
      assert FirstFailure(results, k + 1);
    }
  }

  /** Every frame a successful comprehension yields has the schema's columns and one row. */
  lemma CollectedFramesShape(trips: seq<TripRequest>, N: Numerics)
    requires CollectFrames(TripFeatures(trips, N)).Ok?
    ensures var frames := CollectFrames(TripFeatures(trips, N)).value;
      forall k :: 0 <= k < |frames| ==> frames[k].columns == Config.FeatureColumns() && |frames[k].rows| == 1
  {
    var results := TripFeatures(trips, N);
    var frames := CollectFrames(results).value;
    forall k | 0 <= k < |frames| ensures frames[k].columns == Config.FeatureColumns() && |frames[k].rows| == 1 {
      assert results[k] == BuildFeatures(trips[k], N);
    }
  }

  /** The batch feature table: per-trip frames concatenated in request order. */
  function BatchFeatures(trips: seq<TripRequest>, N: Numerics): (r: Result<Frame, Exception>)
    ensures r.Err? ==> r.error.ValueError?
  {
    match CollectFrames(TripFeatures(trips, N))
    case Err(e) =>
      CollectFramesFirstFailure(TripFeatures(trips, N));
      Err(e)
    case Ok(frames) =>
      CollectedFramesShape(trips, N);
      Concat(frames)
  }

  /** `POST /predict_batch`: assemble every trip, stack, score once, or map the exception. */
  function PredictTripDurationBatch(model: Option<Booster>, N: Numerics, trips: seq<TripRequest>, elapsedMs: real): (r: Response<BatchPredictionResponse>)
    ensures r.Reply? ==> model.Some? && BatchFeatures(trips, N).Ok?
    ensures r.Reply? ==> r.body.modelVersion == Config.MODEL_VERSION && r.body.inferenceTimeMs == elapsedMs
  {
    match BatchFeatures(trips, N)
    case Err(e) => HttpErrorFor(e, BATCH_FAILURE_DETAIL)
    case Ok(features) =>
      match PredictMany(model, features, elapsedMs)
      case Err(e) => HttpErrorFor(e, BATCH_FAILURE_DETAIL)
      case Ok((predictions, ms)) => Reply(BatchPredictionResponse(predictions, Config.MODEL_VERSION, ms))
  }

  /**
   * Batch/single equivalence: a batch table exists only for a non-empty
   * batch of trips that all assemble; it has the schema's columns and one
   * row per trip, row k being the single-trip feature row of trip k.
   */
  lemma BatchTableRows(trips: seq<TripRequest>, N: Numerics)
    requires BatchFeatures(trips, N).Ok?
    ensures trips != []
    ensures forall k :: 0 <= k < |trips| ==> BuildFeatures(trips[k], N).Ok?
    ensures var table := BatchFeatures(trips, N).value;
      && table.columns == Config.FeatureColumns()
      && |table.rows| == |trips|
      && forall k :: 0 <= k < |trips| ==> table.rows[k] == BuildFeatures(trips[k], N).value.rows[0]
  {
    var results := TripFeatures(trips, N);
    var frames := CollectFrames(results).value;
    CollectedFramesShape(trips, N);
    StackSingleRows(frames);
    forall k | 0 <= k < |trips| ensures BuildFeatures(trips[k], N).Ok? {
      assert results[k] == BuildFeatures(trips[k], N);
    }
  }

  /**
   * If trip k is the first whose assembly raises, the batch answers 400
   * with that trip's message, whatever the model slot holds: the
   * regressor is never consulted.
   */
  lemma BatchFailsOnFirstBadTrip(model: Option<Booster>, N: Numerics, trips: seq<TripRequest>, elapsedMs: real, k: nat)
    requires k < |trips| && BuildFeatures(trips[k], N).Err?
    requires forall j :: 0 <= j < k ==> BuildFeatures(trips[j], N).Ok?
    ensures PredictTripDurationBatch(model, N, trips, elapsedMs) == HttpError(400, BuildFeatures(trips[k], N).error.message)
  {
    var results := TripFeatures(trips, N);
    assert results[k].Err?;
    CollectFramesFirstFailure(results);
    var k': nat :| FirstFailure(results, k') && CollectFrames(results).error == results[k'].error;
    assert k' == k by {
      assert results[k'] == BuildFeatures(trips[k'], N);
    }
  }

  /** An empty batch answers 400: pandas refuses to concatenate no frames. */
  lemma EmptyBatchIsClientError(model: Option<Booster>, N: Numerics, elapsedMs: real)
    ensures PredictTripDurationBatch(model, N, [], elapsedMs) == HttpError(400, "No objects to concatenate")
  {
    assert CollectFrames(TripFeatures([], N)) == Ok([]);
  }

  /**
   * A non-empty batch whose trips all assemble answers 500 with the fixed
   * detail when no model is loaded, and otherwise replies with the
   * regressor's output on the batch table, one prediction per trip when
   * the regressor scores each row.
   */
  lemma BatchOfGoodTrips(model: Option<Booster>, N: Numerics, trips: seq<TripRequest>, elapsedMs: real)
    requires trips != []
    requires forall k :: 0 <= k < |trips| ==> BuildFeatures(trips[k], N).Ok?
    ensures BatchFeatures(trips, N).Ok?
    ensures model.None? ==> PredictTripDurationBatch(model, N, trips, elapsedMs) == HttpError(500, BATCH_FAILURE_DETAIL)
    ensures model.Some? ==>
      (PredictTripDurationBatch(model, N, trips, elapsedMs) ==
       Reply(BatchPredictionResponse(model.value.predict(BatchFeatures(trips, N).value), Config.MODEL_VERSION, elapsedMs)))
    ensures model.Some? && OnePerRow(model.value) ==>
      |PredictTripDurationBatch(model, N, trips, elapsedMs).body.predictions| == |trips|
  {
    var results := TripFeatures(trips, N);
    forall k | 0 <= k < |trips| ensures results[k].Ok? {
      assert results[k] == BuildFeatures(trips[k], N);
    }
    BatchTableRows(trips, N);
    if model.Some? && OnePerRow(model.value) {
      PredictManyOnePerRow(model.value, BatchFeatures(trips, N).value, elapsedMs);
    }
  }
}
