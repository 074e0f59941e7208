/**
 * The load-once scorer guard of `app/model.py`: the module-level `_model`
 * starts unset, `load_model` fills it once, and `predict` /
 * `predict_batch` refuse to score before it is set.
 *
 * The XGBoost regressor is opaque: a `Booster` is the function from a
 * feature frame to its output sequence, and reading the artifact file is
 * the `artifact` parameter of `LoadModel`. Latency measurement is the
 * `elapsedMs` parameter.
 */
module Model {
  import opened Wrappers
  import opened Exceptions
  import opened Frames

  /** A loaded regressor: its `predict` on a feature frame. */
  datatype Booster = Booster(predict: Frame -> seq<real>)

  const NOT_LOADED_MESSAGE: string := "Model has not been loaded. Call load_model() first."
  const EMPTY_OUTPUT_MESSAGE: string := "index 0 is out of bounds for axis 0 with size 0"

  /** A regressor that returns one prediction per input row. */
  ghost predicate OnePerRow(b: Booster)
  {
    forall f :: |b.predict(f)| == |f.rows|
  }

  /**
   * `predict`: refuses with `RuntimeError` when no model is loaded;
   * otherwise returns element 0 of the scorer's output with the latency.
   */
  function PredictOne(model: Option<Booster>, frame: Frame, elapsedMs: real): (r: Result<(real, real), Exception>)
    ensures model.None? ==> r == Err(RuntimeError(NOT_LOADED_MESSAGE))
    ensures model.Some? && model.value.predict(frame) != [] ==>
      r == Ok((model.value.predict(frame)[0], elapsedMs))
    ensures model.Some? && model.value.predict(frame) == [] ==> r.Err? && r.error.IndexError?
    ensures r.Err? ==> !r.error.ValueError?
  {
    match model
    case None => Err(RuntimeError(NOT_LOADED_MESSAGE))
    case Some(b) =>
      var out := b.predict(frame);
      if out == [] then Err(IndexError(EMPTY_OUTPUT_MESSAGE)) else Ok((out[0], elapsedMs))
  }

  /**
   * `predict_batch`: refuses with `RuntimeError` when no model is loaded;
   * otherwise returns the scorer's whole output, in order, with the
   * latency.
   */
  function PredictMany(model: Option<Booster>, frame: Frame, elapsedMs: real): (r: Result<(seq<real>, real), Exception>)
    ensures r.Err? <==> model.None?
    ensures r.Err? ==> r.error == RuntimeError(NOT_LOADED_MESSAGE)
    ensures r.Ok? ==> r.value == (model.value.predict(frame), elapsedMs)
  {
    match model
    case None => Err(RuntimeError(NOT_LOADED_MESSAGE))
    case Some(b) => Ok((b.predict(frame), elapsedMs))
  }

  /** With a regressor that scores each row, the batch output has one prediction per row. */
  lemma PredictManyOnePerRow(b: Booster, frame: Frame, elapsedMs: real)
    requires OnePerRow(b)
    ensures PredictMany(Some(b), frame, elapsedMs).Ok?
    ensures |PredictMany(Some(b), frame, elapsedMs).value.0| == |frame.rows|
  {
    assert |b.predict(frame)| == |frame.rows|;
  }

  /**
   * On a one-row frame, a regressor that scores each row makes `predict`
   * succeed with the same number `predict_batch` puts first.
   */
  lemma PredictOneAgreesWithBatch(b: Booster, frame: Frame, elapsedMs: real)
    requires OnePerRow(b) && |frame.rows| == 1
    ensures PredictOne(Some(b), frame, elapsedMs).Ok?
    ensures PredictOne(Some(b), frame, elapsedMs).value.0 == PredictMany(Some(b), frame, elapsedMs).value.0[0]
  {
    assert |b.predict(frame)| == 1;
  }

  /** The process-wide model slot `_model`. */
  class ModelState {
    var model: Option<Booster>

    /** At import time no model is loaded. */
    constructor ()
      ensures model == None
    {
      model := None;
    }

    /**
     * `load_model`: when unloaded, read the artifact; success stores the
     * regressor, failure leaves the slot empty and propagates the error.
     * When already loaded, nothing is read and nothing changes.
     */
    method LoadModel(artifact: Result<Booster, Exception>) returns (raised: Option<Exception>)
      modifies this
      ensures old(model).Some? ==> model == old(model) && raised == None
      ensures old(model).None? && artifact.Ok? ==> model == Some(artifact.value) && raised == None
      ensures old(model).None? && artifact.Err? ==> model == None && raised == Some(artifact.error)
    {
      raised := None;
      if model.None? {
        match artifact {
          case Ok(b) =>
            model := Some(b);
          case Err(e) =>
            raised := Some(e);
        }
      }
    }

    /** `predict` against the current slot; it does not change the slot. */
    method Predict(frame: Frame, elapsedMs: real) returns (r: Result<(real, real), Exception>)
      ensures r == PredictOne(model, frame, elapsedMs)
      ensures model.None? ==> r == Err(RuntimeError(NOT_LOADED_MESSAGE))
    {
      if model.None? {
        return Err(RuntimeError(NOT_LOADED_MESSAGE));
      }
      var prediction := model.value.predict(frame);
      if |prediction| == 0 {
        return Err(IndexError(EMPTY_OUTPUT_MESSAGE));
      }
      r := Ok((prediction[0], elapsedMs));
    }

    /** `predict_batch` against the current slot; it does not change the slot. */
    method PredictBatch(frame: Frame, elapsedMs: real) returns (r: Result<(seq<real>, real), Exception>)
      ensures r == PredictMany(model, frame, elapsedMs)
      ensures model.None? ==> r == Err(RuntimeError(NOT_LOADED_MESSAGE))
    {
      if model.None? {
        return Err(RuntimeError(NOT_LOADED_MESSAGE));
      }
      var predictions := model.value.predict(frame);
      r := Ok((predictions, elapsedMs));
    }
  }
}
