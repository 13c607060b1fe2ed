/**
 * The stateful shell of the bird-nest detector: the module-level model
 * handle, its initialisation with a warm-up inference, and the detection
 * entry point that runs inference and hands the first output tensor to the
 * decoder.
 *
 * Loading the model, preprocessing the image and the model's own `predict`
 * are foreign calls; they enter the model as parameters (the outcome of
 * loading, the outcome of preprocessing) and as the `predict` function held
 * by the loaded model. A ghost set of tensor identities records which tensors
 * are allocated and not yet disposed.
 */
module Detector {
  import opened Decoder

  /** Side length of the square model input. */
  const ModelInputSize: nat := 640

  /** The message of the error raised when detection runs before initialisation. */
  const NotInitializedMessage: string := "Model not initialized"

  /** The all-zero [1, 640, 640, 3] input used for the warm-up run, flattened. */
  const WarmupInput: seq<real> := seq(ModelInputSize * ModelInputSize * 3, _ => 0.0)

  datatype Option<T> = None | Some(value: T)

  /** Why a call failed. */
  datatype Failure =
    | Thrown(message: string)  // an Error thrown by the detector itself or by a foreign call
    | MissingOutput            // predict returned an empty list, so predictions[0] is undefined
    | SliceOutOfRange          // the output's shape does not admit the boxes and scores slices

  /** A value, or the failure that was thrown instead. */
  datatype Result<T> = Ok(value: T) | Err(failure: Failure)

  /** A rank-3 tensor [B, N, C] as nested rows; `lanes` is C. */
  datatype RawTensor = RawTensor(lanes: nat, batches: seq<seq<seq<real>>>)

  predicate Rectangular(t: RawTensor)
  {
    forall batch, row :: batch in t.batches && row in batch ==> |row| == t.lanes
  }

  /** A model output: every row of every batch has exactly `lanes` values. */
  type OutputTensor = t: RawTensor | Rectangular(t) witness RawTensor(0, [])

  /** What `predict` hands back: one output tensor, or a list of them. */
  datatype Prediction = Single(output: OutputTensor) | Many(outputs: seq<OutputTensor>)

  /** A loaded model: only its (foreign) inference capability is visible. */
  datatype LayersModel = LayersModel(predict: seq<real> -> Result<Prediction>)

  /** The number of tensors a prediction consists of. */
  function TensorCount(p: Prediction): nat
  {
    match p
    case Single(_) => 1
    case Many(outputs) => |outputs|
  }

  /** The tensor that is decoded: the prediction itself, or the first of a list. */
  function FirstOutput(p: Prediction): (r: Result<OutputTensor>)
    ensures p.Single? ==> r == Ok(p.output)
    ensures p.Many? && p.outputs != [] ==> r == Ok(p.outputs[0])
    ensures p.Many? && p.outputs == [] ==> r == Err(MissingOutput)
  {
    match p
    case Single(output) => Ok(output)
    case Many(outputs) => if outputs == [] then Err(MissingOutput) else Ok(outputs[0])
  }

  /**
   * The boxes slice (begin [0, 0, 0], size [1, -1, 4]) and the scores slice
   * (begin [0, 0, 4], size [1, -1, 1]) both read batch 0 only; they fit the
   * shape [B, N, C] exactly when B >= 1 and C >= 5. The rows they are cut
   * from are returned; lanes past the fifth are ignored by the decoder.
   */
  function SliceRows(t: OutputTensor): (r: Result<seq<seq<real>>>)
    ensures r.Ok? <==> |t.batches| >= 1 && t.lanes >= RowWidth
    ensures r.Ok? ==> r.value == t.batches[0] && WideRows(r.value)
    ensures r.Err? ==> r.failure == SliceOutOfRange
  {
    if |t.batches| >= 1 && t.lanes >= RowWidth then
      assert t.batches[0] in t.batches;
      Ok(t.batches[0])
    else Err(SliceOutOfRange)
  }

  /** The rows the decoder reads from a prediction, or why they cannot be cut. */
  function OutputRows(p: Prediction): (r: Result<seq<seq<real>>>)
    ensures r.Ok? ==> WideRows(r.value)
  {
    match FirstOutput(p)
    case Err(f) => Err(f)
    case Ok(t) => SliceRows(t)
  }

  /** The tensor identities lo, lo + 1, ..., hi - 1. */
  ghost function IdRange(lo: nat, hi: nat): (ids: set<nat>)
    ensures forall t :: t in ids <==> lo <= t < hi
    decreases hi - lo
  {
    if lo >= hi then {} else {lo} + IdRange(lo + 1, hi)
  }

  class BirdNestDetector {
    /** The module-level model handle; None until a load succeeds. */
    var model: Option<LayersModel>
    /** Identities of the tensors allocated and not yet disposed. */
    ghost var live: set<nat>
    /** The next fresh tensor identity. */
    ghost var nextId: nat

    ghost predicate Valid()
      reads this
    {
      forall t :: t in live ==> t < nextId
    }

    constructor ()
      ensures Valid()
      ensures model == None && live == {}
    {
      model := None;
      live := {};
      nextId := 0;
    }

    /** Allocates `count` fresh tensors. */
    ghost method Allocate(count: nat) returns (ids: set<nat>)
      requires Valid()
      modifies this`live, this`nextId
      ensures Valid()
      ensures forall t :: t in ids <==> old(nextId) <= t < old(nextId) + count
      ensures live == old(live) + ids && nextId == old(nextId) + count
    {
      ids := IdRange(nextId, nextId + count);
      live := live + ids;
      nextId := nextId + count;
    }

    /** Disposes the given tensors. */
    ghost method Dispose(ids: set<nat>)
      requires Valid()
      modifies this`live
      ensures Valid()
      ensures live == old(live) - ids
    {
      live := live - ids;
    }

    /**
     * Stores the loaded model in the handle, runs one warm-up inference on an
     * all-zero input and disposes its results and the input. Any failure is
     * reported as `false`. A model that loads but fails its warm-up stays in
     * the handle, and the warm-up input is then not disposed.
     */
    method InitializeModel(loaded: Result<LayersModel>) returns (ok: bool)
      requires Valid()
      modifies this
      ensures Valid()
      ensures model == (if loaded.Ok? then Some(loaded.value) else old(model))
      ensures ok <==> loaded.Ok? && loaded.value.predict(WarmupInput).Ok?
      ensures ok || loaded.Err? ==> live == old(live)
      ensures loaded.Ok? && !ok ==> live == old(live) + {old(nextId)}
    {
      if loaded.Err? {
        return false;
      }
      model := Some(loaded.value);
      ghost var dummyInput := Allocate(1);
      var warmupResult := loaded.value.predict(WarmupInput);
      if warmupResult.Err? {
        assert dummyInput == {old(nextId)};
        return false;
      }
      ghost var warmupTensors := Allocate(TensorCount(warmupResult.value));
      Dispose(warmupTensors);
      Dispose(dummyInput);
      return true;
    }

    /**
     * Detection on one preprocessed image. Fails with "Model not initialized"
     * while the handle is empty; propagates a preprocessing or inference
     * error unchanged. Otherwise it cuts the boxes and scores from the first
     * output tensor and, after disposing the input tensor, every prediction
     * tensor and both slices, decodes them. A failure after inference
     * (no first output, or slices that do not fit its shape) is rethrown
     * with the input and prediction tensors still live.
     */
    method DetectBirdNests(image: Result<seq<real>>) returns (r: Result<seq<Detection>>)
      requires Valid()
      modifies this`live, this`nextId
      ensures Valid()
      ensures model.None? ==>
                r == Err(Thrown(NotInitializedMessage)) && live == old(live) && nextId == old(nextId)
      ensures model.Some? && image.Err? ==> r == Err(image.failure) && live == old(live)
      ensures model.Some? && image.Ok? ==>
                var outcome := model.value.predict(image.value);
                (outcome.Err? ==> r == Err(outcome.failure) && live == old(live) + {old(nextId)}) &&
                (outcome.Ok? && OutputRows(outcome.value).Err? ==>
                   r == Err(OutputRows(outcome.value).failure) &&
                   live == old(live) + IdRange(old(nextId), old(nextId) + 1 + TensorCount(outcome.value))) &&
                (outcome.Ok? && OutputRows(outcome.value).Ok? ==>
                   r == Ok(DecodeOutput(OutputRows(outcome.value).value)) && live == old(live))
    {
      if model.None? {
        return Err(Thrown(NotInitializedMessage));
      }
      if image.Err? {
        return Err(image.failure);
      }
      ghost var tensor := Allocate(1);
      var predictions := model.value.predict(image.value);
      if predictions.Err? {
        assert tensor == {old(nextId)};
        return Err(predictions.failure);
      }
      ghost var predictionTensors := Allocate(TensorCount(predictions.value));
      var rows := OutputRows(predictions.value);
      if rows.Err? {
        assert tensor + predictionTensors == IdRange(old(nextId), nextId);
        return Err(rows.failure);
      }
      ghost var boxes := Allocate(1);
      ghost var scores := Allocate(1);
      var boxesArray := Boxes(rows.value);
      var scoresArray := Scores(rows.value);

      Dispose(tensor);
      Dispose(predictionTensors);
      Dispose(boxes);
      Dispose(scores);

      var detections := FormatDetections(boxesArray, scoresArray);
      return Ok(detections);
    }
  }
}
