/**
 * The thresholded classifier wrapper (main/app/utils/thresholder.py): an
 * object with two fields, `estimator` and `threshold`, that `load` replaces
 * in place after checking the unpickled data.
 */
module Thresholder {
  import opened Wrappers

  /** One input row of the classifier. */
  type Row = seq<real>

  /**
   * The wrapped estimator, reduced to what the wrapper uses of it: for each
   * input row, the vector of class probabilities that `predict_proba` returns
   * (index 1 is the "success" class).
   */
  datatype Estimator = Estimator(predictProba: Row -> seq<real>)

  /**
   * The Python values that can be stored in the two fields or be the result
   * of unpickling: the fields are not typed in the source, and `load`
   * accepts whatever the dictionary holds.
   */
  datatype PyValue =
    | PyNone
    | PyEstimator(estimator: Estimator)
    | PyFloat(x: real)
    | PyDict(entries: map<string, PyValue>)
    | PyOther

  /** The exceptions the wrapper raises or lets through. */
  datatype PyError = TypeError(message: string) | KeyError(message: string) | AttributeError | IndexError

  const NotADictionary := "The file should contain a dictionary"
  const MissingKeys := "The data should contain estimator and threshold"

  /** The dictionary `save` pickles. */
  function Persist(estimator: PyValue, threshold: PyValue): PyValue {
    PyDict(map["estimator" := estimator, "threshold" := threshold])
  }

  /**
   * The checks of `load` on the unpickled data: the two values it stores in
   * the fields, or the exception it raises.
   */
  function Validate(data: PyValue): (r: Result<(PyValue, PyValue), PyError>)
    ensures !data.PyDict? ==> r == Err(TypeError(NotADictionary))
    ensures data.PyDict? && ("estimator" !in data.entries || "threshold" !in data.entries) ==>
      r == Err(KeyError(MissingKeys))
    ensures r.Ok? <==> data.PyDict? && "estimator" in data.entries && "threshold" in data.entries
    ensures r.Ok? ==> r.value == (data.entries["estimator"], data.entries["threshold"])
  {
    if !data.PyDict? then Err(TypeError(NotADictionary))
    else if "estimator" !in data.entries || "threshold" !in data.entries then Err(KeyError(MissingKeys))
    else Ok((data.entries["estimator"], data.entries["threshold"]))
  }

  /** What `save` writes, `load` reads back unchanged. */
  lemma SaveLoadRoundTrip(estimator: PyValue, threshold: PyValue)
    ensures Validate(Persist(estimator, threshold)) == Ok((estimator, threshold))
  {
  }

  class Thresholder {
    var estimator: PyValue
    var threshold: PyValue

    /** `Thresholder(estimator=None, threshold=.5)`. */
    constructor (estimator: PyValue := PyNone, threshold: PyValue := PyFloat(0.5))
      ensures this.estimator == estimator && this.threshold == threshold
    {
      this.estimator := estimator;
      this.threshold := threshold;
    }

    /**
     * predict_prob: column 1 of `predict_proba`. Calling it on anything but an
     * estimator is an AttributeError; a probability matrix with fewer than two
     * columns is an IndexError.
     */
    function PredictProb(rows: seq<Row>): (r: Result<seq<real>, PyError>)
      reads this
      ensures !estimator.PyEstimator? ==> r == Err(AttributeError)
      ensures r.Ok? <==>
        (estimator.PyEstimator? && forall i :: 0 <= i < |rows| ==> |estimator.estimator.predictProba(rows[i])| > 1)
      ensures r.Ok? ==>
        (|r.value| == |rows| && forall i :: 0 <= i < |rows| ==> r.value[i] == estimator.estimator.predictProba(rows[i])[1])
    {
      if !estimator.PyEstimator? then Err(AttributeError)
      else
        var proba := estimator.estimator.predictProba;
        if exists i :: 0 <= i < |rows| && |proba(rows[i])| <= 1 then Err(IndexError)
        else Ok(seq(|rows|, i requires 0 <= i < |rows| => proba(rows[i])[1]))
    }

    /**
     * predict: 1 where the probability is strictly above the threshold, 0
     * elsewhere (so a probability equal to the threshold gives 0). Comparing
     * with a threshold that is not a number is a TypeError.
     */
    function Predict(rows: seq<Row>): (r: Result<seq<int>, PyError>)
      reads this
      ensures PredictProb(rows).Err? ==> r == Err(PredictProb(rows).error)
      ensures PredictProb(rows).Ok? && !threshold.PyFloat? ==> r.Err? && r.error.TypeError?
      ensures PredictProb(rows).Ok? && threshold.PyFloat? ==>
        r.Ok? && |r.value| == |rows| &&
        forall i :: 0 <= i < |rows| ==>
          (r.value[i] == 1 <==> PredictProb(rows).value[i] > threshold.x) &&
          (r.value[i] == 0 <==> PredictProb(rows).value[i] <= threshold.x)
    {
      match PredictProb(rows)
      case Err(e) => Err(e)
      case Ok(prob) =>
        if !threshold.PyFloat? then Err(TypeError("'>' not supported"))
        else
          var t := threshold.x;
          Ok(seq(|prob|, i requires 0 <= i < |prob| => if prob[i] > t then 1 else 0))
    }

    /** save: the dictionary of both fields that is pickled to the file. */
    function Save(): (data: PyValue)
      reads this
      ensures Validate(data) == Ok((estimator, threshold))
    {
      Persist(estimator, threshold)
    }

    /**
     * load: an unpickled value that is not a dictionary is a TypeError, a
     * dictionary without both keys a KeyError, and in both cases the fields
     * are left as they were; otherwise both fields take the stored values and
     * the object itself is returned.
     */
    method Load(data: PyValue) returns (r: Result<Thresholder, PyError>)
      modifies this
      ensures !data.PyDict? ==> r == Err(TypeError(NotADictionary))
      ensures data.PyDict? && ("estimator" !in data.entries || "threshold" !in data.entries) ==>
        r == Err(KeyError(MissingKeys))
      ensures r.Err? ==> estimator == old(estimator) && threshold == old(threshold)
      ensures r.Ok? ==> r.value == this && Validate(data) == Ok((estimator, threshold))
      ensures Validate(data).Ok? ==> r.Ok?
    {
      if !data.PyDict? {
        return Err(TypeError(NotADictionary));
      }
      if "estimator" !in data.entries || "threshold" !in data.entries {
        return Err(KeyError(MissingKeys));
      }
      estimator := data.entries["estimator"];
      threshold := data.entries["threshold"];
      r := Ok(this);
    }
  }

  /** `Thresholder()` starts with no estimator and threshold 0.5. */
  method NewDefault() returns (t: Thresholder)
    ensures t.estimator == PyNone && t.threshold == PyFloat(0.5)
  {
    t := new Thresholder();
  }

  /** Loading what another thresholder saved gives this one the same two fields. */
  method SaveThenLoad(source: Thresholder, target: Thresholder)
    modifies target
    ensures target.estimator == old(source.estimator) && target.threshold == old(source.threshold)
  {
    var data := source.Save();
    var r := target.Load(data);
  }
}
