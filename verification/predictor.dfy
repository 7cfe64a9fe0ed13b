/** The prediction pipeline of `ModelPredictor` in ml2p/core.py: single and
    batch invocation, and the optional record of every invocation in S3.

    The user's `result` (and an optional `batch_result` override) are
    parameters. The clock reading `now` and the timestamp/uuid `Stamp` drawn
    for each record are inputs. An S3 write is returned as a `PutObject`
    value instead of being sent.
 */
module Predictor {
  import opened Results
  import opened Strings
  import opened S3Url
  import opened SageMakerEnvironment

  /** The *ordered* key/value pairs identifying one invocation record. */
  type InvokeId = seq<(string, string)>

  /** The ISO-8601 UTC time and the uuid4 drawn for one record. */
  datatype Stamp = Stamp(isoTimestamp: string, uuid: string)

  datatype Metadata = Metadata(modelVersion: Option<string>, ml2pVersion: string, timestamp: real)

  datatype Prediction<R> = Prediction(metadata: Metadata, result: R)

  /** The body of an invocation record: `{"input": ..., "result": ...}`. */
  datatype InvocationRecord<D, R> = InvocationRecord(input: D, result: Prediction<R>)

  /** One `put_object` call. */
  datatype PutObject<D, R> = PutObject(bucket: string, key: string, body: InvocationRecord<D, R>)

  /** What a call returns (or raises) together with the S3 writes it made. */
  datatype Outcome<D, R, T> = Outcome(response: Result<T>, writes: seq<PutObject<D, R>>)

  /** A `ModelPredictor` sub-class: its environment, the framework version it
      reports, its `result`, its `batch_result` override (`None` keeps the
      default) and its `record_invoke_id`. `dumpsError` is the error that
      `json.dumps` raises on a record holding values JSON cannot represent,
      `None` for a record it serialises. */
  datatype ModelPredictor<!D, !R> = ModelPredictor(
    env: SageMakerEnv,
    ml2pVersion: string,
    result: D -> Result<R>,
    batchResult: Option<seq<D> -> Result<seq<R>>>,
    recordInvokeId: (D, Prediction<R>, Stamp) -> InvokeId,
    dumpsError: InvocationRecord<D, R> -> Option<Error>)

  const ResultNotImplemented := NotImplementedError("Sub-classes should implement .result(...)")

  /** The base class's `result`, which sub-classes must override. */
  function BaseResult<D, R>(datum: D): Result<R> {
    Err(ResultNotImplemented)
  }

  /** The default `record_invoke_id`: the time stamp, then the uuid. */
  function DefaultRecordInvokeId<D, R>(datum: D, prediction: Prediction<R>, stamp: Stamp): InvokeId {
    [("ts", stamp.isoTimestamp), ("uuid", stamp.uuid)]
  }

  /** `dumpsError` of a predictor whose inputs and results are plain JSON
      data: `json.dumps` never raises. */
  function PlainJson<D, R>(record: InvocationRecord<D, R>): Option<Error> {
    None
  }

  /** `if self.env.record_invokes:` -- `None` counts as false. */
  predicate Recording(env: SageMakerEnv) {
    env.recordInvokes == Some(true)
  }

  /** `metadata()` at the clock reading `now`. */
  function MetadataAt<D, R>(p: ModelPredictor<D, R>, now: real): Metadata {
    Metadata(p.env.modelVersion, p.ml2pVersion, now)
  }

  /** The default `batch_result`: `result` over each datum in order; the
      first datum whose `result` raises aborts the whole batch. */
  function MapResult<D, R>(result: D -> Result<R>, data: seq<D>): (r: Result<seq<R>>)
    ensures r.Ok? <==> forall i :: 0 <= i < |data| ==> result(data[i]).Ok?
    ensures r.Ok? ==>
      && |r.value| == |data|
      && forall i :: 0 <= i < |data| ==> r.value[i] == result(data[i]).value
    ensures r.Err? ==>
      exists k :: 0 <= k < |data| && result(data[k]).Err? && result(data[k]).error == r.error
        && forall j :: 0 <= j < k ==> result(data[j]).Ok?
  {
    if data == [] then Ok([])
    else
      var head := result(data[0]);
      if head.Err? then Err(head.error)
      else
        var tail := MapResult(result, data[1..]);
        if tail.Err? then
          assert forall j :: 1 <= j <= |data[1..]| ==> data[1..][j - 1] == data[j];
          Err(tail.error)
        else Ok([head.value] + tail.value)
  }

  /** `batch_result(data)`: the override when there is one. */
  function BatchResult<D, R>(p: ModelPredictor<D, R>, data: seq<D>): (r: Result<seq<R>>)
    ensures p.batchResult.Some? ==> r == p.batchResult.value(data)
    ensures p.batchResult.None? ==>
      && (r.Ok? <==> forall i :: 0 <= i < |data| ==> p.result(data[i]).Ok?)
      && (r.Ok? ==> |r.value| == |data| && forall i :: 0 <= i < |data| ==> r.value[i] == p.result(data[i]).value)
  {
    match p.batchResult
    case Some(f) => f(data)
    case None => MapResult(p.result, data)
  }

  /** `"{}".format(model_version)`: `None` prints as "None". */
  function FormatVersion(v: Option<string>): string {
    match v
    case Some(s) => s
    case None => "None"
  }

  /** The `"{k}-{v}"` text of each pair of an invocation id. */
  function PairTexts(id: InvokeId): (texts: seq<string>)
    ensures |texts| == |id|
    ensures forall i :: 0 <= i < |id| ==> texts[i] == id[i].0 + "-" + id[i].1
  {
    seq(|id|, i requires 0 <= i < |id| => id[i].0 + "-" + id[i].1)
  }

  /** The record's file name: the `k-v` pairs joined by `--`, then `.json`;
      an empty id leaves only `.json`. */
  function RecordFilename(id: InvokeId): (name: string)
    ensures |name| >= 5 && name[|name| - 5..] == ".json"
    ensures id == [] ==> name == ".json"
    ensures |id| == 1 ==> name == id[0].0 + "-" + id[0].1 + ".json"
  {
    Join("--", PairTexts(id)) + ".json"
  }

  /** `predictions/<version>/<filename>`. */
  function PredictionsTail(modelVersion: Option<string>, id: InvokeId): (tail: string)
    ensures tail != [] && tail[0] == 'p'
  {
    "predictions/" + FormatVersion(modelVersion) + "/" + RecordFilename(id)
  }

  /** The S3 key of a record: `predictions/<version>/<filename>` under the
      project prefix, never starting with `/`. */
  function RecordKey(s3: S3URL, modelVersion: Option<string>, id: InvokeId): (key: string)
    ensures key != [] && key[0] != '/'
    ensures key == (if s3.root == [] then "" else s3.root + "/") + PredictionsTail(modelVersion, id)
  {
    var tail := PredictionsTail(modelVersion, id);
    PathOfRooted(s3, tail);
    Path(s3, "/" + tail)
  }

  /** `record_invoke(datum, prediction)`: the one write it makes. It raises
      instead when `json.dumps` rejects the record, or, after that, with an
      `AttributeError` when the environment has no S3 location. */
  function RecordInvoke<D, R>(p: ModelPredictor<D, R>, datum: D, prediction: Prediction<R>, stamp: Stamp)
    : (w: Result<PutObject<D, R>>)
    ensures w.Ok? <==> p.dumpsError(InvocationRecord(datum, prediction)).None? && p.env.s3.Some?
    ensures p.dumpsError(InvocationRecord(datum, prediction)).Some? ==>
      w == Err(p.dumpsError(InvocationRecord(datum, prediction)).value)
    ensures p.dumpsError(InvocationRecord(datum, prediction)).None? && p.env.s3.None? ==>
      w.Err? && w.error.AttributeError?
    ensures w.Ok? ==>
      && w.value.bucket == p.env.s3.value.bucket
      && w.value.key == RecordKey(p.env.s3.value, p.env.modelVersion, p.recordInvokeId(datum, prediction, stamp))
      && w.value.body == InvocationRecord(datum, prediction)
  {
    var id := p.recordInvokeId(datum, prediction, stamp);
    var record := InvocationRecord(datum, prediction);
    match p.dumpsError(record)
    case Some(e) => Err(e)
    case None =>
      match p.env.s3
      case None => Err(AttributeError("'NoneType' object has no attribute 'path'"))
      case Some(s3) => Ok(PutObject(s3.bucket, RecordKey(s3, p.env.modelVersion, id), record))
  }

  /** `invoke(data)`: the metadata and the result, plus exactly one record
      write when recording is on, and none otherwise. */
  function Invoke<D, R>(p: ModelPredictor<D, R>, data: D, now: real, stamp: Stamp)
    : (o: Outcome<D, R, Prediction<R>>)
    ensures o.response.Ok? <==>
      && p.result(data).Ok?
      && (Recording(p.env) ==>
            RecordInvoke(p, data, Prediction(MetadataAt(p, now), p.result(data).value), stamp).Ok?)
    ensures p.result(data).Ok? && Recording(p.env) && o.response.Err? ==>
      o.response ==
        Err(RecordInvoke(p, data, Prediction(MetadataAt(p, now), p.result(data).value), stamp).error)
    ensures o.response.Ok? ==>
      && o.response.value.result == p.result(data).value
      && o.response.value.metadata == Metadata(p.env.modelVersion, p.ml2pVersion, now)
    ensures p.result(data).Err? ==> o.response == Err(p.result(data).error)
    ensures |o.writes| == (if Recording(p.env) && o.response.Ok? then 1 else 0)
    ensures |o.writes| == 1 ==>
      RecordInvoke(p, data, o.response.value, stamp) == Ok(o.writes[0])
  {
    var metadata := MetadataAt(p, now);
    var result := p.result(data);
    if result.Err? then Outcome(Err(result.error), [])
    else
      var prediction := Prediction(metadata, result.value);
      if Recording(p.env) then
        var w := RecordInvoke(p, data, prediction, stamp);
        if w.Err? then Outcome(Err(w.error), []) else Outcome(Ok(prediction), [w.value])
      else Outcome(Ok(prediction), [])
  }

  function Min(a: int, b: int): int {
    if a <= b then a else b
  }

  /** `[{"metadata": metadata, "result": r} for r in results]`. */
  function Predictions<R>(metadata: Metadata, results: seq<R>): (predictions: seq<Prediction<R>>)
    ensures |predictions| == |results|
    ensures forall i :: 0 <= i < |results| ==>
      predictions[i].metadata == metadata && predictions[i].result == results[i]
  {
    seq(|results|, i requires 0 <= i < |results| => Prediction(metadata, results[i]))
  }

  /** `for datum, prediction in zip(data, predictions): record_invoke(...)`:
      one write per pair, in order, the i-th using the i-th stamp, until the
      first pair whose `record_invoke` raises; the writes before it stay. */
  method RecordPairs<D, R>(p: ModelPredictor<D, R>, data: seq<D>, predictions: seq<Prediction<R>>, stamps: nat -> Stamp)
    returns (failure: Option<Error>, writes: seq<PutObject<D, R>>)
    ensures |writes| <= Min(|data|, |predictions|)
    ensures forall i :: 0 <= i < |writes| ==>
      RecordInvoke(p, data[i], predictions[i], stamps(i)) == Ok(writes[i])
    ensures failure.None? <==> |writes| == Min(|data|, |predictions|)
    ensures failure.Some? ==>
      RecordInvoke(p, data[|writes|], predictions[|writes|], stamps(|writes|)) == Err(failure.value)
  {
    var n := Min(|data|, |predictions|);
    writes := [];
    var k := 0;
    while k < n
      invariant 0 <= k <= n
      invariant |writes| == k
      invariant forall j :: 0 <= j < k ==>
        RecordInvoke(p, data[j], predictions[j], stamps(j)) == Ok(writes[j])
    {
      var w := RecordInvoke(p, data[k], predictions[k], stamps(k));
      if w.Err? {
        return Some(w.error), writes;
      }
      writes := writes + [w.value];
      k := k + 1;
    }
    failure := None;
  }

  /** `batch_invoke(data)`: one metadata value for the whole batch, the
      predictions in `batch_result` order, and, when recording, one write per
      (datum, prediction) pair of `zip(data, predictions)`, in order, up to
      the first pair whose record raises. */
  method BatchInvoke<D, R>(p: ModelPredictor<D, R>, data: seq<D>, now: real, stamps: nat -> Stamp)
    returns (response: Result<seq<Prediction<R>>>, writes: seq<PutObject<D, R>>)
    // a failing batch_result propagates and nothing is written
    ensures BatchResult(p, data).Err? ==>
      response == Err(BatchResult(p, data).error) && writes == []
    // predictions follow batch_result, one shared metadata value
    ensures response.Ok? ==>
      && BatchResult(p, data).Ok?
      && |response.value| == |BatchResult(p, data).value|
      && forall i :: 0 <= i < |response.value| ==>
           response.value[i] == Prediction(MetadataAt(p, now), BatchResult(p, data).value[i])
    // the writes: none unless recording
    ensures !Recording(p.env) ==> writes == [] && (response.Ok? <==> BatchResult(p, data).Ok?)
    // when recording: one write per zipped pair, stopping at the first failure
    ensures Recording(p.env) && BatchResult(p, data).Ok? ==>
      var results := BatchResult(p, data).value;
      var n := Min(|data|, |results|);
      && |writes| <= n
      && (forall i :: 0 <= i < |writes| ==>
            RecordInvoke(p, data[i], Prediction(MetadataAt(p, now), results[i]), stamps(i)) == Ok(writes[i]))
      && (response.Ok? <==> |writes| == n)
      && (response.Err? ==>
            RecordInvoke(p, data[|writes|], Prediction(MetadataAt(p, now), results[|writes|]), stamps(|writes|))
              == Err(response.error))
    ensures Recording(p.env) && p.env.s3.None? ==> writes == []
    // with the default batch_result, each element is what invoke would give
    ensures p.batchResult.None? && response.Ok? ==>
      && |response.value| == |data|
      && forall i :: 0 <= i < |data| ==> Invoke(p, data[i], now, stamps(i)).response == Ok(response.value[i])
    ensures p.batchResult.None? && response.Ok? && Recording(p.env) ==>
      forall i :: 0 <= i < |data| ==> Invoke(p, data[i], now, stamps(i)).writes == [writes[i]]
  {
    var metadata := MetadataAt(p, now);
    var results := BatchResult(p, data);
    if results.Err? {
      return Err(results.error), [];
    }
    var predictions := Predictions(metadata, results.value);
    writes := [];
    if Recording(p.env) {
      var failure;
      failure, writes := RecordPairs(p, data, predictions, stamps);
      if |writes| > 0 {
        assert RecordInvoke(p, data[0], predictions[0], stamps(0)).Ok?;
      }
      if failure.Some? {
        return Err(failure.value), writes;
      }
    }
    response := Ok(predictions);
  }

  /** The default record name: `ts-<time>--uuid-<uuid>.json`. */
  lemma DefaultRecordFilename<D, R>(datum: D, prediction: Prediction<R>, stamp: Stamp)
    ensures RecordFilename(DefaultRecordInvokeId(datum, prediction, stamp))
         == "ts-" + stamp.isoTimestamp + "--uuid-" + stamp.uuid + ".json"
  {
    var ts := "ts-" + stamp.isoTimestamp;
    var uuid := "uuid-" + stamp.uuid;
    var texts := PairTexts(DefaultRecordInvokeId(datum, prediction, stamp));
    assert texts[0] == "ts" + "-" + stamp.isoTimestamp == ts;
    assert texts[1] == "uuid" + "-" + stamp.uuid == uuid;
    assert texts == [ts, uuid];
    assert texts[1..] == [uuid];
    assert Join("--", texts) == ts + "--" + uuid;
    assert "--uuid-" + stamp.uuid == "--" + uuid;
  }

  /** An id with one more pair names its record with one more `--k-v`
      before `.json`: pairs appear in the file name in id order. */
  lemma RecordFilenameSnoc(id: InvokeId, key: string, value: string)
    requires |id| > 0
    ensures RecordFilename(id + [(key, value)])
         == Join("--", PairTexts(id)) + "--" + key + "-" + value + ".json"
  {
    assert PairTexts(id + [(key, value)]) == PairTexts(id) + [key + "-" + value];
    JoinSnoc("--", PairTexts(id), key + "-" + value);
  }

  /** Invoking the base predictor raises its "not implemented" error and
      writes nothing. */
  lemma BaseInvokeFails<D, R>(p: ModelPredictor<D, R>, data: D, now: real, stamp: Stamp)
    requires p.result == BaseResult
    ensures Invoke(p, data, now, stamp) == Outcome(Err(ResultNotImplemented), [])
  {
    assert p.result(data) == BaseResult(data);
  }

  /** A serving process without `ML2P_RECORD_INVOKES="true"` never writes a
      record. */
  lemma ServingWithoutFlagWritesNothing<D, R>(
    environ: Environ, hpFile: Option<Settings>, p: ModelPredictor<D, R>, data: D, now: real, stamp: Stamp)
    requires TrainingJobNameVar !in environ
    requires RecordInvokesVar !in environ || environ[RecordInvokesVar] != "true"
    requires Resolve(environ, hpFile).Ok? && p.env == Resolve(environ, hpFile).value
    ensures Invoke(p, data, now, stamp).writes == []
  {
  }

  /** The environment of a serving process that records invocations. */
  lemma RecordingServingEnv(environ: Environ)
    requires TrainingJobNameVar !in environ
    requires RecordInvokesVar in environ && environ[RecordInvokesVar] == "true"
    requires S3UrlVar in environ && ModelVersionVar in environ
    ensures Resolve(environ, None).Ok?
    ensures Recording(Resolve(environ, None).value)
    ensures Resolve(environ, None).value.s3 == Some(FromFolder(environ[S3UrlVar]))
    ensures Resolve(environ, None).value.modelVersion == Some(environ[ModelVersionVar])
  {
    ServingIgnoresHyperparameters(environ, None, None);
  }

  /** A recording predictor with an S3 location, a model version and the
      default record id writes one record per successful invocation, under
      `<prefix>/predictions/<version>/ts-<time>--uuid-<uuid>.json`. */
  lemma RecordsUnderVersion<D, R>(p: ModelPredictor<D, R>, data: D, now: real, stamp: Stamp, s3: S3URL, version: string)
    requires Recording(p.env) && p.env.s3 == Some(s3) && p.env.modelVersion == Some(version)
    requires p.recordInvokeId == DefaultRecordInvokeId
    requires p.dumpsError == PlainJson
    requires p.result(data).Ok?
    ensures var o := Invoke(p, data, now, stamp);
      && o.response.Ok?
      && |o.writes| == 1
      && o.writes[0].bucket == s3.bucket
      && o.writes[0].key ==
           (if s3.root == [] then "" else s3.root + "/")
           + ("predictions/" + version + "/"
              + ("ts-" + stamp.isoTimestamp + "--uuid-" + stamp.uuid + ".json"))
      && o.writes[0].body == InvocationRecord(data, o.response.value)
  {
    var pred := Prediction(MetadataAt(p, now), p.result(data).value);
    assert p.dumpsError(InvocationRecord(data, pred)) == PlainJson(InvocationRecord(data, pred));
    assert RecordInvoke(p, data, pred, stamp).Ok?;
    var o := Invoke(p, data, now, stamp);
    assert o.response == Ok(pred);
    var id := p.recordInvokeId(data, pred, stamp);
    assert id == DefaultRecordInvokeId(data, pred, stamp);
    DefaultRecordFilename(data, pred, stamp);
    var w := RecordInvoke(p, data, pred, stamp);
    assert w == Ok(o.writes[0]);
    assert w.value.key == RecordKey(s3, Some(version), id);
  }

  /** A serving process with `ML2P_RECORD_INVOKES="true"`, an S3 URL, a model
      version and the default record id writes one record per successful
      invocation, under `<prefix>/predictions/<version>/ts-<time>--uuid-<uuid>.json`,
      holding the input and the prediction. */
  lemma ServingRecordsUnderVersion<D, R>(
    environ: Environ, p: ModelPredictor<D, R>, data: D, now: real, stamp: Stamp)
    requires TrainingJobNameVar !in environ
    requires RecordInvokesVar in environ && environ[RecordInvokesVar] == "true"
    requires S3UrlVar in environ && ModelVersionVar in environ
    requires p.env == Resolve(environ, None).value
    requires p.recordInvokeId == DefaultRecordInvokeId
    requires p.dumpsError == PlainJson
    requires p.result(data).Ok?
    ensures var o := Invoke(p, data, now, stamp);
      var s3 := FromFolder(environ[S3UrlVar]);
      && o.response.Ok?
      && |o.writes| == 1
      && o.writes[0].bucket == s3.bucket
      && o.writes[0].key ==
           (if s3.root == [] then "" else s3.root + "/")
           + ("predictions/" + environ[ModelVersionVar] + "/"
              + ("ts-" + stamp.isoTimestamp + "--uuid-" + stamp.uuid + ".json"))
      && o.writes[0].body == InvocationRecord(data, o.response.value)
  {
    RecordingServingEnv(environ);
    RecordsUnderVersion(p, data, now, stamp, FromFolder(environ[S3UrlVar]), environ[ModelVersionVar]);
  }

  /** A serving process without `ML2P_MODEL_VERSION` formats the missing
      version as "None": its records go under `predictions/None/`. */
  lemma UnversionedServingRecordKey(environ: Environ, s3: S3URL, id: InvokeId)
    requires TrainingJobNameVar !in environ && ModelVersionVar !in environ
    ensures Resolve(environ, None).value.modelVersion == None
    ensures RecordKey(s3, Resolve(environ, None).value.modelVersion, id)
         == (if s3.root == [] then "" else s3.root + "/") + ("predictions/None/" + RecordFilename(id))
  {
    var tail := PredictionsTail(None, id);
    assert tail == "predictions/" + "None" + "/" + RecordFilename(id);
    assert "predictions/" + "None" + "/" == "predictions/None/";
  }

  /** `metadata()` reports the resolved model version (`None` in training),
      the framework version and the clock reading. */
  lemma MetadataOfResolvedEnv<D, R>(environ: Environ, hpFile: Option<Settings>, p: ModelPredictor<D, R>, now: real)
    requires Resolve(environ, hpFile).Ok? && p.env == Resolve(environ, hpFile).value
    ensures MetadataAt(p, now).modelVersion ==
      (if TrainingJobNameVar in environ then None else Get(environ, ModelVersionVar))
    ensures MetadataAt(p, now).ml2pVersion == p.ml2pVersion
    ensures MetadataAt(p, now).timestamp == now
  {
  }
}
