# ml2p core, modelled in Dafny

This project models the pure logic of `ml2p/core.py`. ML2P is a thin layer over
AWS SageMaker. It has four parts:

- **The project's S3 location (`S3URL`).** An `s3://bucket/prefix` URL is split
  into a bucket and a slash-stripped prefix. Suffixes are joined under that prefix.
- **Environment resolution (`SageMakerEnv.__init__`).** The process is either a
  training job or a serving instance. The settings record is built from the
  decoded hyperparameters file in the first case and from the process
  environment in the second.
- **The prediction pipeline (`ModelPredictor.invoke`, `batch_invoke`,
  `batch_result`, `record_invoke`).** Each call adds metadata to the user's
  results. When `ML2P_RECORD_INVOKES` is `"true"`, each call also writes one
  invocation record to S3 per prediction.
- **The `Model` holder.** It builds the trainer or predictor it was given, or
  fails when that class is unset.

Modules, one per concern:

- `Results` (`results.dfy`): `Option`, `Result` and the Python exceptions the
  code raises.
- `Strings` (`strings.dfy`): `lstrip`, `rstrip`, `strip`, `join` and `find`.
- `JsonValues` (`json_values.dfy`): decoded JSON values, with Python truthiness
  and type names.
- `UrlParse` (`url_parse.dfy`): the part of `urllib.parse.urlparse` the core
  relies on.
- `S3Url` (`s3_url.dfy`): the S3 location.
- `SageMakerEnvironment` (`sagemaker_env.dfy`): environment resolution.
- `Predictor` (`predictor.dfy`): the prediction pipeline.
- `ModelHolder` (`model_holder.dfy`): the `Model` holder.

Things the process gets from outside are inputs to the model:

- the process environment, as a `map<string, string>`;
- the decoded hyperparameters file, as an `Option` (`None` means the file is
  missing);
- the clock reading used by `metadata()`;
- the ISO timestamp and uuid4 drawn for each record (a `Stamp`; in a batch the
  i-th write uses `stamps(i)`);
- the user's `result`, `batch_result` and `record_invoke_id`, as fields of
  `ModelPredictor`;
- whether `json.dumps` rejects a record, as the `dumpsError` field of
  `ModelPredictor`.

A `put_object` call is not sent. It is returned as a `PutObject` value, in
call order, next to the response.

Where the tests and the code disagree, the model follows the code:

- An unset `ML2P_MODEL_VERSION` gives `None`, not `"Unknown"`.
- `metadata()` takes no argument.
- The metadata includes `ml2p_version`.

## Model

| member | source | states |
|---|---|---|
| Strings.LStrip | ml2p/core.py:33-34 | `lstrip("/")` removes exactly the leading slashes. The result is a suffix of the input that does not start with the stripped character, and every character it drops is that character. |
| Strings.Strip | ml2p/core.py:27 | `strip("/")` yields the slice left after removing every leading and trailing slash. Only slashes are dropped, on either side. A string without edge slashes is unchanged. |
| Strings.Join | ml2p/core.py:332 | `"--".join` of no parts is the empty string, and of one part is that part. |
| Strings.JoinSnoc | ml2p/core.py:331-333 | Joining one more part appends the separator and then that part. So the joined parts appear in their original order. |
| UrlParse.Parse | ml2p/core.py:26 | The parsed network location contains no `/`, `?` or `#`. The parsed path contains no `?` or `#`. |
| UrlParse.ParseS3Form | ml2p/core.py:26 | `s3://<host>/<path>` parses to scheme `s3`, netloc `host` and path `/path`, as long as the host has no delimiter and the path has no `?` or `#`. |
| S3Url.FromFolder | ml2p/core.py:25-30 | The bucket that `bucket()` returns is the parsed host part, unchanged. The prefix is never longer than the parsed path, and equals it when the path has no edge slash. |
| S3Url.Path | ml2p/core.py:32-34 | The key never starts with `/`. With an empty prefix it is the suffix without its leading slashes. Otherwise it is `prefix + "/" + lstrip(suffix)`. |
| S3Url.Url | ml2p/core.py:36-37 | The URL is `s3://`, then the bucket, then one `/`, then the key of the suffix. |
| S3Url.UrlText | ml2p/core.py:37 | `url(suffix)` is exactly the text `"s3://" + bucket + "/" + path(suffix)` that the format string builds. |
| S3Url.SingleSlashAtJoin | ml2p/core.py:33 | With a non-empty prefix and suffix, exactly one `/` separates them in the key. |
| S3Url.PathIgnoresLeadingSlash | ml2p/core.py:33 | Adding a leading `/` to the suffix does not change the key. |
| S3Url.PathOfRooted | ml2p/core.py:32-34 | A suffix `/tail` lands at `prefix/tail`, or at `tail` when the prefix is empty. |
| S3Url.UrlRoundTrip | ml2p/core.py:36-37 | Re-parsing `url(suffix)` gives the same bucket, and a prefix equal to `path(suffix)` without its trailing slashes. |
| S3Url.UrlOfRootRoundTrip | ml2p/core.py:25-37 | A location is rebuilt exactly from its own `url()`. |
| SageMakerEnvironment.Hyperparameters | ml2p/core.py:111-116 | A missing hyperparameters file reads as the empty mapping. A present file reads as its decoded contents. |
| SageMakerEnvironment.ChosenSettings | ml2p/core.py:91-101 | Serving reads its settings from the process environment. Training reads them from the `ML2P_ENV` hyperparameter: `{}` when it is absent, exactly its fields when it is a mapping, and an `AttributeError` otherwise. |
| SageMakerEnvironment.S3FromSetting | ml2p/core.py:107-109 | An S3 location is built exactly when the setting is a string, and it is `S3URL` of that string. Any other value raises. |
| SageMakerEnvironment.Resolve | ml2p/core.py:89-109 | The mode is TRAIN iff `TRAINING_JOB_NAME` is set, and SERVE otherwise. Serving never fails. Each mode leaves the other mode's fields unset. `record_invokes` is true iff `ML2P_RECORD_INVOKES` is exactly `"true"`. `s3` is set iff `ML2P_S3_URL` is in the chosen settings. Project and model class come from the chosen settings. |
| SageMakerEnvironment.ServingIgnoresHyperparameters | ml2p/core.py:98-109 | A serving process does not depend on the hyperparameters file. It takes its project and S3 location from the process environment. |
| SageMakerEnvironment.TrainingIgnoresEnviron | ml2p/core.py:91-97 | A training process reads nothing from the process environment except the training job name. |
| SageMakerEnvironment.TrainingReadsEnvHyperparameter | ml2p/core.py:94-109 | A training process takes its project, model class and S3 location from the fields of the `ML2P_ENV` hyperparameter. |
| SageMakerEnvironment.TrainingWithoutHyperparameters | ml2p/core.py:111-114 | A training process whose hyperparameters file is missing resolves with no project, no model class and no S3 location. |
| Predictor.MapResult | ml2p/core.py:293 | The default `batch_result` succeeds iff `result` succeeds on every datum. It then gives one result per datum, in order. Otherwise it raises the error of the first failing datum. |
| Predictor.BatchResult | ml2p/core.py:281-293 | An override is used as given. Without one, the batch succeeds iff `result` succeeds on every datum, and gives `result(data[i])` at position `i`. |
| Predictor.MetadataOfResolvedEnv | ml2p/core.py:241-245 | `metadata()` reports the resolved model version (`None` in training), the framework version and the clock reading. |
| Predictor.RecordFilename | ml2p/core.py:331-333 | The record name always ends in `.json`. An empty id gives just `.json`. A one-pair id gives `k-v.json`. |
| Predictor.RecordKey | ml2p/core.py:336-338 | The record key never starts with `/`. It is `<prefix>/predictions/<version>/<filename>`, or has no prefix part when the prefix is empty. |
| Predictor.UnversionedServingRecordKey | ml2p/core.py:337 | A serving process without `ML2P_MODEL_VERSION` has version `None`, which is formatted as "None", so its keys are `<prefix>/predictions/None/<filename>`. |
| Predictor.RecordInvoke | ml2p/core.py:321-341 | A record is written iff `json.dumps` accepts it and the environment has an S3 location. A `json.dumps` error comes first. Without an S3 location the call raises an `AttributeError`. The write goes to the project bucket under the record key, and its body pairs the input with the prediction. |
| Predictor.Invoke | ml2p/core.py:224-227 | The call succeeds iff `result` succeeds and, when recording, `record_invoke` succeeds on the prediction. The response pairs the metadata (model version, framework version, time) with `result(data)`. A failing `result` or record propagates. Exactly one write happens when recording succeeds, and none otherwise. |
| Predictor.Predictions | ml2p/core.py:275 | One prediction per result, in order, all carrying the same metadata. |
| Predictor.RecordPairs | ml2p/core.py:276-278 | One write per `zip(data, predictions)` pair, in order, up to the first pair whose record raises. That error is reported, and the earlier writes stay. |
| Predictor.BatchInvoke | ml2p/core.py:273-279 | The predictions follow `batch_result` in order and share one metadata value. A failing `batch_result` propagates with no writes. When recording, each zipped pair is written in order until the first record that raises, whose error is the response. When not recording, there are no writes. With the default `batch_result` there are as many predictions as inputs, and each prediction and write is the one `invoke` would produce. |
| Predictor.DefaultRecordFilename | ml2p/core.py:319-333 | The default id `{ts, uuid}` names the record `ts-<time>--uuid-<uuid>.json`. |
| Predictor.RecordFilenameSnoc | ml2p/core.py:331-333 | One more id pair adds one more `--k-v` just before `.json`, so the pairs appear in id order. |
| Predictor.BaseInvokeFails | ml2p/core.py:247-256 | Invoking the base predictor raises "Sub-classes should implement .result(...)" and writes nothing. |
| Predictor.ServingWithoutFlagWritesNothing | ml2p/core.py:104 | A serving process without `ML2P_RECORD_INVOKES="true"` writes no records. |
| Predictor.RecordingServingEnv | ml2p/core.py:98-109 | With the flag set to `"true"`, an S3 URL and a model version, the serving environment records invocations. Its S3 location comes from the URL and its model version from the variable. |
| Predictor.RecordsUnderVersion | ml2p/core.py:321-341 | A recording predictor with an S3 location, a model version, the default id and plain-JSON data writes one record per successful invoke. The record goes to `<prefix>/predictions/<version>/ts-<time>--uuid-<uuid>.json` in the project bucket and holds the input and the prediction. |
| Predictor.ServingRecordsUnderVersion | ml2p/core.py:224-227 | The same holds end to end for a serving process resolved from `ML2P_RECORD_INVOKES="true"`, `ML2P_S3_URL` and `ML2P_MODEL_VERSION`. |
| ModelHolder.Trainer | ml2p/core.py:356-359 | Fails with ValueError ".TRAINER should be an instance of ModelTrainer" iff TRAINER is unset. Otherwise it builds TRAINER from the environment. |
| ModelHolder.Predictor | ml2p/core.py:361-364 | Fails with ValueError ".PREDICTOR should be an instance of ModelPredictor" iff PREDICTOR is unset. Otherwise it builds PREDICTOR from the environment. |

## Left out

- URL parsing is simplified. The model splits off the scheme, the `//` network
  location, the fragment and the query. It leaves out these parts of
  `urlparse`:
  - the removal of control characters and whitespace;
  - the IPv6 bracket checks and their `ValueError`;
  - NFKC netloc validation;
  - the `;params` split, which does not apply to the `s3` scheme anyway;
  - the digits-only "port" rule of old Python versions.
- Hyperparameter decoding (`hyperparameters.decode`) is not part of this
  model. Its output is an input here.
- JSON parsing and its errors are not modelled.
- The bytes that `json.dumps` and UTF-8 encoding produce are not modelled. The
  record body is kept as a structured `InvocationRecord`. Only whether
  `json.dumps` raises, and with what error, is modelled, through `dumpsError`.
- Only integral JSON numbers are modelled. Floating-point values are not
  distinguished.
- File access is not modelled: reading `hyperparameters.json` and
  `resourceconfig.json`, `write_failure`, and the folder accessors
  (`dataset_folder`, `data_channel_folder`, `model_folder`). Only "missing
  hyperparameters file reads as `{}`" is kept.
- `resourceconfig()` is not modelled. It only passes the file through.
- The boto3 client and failures of `put_object` are not modelled. A write
  always succeeds once it is issued.
- `datetime.utcnow`, `uuid4` and `__version__` are inputs, not computed.
- `import_string` (dynamic import) is not modelled. It is reflection over the
  Python runtime.
- `ModelTrainer.train`, `setup` and `teardown` are not modelled. They are
  hooks whose bodies are user code. The base `train` only raises
  NotImplementedError.
- Predictor.RecordInvoke: a user `record_invoke_id` is modelled as total and
  returning pairs of strings. The `str()` formatting of other value types is
  not modelled.
- UrlParse.Parse: its contract states only that the network location and
  path contain no delimiters. The exact split is proved only for the
  `s3://host/path` form, by UrlParse.ParseS3Form, which is the form the core
  builds and reads back.
- S3Url.FromFolder: its contract does not state the prefix for every parsed
  path. The prefix is `Strip(path, '/')`, whose own contract gives the full
  characterisation.
- SageMakerEnvironment.S3FromSetting: the contract states that a non-string
  setting raises, not which error. The body returns what CPython's
  `urllib.parse` argument coercion raises. A truthy value gives an
  `AttributeError` for its missing `decode`. A falsy value gives the
  `TypeError` from `bytes.strip`.
