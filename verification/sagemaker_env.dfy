/** Resolution of the SageMaker runtime environment (`SageMakerEnv.__init__`
    in ml2p/core.py).

    The process environment and the decoded hyperparameters file are
    inputs; a missing hyperparameters file is `None`.
 */
module SageMakerEnvironment {
  import opened Results
  import opened JsonValues
  import opened S3Url

  datatype EnvType = Train | Serve

  /** The process environment: variable name to value. */
  type Environ = map<string, string>

  /** A settings mapping: the decoded `ML2P_ENV` hyperparameter, or the
      process environment with its values as JSON strings. */
  type Settings = map<string, Json>

  const TrainingJobNameVar := "TRAINING_JOB_NAME"
  const EnvHyperparameter := "ML2P_ENV"
  const ProjectVar := "ML2P_PROJECT"
  const ModelClsVar := "ML2P_MODEL_CLS"
  const S3UrlVar := "ML2P_S3_URL"
  const ModelVersionVar := "ML2P_MODEL_VERSION"
  const RecordInvokesVar := "ML2P_RECORD_INVOKES"

  datatype SageMakerEnv = SageMakerEnv(
    envType: EnvType,
    project: Option<Json>,
    modelCls: Option<Json>,
    s3: Option<S3URL>,
    trainingJobName: Option<string>,
    modelVersion: Option<string>,
    recordInvokes: Option<bool>)

  /** The mode-dependent fields are set in their own mode only. */
  predicate WellFormed(env: SageMakerEnv) {
    match env.envType
    case Train =>
      env.trainingJobName.Some? && env.modelVersion.None? && env.recordInvokes.None?
    case Serve =>
      env.trainingJobName.None? && env.recordInvokes.Some?
  }

  /** `d.get(key)`. */
  function Get<V>(m: map<string, V>, key: string): Option<V> {
    if key in m then Some(m[key]) else None
  }

  /** `hyperparameters()`: the decoded file, or the empty mapping when the
      file is missing. */
  function Hyperparameters(file: Option<Settings>): (hp: Settings)
    ensures file.None? ==> hp == map[]
    ensures file.Some? ==> hp == file.value
  {
    file.GetOr(map[])
  }

  /** The process environment seen as a settings mapping. */
  function EnvironSettings(environ: Environ): (s: Settings)
    ensures s.Keys == environ.Keys
    ensures forall k :: k in environ ==> s[k] == JString(environ[k])
  {
    map k | k in environ :: JString(environ[k])
  }

  /** The settings mapping of the current mode. In training it is
      `hyperparameters().get("ML2P_ENV", {})`, whose later `.get` calls fail
      unless it is a mapping; when serving it is the process environment. */
  function ChosenSettings(environ: Environ, hpFile: Option<Settings>): (r: Result<Settings>)
    ensures TrainingJobNameVar !in environ ==> r == Ok(EnvironSettings(environ))
    ensures TrainingJobNameVar in environ && EnvHyperparameter !in Hyperparameters(hpFile) ==>
      r == Ok(map[])
    ensures TrainingJobNameVar in environ && EnvHyperparameter in Hyperparameters(hpFile) ==>
      (r.Ok? <==> Hyperparameters(hpFile)[EnvHyperparameter].JObject?)
    ensures TrainingJobNameVar in environ && EnvHyperparameter in Hyperparameters(hpFile)
            && Hyperparameters(hpFile)[EnvHyperparameter].JObject? ==>
      r == Ok(Hyperparameters(hpFile)[EnvHyperparameter].fields)
    ensures r.Err? ==> r.error.AttributeError?
  {
    if TrainingJobNameVar in environ then
      var hp := Hyperparameters(hpFile);
      var settings := Get(hp, EnvHyperparameter).GetOr(JObject(map[]));
      if settings.JObject? then Ok(settings.fields)
      else Err(AttributeError(NoAttributeMessage(settings, "get")))
    else Ok(EnvironSettings(environ))
  }

  /** `S3URL(value)` for a settings value. A non-string is refused by the URL
      library: a truthy one has no `decode`, a falsy one is parsed as empty
      bytes whose `strip("/")` rejects the `str` argument. */
  function S3FromSetting(value: Json): (r: Result<S3URL>)
    ensures r.Ok? <==> value.JString?
    ensures value.JString? ==> r.value == FromFolder(value.s)
  {
    match value
    case JString(s) => Ok(FromFolder(s))
    case _ =>
      if Truthy(value) then Err(AttributeError(NoAttributeMessage(value, "decode")))
      else Err(TypeError("a bytes-like object is required, not 'str'"))
  }

  /** `SageMakerEnv(ml_folder)`: the mode and the settings of one process. */
  function Resolve(environ: Environ, hpFile: Option<Settings>): (r: Result<SageMakerEnv>)
    // the mode is a total two-way branch on the training marker
    ensures r.Ok? ==> (r.value.envType == Train <==> TrainingJobNameVar in environ)
    ensures r.Ok? ==> WellFormed(r.value)
    // serving never fails; training fails only on malformed settings
    ensures r.Err? <==>
      (|| ChosenSettings(environ, hpFile).Err?
       || (S3UrlVar in ChosenSettings(environ, hpFile).value
           && !ChosenSettings(environ, hpFile).value[S3UrlVar].JString?))
    ensures TrainingJobNameVar !in environ ==> r.Ok?
    // fields read from the chosen settings, in both modes
    ensures r.Ok? ==>
      var settings := ChosenSettings(environ, hpFile).value;
      && r.value.project == Get(settings, ProjectVar)
      && r.value.modelCls == Get(settings, ModelClsVar)
      && (r.value.s3.Some? <==> S3UrlVar in settings)
      && (r.value.s3.Some? ==> r.value.s3.value == FromFolder(settings[S3UrlVar].s))
    // training-only field
    ensures r.Ok? && TrainingJobNameVar in environ ==>
      r.value.trainingJobName == Some(environ[TrainingJobNameVar])
    // serving-only fields, read from the process environment itself
    ensures r.Ok? && TrainingJobNameVar !in environ ==>
      && r.value.modelVersion == Get(environ, ModelVersionVar)
      && (r.value.recordInvokes == Some(true) <==>
            RecordInvokesVar in environ && environ[RecordInvokesVar] == "true")
  {
    var chosen := ChosenSettings(environ, hpFile);
    if chosen.Err? then Err(chosen.error)
    else
      var settings := chosen.value;
      var s3 :=
        if S3UrlVar in settings then
          var u := S3FromSetting(settings[S3UrlVar]);
          if u.Err? then Err(u.error) else Ok(Some(u.value))
        else Ok(None);
      if s3.Err? then Err(s3.error)
      else
        var project := Get(settings, ProjectVar);
        var modelCls := Get(settings, ModelClsVar);
        if TrainingJobNameVar in environ then
          Ok(SageMakerEnv(Train, project, modelCls, s3.value,
                          Get(environ, TrainingJobNameVar), None, None))
        else
          Ok(SageMakerEnv(Serve, project, modelCls, s3.value, None,
                          Get(environ, ModelVersionVar),
                          Some(Get(environ, RecordInvokesVar).GetOr("false") == "true")))
  }

  /** A serving process never reads the hyperparameters file, and takes its
      project, model class and S3 location from the process environment. */
  lemma ServingIgnoresHyperparameters(environ: Environ, file1: Option<Settings>, file2: Option<Settings>)
    requires TrainingJobNameVar !in environ
    ensures Resolve(environ, file1) == Resolve(environ, file2)
    ensures Resolve(environ, file1).value.project ==
      (if ProjectVar in environ then Some(JString(environ[ProjectVar])) else None)
    ensures Resolve(environ, file1).value.s3 ==
      (if S3UrlVar in environ then Some(FromFolder(environ[S3UrlVar])) else None)
  {
  }

  /** A training process reads nothing from the process environment except
      the training job name. */
  lemma TrainingIgnoresEnviron(environ1: Environ, environ2: Environ, file: Option<Settings>)
    requires TrainingJobNameVar in environ1 && TrainingJobNameVar in environ2
    requires environ1[TrainingJobNameVar] == environ2[TrainingJobNameVar]
    ensures Resolve(environ1, file) == Resolve(environ2, file)
  {
  }

  /** A training process takes its project, model class and S3 location from
      the fields of the `ML2P_ENV` hyperparameter. */
  lemma TrainingReadsEnvHyperparameter(environ: Environ, file: Settings, fields: Settings)
    requires TrainingJobNameVar in environ
    requires EnvHyperparameter in file && file[EnvHyperparameter] == JObject(fields)
    requires S3UrlVar in fields ==> fields[S3UrlVar].JString?
    ensures Resolve(environ, Some(file)).Ok?
    ensures Resolve(environ, Some(file)).value.project == Get(fields, ProjectVar)
    ensures Resolve(environ, Some(file)).value.modelCls == Get(fields, ModelClsVar)
    ensures Resolve(environ, Some(file)).value.s3 ==
      (if S3UrlVar in fields then Some(FromFolder(fields[S3UrlVar].s)) else None)
  {
    assert ChosenSettings(environ, Some(file)) == Ok(fields);
  }

  /** A training process whose hyperparameters file is missing resolves with
      no project, no model class and no S3 location. */
  lemma TrainingWithoutHyperparameters(environ: Environ)
    requires TrainingJobNameVar in environ
    ensures Resolve(environ, None).Ok?
    ensures Resolve(environ, None).value.project.None?
    ensures Resolve(environ, None).value.modelCls.None?
    ensures Resolve(environ, None).value.s3.None?
  {
    assert Hyperparameters(None) == map[];
    assert ChosenSettings(environ, None) == Ok(map[]);
  }
}
