/** `Model` in ml2p/core.py: a holder for a trainer class and a predictor
    class, each of which may be left unset. A class is modelled as its
    constructor, a function from the environment to an instance. */
module ModelHolder {
  import opened Results
  import opened SageMakerEnvironment

  datatype Model<!T, !P> = Model(
    trainerClass: Option<SageMakerEnv -> T>,
    predictorClass: Option<SageMakerEnv -> P>)

  const TrainerUnset := ValueError(".TRAINER should be an instance of ModelTrainer")
  const PredictorUnset := ValueError(".PREDICTOR should be an instance of ModelPredictor")

  /** `trainer(env)`: an instance built from `env`, or a `ValueError` when
      TRAINER was never set. */
  function Trainer<T, P>(m: Model<T, P>, env: SageMakerEnv): (r: Result<T>)
    ensures r.Err? <==> m.trainerClass.None?
    ensures r.Err? ==> r.error == TrainerUnset
    ensures r.Ok? ==> r.value == m.trainerClass.value(env)
  {
    match m.trainerClass
    case None => Err(TrainerUnset)
    case Some(cls) => Ok(cls(env))
  }

  /** `predictor(env)`: an instance built from `env`, or a `ValueError` when
      PREDICTOR was never set. */
  function Predictor<T, P>(m: Model<T, P>, env: SageMakerEnv): (r: Result<P>)
    ensures r.Err? <==> m.predictorClass.None?
    ensures r.Err? ==> r.error == PredictorUnset
    ensures r.Ok? ==> r.value == m.predictorClass.value(env)
  {
    match m.predictorClass
    case None => Err(PredictorUnset)
    case Some(cls) => Ok(cls(env))
  }
}
