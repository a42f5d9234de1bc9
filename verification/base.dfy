/**
  Values shared by every module: optional values, the error values the Go code
  builds (plain messages, `errors.Wrap` context, `errors.Join`, and runtime
  panics, which the model returns instead of unwinding), and a
  failure-compatible Result.
 */
module Base {

  datatype Option<+T> = None | Some(value: T)

  datatype Error =
    | Message(text: string)
    | Wrapped(step: Step, cause: Error)
    | Joined(causes: seq<Error>)
    | Panic(reason: string)

  /**
    The step a wrapped error reports as failed: one constructor per
    `errors.Wrap` site of the transformer, `Text` giving the message it adds.
   */
  datatype Step =
    // fixComposeObject and evaluateLabels
    | RenderingLabel(varName: string, value: string)
    | EvaluatingLabels
    // fixOutput and the helpers it calls
    | ListingEnvVars
    | AddingEnvVars
    | FetchingToken(image: string)
    | FixingDeployment
    | GettingSecretForImage
    // loadComposeObject
    | GettingLoader
    | CloningRepo
    | CheckingMarker
    | ValidatingProject
    | ReadingCompose(path: string)
    | LoadingCompose(path: string)
    | FixingComposeObject
    // Prepare, Transform, fail, transformCompose
    | CreatingEnvironment
    | LoadingComposeObject
    | SavingDegradedReason
    | MarkingDegraded
    | SavingServices
    | BuildingImages
    | TransformingCompose
    | FixingOutput
    | MarkingSuccess

  /** The context message the source passes to `errors.Wrap` at each step. */
  function Text(step: Step): string {
    match step
    case RenderingLabel(varName, value) =>
      "fail to render mustache template for replace-arg label var=" + varName + " value=" + value
    case EvaluatingLabels => "fail to evaluate ergomake specific labels"
    case ListingEnvVars => "fail to list env vars by repo"
    case AddingEnvVars => "fail to add env vars"
    case FetchingToken(image) => "fail to fetch token for image " + image
    case FixingDeployment => "fail to fix deployment"
    case GettingSecretForImage => "fail to get secret for image"
    case GettingLoader => "fail to get kompose loader"
    case CloningRepo => "fail to clone repo from github"
    case CheckingMarker => "fail to check if .ergomake folder exists"
    case ValidatingProject => "fail to validate project"
    case ReadingCompose(path) => "fail to read compose at " + path
    case LoadingCompose(path) => "fail to load compose " + path
    case FixingComposeObject => "fail to fix compose object"
    case CreatingEnvironment => "fail to create environment in db"
    case LoadingComposeObject => "fail to load compose object"
    case SavingDegradedReason => "fail to save degraded reason to db"
    case MarkingDegraded => "fail to update db environment status to degraded"
    case SavingServices => "fail to save services"
    case BuildingImages => "fail to build images"
    case TransformingCompose => "fail to tranform compose into k8s objects"
    case FixingOutput => "fail to fix output"
    case MarkingSuccess => "fail to update environment status to success in db"
  }

  datatype Result<+T> = Ok(value: T) | Err(error: Error) {
    predicate IsFailure() { Err? }

    function PropagateFailure<U>(): Result<U>
      requires Err?
    {
      Err(error)
    }

    function Extract(): T
      requires Ok?
    {
      value
    }
  }

  /** `errors.Wrap(err, Text(step))`: a nil error stays nil. */
  function Wrap(e: Option<Error>, step: Step): (r: Option<Error>)
    ensures r.None? <==> e.None?
    ensures e.Some? ==> r == Some(Wrapped(step, e.value))
  {
    match e
    case None => None
    case Some(x) => Some(Wrapped(step, x))
  }

  /** The errors of `errors.Join(a, b)`: nil arguments are dropped. */
  function NonNil(a: Option<Error>, b: Error): (r: seq<Error>)
    ensures 1 <= |r| && r[|r| - 1] == b
    ensures a.Some? <==> |r| == 2
    ensures a.Some? ==> r[0] == a.value
    ensures a.None? ==> r == [b]
  {
    match a
    case None => [b]
    case Some(x) => [x, b]
  }
}
