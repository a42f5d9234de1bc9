/**
  The `gitCompose` transformer as a state machine: `Prepare` records the
  environment and loads the compose project, `Transform` saves the service
  rows, builds images and converts the project into cluster objects, `fail`
  marks the environment degraded, and `Cleanup` removes the checkout.

  The database, the git clone, the file system, kompose's loader and
  converter, the image builder and the project validator are outside the
  model: what each of them answers during one call is a parameter (`LoadIO`,
  `PrepareIO`, `TransformIO`), the converter is a function of `Providers`
  applied to the stored services, and the persisted environment row is the
  `status`/`degradedReason` state of the class.
 */
module Pipeline {
  import opened Base
  import opened ComposeModel
  import opened Manifests
  import opened Enrich

  /** Status of the environment row; `Absent` before it is created. */
  datatype EnvStatus = Absent | Pending | Degraded | Success | Deleted

  /** One row of the services table. */
  datatype ServiceRow = ServiceRow(id: string, name: string, environmentId: string, url: string, build: string, image: string)

  /** A build job of the image builder. */
  datatype Job = Job(name: string)

  datatype ClusterEnv = ClusterEnv(namespace: string, objects: seq<K8sObject>)

  datatype TransformResult = TransformResult(clusterEnv: Option<ClusterEnv>, compose: Option<Compose>, failedJobs: seq<Job>) {
    /** Some image build failed. */
    predicate Failed() { |failedJobs| > 0 }
  }

  datatype PrepareResult = PrepareResult(skip: bool, validationError: Option<string>)

  // ---------------------------------------------------------------------------
  // What the outside world answers

  /** The clone of the branch into a fresh directory. */
  datatype CloneOutcome = Cloned(dir: string) | CloneFailed(error: Error)

  /** `os.Stat` of the `.ergomake` folder of the checkout. */
  datatype MarkerOutcome = MarkerFound | MarkerMissing | MarkerStatFailed(error: Error)

  /** The project validator: a failure, a validation error (serialized), or the compose file to use. */
  datatype ValidationOutcome = ValidateFailed(error: Error) | Invalid(reason: string) | Valid(composePath: string)

  /** Answers during `loadComposeObject`. */
  datatype LoadIO = LoadIO(
    loaderErr: Option<Error>,
    clone: CloneOutcome,
    marker: MarkerOutcome,
    validation: ValidationOutcome,
    readCompose: Result<string>,
    loadFile: Result<map<string, ServiceConfig>>,
    newId: string -> string)

  /** Answers during `Prepare`: the database writes and the load. */
  datatype PrepareIO = PrepareIO(
    createErr: Option<Error>,
    load: LoadIO,
    deleteErr: Option<Error>,
    saveErr: Option<Error>,
    failErr: Option<Error>)

  datatype BuildOutcome = BuildFailed(error: Error) | Built(failedJobs: seq<Job>)

  /** Answers during `Transform`. */
  datatype TransformIO = TransformIO(
    createServicesErr: Option<Error>,
    build: BuildOutcome,
    failErr: Option<Error>,
    successErr: Option<Error>)

  /** Code the transformer calls but that is not part of this model. */
  datatype Providers = Providers(
    render: Renderer,
    toMap: Compose -> map<string, string>,
    convert: map<string, ServiceConfig> -> Result<seq<K8sObject>>,
    computeRepo: (string, string) -> string,
    listEnvVars: (string, string) -> Result<seq<EnvVarEntry>>,
    fetchCreds: (string, string) -> CredsOutcome,
    base64: string -> string)

  // ---------------------------------------------------------------------------
  // Reference definitions

  /** Where `loadComposeObject` stops, before the per-service fix-up. */
  datatype LoadStop =
    | LoadFailed(error: Error)
    | MarkerAbsent(statError: Option<Error>)
    | ProjectInvalid(reason: string)
    | Loaded(composePath: string, raw: string, services: map<string, ServiceConfig>)

  function LoadStage(io: LoadIO): (r: LoadStop)
    ensures !r.LoadFailed? ==> io.loaderErr.None? && io.clone.Cloned?
    ensures r.MarkerAbsent? <==> io.loaderErr.None? && io.clone.Cloned? && !io.marker.MarkerFound?
    ensures r.Loaded? ==> io.validation == Valid(r.composePath) && io.readCompose == Ok(r.raw) && io.loadFile == Ok(r.services)
  {
    if io.loaderErr.Some? then LoadFailed(Wrapped(GettingLoader, io.loaderErr.value))
    else if io.clone.CloneFailed? then LoadFailed(Wrapped(CloningRepo, io.clone.error))
    else match io.marker
      case MarkerMissing => MarkerAbsent(None)
      case MarkerStatFailed(e) => MarkerAbsent(Some(Wrapped(CheckingMarker, e)))
      case MarkerFound =>
        match io.validation
        case ValidateFailed(e) => LoadFailed(Wrapped(ValidatingProject, e))
        case Invalid(reason) => ProjectInvalid(reason)
        case Valid(path) =>
          if io.readCompose.Err? then LoadFailed(Wrapped(ReadingCompose(path), io.readCompose.error))
          else if io.loadFile.Err? then LoadFailed(Wrapped(LoadingCompose(path), io.loadFile.error))
          else Loaded(path, io.readCompose.value, io.loadFile.value)
  }

  /** What `fail` returns: the original error when the status write succeeds, else both, joined and wrapped. */
  function FailResult(orig: Option<Error>, writeErr: Option<Error>): (r: Option<Error>)
    ensures writeErr.None? ==> r == orig
    ensures writeErr.Some? ==> r.Some? && r.value.Wrapped? && r.value.cause.Joined?
    ensures writeErr.Some? ==> writeErr.value in r.value.cause.causes
    ensures writeErr.Some? && orig.Some? ==> orig.value in r.value.cause.causes
    ensures writeErr.Some? && orig.None? ==> r.value.cause.causes == [writeErr.value]
  {
    match writeErr
    case None => orig
    case Some(w) => Some(Wrapped(MarkingDegraded, Joined(NonNil(orig, w))))
  }

  /** Every service's labels render. */
  predicate AllRender(svcs: map<string, ServiceConfig>, ctx: map<string, string>, render: Renderer) {
    forall k :: k in svcs ==> RendersAll(svcs[k].labels, svcs[k].labels.Keys, ctx, render)
  }

  /** The row saved for the summary entry `name`. */
  function Row(envId: string, name: string, s: EnvironmentService): ServiceRow {
    ServiceRow(s.id, name, envId, s.url, s.build, s.image)
  }

  /** The rows `saveServices` writes: one per summary entry, under the entry's name. */
  function ServiceRows(envId: string, c: Compose): (r: set<ServiceRow>)
    ensures forall row :: row in r <==> row.name in c.services && row == Row(envId, row.name, c.services[row.name])
  {
    set n | n in c.services :: Row(envId, n, c.services[n])
  }

  /**
    `after` is `before` followed by the rows of `c`'s entries, each once, in
    some order.
   */
  ghost predicate RowsSaved(before: seq<ServiceRow>, after: seq<ServiceRow>, envId: string, c: Compose) {
    && |after| == |before| + |c.services|
    && after[..|before|] == before
    && forall row :: row in after[|before|..] <==> row in ServiceRows(envId, c)
  }

  /**
    The rows of `saveServices`, in map order: every summary entry once and
    nothing else.
   */
  method CollectRows(envId: string, c: Compose) returns (rows: seq<ServiceRow>)
    ensures |rows| == |c.services|
    ensures forall row :: row in rows <==> row in ServiceRows(envId, c)
    ensures forall i, j :: 0 <= i < j < |rows| ==> rows[i].name != rows[j].name
  {
    rows := [];
    var remaining := c.services.Keys;
    while remaining != {}
      invariant remaining <= c.services.Keys
      invariant |rows| == |c.services.Keys - remaining|
      invariant forall row :: row in rows <==> row.name in c.services.Keys - remaining && row == Row(envId, row.name, c.services[row.name])
      invariant forall i, j :: 0 <= i < j < |rows| ==> rows[i].name != rows[j].name
      decreases remaining
    {
      var n :| n in remaining;
      assert c.services.Keys - (remaining - {n}) == (c.services.Keys - remaining) + {n};
      rows := rows + [Row(envId, n, c.services[n])];
      remaining := remaining - {n};
    }
  }

  /** What the fix-up of one service depends on besides the service. */
  datatype Fixup = Fixup(cfg: Config, id: Identity, projectPath: string, namespace: string,
                         ctx: map<string, string>, render: Renderer)

  /** The labels of `s` render and `t` is its fix-up. */
  predicate FixesTo(f: Fixup, s: ServiceConfig, t: ServiceConfig) {
    && RendersAll(s.labels, s.labels.Keys, f.ctx, f.render)
    && t == FixedService(f.cfg, f.id, f.projectPath, f.namespace, s, f.ctx, f.render)
  }

  /** Loop state of `fixComposeObject`: the services still `remaining` are untouched, the others fixed up. */
  predicate FixedExcept(f: Fixup, svcs: map<string, ServiceConfig>, current: map<string, ServiceConfig>,
                        remaining: set<string>) {
    && remaining <= svcs.Keys && current.Keys == svcs.Keys
    && (forall k :: k in remaining ==> current[k] == svcs[k])
    && (forall k :: k in svcs && k !in remaining ==> FixesTo(f, svcs[k], current[k]))
  }

  /**
    What `fixComposeObject` leaves behind: it fails exactly when the labels of
    some service do not render; on success every service is fixed up, and on
    failure every service is either fixed up or as it was.
   */
  predicate FixOutcome(f: Fixup, svcs: map<string, ServiceConfig>, current: map<string, ServiceConfig>,
                       err: Option<Error>) {
    && current.Keys == svcs.Keys
    && (err.None? <==> AllRender(svcs, f.ctx, f.render))
    && (err.None? ==> forall k :: k in svcs ==> FixesTo(f, svcs[k], current[k]))
    && (err.Some? ==> err.value.Wrapped? && err.value.step == EvaluatingLabels)
    && (forall k :: k in svcs ==> current[k] == svcs[k] || FixesTo(f, svcs[k], current[k]))
  }

  /** Fixing up one more service keeps the loop state. */
  lemma FixedExceptStep(f: Fixup, svcs: map<string, ServiceConfig>, current: map<string, ServiceConfig>,
                        remaining: set<string>, k: string, t: ServiceConfig)
    requires FixedExcept(f, svcs, current, remaining) && k in remaining && FixesTo(f, svcs[k], t)
    ensures FixedExcept(f, svcs, current[k := t], remaining - {k})
  {
  }

  /** A finished loop fixed up every service. */
  lemma FixedExceptDone(f: Fixup, svcs: map<string, ServiceConfig>, current: map<string, ServiceConfig>)
    requires FixedExcept(f, svcs, current, {})
    ensures FixOutcome(f, svcs, current, None)
  {
  }

  /** A loop stopped at a service whose labels do not render. */
  lemma FixedExceptStopped(f: Fixup, svcs: map<string, ServiceConfig>, current: map<string, ServiceConfig>,
                           remaining: set<string>, k: string, e: Error)
    requires FixedExcept(f, svcs, current, remaining) && k in remaining
    requires !RendersAll(svcs[k].labels, svcs[k].labels.Keys, f.ctx, f.render)
    ensures FixOutcome(f, svcs, current, Some(Wrapped(EvaluatingLabels, e)))
  {
  }

  /** The body of the `fixComposeObject` loop for one service. */
  method FixService(f: Fixup, s: ServiceConfig) returns (r: Result<ServiceConfig>)
    ensures r.Ok? <==> RendersAll(s.labels, s.labels.Keys, f.ctx, f.render)
    ensures r.Ok? ==> FixesTo(f, s, r.value)
  {
    var service := WithExposure(f.cfg, f.id, Rebuilt(f.cfg, f.projectPath, f.namespace, s));
    var evaluated := EvaluateLabels(service, f.ctx, f.render);
    if evaluated.Err? {
      return Err(evaluated.error);
    }
    var kept := RemoveUnsupportedVolumes(evaluated.value.volumes);
    return Ok(evaluated.value.(volumes := kept));
  }

  /**
    `fixComposeObject`: the fix-up of every service, in map order, into a copy
    that the caller writes back; the loop stops at the first service whose
    labels do not render, the services already visited keeping their fixed
    form.
   */
  method FixComposeObject(f: Fixup, svcs: map<string, ServiceConfig>) returns (current: map<string, ServiceConfig>, err: Option<Error>)
    ensures FixOutcome(f, svcs, current, err)
  {
    current := svcs;
    var remaining := svcs.Keys;
    while remaining != {}
      invariant FixedExcept(f, svcs, current, remaining)
      decreases remaining
    {
      var k :| k in remaining;
      var fixedService := FixService(f, svcs[k]);
      if fixedService.Err? {
        err := Some(Wrapped(EvaluatingLabels, fixedService.error));
        FixedExceptStopped(f, svcs, current, remaining, k, fixedService.error);
        return;
      }
      FixedExceptStep(f, svcs, current, remaining, k, fixedService.value);
      current := current[k := fixedService.value];
      remaining := remaining - {k};
    }
    err := None;
    FixedExceptDone(f, svcs, current);
  }

  /** The cause of a wrapped error. */
  function Cause(e: Option<Error>): (r: Option<Error>)
    ensures forall c, context :: e == Some(Wrapped(context, c)) ==> r == Some(c)
    ensures e.None? ==> r.None?
  {
    match e
    case Some(Wrapped(_, c)) => Some(c)
    case _ => e
  }

  /** `Cause` undoes `Wrap`: the error handed to a wrap is the cause of what comes out. */
  lemma CauseOfWrap(e: Option<Error>, step: Step)
    ensures Cause(Wrap(e, step)) == e
  {
  }

  /**
    The end of `loadComposeObject`: `summary` is the summary of the services
    as loaded, and `fixed` holds the services fixed up as far as
    `fixComposeObject` got, `fixErr` being its error.
   */
  predicate ProjectLoaded(cfg: Config, id: Identity, providers: Providers, dir: string, namespace: string,
                          raw: string, svcs: map<string, ServiceConfig>, newId: string -> string,
                          summary: Compose, fixed: map<string, ServiceConfig>, fixErr: Option<Error>) {
    && Summarizes(cfg, id, svcs, raw, newId, summary)
    && (fixErr.None? <==> AllRender(svcs, providers.toMap(summary), providers.render))
    && forall ctx | ctx == providers.toMap(summary) :: FixOutcome(Fixup(cfg, id, dir, namespace, ctx, providers.render), svcs, fixed, fixErr)
  }

  /** Build the summary of the loaded services, then fix the services up. */
  method LoadProject(cfg: Config, id: Identity, providers: Providers, dir: string, namespace: string,
                     raw: string, svcs: map<string, ServiceConfig>, newId: string -> string)
    returns (summary: Compose, fixed: map<string, ServiceConfig>, fixErr: Option<Error>)
    ensures ProjectLoaded(cfg, id, providers, dir, namespace, raw, svcs, newId, summary, fixed, fixErr)
  {
    summary := MakeEnvironmentFromServices(cfg, id, svcs, raw, newId);
    fixed, fixErr := FixComposeObject(Fixup(cfg, id, dir, namespace, providers.toMap(summary), providers.render), svcs);
  }

  // ---------------------------------------------------------------------------
  // The transformer

  class GitCompose {
    const cfg: Config
    const id: Identity
    const providers: Providers

    var prepared: bool
    var status: EnvStatus
    var degradedReason: string
    var projectPath: string
    var composePath: string
    var komposeObject: Option<map<string, ServiceConfig>>
    var compose: Option<Compose>
    /** The directory `Cleanup` removes, once a clone exists. */
    var cleanup: Option<string>
    /** Rows of the services table written so far. */
    var savedServices: seq<ServiceRow>
    /** Directories removed by `Cleanup`. */
    var removed: seq<string>

    /** `NewGitCompose`: nothing is recorded or loaded yet. */
    constructor(cfg: Config, id: Identity, providers: Providers)
      ensures this.cfg == cfg && this.id == id && this.providers == providers
      ensures !prepared && status == Absent && degradedReason == ""
      ensures komposeObject.None? && compose.None? && cleanup.None?
      ensures savedServices == [] && removed == []
    {
      this.cfg := cfg;
      this.id := id;
      this.providers := providers;
      prepared := false;
      status := Absent;
      degradedReason := "";
      projectPath := "";
      composePath := "";
      komposeObject := None;
      compose := None;
      cleanup := None;
      savedServices := [];
      removed := [];
    }

    /** The enrichment context of `fixOutput` for a summary. */
    function EnrichContext(c: Compose): (r: Context)
      ensures r.cfg == cfg && r.id == id && r.compose == c
    {
      Context(cfg, id, c, providers.computeRepo, providers.listEnvVars, providers.fetchCreds, providers.base64)
    }

    /** `fail`: mark the environment degraded and hand back `orig`, joined with a failed write. */
    method Fail(orig: Option<Error>, writeErr: Option<Error>) returns (err: Option<Error>)
      modifies this
      ensures err == FailResult(orig, writeErr)
      ensures status == (if writeErr.None? then Degraded else old(status))
      ensures prepared == old(prepared) && degradedReason == old(degradedReason)
      ensures komposeObject == old(komposeObject) && compose == old(compose) && cleanup == old(cleanup)
      ensures projectPath == old(projectPath) && composePath == old(composePath)
      ensures savedServices == old(savedServices) && removed == old(removed)
    {
      if writeErr.None? {
        status := Degraded;
        err := orig;
      } else {
        err := Some(Wrapped(MarkingDegraded, Joined(NonNil(orig, writeErr.value))));
      }
    }

    /**
      The first part of `loadComposeObject`: get the loader, clone, look for
      the `.ergomake` folder, validate, read and load the compose file;
      `ready` tells whether the services were loaded.
     */
    method Checkout(io: LoadIO) returns (skip: bool, invalid: Option<string>, err: Option<Error>, ready: bool)
      modifies this
      ensures io.loaderErr.None? && io.clone.Cloned? ==> projectPath == io.clone.dir && cleanup == Some(io.clone.dir)
      ensures !(io.loaderErr.None? && io.clone.Cloned?) ==> projectPath == old(projectPath) && cleanup == old(cleanup)
      ensures prepared == old(prepared) && status == old(status) && degradedReason == old(degradedReason)
      ensures savedServices == old(savedServices) && removed == old(removed)
      ensures komposeObject == old(komposeObject) && compose == old(compose)
      ensures ready <==> LoadStage(io).Loaded?
      ensures match LoadStage(io)
        case LoadFailed(e) => err == Some(e) && !skip && invalid.None?
        case MarkerAbsent(statError) => skip && invalid.None? && err == statError
        case ProjectInvalid(reason) => !skip && invalid == Some(reason) && err.None?
        case Loaded(path, _, _) => !skip && invalid.None? && err.None? && composePath == path
    {
      skip, invalid, err, ready := false, None, None, false;
      if io.loaderErr.Some? {
        err := Some(Wrapped(GettingLoader, io.loaderErr.value));
        return;
      }
      if io.clone.CloneFailed? {
        err := Some(Wrapped(CloningRepo, io.clone.error));
        return;
      }
      var dir := io.clone.dir;
      projectPath := dir;
      cleanup := Some(dir);
      match io.marker {
        case MarkerMissing =>
          skip := true;
          return;
        case MarkerStatFailed(e) =>
          skip := true;
          err := Some(Wrapped(CheckingMarker, e));
          return;
        case MarkerFound =>
      }
      match io.validation {
        case ValidateFailed(e) =>
          err := Some(Wrapped(ValidatingProject, e));
          return;
        case Invalid(reason) =>
          invalid := Some(reason);
          return;
        case Valid(path) =>
          composePath := path;
      }
      if io.readCompose.Err? {
        err := Some(Wrapped(ReadingCompose(composePath), io.readCompose.error));
        return;
      }
      if io.loadFile.Err? {
        err := Some(Wrapped(LoadingCompose(composePath), io.loadFile.error));
        return;
      }
      ready := true;
    }

    /**
      `loadComposeObject`: the checkout, then the summary built from the
      services as loaded, then the fix-up of the services, written back.
     */
    method LoadComposeObject(namespace: string, io: LoadIO) returns (skip: bool, invalid: Option<string>, err: Option<Error>)
      modifies this
      ensures io.loaderErr.None? && io.clone.Cloned? ==> projectPath == io.clone.dir && cleanup == Some(io.clone.dir)
      ensures !(io.loaderErr.None? && io.clone.Cloned?) ==> projectPath == old(projectPath) && cleanup == old(cleanup)
      ensures prepared == old(prepared) && status == old(status) && degradedReason == old(degradedReason)
      ensures savedServices == old(savedServices) && removed == old(removed)
      ensures match LoadStage(io)
        case LoadFailed(e) =>
          && err == Some(e) && !skip && invalid.None?
          && komposeObject == old(komposeObject) && compose == old(compose)
        case MarkerAbsent(statError) =>
          && skip && invalid.None? && err == statError
          && komposeObject == old(komposeObject) && compose == old(compose)
        case ProjectInvalid(reason) =>
          && !skip && invalid == Some(reason) && err.None?
          && komposeObject == old(komposeObject) && compose == old(compose)
        case Loaded(path, raw, svcs) =>
          && !skip && invalid.None? && composePath == path && compose.Some? && komposeObject.Some?
          && (err.Some? ==> err.value.Wrapped? && err.value.step == FixingComposeObject)
          && ProjectLoaded(cfg, id, providers, io.clone.dir, namespace, raw, svcs, io.newId, compose.value,
                           komposeObject.value, Cause(err))
    {
      var ready;
      skip, invalid, err, ready := Checkout(io);
      if ready {
        var summary, fixedSvcs, fixErr := LoadProject(cfg, id, providers, io.clone.dir, namespace,
                                                      io.readCompose.value, io.loadFile.value, io.newId);
        compose := Some(summary);
        komposeObject := Some(fixedSvcs);
        err := Wrap(fixErr, FixingComposeObject);
      }
    }

    /**
      `Prepare`: create the environment row (pending), load the project, and
      settle the row: deleted when the project has no `.ergomake` folder,
      degraded with the validation error as reason when the project is invalid.
      A failed load marks the row degraded through `fail`.
     */
    method Prepare(namespace: string, io: PrepareIO) returns (r: Result<PrepareResult>)
      modifies this
      ensures io.createErr.Some? ==>
        && r == Err(Wrapped(CreatingEnvironment, io.createErr.value))
        && prepared == old(prepared) && status == old(status) && cleanup == old(cleanup)
        && projectPath == old(projectPath) && composePath == old(composePath) && degradedReason == old(degradedReason)
        && compose == old(compose) && komposeObject == old(komposeObject)
      ensures io.createErr.None? && io.load.loaderErr.None? && io.load.clone.Cloned? ==>
        projectPath == io.load.clone.dir && cleanup == Some(io.load.clone.dir)
      ensures io.createErr.None? && !(io.load.loaderErr.None? && io.load.clone.Cloned?) ==>
        projectPath == old(projectPath) && cleanup == old(cleanup)
      ensures io.createErr.None? && !LoadStage(io.load).Loaded? ==>
        compose == old(compose) && komposeObject == old(komposeObject)
      ensures io.createErr.None? && !(LoadStage(io.load).ProjectInvalid? && io.saveErr.None?) ==>
        degradedReason == ""
      ensures io.createErr.None? ==> match LoadStage(io.load)
        case LoadFailed(e) =>
          && prepared == old(prepared)
          && r == Err(FailResult(Some(Wrapped(LoadingComposeObject, e)), io.failErr).value)
          && status == (if io.failErr.None? then Degraded else Pending)
        case MarkerAbsent(statError) =>
          && (statError.Some? ==>
                && prepared == old(prepared)
                && r == Err(FailResult(Some(Wrapped(LoadingComposeObject, statError.value)), io.failErr).value)
                && status == (if io.failErr.None? then Degraded else Pending))
          && (statError.None? ==>
                && prepared && r == Ok(PrepareResult(true, None))
                && status == (if io.deleteErr.None? then Deleted else Pending))
        case ProjectInvalid(reason) =>
          && prepared
          && (io.saveErr.None? ==>
                r == Ok(PrepareResult(false, Some(reason))) && status == Degraded && degradedReason == reason)
          && (io.saveErr.Some? ==>
                r == Err(Wrapped(SavingDegradedReason, io.saveErr.value)) && status == Pending)
        case Loaded(path, raw, svcs) =>
          && compose.Some? && komposeObject.Some? && composePath == path
          && (AllRender(svcs, providers.toMap(compose.value), providers.render) ==>
                && prepared && r == Ok(PrepareResult(false, None)) && status == Pending
                && ProjectLoaded(cfg, id, providers, io.load.clone.dir, namespace, raw, svcs, io.load.newId,
                                 compose.value, komposeObject.value, None))
          && (!AllRender(svcs, providers.toMap(compose.value), providers.render) ==>
                && prepared == old(prepared) && r.Err?
                && (exists e ::
                      && ProjectLoaded(cfg, id, providers, io.load.clone.dir, namespace, raw, svcs, io.load.newId,
                                       compose.value, komposeObject.value, Some(e))
                      && r.error == FailResult(Some(Wrapped(LoadingComposeObject,
                                                            Wrapped(FixingComposeObject, e))), io.failErr).value)
                && status == (if io.failErr.None? then Degraded else Pending))
      ensures savedServices == old(savedServices) && removed == old(removed)
    {
      if io.createErr.Some? {
        return Err(Wrapped(CreatingEnvironment, io.createErr.value));
      }
      status := Pending;
      degradedReason := "";
      var skip, invalid, err := LoadComposeObject(namespace, io.load);
      if err.Some? {
        var e := Fail(Some(Wrapped(LoadingComposeObject, err.value)), io.failErr);
        return Err(e.value);
      }
      prepared := true;
      if skip && io.deleteErr.None? {
        status := Deleted;
      }
      if invalid.Some? {
        if io.saveErr.Some? {
          return Err(Wrapped(SavingDegradedReason, io.saveErr.value));
        }
        status := Degraded;
        degradedReason := invalid.value;
        return Ok(PrepareResult(false, invalid));
      }
      return Ok(PrepareResult(skip, None));
    }

    /**
      `saveServices`: one row per summary entry; an empty summary writes
      nothing, otherwise the rows are written at once or not at all.
     */
    method SaveServices(envId: string, c: Compose, createErr: Option<Error>) returns (err: Option<Error>)
      modifies this
      ensures |c.services| == 0 ==> err.None? && savedServices == old(savedServices)
      ensures |c.services| > 0 ==> err == createErr
      ensures err.Some? ==> savedServices == old(savedServices)
      ensures err.None? ==> RowsSaved(old(savedServices), savedServices, envId, c)
      ensures prepared == old(prepared) && status == old(status) && degradedReason == old(degradedReason)
      ensures komposeObject == old(komposeObject) && compose == old(compose) && cleanup == old(cleanup)
      ensures projectPath == old(projectPath) && composePath == old(composePath) && removed == old(removed)
    {
      var rows := CollectRows(envId, c);
      if |rows| == 0 {
        return None;
      }
      if createErr.Some? {
        return createErr;
      }
      savedServices := savedServices + rows;
      assert savedServices[|old(savedServices)|..] == rows;
      return None;
    }

    /**
      `transformCompose` followed by the assembly of the result: kompose's
      conversion, then `fixOutput` on the converted objects in place; the
      objects and the extra objects make up the cluster environment.
     */
    method TransformCompose(namespace: string, c: Compose, convert: Result<seq<K8sObject>>)
      returns (r: Result<seq<K8sObject>>)
      ensures convert.Err? ==> r == Err(Wrapped(TransformingCompose, convert.error))
      ensures convert.Ok? ==> match AllFixed(convert.value, namespace, EnrichContext(c))
        case Ok(fixedAndExtra) => r == Ok(fixedAndExtra.0 + fixedAndExtra.1)
        case Err(e) => r == Err(Wrapped(FixingOutput, e))
    {
      if convert.Err? {
        return Err(Wrapped(TransformingCompose, convert.error));
      }
      var objs := new K8sObject[|convert.value|](i requires 0 <= i < |convert.value| => convert.value[i]);
      assert objs[..] == convert.value;
      var extra, err := FixOutput(objs, namespace, EnrichContext(c));
      if err.Some? {
        return Err(Wrapped(FixingOutput, err.value));
      }
      return Ok(objs[..] + extra);
    }

    /**
      `Transform`: refused before `Prepare`; otherwise save the service rows,
      build the images (a failed build degrades the environment and returns
      the failed jobs), convert and fix the objects, and mark the environment
      successful. Every failure goes through `fail`. After a skipped or
      invalid `Prepare` there is no summary and the source dereferences nil.
     */
    method Transform(namespace: string, io: TransformIO) returns (res: Option<TransformResult>, err: Option<Error>)
      modifies this
      ensures !old(prepared) ==>
        && res.None? && err == Some(Message("called Transform before calling Prepare"))
        && status == old(status) && savedServices == old(savedServices)
      ensures old(prepared) && old(compose).None? ==>
        res.None? && err.Some? && err.value.Panic? && status == old(status)
      ensures old(prepared) && old(compose).Some? && |old(compose).value.services| > 0 && io.createServicesErr.Some? ==>
        && res.None?
        && err == FailResult(Some(Wrapped(SavingServices, io.createServicesErr.value)), io.failErr)
        && status == (if io.failErr.None? then Degraded else old(status))
      ensures !(old(prepared) && old(compose).Some? && (|old(compose).value.services| == 0 || io.createServicesErr.None?)) ==>
        savedServices == old(savedServices)
      ensures old(prepared) && old(compose).Some? && (|old(compose).value.services| == 0 || io.createServicesErr.None?) ==>
        RowsSaved(old(savedServices), savedServices, namespace, old(compose).value)
      ensures old(prepared) && old(compose).Some? && err.None? ==> res.Some?
      ensures old(prepared) && old(compose).Some? && (|old(compose).value.services| == 0 || io.createServicesErr.None?) ==>
        match io.build
        case BuildFailed(e) =>
          && res.None?
          && err == FailResult(Some(Wrapped(BuildingImages, e)), io.failErr)
          && status == (if io.failErr.None? then Degraded else old(status))
        case Built(jobs) =>
          && (|jobs| > 0 ==>
                && res == Some(TransformResult(None, None, jobs)) && res.value.Failed()
                && err == FailResult(None, io.failErr)
                && status == (if io.failErr.None? then Degraded else old(status)))
          && (|jobs| == 0 && old(komposeObject).None? ==>
                res.None? && err.Some? && err.value.Panic? && status == old(status))
          && (|jobs| == 0 && old(komposeObject).Some? && providers.convert(old(komposeObject).value).Err? ==>
                && res.None?
                && err == FailResult(Some(Wrapped(TransformingCompose,
                                                  Wrapped(TransformingCompose,
                                                          providers.convert(old(komposeObject).value).error))), io.failErr)
                && status == (if io.failErr.None? then Degraded else old(status)))
          && (|jobs| == 0 && old(komposeObject).Some? && providers.convert(old(komposeObject).value).Ok? ==>
                match AllFixed(providers.convert(old(komposeObject).value).value, namespace,
                               EnrichContext(old(compose).value))
                case Err(e) =>
                  && res.None?
                  && err == FailResult(Some(Wrapped(TransformingCompose,
                                                    Wrapped(FixingOutput, e))), io.failErr)
                  && status == (if io.failErr.None? then Degraded else old(status))
                case Ok(fixedAndExtra) =>
                  && res == Some(TransformResult(Some(ClusterEnv(namespace, fixedAndExtra.0 + fixedAndExtra.1)), old(compose), []))
                  && !res.value.Failed()
                  && err == Wrap(io.successErr, MarkingSuccess)
                  && status == (if io.successErr.None? then Success else old(status)))
      ensures prepared == old(prepared) && degradedReason == old(degradedReason)
      ensures komposeObject == old(komposeObject) && compose == old(compose) && cleanup == old(cleanup)
      ensures removed == old(removed) && projectPath == old(projectPath) && composePath == old(composePath)
    {
      if !prepared {
        return None, Some(Message("called Transform before calling Prepare"));
      }
      if compose.None? {
        return None, Some(Panic("nil pointer dereference"));
      }
      var summary := compose.value;
      var saveErr := SaveServices(namespace, summary, io.createServicesErr);
      if saveErr.Some? {
        err := Fail(Some(Wrapped(SavingServices, saveErr.value)), io.failErr);
        return None, err;
      }
      match io.build {
        case BuildFailed(e) =>
          err := Fail(Some(Wrapped(BuildingImages, e)), io.failErr);
          return None, err;
        case Built(jobs) =>
          if |jobs| > 0 {
            res := Some(TransformResult(None, None, jobs));
            err := Fail(None, io.failErr);
            return;
          }
      }
      if komposeObject.None? {
        return None, Some(Panic("nil pointer dereference"));
      }
      var objects := TransformCompose(namespace, summary, providers.convert(komposeObject.value));
      if objects.Err? {
        err := Fail(Some(Wrapped(TransformingCompose, objects.error)), io.failErr);
        return None, err;
      }
      res := Some(TransformResult(Some(ClusterEnv(namespace, objects.value)), compose, []));
      if io.successErr.None? {
        status := Success;
      }
      err := Wrap(io.successErr, MarkingSuccess);
    }

    /** `Cleanup`: remove the checkout, if there is one. */
    method Cleanup()
      modifies this
      ensures cleanup.Some? ==> removed == old(removed) + [cleanup.value]
      ensures cleanup.None? ==> removed == old(removed)
      ensures cleanup == old(cleanup) && prepared == old(prepared) && status == old(status)
      ensures degradedReason == old(degradedReason) && projectPath == old(projectPath) && composePath == old(composePath)
      ensures savedServices == old(savedServices) && compose == old(compose) && komposeObject == old(komposeObject)
    {
      if cleanup.Some? {
        removed := removed + [cleanup.value];
      }
    }
  }
}
