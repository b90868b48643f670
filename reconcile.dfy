/** The BOSHDeployment reconcile pipeline (ReconcileBOSHDeployment.Reconcile)
    as a state machine over oracle collaborators. Every write the reconciler
    issues to the API server is recorded, in order, in a trace; a write whose
    call fails is still recorded, since the request was made. */
module Reconciler {
  import opened Wrappers
  import opened BoshManifest
  import opened LinkResolver

  /** Label on the manifest-with-ops secret naming its secret type. */
  const LabelDeploymentSecretType: string := "quarks.cloudfoundry.org/secret-type"
  /** names.DeploymentSecretTypeManifestWithOps.String() */
  const DeploymentSecretTypeManifestWithOps: string := "with-ops"
  /** The key under which the manifest-with-ops secret stores the manifest. */
  const ManifestKey: string := "manifest.yaml"

  /** The parts of a BOSHDeployment the reconciler reads or writes;
      `lastReconcile` is Status.LastReconcile (nil is None), as a time value. */
  datatype Deployment = Deployment(name: string, namespace: string, generation: int, lastReconcile: Option<int>)

  /** The outcome of client.Get for the requested deployment. */
  datatype GetResult = Found(deployment: Deployment) | NotFound | GetFailed(cause: string)

  /** A QuarksSecret produced by the variables converter; `generated` is Status.Generated. */
  datatype QuarksSecret = QuarksSecret(name: string, secretType: string, generated: bool)

  /** A QuarksJob produced by the job factory. */
  datatype QuarksJob = QuarksJob(name: string, spec: string)

  /** The objects the reconciler writes. */
  datatype Object =
    | DeploymentObj(deployment: Deployment)
    | SecretObj(name: string, namespace: string, labels: map<string, string>, data: map<string, string>)
    | QuarksSecretObj(secret: QuarksSecret)
    | QuarksJobObj(job: QuarksJob)

  /** controllerutil.OperationResult: none ("unchanged"), created or updated. */
  datatype OperationResult = Unchanged | Created | Updated

  /** One write to the API server: CreateOrUpdate of `obj` carrying an owner
      reference to `owner`, or Status().Update of `obj`. */
  datatype Mutation = Apply(obj: Object, owner: Object) | UpdateStatus(obj: Object)

  /** The cluster-facing collaborators: setReference (the owner-reference
      setter), controllerutil.CreateOrUpdate and client.Status().Update. */
  datatype Store = Store(
    setReference: (Object, Object) -> Result<(), string>,
    createOrUpdate: (Object, Object) -> Result<OperationResult, string>,
    updateStatus: Object -> Result<(), string>)

  /** Everything the reconciler consults. `inMeltdown` says whether the
      meltdown window starting at the given last-reconcile time contains the
      current time; `missingProviders` is manifest.ListMissingProviders;
      `marshal` is manifest.Marshal; `withOpsSecretName` is
      names.DeploymentSecretName for the with-ops secret type; `convert` is
      VariablesConverter.Variables; the two job builders are the JobFactory;
      `now` is the time stamped on the status. */
  datatype Env = Env(
    get: GetResult,
    inMeltdown: Option<int> -> bool,
    meltdownRequeueAfter: nat,
    withOps: Deployment -> Result<ManifestData, string>,
    missingProviders: ManifestData -> set<string>,
    view: ClusterView,
    marshal: ManifestData -> Result<string, string>,
    withOpsSecretName: string -> string,
    convert: (string, seq<Variable>) -> Result<seq<QuarksSecret>, string>,
    interpolationJob: (string, ManifestData) -> Result<QuarksJob, string>,
    instanceGroupJob: (string, ManifestData, seq<LinkInfo>, bool) -> Result<QuarksJob, string>,
    store: Store,
    now: int)

  /** reconcile.Result */
  datatype ReconcileResult = ReconcileResult(requeue: bool, requeueAfter: nat)

  /** reconcile.Result{} */
  const Done: ReconcileResult := ReconcileResult(false, 0)

  datatype ManifestSecretError = MarshalFailed(cause: string) | SecretRefFailed(cause: string) | SecretApplyFailed(cause: string)
  datatype SecretsFailure = OwnershipFailed(secret: string, cause: string) | QuarksSecretApplyFailed(secret: string, cause: string) | GeneratedResetFailed(cause: string)
  datatype JobFailure = JobRefFailed(cause: string) | JobApplyFailed(cause: string)

  /** The error Reconcile returns, one case per early exit. */
  datatype Failure =
    | GetDeploymentFailed(cause: string)
    | ResolveManifestFailed(cause: string)
    | ListLinksFailed
    | ManifestSecretFailed(secretError: ManifestSecretError)
    | ConvertVariablesFailed(cause: string)
    | QuarksSecretsFailed(secretsFailure: SecretsFailure)
    | BuildInterpolationJobFailed(cause: string)
    | ApplyInterpolationJobFailed(jobFailure: JobFailure)
    | BuildInstanceGroupJobFailed(cause: string)
    | ApplyInstanceGroupJobFailed(jobFailure: JobFailure)

  /** What one Reconcile call returns, with the writes it issued. */
  datatype Outcome = Outcome(result: ReconcileResult, err: Option<Failure>, trace: seq<Mutation>)

  function Fail(f: Failure, trace: seq<Mutation>): Outcome
  {
    Outcome(Done, Some(f), trace)
  }

  // ---------------------------------------------------------------------------
  // createManifestWithOps and createQuarksJob
  // ---------------------------------------------------------------------------

  /** The manifest-with-ops secret for deployment `inst` holding `bytes`. */
  function ManifestSecretObject(env: Env, inst: Deployment, bytes: string): (r: Object)
    ensures r.SecretObj? && r.name == env.withOpsSecretName(inst.name) && r.namespace == inst.namespace
    ensures r.labels.Keys == {LabelDeploymentName, LabelDeploymentSecretType}
    ensures r.labels[LabelDeploymentName] == inst.name && r.labels[LabelDeploymentSecretType] == DeploymentSecretTypeManifestWithOps
    ensures r.data.Keys == {ManifestKey} && r.data[ManifestKey] == bytes
  {
    SecretObj(env.withOpsSecretName(inst.name), inst.namespace,
      map[LabelDeploymentName := inst.name, LabelDeploymentSecretType := DeploymentSecretTypeManifestWithOps],
      map[ManifestKey := bytes])
  }

  datatype SecretStep = SecretStep(result: Result<Object, ManifestSecretError>, trace: seq<Mutation>)

  /** createManifestWithOps: marshal the manifest, make the deployment own the
      secret, apply it. */
  function ManifestWithOps(env: Env, inst: Deployment, m: ManifestData): (r: SecretStep)
    ensures r.result.Ok? <==>
      (env.marshal(m).Ok? &&
       env.store.setReference(DeploymentObj(inst), ManifestSecretObject(env, inst, env.marshal(m).value)).Ok? &&
       env.store.createOrUpdate(ManifestSecretObject(env, inst, env.marshal(m).value), DeploymentObj(inst)).Ok?)
    ensures r.result.Ok? ==> r.result.value == ManifestSecretObject(env, inst, env.marshal(m).value)
    ensures r.result.Ok? ==> r.result.value.labels[LabelDeploymentName] == inst.name && r.result.value.data[ManifestKey] == env.marshal(m).value
    ensures |r.trace| <= 1
    ensures forall e :: e in r.trace ==> env.marshal(m).Ok? && e == Apply(ManifestSecretObject(env, inst, env.marshal(m).value), DeploymentObj(inst))
  {
    match env.marshal(m)
    case Err(c) => SecretStep(Err(MarshalFailed(c)), [])
    case Ok(bytes) =>
      var secret := ManifestSecretObject(env, inst, bytes);
      var owner := DeploymentObj(inst);
      match env.store.setReference(owner, secret)
      case Err(c) => SecretStep(Err(SecretRefFailed(c)), [])
      case Ok(_) =>
        match env.store.createOrUpdate(secret, owner)
        case Err(c) => SecretStep(Err(SecretApplyFailed(c)), [Apply(secret, owner)])
        case Ok(_) => SecretStep(Ok(secret), [Apply(secret, owner)])
  }

  datatype JobStep = JobStep(failure: Option<JobFailure>, trace: seq<Mutation>)

  /** createQuarksJob: make the deployment own the job, apply it. */
  function ApplyJob(store: Store, inst: Deployment, job: QuarksJob): (r: JobStep)
    ensures r.failure.None? <==>
      store.setReference(DeploymentObj(inst), QuarksJobObj(job)).Ok? && store.createOrUpdate(QuarksJobObj(job), DeploymentObj(inst)).Ok?
    ensures r.trace == [] <==> store.setReference(DeploymentObj(inst), QuarksJobObj(job)).Err?
    ensures r.trace != [] ==> r.trace == [Apply(QuarksJobObj(job), DeploymentObj(inst))]
  {
    var obj := QuarksJobObj(job);
    var owner := DeploymentObj(inst);
    match store.setReference(owner, obj)
    case Err(c) => JobStep(Some(JobRefFailed(c)), [])
    case Ok(_) =>
      match store.createOrUpdate(obj, owner)
      case Err(c) => JobStep(Some(JobApplyFailed(c)), [Apply(obj, owner)])
      case Ok(_) => JobStep(None, [Apply(obj, owner)])
  }

  // ---------------------------------------------------------------------------
  // createQuarksSecrets
  // ---------------------------------------------------------------------------

  datatype Sync = Sync(failure: Option<SecretsFailure>, trace: seq<Mutation>)

  /** `s` preceded by the writes `t` made before it. */
  function After(t: seq<Mutation>, s: Sync): Sync
  {
    Sync(s.failure, t + s.trace)
  }

  /** One iteration of createQuarksSecrets for variable `v`. */
  function SyncSecret(store: Store, owner: Object, v: QuarksSecret): (r: Sync)
    ensures r.trace == [] <==> store.setReference(owner, QuarksSecretObj(v)).Err?
    ensures r.trace != [] ==> r.trace[0] == Apply(QuarksSecretObj(v), owner)
    ensures |r.trace| <= 2
    ensures r.failure.Some? && !r.failure.value.GeneratedResetFailed? ==> r.failure.value.secret == v.name
    ensures r.failure.None? <==>
      store.setReference(owner, QuarksSecretObj(v)).Ok? && store.createOrUpdate(QuarksSecretObj(v), owner).Ok? &&
      (store.createOrUpdate(QuarksSecretObj(v), owner).value == Updated ==> store.updateStatus(QuarksSecretObj(v.(generated := false))).Ok?)
  {
    var obj := QuarksSecretObj(v);
    match store.setReference(owner, obj)
    case Err(c) => Sync(Some(OwnershipFailed(v.name, c)), [])
    case Ok(_) =>
      match store.createOrUpdate(obj, owner)
      case Err(c) => Sync(Some(QuarksSecretApplyFailed(v.name, c)), [Apply(obj, owner)])
      case Ok(op) =>
        if op == Updated then
          var reset := QuarksSecretObj(v.(generated := false));
          match store.updateStatus(reset)
          case Err(c) => Sync(Some(GeneratedResetFailed(c)), [Apply(obj, owner), UpdateStatus(reset)])
          case Ok(_) => Sync(None, [Apply(obj, owner), UpdateStatus(reset)])
        else Sync(None, [Apply(obj, owner)])
  }

  /** createQuarksSecrets over `vs`, stopping at the first failing variable. */
  function SyncSecrets(store: Store, owner: Object, vs: seq<QuarksSecret>): (r: Sync)
    ensures |r.trace| <= 2 * |vs|
    ensures r.failure.None? ==> |r.trace| >= |vs|
    decreases |vs|
  {
    if vs == [] then Sync(None, [])
    else
      var s := SyncSecret(store, owner, vs[0]);
      if s.failure.Some? then s else After(s.trace, SyncSecrets(store, owner, vs[1..]))
  }

  /** One iteration of createQuarksSecrets: make the manifest-with-ops secret
      own `variable`, apply it, and when the apply reports Updated reset its
      Generated status to false and write it. */
  method CreateQuarksSecret(store: Store, owner: Object, variable: QuarksSecret)
    returns (failure: Option<SecretsFailure>, trace: seq<Mutation>)
    ensures Sync(failure, trace) == SyncSecret(store, owner, variable)
  {
    var obj := QuarksSecretObj(variable);
    var ref := store.setReference(owner, obj);
    if ref.Err? {
      return Some(OwnershipFailed(variable.name, ref.error)), [];
    }
    trace := [Apply(obj, owner)];
    var op := store.createOrUpdate(obj, owner);
    if op.Err? {
      return Some(QuarksSecretApplyFailed(variable.name, op.error)), trace;
    }
    if op.value == Updated {
      var reset := QuarksSecretObj(variable.(generated := false));
      trace := trace + [UpdateStatus(reset)];
      var status := store.updateStatus(reset);
      if status.Err? {
        return Some(GeneratedResetFailed(status.error)), trace;
      }
    }
    return None, trace;
  }

  /** createQuarksSecrets: every variable in order, until the first error. */
  method CreateQuarksSecrets(store: Store, owner: Object, variables: seq<QuarksSecret>)
    returns (failure: Option<SecretsFailure>, trace: seq<Mutation>)
    ensures Sync(failure, trace) == SyncSecrets(store, owner, variables)
  {
    trace := [];
    var i := 0;
    while i < |variables|
      invariant 0 <= i <= |variables|
      invariant SyncSecrets(store, owner, variables) == After(trace, SyncSecrets(store, owner, variables[i..]))
    {
      assert variables[i..][0] == variables[i] && variables[i..][1..] == variables[i + 1..];
      var f, written := CreateQuarksSecret(store, owner, variables[i]);
      trace := trace + written;
      if f.Some? {
        return f, trace;
      }
      i := i + 1;
    }
    return None, trace;
  }

  /** An apply of a QuarksSecret owned by `owner` that CreateOrUpdate reports as Updated. */
  predicate UpdatedApply(store: Store, owner: Object, e: Mutation)
  {
    e.Apply? && e.owner == owner && e.obj.QuarksSecretObj? && store.createOrUpdate(e.obj, owner) == Ok(Updated)
  }

  /** The status write that resets the Generated flag of the secret `e` applies. */
  function ResetOf(e: Mutation): Mutation
    requires e.obj.QuarksSecretObj?
  {
    UpdateStatus(QuarksSecretObj(e.obj.secret.(generated := false)))
  }

  /** In `t` every status write directly follows an Updated apply and resets
      that secret's Generated flag, and every Updated apply is followed by one. */
  predicate ResetsFollowUpdates(store: Store, owner: Object, t: seq<Mutation>)
  {
    (forall i :: 0 <= i < |t| && t[i].UpdateStatus? ==> 0 < i && UpdatedApply(store, owner, t[i - 1]) && t[i] == ResetOf(t[i - 1])) &&
    (forall i :: 0 <= i < |t| && UpdatedApply(store, owner, t[i]) ==> i + 1 < |t| && t[i + 1] == ResetOf(t[i]))
  }

  lemma ResetsCompose(store: Store, owner: Object, t1: seq<Mutation>, t2: seq<Mutation>)
    requires ResetsFollowUpdates(store, owner, t1) && ResetsFollowUpdates(store, owner, t2)
    ensures ResetsFollowUpdates(store, owner, t1 + t2)
  {
  }

  /** The Generated flag is reset, and written, exactly after an apply that
      CreateOrUpdate reports as Updated. */
  lemma {:induction false} ResetOnlyWhenUpdated(store: Store, owner: Object, vs: seq<QuarksSecret>)
    ensures ResetsFollowUpdates(store, owner, SyncSecrets(store, owner, vs).trace)
    decreases |vs|
  {
    if vs != [] {
      var s := SyncSecret(store, owner, vs[0]);
      assert ResetsFollowUpdates(store, owner, s.trace);
      if s.failure.None? {
        ResetOnlyWhenUpdated(store, owner, vs[1..]);
        ResetsCompose(store, owner, s.trace, SyncSecrets(store, owner, vs[1..]).trace);
      }
    }
  }

  /** Every write of createQuarksSecrets concerns a QuarksSecret, and every
      apply gives it the manifest secret as owner. */
  predicate SecretWrites(owner: Object, t: seq<Mutation>)
  {
    forall i :: 0 <= i < |t| ==> t[i].obj.QuarksSecretObj? && (t[i].Apply? ==> t[i].owner == owner)
  }

  lemma {:induction false} SyncWritesSecrets(store: Store, owner: Object, vs: seq<QuarksSecret>)
    ensures SecretWrites(owner, SyncSecrets(store, owner, vs).trace)
    decreases |vs|
  {
    if vs != [] {
      var s := SyncSecret(store, owner, vs[0]);
      if s.failure.None? {
        SyncWritesSecrets(store, owner, vs[1..]);
        var rest := SyncSecrets(store, owner, vs[1..]).trace;
        forall i | 0 <= i < |s.trace + rest|
          ensures (s.trace + rest)[i].obj.QuarksSecretObj? && ((s.trace + rest)[i].Apply? ==> (s.trace + rest)[i].owner == owner)
        {
          if i >= |s.trace| {
            assert (s.trace + rest)[i] == rest[i - |s.trace|];
          }
        }
      }
    }
  }

  /** The loop stops at the first failing variable `vs[k]`: the writes are
      those of the variables before it, all of which succeeded, followed by
      the writes made for `vs[k]`; the variables after it are not touched. */
  lemma {:induction false} SyncStopsAtFirstFailure(store: Store, owner: Object, vs: seq<QuarksSecret>)
    requires SyncSecrets(store, owner, vs).failure.Some?
    ensures exists k ::
      && 0 <= k < |vs|
      && SyncSecrets(store, owner, vs[..k]).failure.None?
      && SyncSecret(store, owner, vs[k]).failure == SyncSecrets(store, owner, vs).failure
      && SyncSecrets(store, owner, vs).trace == SyncSecrets(store, owner, vs[..k]).trace + SyncSecret(store, owner, vs[k]).trace
  {
    var k := FirstFailure(store, owner, vs);
  }

  /** The index of the first failing variable, with what it determines. */
  lemma {:induction false} FirstFailure(store: Store, owner: Object, vs: seq<QuarksSecret>) returns (k: nat)
    requires SyncSecrets(store, owner, vs).failure.Some?
    ensures k < |vs|
    ensures SyncSecrets(store, owner, vs[..k]).failure.None?
    ensures SyncSecret(store, owner, vs[k]).failure == SyncSecrets(store, owner, vs).failure
    ensures SyncSecrets(store, owner, vs).trace == SyncSecrets(store, owner, vs[..k]).trace + SyncSecret(store, owner, vs[k]).trace
    decreases |vs|
  {
    var s := SyncSecret(store, owner, vs[0]);
    if s.failure.Some? {
      k := 0;
      assert vs[..0] == [];
    } else {
      var rest := vs[1..];
      var k' := FirstFailure(store, owner, rest);
      k := k' + 1;
      assert vs[..k][0] == vs[0] && vs[..k][1..] == rest[..k'];
      assert rest[k'] == vs[k];
      assert SyncSecrets(store, owner, vs) == After(s.trace, SyncSecrets(store, owner, rest));
      assert SyncSecrets(store, owner, vs[..k]) == After(s.trace, SyncSecrets(store, owner, rest[..k']));
    }
  }

  /** When no variable fails, every variable was applied with the manifest
      secret as owner. */
  lemma {:induction false} SyncAppliesAll(store: Store, owner: Object, vs: seq<QuarksSecret>)
    requires SyncSecrets(store, owner, vs).failure.None?
    ensures forall j :: 0 <= j < |vs| ==> Apply(QuarksSecretObj(vs[j]), owner) in SyncSecrets(store, owner, vs).trace
    decreases |vs|
  {
    if vs != [] {
      var s := SyncSecret(store, owner, vs[0]);
      SyncAppliesAll(store, owner, vs[1..]);
      var t := SyncSecrets(store, owner, vs).trace;
      assert t == s.trace + SyncSecrets(store, owner, vs[1..]).trace;
      forall j | 0 <= j < |vs|
        ensures Apply(QuarksSecretObj(vs[j]), owner) in t
      {
        if j == 0 {
          assert s.trace[0] == Apply(QuarksSecretObj(vs[0]), owner);
        } else {
          assert vs[1..][j - 1] == vs[j];
        }
      }
    }
  }

  /** createQuarksSecrets does not consult deployment status writes. */
  lemma {:induction false} SyncIgnoresDeploymentStatus(store: Store, f: Object -> Result<(), string>, owner: Object, vs: seq<QuarksSecret>)
    requires forall o: Object :: !o.DeploymentObj? ==> f(o) == store.updateStatus(o)
    ensures SyncSecrets(store.(updateStatus := f), owner, vs) == SyncSecrets(store, owner, vs)
    decreases |vs|
  {
    if vs != [] {
      SyncIgnoresDeploymentStatus(store, f, owner, vs[1..]);
      assert SyncSecret(store.(updateStatus := f), owner, vs[0]) == SyncSecret(store, owner, vs[0]);
    }
  }

  // ---------------------------------------------------------------------------
  // Reconcile
  // ---------------------------------------------------------------------------

  /** The manifest after the link resolver injected the resolved links. */
  function WithLinks(m0: ManifestData, links: map<string, QuarksLink>): ManifestData
  {
    ManifestData(InjectLinks(m0.properties, links), m0.variables)
  }

  /** The status write that stamps the last reconcile time. */
  function Stamp(env: Env, inst: Deployment): Mutation
  {
    UpdateStatus(DeploymentObj(inst.(lastReconcile := Some(env.now))))
  }

  /** The job steps: the interpolation job, then the instance-group job built
      with initialRollout == (Generation == 1), then the status stamp. Every
      apply writes a QuarksJob owned by the deployment; the only status write
      is the stamp, issued last and only when both jobs were applied. */
  function DeployJobs(env: Env, inst: Deployment, m: ManifestData, infos: seq<LinkInfo>): (r: Outcome)
    ensures forall i :: 0 <= i < |r.trace| && r.trace[i].Apply? ==>
      r.trace[i].obj.QuarksJobObj? && r.trace[i].owner == DeploymentObj(inst)
    ensures forall i :: 0 <= i < |r.trace| && r.trace[i].UpdateStatus? ==>
      i == |r.trace| - 1 && r.err.None? && r.trace[i] == Stamp(env, inst)
    ensures r.err.None? <==> |r.trace| > 0 && r.trace[|r.trace| - 1] == Stamp(env, inst)
    ensures r.err.Some? && r.err.value.BuildInterpolationJobFailed? ==> r.trace == []
    ensures r.err.Some? && (r.err.value.ApplyInterpolationJobFailed? || r.err.value.BuildInstanceGroupJobFailed?) ==> |r.trace| <= 1
    ensures r.err.None? ==> r.result == Done
  {
    match env.interpolationJob(inst.name, m)
    case Err(c) => Fail(BuildInterpolationJobFailed(c), [])
    case Ok(job) =>
      var a := ApplyJob(env.store, inst, job);
      if a.failure.Some? then Fail(ApplyInterpolationJobFailed(a.failure.value), a.trace)
      else match env.instanceGroupJob(inst.name, m, infos, inst.generation == 1)
        case Err(c) => Fail(BuildInstanceGroupJobFailed(c), a.trace)
        case Ok(igJob) =>
          var b := ApplyJob(env.store, inst, igJob);
          if b.failure.Some? then Fail(ApplyInstanceGroupJobFailed(b.failure.value), a.trace + b.trace)
          else Outcome(Done, None, a.trace + b.trace + [Stamp(env, inst)])
  }

  /** The steps after link resolution: the with-ops secret, the variables,
      then the job steps. A failed status write still yields
      reconcile.Result{Requeue: false} and no error. */
  function Deploy(env: Env, inst: Deployment, m: ManifestData, infos: seq<LinkInfo>): (r: Outcome)
    ensures r.result == Done
    ensures r.err.None? ==> r.trace != []
  {
    var ms := ManifestWithOps(env, inst, m);
    match ms.result
    case Err(e) => Fail(ManifestSecretFailed(e), ms.trace)
    case Ok(secret) =>
      match env.convert(inst.name, m.variables)
      case Err(c) => Fail(ConvertVariablesFailed(c), ms.trace)
      case Ok(qss) =>
        var sync := SyncSecrets(env.store, secret, qss);
        if sync.failure.Some? then Fail(QuarksSecretsFailed(sync.failure.value), ms.trace + sync.trace)
        else
          var jobs := DeployJobs(env, inst, m, infos);
          Outcome(jobs.result, jobs.err, ms.trace + sync.trace + jobs.trace)
  }

  /** What one Reconcile call does: a deployment that is gone or in meltdown
      causes no write; otherwise the pipeline runs until its first failure. */
  function Expected(env: Env): (r: Outcome)
    ensures r.result != Done ==>
      env.get.Found? && env.inMeltdown(env.get.deployment.lastReconcile) &&
      r == Outcome(ReconcileResult(false, env.meltdownRequeueAfter), None, [])
    ensures r.trace != [] ==>
      env.get.Found? && !env.inMeltdown(env.get.deployment.lastReconcile) && env.withOps(env.get.deployment).Ok? &&
      LinkResult(env.get.deployment.name, env.get.deployment.namespace,
                 env.missingProviders(env.withOps(env.get.deployment).value), env.view).Some?
  {
    match env.get
    case NotFound => Outcome(Done, None, [])
    case GetFailed(c) => Fail(GetDeploymentFailed(c), [])
    case Found(inst) =>
      if env.inMeltdown(inst.lastReconcile) then Outcome(ReconcileResult(false, env.meltdownRequeueAfter), None, [])
      else match env.withOps(inst)
        case Err(c) => Fail(ResolveManifestFailed(c), [])
        case Ok(m0) =>
          match LinkResult(inst.name, inst.namespace, env.missingProviders(m0), env.view)
          case None => Fail(ListLinksFailed, [])
          case Some(ls) => Deploy(env, inst, WithLinks(m0, ls.links), ls.infos)
  }

  /** ReconcileBOSHDeployment.Reconcile. */
  method Reconcile(env: Env) returns (res: Outcome)
    ensures res == Expected(env)
    ensures env.get.NotFound? ==> res == Outcome(Done, None, [])
    ensures env.get.Found? && env.inMeltdown(env.get.deployment.lastReconcile) ==>
      res == Outcome(ReconcileResult(false, env.meltdownRequeueAfter), None, [])
  {
    if env.get.NotFound? {
      return Outcome(Done, None, []);
    }
    if env.get.GetFailed? {
      return Fail(GetDeploymentFailed(env.get.cause), []);
    }
    var instance := env.get.deployment;
    if env.inMeltdown(instance.lastReconcile) {
      return Outcome(ReconcileResult(false, env.meltdownRequeueAfter), None, []);
    }

    var resolved := env.withOps(instance);
    if resolved.Err? {
      return Fail(ResolveManifestFailed(resolved.error), []);
    }
    var manifest := new Manifest(resolved.value);
    var linkInfos := ListLinkInfos(instance.name, instance.namespace, env.missingProviders(resolved.value), env.view, manifest);
    if linkInfos.Err? {
      return Fail(ListLinksFailed, []);
    }
    var m := manifest.Data();
    ghost var ls := LinkResult(instance.name, instance.namespace, env.missingProviders(resolved.value), env.view).value;
    assert m == WithLinks(resolved.value, ls.links);
    assert Expected(env) == Deploy(env, instance, m, linkInfos.value);
    res := RunDeploy(env, instance, m, linkInfos.value);
  }

  /** The steps of Reconcile after link resolution, on the injected manifest. */
  method RunDeploy(env: Env, instance: Deployment, m: ManifestData, infos: seq<LinkInfo>) returns (res: Outcome)
    ensures res == Deploy(env, instance, m, infos)
  {
    var withOps := ManifestWithOps(env, instance, m);
    var trace := withOps.trace;
    if withOps.result.Err? {
      return Fail(ManifestSecretFailed(withOps.result.error), trace);
    }
    var manifestSecret := withOps.result.value;

    var secrets := env.convert(instance.name, m.variables);
    if secrets.Err? {
      return Fail(ConvertVariablesFailed(secrets.error), trace);
    }
    ghost var sync := SyncSecrets(env.store, manifestSecret, secrets.value);
    if |secrets.value| > 0 {
      var failure, written := CreateQuarksSecrets(env.store, manifestSecret, secrets.value);
      trace := trace + written;
      if failure.Some? {
        return Fail(QuarksSecretsFailed(failure.value), trace);
      }
    } else {
      assert sync == Sync(None, []);
    }
    ghost var jobs := DeployJobs(env, instance, m, infos);
    assert trace == withOps.trace + sync.trace;
    assert Deploy(env, instance, m, infos) == Outcome(jobs.result, jobs.err, trace + jobs.trace);

    var qJob := env.interpolationJob(instance.name, m);
    if qJob.Err? {
      return Fail(BuildInterpolationJobFailed(qJob.error), trace);
    }
    var applied := ApplyJob(env.store, instance, qJob.value);
    trace := trace + applied.trace;
    if applied.failure.Some? {
      return Fail(ApplyInterpolationJobFailed(applied.failure.value), trace);
    }

    qJob := env.instanceGroupJob(instance.name, m, infos, instance.generation == 1);
    if qJob.Err? {
      return Fail(BuildInstanceGroupJobFailed(qJob.error), trace);
    }
    applied := ApplyJob(env.store, instance, qJob.value);
    trace := trace + applied.trace;
    if applied.failure.Some? {
      return Fail(ApplyInstanceGroupJobFailed(applied.failure.value), trace);
    }

    var stamped := instance.(lastReconcile := Some(env.now));
    trace := trace + [UpdateStatus(DeploymentObj(stamped))];
    var status := env.store.updateStatus(DeploymentObj(stamped));
    if status.Err? {
      return Outcome(ReconcileResult(false, 0), None, trace);
    }
    return Outcome(Done, None, trace);
  }

  // ---------------------------------------------------------------------------
  // Properties of the pipeline
  // ---------------------------------------------------------------------------

  /** A failure to fetch the deployment, resolve its manifest or resolve its
      links happens before anything is written; in particular no manifest
      secret is written when links fail. */
  lemma EarlyFailuresWriteNothing(env: Env)
    ensures Expected(env).err.Some? &&
      (Expected(env).err.value.GetDeploymentFailed? || Expected(env).err.value.ResolveManifestFailed? || Expected(env).err.value.ListLinksFailed?)
      ==> Expected(env).trace == []
  {
  }

  /** Indexing into a trace made of three consecutive parts. */
  lemma Segments(t1: seq<Mutation>, t2: seq<Mutation>, t3: seq<Mutation>, i: int)
    requires 0 <= i < |t1| + |t2| + |t3|
    ensures i < |t1| ==> (t1 + t2 + t3)[i] == t1[i]
    ensures |t1| <= i < |t1| + |t2| ==> (t1 + t2 + t3)[i] == t2[i - |t1|]
    ensures |t1| + |t2| <= i ==> (t1 + t2 + t3)[i] == t3[i - |t1| - |t2|]
  {
  }

  /** A deployment whose manifest consumes `nats-provider` while its
      namespace holds no secret and no service of the deployment: Reconcile
      fails at link resolution and writes nothing. */
  lemma UnprovidedNatsConsumerFails(env: Env)
    requires env.get.Found? && !env.inMeltdown(env.get.deployment.lastReconcile)
    requires env.withOps(env.get.deployment).Ok?
    requires env.missingProviders(env.withOps(env.get.deployment).value) == {"nats-provider"}
    requires env.view.secrets.Ok? && env.view.services.Ok?
    requires forall i :: 0 <= i < |env.view.secrets.value| ==> !OwnedBy(env.view.secrets.value[i].annotations, env.get.deployment.name)
    requires forall i :: 0 <= i < |env.view.services.value| ==> !OwnedBy(env.view.services.value[i].annotations, env.get.deployment.name)
    ensures Expected(env) == Fail(ListLinksFailed, [])
  {
    var inst := env.get.deployment;
    UnprovidedNatsConsumer(inst.name, inst.namespace, env.view, MissingProviders(["nats-provider"]));
  }

  /** The job steps, when they succeed: the interpolation job, then the
      instance-group job built with the link infos and initialRollout ==
      (Generation == 1), both owned by the deployment, then the stamp. */
  lemma DeployJobsOrder(env: Env, inst: Deployment, m: ManifestData, infos: seq<LinkInfo>)
    requires DeployJobs(env, inst, m, infos).err.None?
    ensures env.interpolationJob(inst.name, m).Ok? && env.instanceGroupJob(inst.name, m, infos, inst.generation == 1).Ok?
    ensures DeployJobs(env, inst, m, infos).trace ==
      [Apply(QuarksJobObj(env.interpolationJob(inst.name, m).value), DeploymentObj(inst)),
       Apply(QuarksJobObj(env.instanceGroupJob(inst.name, m, infos, inst.generation == 1).value), DeploymentObj(inst)),
       Stamp(env, inst)]
  {
  }

  /** The steps after link resolution, when they succeed: the manifest
      secret holding `m`, the writes for the variables converted from `m`,
      then the job steps. */
  lemma DeploySucceeds(env: Env, inst: Deployment, m: ManifestData, infos: seq<LinkInfo>)
    requires Deploy(env, inst, m, infos).err.None?
    ensures env.marshal(m).Ok? && env.convert(inst.name, m.variables).Ok?
    ensures var secret := ManifestSecretObject(env, inst, env.marshal(m).value);
      Deploy(env, inst, m, infos).trace ==
        [Apply(secret, DeploymentObj(inst))] +
        SyncSecrets(env.store, secret, env.convert(inst.name, m.variables).value).trace +
        DeployJobs(env, inst, m, infos).trace
    ensures DeployJobs(env, inst, m, infos).err.None?
  {
  }

  /** A successful reconcile writes the manifest secret holding the manifest
      with the resolved links injected, then the QuarksSecret writes for its
      variables, then the interpolation job and the instance-group job built
      from that manifest and the link infos with initialRollout ==
      (Generation == 1), and ends with the status stamp. */
  lemma SuccessfulRun(env: Env)
    requires env.get.Found? && !env.inMeltdown(env.get.deployment.lastReconcile) && Expected(env).err.None?
    ensures var inst := env.get.deployment;
      env.withOps(inst).Ok? &&
      LinkResult(inst.name, inst.namespace, env.missingProviders(env.withOps(inst).value), env.view).Some? &&
      var ls := LinkResult(inst.name, inst.namespace, env.missingProviders(env.withOps(inst).value), env.view).value;
      var m := WithLinks(env.withOps(inst).value, ls.links);
      env.marshal(m).Ok? && env.convert(inst.name, m.variables).Ok? &&
      env.interpolationJob(inst.name, m).Ok? && env.instanceGroupJob(inst.name, m, ls.infos, inst.generation == 1).Ok? &&
      var secret := ManifestSecretObject(env, inst, env.marshal(m).value);
      Expected(env).trace ==
        [Apply(secret, DeploymentObj(inst))] +
        SyncSecrets(env.store, secret, env.convert(inst.name, m.variables).value).trace +
        [Apply(QuarksJobObj(env.interpolationJob(inst.name, m).value), DeploymentObj(inst)),
         Apply(QuarksJobObj(env.instanceGroupJob(inst.name, m, ls.infos, inst.generation == 1).value), DeploymentObj(inst)),
         Stamp(env, inst)]
  {
    var inst := env.get.deployment;
    var m0 := env.withOps(inst).value;
    var ls := LinkResult(inst.name, inst.namespace, env.missingProviders(m0), env.view).value;
    var m := WithLinks(m0, ls.links);
    assert Expected(env) == Deploy(env, inst, m, ls.infos);
    DeploySucceeds(env, inst, m, ls.infos);
    DeployJobsOrder(env, inst, m, ls.infos);
  }

  /** The three parts of the writes after link resolution: the manifest
      secret, the QuarksSecrets, then the job steps unless a variable failed. */
  lemma DeployParts(env: Env, inst: Deployment, m: ManifestData, infos: seq<LinkInfo>)
    requires ManifestWithOps(env, inst, m).result.Ok? && env.convert(inst.name, m.variables).Ok?
    ensures var ms := ManifestWithOps(env, inst, m);
      var sync := SyncSecrets(env.store, ms.result.value, env.convert(inst.name, m.variables).value);
      && SecretWrites(ms.result.value, sync.trace)
      && Deploy(env, inst, m, infos).trace == ms.trace + sync.trace + (if sync.failure.Some? then [] else DeployJobs(env, inst, m, infos).trace)
  {
    var ms := ManifestWithOps(env, inst, m);
    SyncWritesSecrets(env.store, ms.result.value, env.convert(inst.name, m.variables).value);
  }

  /** Stamp and success after link resolution, on the manifest `m`. */
  lemma DeployStamps(env: Env, inst: Deployment, m: ManifestData, infos: seq<LinkInfo>)
    ensures var o := Deploy(env, inst, m, infos);
      forall i :: 0 <= i < |o.trace| && o.trace[i].obj.DeploymentObj? ==>
        i == |o.trace| - 1 && o.err.None? && o.trace[i] == Stamp(env, inst)
    ensures var o := Deploy(env, inst, m, infos);
      o.err.None? ==> |o.trace| > 0 && o.trace[|o.trace| - 1] == Stamp(env, inst)
  {
    var o := Deploy(env, inst, m, infos);
    var ms := ManifestWithOps(env, inst, m);
    if ms.result.Ok? && env.convert(inst.name, m.variables).Ok? {
      var sync := SyncSecrets(env.store, ms.result.value, env.convert(inst.name, m.variables).value);
      DeployParts(env, inst, m, infos);
      var t3 := if sync.failure.Some? then [] else DeployJobs(env, inst, m, infos).trace;
      forall i | 0 <= i < |o.trace| && o.trace[i].obj.DeploymentObj?
        ensures i == |o.trace| - 1 && o.err.None? && o.trace[i] == Stamp(env, inst)
      {
        Segments(ms.trace, sync.trace, t3, i);
      }
    }
  }

  /** The status stamp is written exactly when every step succeeded, as the
      last write, and it is the only write on the deployment. */
  lemma StampIffSuccess(env: Env)
    ensures forall i :: 0 <= i < |Expected(env).trace| && Expected(env).trace[i].obj.DeploymentObj? ==>
      i == |Expected(env).trace| - 1 && Expected(env).err.None? && env.get.Found? &&
      Expected(env).trace[i] == Stamp(env, env.get.deployment)
    ensures Expected(env).err.None? && env.get.Found? && !env.inMeltdown(env.get.deployment.lastReconcile) ==>
      |Expected(env).trace| > 0 && Expected(env).trace[|Expected(env).trace| - 1] == Stamp(env, env.get.deployment)
  {
    if env.get.Found? {
      var inst := env.get.deployment;
      if !env.inMeltdown(inst.lastReconcile) && env.withOps(inst).Ok? {
        var m0 := env.withOps(inst).value;
        var lr := LinkResult(inst.name, inst.namespace, env.missingProviders(m0), env.view);
        if lr.Some? {
          DeployStamps(env, inst, WithLinks(m0, lr.value.links), lr.value.infos);
        }
      }
    }
  }

  /** Once a step after link resolution fails, no later step writes. */
  lemma DeployAborts(env: Env, inst: Deployment, m: ManifestData, infos: seq<LinkInfo>)
    ensures var o := Deploy(env, inst, m, infos);
      o.err.Some? && (o.err.value.ManifestSecretFailed? || o.err.value.ConvertVariablesFailed? ||
                      o.err.value.QuarksSecretsFailed? || o.err.value.BuildInterpolationJobFailed?) ==>
      forall i :: 0 <= i < |o.trace| ==> !o.trace[i].obj.QuarksJobObj?
    ensures var o := Deploy(env, inst, m, infos);
      o.err.Some? && o.err.value.ManifestSecretFailed? ==> |o.trace| <= 1 && forall i :: 0 <= i < |o.trace| ==> o.trace[i].obj.SecretObj?
    ensures var o := Deploy(env, inst, m, infos);
      o.err.Some? && o.err.value.ConvertVariablesFailed? ==> |o.trace| == 1 && o.trace[0].obj.SecretObj?
    ensures var o := Deploy(env, inst, m, infos);
      o.err.Some? && (o.err.value.ApplyInterpolationJobFailed? || o.err.value.BuildInstanceGroupJobFailed?) ==>
      forall i :: 0 <= i < |o.trace| && o.trace[i].obj.QuarksJobObj? ==> i == |o.trace| - 1
  {
    var o := Deploy(env, inst, m, infos);
    var ms := ManifestWithOps(env, inst, m);
    if ms.result.Ok? && env.convert(inst.name, m.variables).Ok? {
      var sync := SyncSecrets(env.store, ms.result.value, env.convert(inst.name, m.variables).value);
      DeployParts(env, inst, m, infos);
      var t3 := if sync.failure.Some? then [] else DeployJobs(env, inst, m, infos).trace;
      forall i | 0 <= i < |o.trace|
        ensures i < |ms.trace| + |sync.trace| ==> !o.trace[i].obj.QuarksJobObj?
      {
        Segments(ms.trace, sync.trace, t3, i);
      }
    } else {
      forall i | 0 <= i < |o.trace|
        ensures o.trace[i].obj.SecretObj?
      {
        assert o.trace[i] in ms.trace;
      }
    }
  }

  /** Once a step fails no later step writes: before the jobs no job is
      written; a failure at the instance-group job leaves at most the
      interpolation job as the last write; a failure at the manifest secret
      leaves at most that secret, and a failure to convert the variables
      leaves exactly that secret. */
  lemma FailureAbortsLaterSteps(env: Env)
    requires env.get.Found?
    ensures var o := Expected(env);
      o.err.Some? && (o.err.value.ManifestSecretFailed? || o.err.value.ConvertVariablesFailed? ||
                      o.err.value.QuarksSecretsFailed? || o.err.value.BuildInterpolationJobFailed?) ==>
      forall i :: 0 <= i < |o.trace| ==> !o.trace[i].obj.QuarksJobObj?
    ensures var o := Expected(env);
      o.err.Some? && o.err.value.ManifestSecretFailed? ==> |o.trace| <= 1 && forall i :: 0 <= i < |o.trace| ==> o.trace[i].obj.SecretObj?
    ensures var o := Expected(env);
      o.err.Some? && o.err.value.ConvertVariablesFailed? ==> |o.trace| == 1 && o.trace[0].obj.SecretObj?
    ensures var o := Expected(env);
      o.err.Some? && (o.err.value.ApplyInterpolationJobFailed? || o.err.value.BuildInstanceGroupJobFailed?) ==>
      forall i :: 0 <= i < |o.trace| && o.trace[i].obj.QuarksJobObj? ==> i == |o.trace| - 1
  {
    var inst := env.get.deployment;
    if !env.inMeltdown(inst.lastReconcile) && env.withOps(inst).Ok? {
      var m0 := env.withOps(inst).value;
      var lr := LinkResult(inst.name, inst.namespace, env.missingProviders(m0), env.view);
      if lr.Some? {
        DeployAborts(env, inst, WithLinks(m0, lr.value.links), lr.value.infos);
      }
    }
  }

  /** Ownership after link resolution, on the manifest `m`. */
  lemma DeployOwnership(env: Env, inst: Deployment, m: ManifestData, infos: seq<LinkInfo>)
    ensures var o := Deploy(env, inst, m, infos); var owner := DeploymentObj(inst);
      forall i :: 0 <= i < |o.trace| && o.trace[i].Apply? ==>
        if o.trace[i].obj.QuarksSecretObj? then 0 < i && o.trace[0] == Apply(o.trace[i].owner, owner) && o.trace[i].owner.SecretObj?
        else o.trace[i].owner == owner
  {
    var o := Deploy(env, inst, m, infos);
    var owner := DeploymentObj(inst);
    var ms := ManifestWithOps(env, inst, m);
    if ms.result.Ok? && env.convert(inst.name, m.variables).Ok? {
      var secret := ms.result.value;
      var sync := SyncSecrets(env.store, secret, env.convert(inst.name, m.variables).value);
      DeployParts(env, inst, m, infos);
      var t3 := if sync.failure.Some? then [] else DeployJobs(env, inst, m, infos).trace;
      assert ms.trace == [Apply(secret, owner)];
      forall i | 0 <= i < |o.trace| && o.trace[i].Apply?
        ensures if o.trace[i].obj.QuarksSecretObj? then 0 < i && o.trace[0] == Apply(o.trace[i].owner, owner) && o.trace[i].owner.SecretObj?
          else o.trace[i].owner == owner
      {
        Segments(ms.trace, sync.trace, t3, 0);
        Segments(ms.trace, sync.trace, t3, i);
      }
    } else {
      forall i | 0 <= i < |o.trace| && o.trace[i].Apply?
        ensures !o.trace[i].obj.QuarksSecretObj? && o.trace[i].owner == owner
      {
        assert o.trace[i] in ms.trace;
      }
    }
  }

  /** Ownership: the manifest secret and both jobs are owned by the
      deployment; every QuarksSecret is owned by the manifest secret, which
      was written first with the deployment as owner. */
  lemma OwnershipChain(env: Env)
    requires env.get.Found?
    ensures var o := Expected(env); var owner := DeploymentObj(env.get.deployment);
      forall i :: 0 <= i < |o.trace| && o.trace[i].Apply? ==>
        if o.trace[i].obj.QuarksSecretObj? then 0 < i && o.trace[0] == Apply(o.trace[i].owner, owner) && o.trace[i].owner.SecretObj?
        else o.trace[i].owner == owner
  {
    var inst := env.get.deployment;
    if !env.inMeltdown(inst.lastReconcile) && env.withOps(inst).Ok? {
      var m0 := env.withOps(inst).value;
      var lr := LinkResult(inst.name, inst.namespace, env.missingProviders(m0), env.view);
      if lr.Some? {
        DeployOwnership(env, inst, WithLinks(m0, lr.value.links), lr.value.infos);
      }
    }
  }

  /** A failed status write is swallowed: the outcome is the same whatever
      the deployment status write returns. */
  lemma StatusFailureSwallowed(env: Env, f: Object -> Result<(), string>)
    requires forall o: Object :: !o.DeploymentObj? ==> f(o) == env.store.updateStatus(o)
    ensures Expected(env.(store := env.store.(updateStatus := f))) == Expected(env)
  {
    if env.get.Found? {
      var inst := env.get.deployment;
      if !env.inMeltdown(inst.lastReconcile) && env.withOps(inst).Ok? {
        var m0 := env.withOps(inst).value;
        var lr := LinkResult(inst.name, inst.namespace, env.missingProviders(m0), env.view);
        if lr.Some? {
          DeployIgnoresStatus(env, f, inst, WithLinks(m0, lr.value.links), lr.value.infos);
        }
      }
    }
  }

  /** The steps after link resolution do not depend on the status write's outcome. */
  lemma DeployIgnoresStatus(env: Env, f: Object -> Result<(), string>, inst: Deployment, m: ManifestData, infos: seq<LinkInfo>)
    requires forall o: Object :: !o.DeploymentObj? ==> f(o) == env.store.updateStatus(o)
    ensures Deploy(env.(store := env.store.(updateStatus := f)), inst, m, infos) == Deploy(env, inst, m, infos)
  {
    var env' := env.(store := env.store.(updateStatus := f));
    var ms := ManifestWithOps(env, inst, m);
    assert ManifestWithOps(env', inst, m) == ms;
    if ms.result.Ok? && env.convert(inst.name, m.variables).Ok? {
      SyncIgnoresDeploymentStatus(env.store, f, ms.result.value, env.convert(inst.name, m.variables).value);
    }
    assert DeployJobs(env', inst, m, infos) == DeployJobs(env, inst, m, infos);
  }
}
