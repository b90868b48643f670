# BOSHDeployment reconciler of the cf-operator, modelled in Dafny

This project models the core of the cf-operator's BOSHDeployment controller:

- **Link resolution** (`listLinkInfos`, `getServiceRecords`, `listPodsFromSelector`), in `link_resolver.dfy`.
  - The manifest names some link providers that are missing.
  - The resolver pairs each of them with exactly one secret of the deployment, and registers a link for each typed secret.
  - It keys a service record by the provider name that each service of the deployment serves.
  - It turns the pods behind each registered link into BOSH job instances.
  - It reports every provider left unfound in one aggregated error.
  - On success with at least one typed link, it writes `quarks_links` into the manifest's properties in place (`BoshManifest.Manifest`, in `manifest.dfy`).
  - As in the code, a registered link is keyed by its secret's name, and is matched to the service record stored under that same name.
- **The reconcile pipeline** (`Reconcile`, `createManifestWithOps`, `createQuarksJob`, `createQuarksSecrets`), in `reconcile.dfy`.
  - It is a state machine over oracle collaborators.
  - The steps, in order: fetch the deployment, honour the meltdown window, resolve the manifest, resolve links, write the manifest-with-ops secret, convert and write the QuarksSecret variables, write the interpolation job, write the instance-group job, stamp the status.
  - Every write to the API server is recorded in a trace, in order. A write whose call fails is still recorded, because the request was issued.
  - `Expected` is the specification of one call. The method `Reconcile` mirrors the Go control flow and is proved equal to it. The lemmas state what the pipeline promises about `Expected`.
- **The BPM watch filter** (`isVersionedSecret`, `isBPMInfoSecret` and the predicate functions of `AddBPM`), in `bpm_controller.dfy`.
  - Each is a pure boolean function over the label map and the name of a secret.
  - Each is proved equal to a declarative reference: a map lookup, and "occurs at some position".

Facts about suffixes and occurrences of one string in another, used by the error texts and the BPM name filter, are in `strings.dfy`.

The collaborators are inputs of the model:

- the controller-runtime client;
- `controllerutil.CreateOrUpdate` and the owner-reference setter;
- `WithOps`, `JobFactory` and `VariablesConverter`;
- `newLinkProvider`, `ListMissingProviders` and `Marshal`;
- the secret-name helper and the cluster domain;
- the meltdown window.

These appear as fields of function type in `LinkResolver.ClusterView`, `Reconciler.Store` and `Reconciler.Env`. The Go map iteration order in `listLinkInfos` is modelled by picking keys with `:|`. So the specification allows any failing link's error, and any order of the unfound provider names.

## Model

| member | source | states |
|---|---|---|
| LinkResolver.Join | pkg/kube/controllers/boshdeployment/deployment_reconciler.go:361 | the parts in order with the separator between neighbours: one part is returned alone, a longer list starts with its first part and the separator and ends with its last part |
| LinkResolver.JoinKeepsParts | pkg/kube/controllers/boshdeployment/deployment_reconciler.go:361 | every part occurs in the joined text |
| LinkResolver.Wrapf | pkg/kube/controllers/boshdeployment/deployment_reconciler.go:279-287 | a wrapped message starts with its own text and ends with ": " and the cause |
| LinkResolver.ErrorMessage | pkg/kube/controllers/boshdeployment/deployment_reconciler.go:279-361 | listing, descriptor and pod-listing errors end with ": " and their cause; the empty-pod-list error ends with ": got an empty list of pods"; the duplicated-secrets error is exactly "duplicated secrets of provider: " and the name; the duplicated-services error ends with "duplicated services of provider: " and the name; the aggregated error starts "missing link secrets for providers: " and for one provider is exactly that text followed by the name |
| LinkResolver.MissingMessageNamesAll | pkg/kube/controllers/boshdeployment/deployment_reconciler.go:353-361 | the aggregated error text contains every provider name it lists |
| LinkResolver.ScanSecret | pkg/kube/controllers/boshdeployment/deployment_reconciler.go:290-315 | one secret fails iff it belongs to the deployment and its descriptor does not parse (MalformedProvider with the cause) or names a missing provider already found (DuplicatedSecrets of that provider); otherwise the tracked providers are kept and an accepted secret marks its provider found |
| LinkResolver.ScanSecrets | pkg/kube/controllers/boshdeployment/deployment_reconciler.go:290-315 | on success the loop keeps the tracked provider set, only appends to the link infos, and never clears a found flag |
| LinkResolver.DuplicateSecretsShared | pkg/kube/controllers/boshdeployment/deployment_reconciler.go:296-299 | a duplicated-secrets error names a provider that an accepted secret shares with an earlier accepted secret, or that was found before the loop |
| LinkResolver.RecordService | pkg/kube/controllers/boshdeployment/deployment_reconciler.go:377-393 | one service fails iff it belongs to the deployment, carries the provider annotation and its provider already has a record (DuplicatedServices of it); a service that does not claim a provider changes nothing; a claiming one adds exactly its provider key and keeps every earlier record |
| LinkResolver.RecordServices | pkg/kube/controllers/boshdeployment/deployment_reconciler.go:377-393 | on success every record built before the loop is kept unchanged |
| LinkResolver.DuplicateServicesShared | pkg/kube/controllers/boshdeployment/deployment_reconciler.go:381-383 | a duplicated-services error names a provider that a claiming service shares with an earlier claiming service, or that was recorded before |
| LinkResolver.ResolveLink | pkg/kube/controllers/boshdeployment/deployment_reconciler.go:322-348 | a link with no service record keyed by its name is kept unchanged and cannot fail; a resolved link keeps its type and, when a record exists, takes the record's DNS address |
| LinkResolver.Discover | pkg/kube/controllers/boshdeployment/deployment_reconciler.go:264-320 | with no missing provider nothing is listed and nothing is registered; a failed secret listing is ListSecretsFailed with its cause, then a failed service listing is ListServicesFailed; on success the tracked providers are exactly the missing ones, and both listings succeeded when some provider is missing |
| LinkResolver.LinkResult | pkg/kube/controllers/boshdeployment/deployment_reconciler.go:264-372 | success implies the listings and scans succeeded, every missing provider was found, and the resolved links have exactly the registered keys and keep their types |
| LinkResolver.ErrorAllowed | pkg/kube/controllers/boshdeployment/deployment_reconciler.go:264-362 | any error the resolver may return implies that resolution fails, and with no missing provider no error is possible |
| LinkResolver.SuccessIffNoError | pkg/kube/controllers/boshdeployment/deployment_reconciler.go:264-372 | resolution succeeds iff there is no error it may report |
| LinkResolver.DuplicateErrorsShared | pkg/kube/controllers/boshdeployment/deployment_reconciler.go:290-320 | a duplicated-secrets error returned by the resolver names a provider that two accepted secrets of the listing both name; a duplicated-services error names a provider that two claiming services both serve |
| LinkResolver.UnprovidedNatsConsumer | pkg/kube/controllers/boshdeployment/deployment_reconciler.go:264-362 | a consumer of `nats-provider` whose namespace holds nothing of the deployment: resolution fails, the only error it may report is MissingProviders(["nats-provider"]), and that error reads "missing link secrets for providers: nats-provider" |
| LinkResolver.IgnoredSecretIsNoOp | pkg/kube/controllers/boshdeployment/deployment_reconciler.go:290-296 | a secret of another deployment, or one naming a provider that is not missing, leaves the whole scan state (found flags, infos, links) unchanged |
| LinkResolver.ScanSucceedsIff | pkg/kube/controllers/boshdeployment/deployment_reconciler.go:290-315 | the secret scan succeeds iff every secret of the deployment has a parseable descriptor, and no two accepted secrets (nor an already-found provider) share a provider name |
| LinkResolver.ScanInfos | pkg/kube/controllers/boshdeployment/deployment_reconciler.go:301-305 | each accepted secret appends exactly one LinkInfo{secret name, provider name, provider type}, in listing order; the tracked provider set is unchanged |
| LinkResolver.ScanFound | pkg/kube/controllers/boshdeployment/deployment_reconciler.go:296-312 | after the scan a provider is marked found iff it was found before or some accepted secret names it |
| LinkResolver.ScanLinks | pkg/kube/controllers/boshdeployment/deployment_reconciler.go:307-311 | a link entry exists for a secret name iff an accepted secret of that name has a non-empty provider type; every new entry is registered by such a secret and equals {its descriptor type, address "", no instances} |
| LinkResolver.RecordsSucceedIff | pkg/kube/controllers/boshdeployment/deployment_reconciler.go:377-393 | the service records are built iff no two services of the deployment claim the same provider |
| LinkResolver.RecordsContents | pkg/kube/controllers/boshdeployment/deployment_reconciler.go:378-390 | each claiming service yields a record under its provider name, holding its selector and the address `<svc>.<namespace>.svc.<cluster domain>`; no other keys are recorded |
| LinkResolver.GetServiceRecords | pkg/kube/controllers/boshdeployment/deployment_reconciler.go:375-394 | the loop computes the record map of RecordServices, including the duplicate-service error |
| LinkResolver.ListPodsFromSelector | pkg/kube/controllers/boshdeployment/deployment_reconciler.go:397-412 | a failed listing is a ListPodsFailed error, an empty list is the EmptyPodList error, and otherwise the pods are returned unchanged |
| LinkResolver.InstancesFrom | pkg/kube/controllers/boshdeployment/deployment_reconciler.go:329-341 | succeeds iff every pod has an IP; then instance j is {link name, pod UID, index j, pod IP, bootstrap iff j == 0}, one per pod; otherwise the error names the first pod without an IP |
| LinkResolver.BuildJobInstances | pkg/kube/controllers/boshdeployment/deployment_reconciler.go:329-341 | the pod loop yields InstancesFrom(pods, 0): as many instances as pods, instance i has index i and the pod's IP, and only instance 0 is bootstrap |
| LinkResolver.InjectLinks | pkg/kube/controllers/boshdeployment/deployment_reconciler.go:364-369 | with no links the properties are untouched; otherwise `quarks_links` maps to the links, a nil map is created, and every other key keeps its value |
| LinkResolver.NoMissingProvidersResolvesNothing | pkg/kube/controllers/boshdeployment/deployment_reconciler.go:268-272 | with no missing provider, resolution succeeds whatever the cluster shows, with no link infos and no links to inject |
| LinkResolver.ScanErrorKinds | pkg/kube/controllers/boshdeployment/deployment_reconciler.go:290-299 | the secret scan fails only with a malformed-descriptor or duplicated-secrets error |
| LinkResolver.RecordsErrorKinds | pkg/kube/controllers/boshdeployment/deployment_reconciler.go:381-383 | the service pass fails only with the duplicated-services error |
| LinkResolver.ResolveLinkErrors | pkg/kube/controllers/boshdeployment/deployment_reconciler.go:322-341 | resolving one link fails only with a pod-listing, empty-list or empty-IP error |
| LinkResolver.SuccessContents | pkg/kube/controllers/boshdeployment/deployment_reconciler.go:290-315 | on success both listings succeeded, the infos are those of the accepted secrets in listing order, every missing provider is named by an accepted secret, and links are keyed by exactly the typed accepted secrets |
| LinkResolver.ResolveLinkShape | pkg/kube/controllers/boshdeployment/deployment_reconciler.go:322-348 | a resolved pending link keeps its type; its instances carry the link's name, are numbered from 0 with non-empty addresses and only the first bootstrap; when a record is keyed by the name, the pods were listed, the address is the record's DNS name and instance i is {name, pod i's UID, i, pod i's IP, i == 0}, one per pod |
| LinkResolver.ResolvedLinkShape | pkg/kube/controllers/boshdeployment/deployment_reconciler.go:290-348 | each link of a successful resolution comes from an accepted secret of that name and has its descriptor type; when a claiming service serves that name, the address is `<svc>.<namespace>.svc.<cluster domain>` and instance i is {name, pod i's UID, i, pod i's IP, i == 0}, one per pod behind its selector; with no such service the address is "" and there are no instances |
| LinkResolver.DuplicateSecretsFail | pkg/kube/controllers/boshdeployment/deployment_reconciler.go:296-299 | two accepted secrets naming the same missing provider make resolution fail |
| LinkResolver.DuplicateServicesFail | pkg/kube/controllers/boshdeployment/deployment_reconciler.go:381-383 | two services of the deployment claiming the same provider make resolution fail when some provider is missing |
| LinkResolver.MissingErrorListsUnprovided | pkg/kube/controllers/boshdeployment/deployment_reconciler.go:353-362 | the aggregated error lists exactly the missing providers that no accepted secret provides, each once; found providers are not listed |
| LinkResolver.UnprovidedNamedInMessage | pkg/kube/controllers/boshdeployment/deployment_reconciler.go:353-361 | the text of the aggregated error the resolver may return names every missing provider that no accepted secret provides |
| LinkResolver.PairSecrets | pkg/kube/controllers/boshdeployment/deployment_reconciler.go:290-315 | the secret loop computes ScanSecrets from the initial state, including its first error |
| LinkResolver.ResolvePending | pkg/kube/controllers/boshdeployment/deployment_reconciler.go:322-350 | the pod loop succeeds iff no pending link fails, then yields the resolved links; otherwise its error is that of some failing link |
| LinkResolver.ListLinkInfos | pkg/kube/controllers/boshdeployment/deployment_reconciler.go:264-372 | succeeds iff the specification LinkResult does, with its infos; an error is one the specification allows; the properties become InjectLinks(old, links) on success and are unchanged on error; the variables are unchanged |
| Reconciler.ManifestSecretObject | pkg/kube/controllers/boshdeployment/deployment_reconciler.go:213-228 | the with-ops secret has the with-ops name of the deployment in its namespace, exactly the deployment-name and secret-type labels with their values, and the manifest bytes under `manifest.yaml` only |
| Reconciler.ManifestWithOps | pkg/kube/controllers/boshdeployment/deployment_reconciler.go:204-244 | succeeds iff marshalling, setting the owner and applying succeed; the secret carries the deployment label and the marshalled manifest; at most one write, the secret owned by the deployment |
| Reconciler.ApplyJob | pkg/kube/controllers/boshdeployment/deployment_reconciler.go:247-260 | succeeds iff setting the owner and applying succeed; nothing is written iff setting the owner fails, and otherwise the one write is the job owned by the deployment |
| Reconciler.SyncSecret | pkg/kube/controllers/boshdeployment/deployment_reconciler.go:416-443 | one variable writes nothing iff setting its owner fails, otherwise first the apply of that QuarksSecret owned by the manifest secret, at most two writes; it succeeds iff the owner is set, the apply succeeds and, when the apply reports Updated, the status reset succeeds; an ownership or apply failure names the variable, while a failed status reset carries only the bare cause |
| Reconciler.SyncSecrets | pkg/kube/controllers/boshdeployment/deployment_reconciler.go:415-446 | the loop writes at most two objects per variable, and at least one per variable when nothing fails |
| Reconciler.CreateQuarksSecret | pkg/kube/controllers/boshdeployment/deployment_reconciler.go:416-443 | one iteration equals SyncSecret: set the owner, apply, and reset Generated only on Updated |
| Reconciler.CreateQuarksSecrets | pkg/kube/controllers/boshdeployment/deployment_reconciler.go:415-446 | the loop equals the specification SyncSecrets: the same failure and the same writes |
| Reconciler.ResetOnlyWhenUpdated | pkg/kube/controllers/boshdeployment/deployment_reconciler.go:432-440 | every status write directly follows an apply reported as Updated and writes Generated = false; every apply reported as Updated is followed by that write |
| Reconciler.SyncWritesSecrets | pkg/kube/controllers/boshdeployment/deployment_reconciler.go:419-427 | every write of the loop concerns a QuarksSecret, and every apply has the manifest-with-ops secret as owner |
| Reconciler.SyncStopsAtFirstFailure | pkg/kube/controllers/boshdeployment/deployment_reconciler.go:416-445 | on a failure at variable k, all earlier variables succeeded, the writes are theirs plus those made for variable k, and no later variable is touched |
| Reconciler.SyncAppliesAll | pkg/kube/controllers/boshdeployment/deployment_reconciler.go:416-445 | when no variable fails, every variable is applied with the manifest-with-ops secret as owner |
| Reconciler.SyncIgnoresDeploymentStatus | pkg/kube/controllers/boshdeployment/deployment_reconciler.go:432-440 | the variables loop writes only QuarksSecret statuses, so its outcome does not depend on deployment status writes |
| Reconciler.DeployJobs | pkg/kube/controllers/boshdeployment/deployment_reconciler.go:151-189 | the job steps write only jobs owned by the deployment; the status stamp is the only status write, is last, and is written iff both jobs were applied; a failure to build the interpolation job writes nothing |
| Reconciler.DeployJobsOrder | pkg/kube/controllers/boshdeployment/deployment_reconciler.go:151-189 | when the job steps succeed, both builders succeeded and the writes are exactly: the interpolation job, then the instance-group job built with the link infos and initialRollout = (Generation == 1), both owned by the deployment, then the stamp |
| Reconciler.DeploySucceeds | pkg/kube/controllers/boshdeployment/deployment_reconciler.go:125-189 | when the steps after link resolution succeed, the writes are exactly the manifest secret holding the marshalled manifest, then the writes for the variables converted from that manifest, then the job steps, which succeeded |
| Reconciler.Deploy | pkg/kube/controllers/boshdeployment/deployment_reconciler.go:125-189 | the steps after link resolution never requeue, and a run of them without error writes something |
| Reconciler.Expected | pkg/kube/controllers/boshdeployment/deployment_reconciler.go:83-189 | the only outcome other than reconcile.Result{} is the meltdown requeue, with no error and no write; anything is written only after the deployment was found outside the meltdown window, its manifest resolved and its links resolved |
| Reconciler.Reconcile | pkg/kube/controllers/boshdeployment/deployment_reconciler.go:83-190 | the pipeline equals Expected; not-found returns no error and writes nothing; meltdown returns RequeueAfter and writes nothing |
| Reconciler.EarlyFailuresWriteNothing | pkg/kube/controllers/boshdeployment/deployment_reconciler.go:92-123 | a get, manifest or link-resolution failure happens before any write; in particular no manifest secret is written when links fail |
| Reconciler.RunDeploy | pkg/kube/controllers/boshdeployment/deployment_reconciler.go:125-189 | the steps after link resolution, as the Go code runs them, equal Deploy |
| Reconciler.UnprovidedNatsConsumerFails | pkg/kube/controllers/boshdeployment/deployment_reconciler.go:118-123 | a deployment consuming only `nats-provider` while its namespace holds no secret or service of it fails at link resolution, with the ListLinksFailed error and no write |
| Reconciler.StampIffSuccess | pkg/kube/controllers/boshdeployment/deployment_reconciler.go:179-189 | the deployment is written only by the last-reconcile stamp, as the last write of a fully successful run, and a successful run always ends with it |
| Reconciler.FailureAbortsLaterSteps | pkg/kube/controllers/boshdeployment/deployment_reconciler.go:125-177 | a failure before the jobs writes no job; a failure at the manifest secret writes at most that secret; a failure to convert the variables writes exactly the manifest secret and no QuarksSecret; a failure after the interpolation job leaves it as the only, last job write |
| Reconciler.OwnershipChain | pkg/kube/controllers/boshdeployment/deployment_reconciler.go:419-422 | the manifest secret and both jobs are owned by the deployment; every QuarksSecret is owned by the manifest secret, which is the first write and is owned by the deployment |
| Reconciler.SuccessfulRun | pkg/kube/controllers/boshdeployment/deployment_reconciler.go:125-189 | a successful run writes exactly: the manifest secret holding the manifest with the resolved links injected, the QuarksSecret writes for its variables, the interpolation job and then the instance-group job built from that manifest and the link infos with initialRollout = (Generation == 1), and the stamp |
| Reconciler.StatusFailureSwallowed | pkg/kube/controllers/boshdeployment/deployment_reconciler.go:179-187 | the outcome (result, error and writes) is the same whatever the deployment status write returns |
| BpmWatch.Contains | pkg/kube/controllers/boshdeployment/bpm_controller.go:86 | the scan answers true iff the marker occurs at some position of the name |
| BpmWatch.IsVersionedSecret | pkg/kube/controllers/boshdeployment/bpm_controller.go:66-82 | false for nil labels or an absent kind label; true iff the kind label equals the versioned-secret kind |
| BpmWatch.IsBPMInfoSecret | pkg/kube/controllers/boshdeployment/bpm_controller.go:84-91 | true iff the name contains the BPM-information marker as a substring |
| BpmWatch.Admits | pkg/kube/controllers/boshdeployment/bpm_controller.go:41-52 | create and update admit exactly the watched secrets, and update judges the new object; delete and generic events are never admitted |
| BpmWatch.UpdateJudgesNewObject | pkg/kube/controllers/boshdeployment/bpm_controller.go:48-51 | the old object of an update does not matter, and the update decision equals the create decision on the new object |
| BpmWatch.BpmSecretAdmitted | pkg/kube/controllers/boshdeployment/bpm_controller.go:42-51 | a versioned secret whose name contains the BPM-information marker at any position is admitted on creation and on update, whatever the old object |
| BpmWatch.UnlabelledSecretIgnored | pkg/kube/controllers/boshdeployment/bpm_controller.go:66-71 | a secret with nil labels is admitted neither on creation nor on update, whatever its name and the old object |

## Left out

- Cluster I/O is modelled as oracle results: the client's `Get`, `List` and `Status().Update`, `controllerutil.CreateOrUpdate`, and the owner-reference setter. The cluster's state is not modelled.
- Reconciler.Reconcile: the error returned when link resolution fails is recorded only as `ListLinksFailed`, without the link error. `LinkResolver.ListLinkInfos` states which link errors are possible.
- Logging and event recording (`log.WithEvent`) are not modelled, so event reasons and the wording of the pipeline's error messages are absent.
- The context timeout and cancellation are not modelled.
- The meltdown window (`meltdown.NewWindow(...).Contains(time.Now())`) is an input predicate over the last-reconcile time. Its library is not part of this model. The stamped time is an input.
- These foreign functions are input functions:
  - `manifest.ListMissingProviders`, `manifest.Marshal`, `newLinkProvider` (annotation JSON parsing);
  - `names.DeploymentSecretName`, `boshdns.GetClusterDomain`;
  - the WithOps, JobFactory and VariablesConverter implementations.
- The values of these constants come from files that are not part of this model: the label, annotation and secret-type keys, `versionedSecret`, the `bpm` marker and `with-ops`. Reconciler.ManifestSecretObject and Reconciler.ManifestWithOps rely on the deployment-name and secret-type label keys being distinct. No other proof depends on their values; the BPM lemmas are stated over the marker constant, whatever it holds.
- Go map iteration order in `listLinkInfos` is not modelled. The order of the unfound provider names is any enumeration of the unfound set. Which failing link's pod error surfaces is any one of them.
- LinkResolver.ErrorMessage: for a failed pod listing, the selector text is assumed to be part of the listing's own error cause. It is not formatted by the model.
- The `mutate.*MutateFn` callbacks passed to `CreateOrUpdate` are not modelled. The trace records the object handed to `CreateOrUpdate`.
- Manifest properties other than `quarks_links` are opaque scalar values.
- `AddBPM` wiring is not modelled: `controller.New`, `Watch` and reconciler construction are framework setup.
- `NewDeploymentReconciler` and `resolveManifest` are not modelled separately. They only wire collaborators and wrap the WithOps error, and the WithOps result is an input of `Reconciler.Env`.
