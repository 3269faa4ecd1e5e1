# kube-nova operator: the reconciler as a protocol against an API server

The operator keeps one KubeNova object and the objects it owns in step. One worker per object reads it, adds a
finalizer, validates, creates or updates a ServiceAccount, a cluster-wide ClusterRoleBinding, a Secret, ConfigMaps,
Deployments, Services and an Ingress, and stores a status. Between any two of its API calls other writers may edit
the specification, change managed objects, request deletion or re-create the object, and any call may be refused or
lose its reply. This project models that program call by call and proves what holds in every run.

## How the model is built

- `Intent`: what a specification asks for, in its own fields and without any function of the builders. It is the
  yardstick: what is built, stored, compared and reported is stated in its terms.
- `Types`, `Validation`, `Builders`, `Endpoints`, `Nodes`, `Drift`, `Statuses`: the values and the builders. Code of
  the source that appends to slices or fills maps is a method with a loop, proved against a function; the
  properties are lemmas about the function.
- `Protocol`: the state of the store (`World`), the steps of the other writers (the rely: `ForeignStep`), and the
  steps of the operator (the guarantee: `OperatorStep`). `IsRun` is the relation of whole runs. The rely is shown to
  admit every sequence of single foreign writes (`AnyForeignActionsAreReliedOn`).
- `Runs`: the invariants of every state of every run, and the statements about histories.
- `Cluster`: the API server as a class. The interference before the n-th call is an arbitrary function `env`, the
  failure of the n-th call an arbitrary function `fault` (none, refused, or done with the reply lost). The server
  carries the ghost history of all states, and every method that writes keeps that history a run only if the write
  is one of the operator's steps. Which node ports it allocates and in which form it keeps resource quantities are
  parameters (`Admission`).
- `Steps`: a round of deployment as a list of steps, taken in order up to the first that fails. The phases are proved
  to be exactly their lists, under any interference and faults.
- `Ensuring`, `StatusRetry`, `Phases`, `Readiness`, `Finalizing`, `Reconciling`: the reconciler itself as methods on the
  server, statement by statement. Each method shows that its calls are steps of the protocol under any interference
  and any faults, and what it achieves when it succeeds.
- `Deploy`, `Convergence`, `Settling`: what undisturbed runs do to the store: their effect as a function, its
  fixpoints, and methods that run the worker round after round while replicas become ready between the rounds.
- `Delivery`: what all this comes to for the specification's own fields: what a round delivers from any store, what
  is behind a skip, and which edits reach the backends that are already there.
- `Incidents`: three runs of the worker in which a deletion goes wrong.
- `Bindings`, `Checksums`, `DeepCopies`: several instances in one cluster, the checksum text, deep copies on the heap.

Four things can go wrong in a run that the guarantees depend on, and a run records them (`Lapses`):
`blind`, a deletion dropped the finalizer although the binding was there, because its lookup failed;
`stray`, a deletion ran for an object that did not carry the operator's finalizer;
`meddled`, somebody else deleted or re-owned managed objects, or wrote some that lack what they need;
`borrowed`, an accepted specification names the operator's own nginx ConfigMap as the user's.
Each guarantee names the lapses it excludes, and the contract of `Reconcile` says that a round admits a lapse only for
its cause, and meddling never. Creating objects, editing them, reporting readiness, editing the specification,
requesting deletion, re-creating the instance and the comings and goings of other instances' bindings are no lapses
(`PeacefulActionsAreForeignSteps`).

## What the proofs show about the code

- The binding is never orphaned unless a deletion is blind, and a finished deletion is blind exactly when the binding
  was there and its lookup failed: the Get at line 260 of internal/controller/kubenova_controller.go treats every error
  like NotFound (`ReconcileDelete`). A round in which only that call fails reports success and leaves the binding
  behind (`BlindDeletion`).
- The skip is sound and stable. But a deletion of an object that never got the finalizer can store `Deleting`, and an
  observed generation ahead of the generation, on a re-created object of the same name. This can happen exactly when
  the object read lacks the finalizer (`MarkingIsUnsoundIffNotHeld`); `StrayDeletion` is a round in which it does.
- The web Deployment mounts `nginx-config` at two paths, so the drift comparison finds it different from everything,
  itself included, and every run that is not skipped writes it again. For backends the comparison is an equivalence.
- The Secret's node port is guessed before the web Service exists. It is right after the second deploying run; if the
  first run already ends Ready, the second is skipped and the guess stays. The guess is right exactly when the
  configured http port, or 30080, is the port the front end is reached under (`GuessIsRightIff`). With HTTPS enabled
  that is the https port, so the guess (line 435) puts the http port under an https scheme: it is wrong even for a
  specification that chooses both ports, unless they are equal (`GuessCanBeWrong`).
- Some edits of an accepted specification do not reach backends that are already there. `EditReachesBackendIff` says
  exactly which do: those that change replicas, image, environment values or their number, resources, or whether the
  certificates are mounted. The name of the certificate Secret, the pull policy and the pull secrets are in the
  manifest but not in the comparison (lines 696-726 and 777-791 of internal/controller/kubenova_controller.go), so
  changing one of them alone changes nothing there (`QuietEdits`).
- In a settled store the backends that go on being rewritten are exactly those whose resource quantities are not in the
  form the store gives them (`DriftsIffNotCanonical`). The default CPU limit is written `1000m`; a store that keeps it as
  `1` makes every backend with default resources drift on every run.
- What belonged to an earlier instance of the same name is kept with its owner, so a new instance's Deployments can rely
  on a ServiceAccount that the garbage collector is about to remove (`LeftoverAccountIsRelied`). A deletion by others is
  harmless exactly when nothing that is left needs the object (`DeletionKeepsPrerequisitesIffUnneeded`).
- Removing the finalizer writes back the specification and labels read at line 75. Nothing stored since then is lost
  exactly when nobody edited them before the version was last refreshed, at line 239 or, if the status could not be
  stored, at line 75 (`ReconcileDelete`). `LostEdit` is a deletion without any fault that reports success and undoes an
  edit made between line 75 and the status write.
- Deployments that could not be read do not count against readiness (lines 810-819 and 844-848).
- The final error of the status retry (line 244) cannot be reached. Its comment promises exponential backoff; the
  pauses are 100 ms and 200 ms.
- Two instances share a binding exactly when namespace and name joined by a hyphen are the same text, as for
  `a-b`/`c` and `a`/`b-c`.
- Parsing the checksum text recovers the data exactly when no key contains `=` and no value a newline; a newline in a key
  does no harm.

## Model

| member | source | states |
|---|---|---|
| Types.KeysNameDistinctObjects | internal/builder/service.go:42-155 | distinct keys of the model are distinct kinds and names in the cluster |
| Validation.AcceptedIff | internal/validator/validator.go:15-125 | accepted iff no mandatory text is empty, the ports are ports, the token secrets are long enough, the cache type and the way of exposure are known |
| Validation.FirstFaultIsNamed | internal/validator/validator.go:15-125 | the section named is the first one at fault, for each of the six, in the source's order |
| Drift.CompareVolumes | internal/controller/kubenova_controller.go:777-791 | the map-based loop decides equal length plus inclusion of names |
| Drift.VolumesMatchIsNameSetEquality | internal/controller/kubenova_controller.go:777-791 | with distinct wanted names that is equality of the name sets, by the pigeonhole principle |
| Drift.Pigeonhole | internal/controller/kubenova_controller.go:777-791 | equal length, distinct wanted names and inclusion force equal sets and distinct existing names |
| Drift.CompareVolumeMounts | internal/controller/kubenova_controller.go:761-775 | the map-based loop decides the comparison of mounts by last path per name |
| Drift.MountsMatchIsPathMapEquality | internal/controller/kubenova_controller.go:761-775 | with distinct wanted names that is equality of the maps from name to path |
| Drift.MountsMatchIffSamePlaces | internal/controller/kubenova_controller.go:761-775 | the same, mount by mount: equal iff no existing name occurs twice and every name is mounted at the same path in both |
| Drift.MatchedByNothingIffTwoPaths | internal/controller/kubenova_controller.go:761-775 | mounts are matched by nothing at all iff one name is mounted at two paths |
| Drift.CompareEnvVars | internal/controller/kubenova_controller.go:738-755 | equal length and equal maps of the non-empty values |
| Drift.EnvMatchIffSameValues | internal/controller/kubenova_controller.go:738-755 | equal iff there are as many entries and every name has the same last non-empty value |
| Drift.DeploymentSpecEqual | internal/controller/kubenova_controller.go:696-726 | decides SpecEqual, in the source's order of tests; what that sees is stated by SpecEqualIffSameInWhatCounts |
| Drift.SpecEqualIffSameInWhatCounts | internal/controller/kubenova_controller.go:696-791 | on specifications with distinct names, equal iff replicas, number of containers, the first one's image, values, resources and mounts, the volume names and the account are the same |
| Drift.TheRestIsNotCompared | internal/controller/kubenova_controller.go:696-791 | no change of ports, pull policy, container name, Secret reference, volume sources, pull secrets or other pod fields is seen |
| Drift.SelfEqualIffOnePathPerName | internal/controller/kubenova_controller.go:696-791 | a specification equals itself iff no name is mounted at two paths |
| Drift.SpecEqualIsAnEquivalence | internal/controller/kubenova_controller.go:696-791 | symmetry and transitivity on specifications with distinct names, and that these spread to what they equal |
| Drift.TwoPathsDifferFromEverything | internal/controller/kubenova_controller.go:696-791 | a specification with one name at two paths equals nothing |
| Drift.CopyingApplies | internal/controller/kubenova_controller.go:540-548 | copying the fields leaves a Deployment that needs no further copying |
| Drift.AppliedIsEqual | internal/controller/kubenova_controller.go:534-554 | outside the web front end an updated Deployment is accepted by the comparison, for manifests that accept themselves |
| Builders.BuildDeployment | internal/builder/service.go:181-358 | the backend Deployment, built by appending, is the specified one |
| Builders.GetServiceVolumeMounts | internal/builder/service.go:409-436 | the mounts appended are those of the specification function |
| Builders.GetServiceVolumes | internal/builder/service.go:439-489 | the volumes appended are those of the specification function |
| Builders.BuildAllServices | internal/builder/service.go:42-155 | a backend is missing iff its own section of the specification says `enabled: false`; each of the seven gets the Deployment and Service its section asks for, under its name and port |
| Builders.BackendManifestIsClosed | internal/builder/service.go:409-489 | volume names are distinct and every mount names a declared volume |
| Builders.BackendManifestIsComparable | internal/builder/service.go:181-489 | names are distinct, so a deployed backend compares equal to its own manifest |
| Builders.StoredBackendIsAcceptedIffCanonical | internal/builder/service.go:391-406 | after a round trip through a store that rewrites quantities, a backend is left alone iff its resources are in the form the store gives them |
| Builders.DefaultBackendIsAcceptedIff | internal/builder/service.go:396-405 | with default resources that is so iff the store keeps the four default texts |
| Builders.BuildWebDeployment | internal/builder/web.go:64-214 | the web Deployment, built by appending, is the specified one |
| Builders.GetWebPorts | internal/builder/web.go:217-239 | port 443 is added exactly when HTTPS is served |
| Builders.GetWebVolumeMounts | internal/builder/web.go:443-491 | the mounts appended are those of the specification function |
| Builders.GetWebVolumes | internal/builder/web.go:494-565 | the volumes appended are those of the specification function |
| Builders.BuildWebService | internal/builder/web.go:242-311 | Service type, ports and chosen node ports of both modes |
| Builders.GetIngressAnnotations | internal/builder/web.go:381-422 | the defaults, redirects that follow TLS, and the user's annotations over both, in any order of iteration |
| Builders.BuildWebResources | internal/builder/web.go:41-62 | Deployment, Service and Ingress are what the web section asks for, field by field: image, replicas, ports, mounts, volumes, chosen node ports, host, TLS Secret, annotations; an nginx ConfigMap iff none is named |
| Builders.WebManifestIsClosed | internal/builder/web.go:443-565 | volume names are distinct and every mount names a declared volume |
| Builders.WebManifestAlwaysDrifts | internal/builder/web.go:443-491 | no existing specification whatever compares equal to the web manifest |
| Builders.HTTPSIsAllOrNothing | internal/builder/web.go:217-311 | container port 443 and Service port `https` appear together; the certificate mount joins them iff HTTPS is not enabled without a certificate |
| Builders.AcceptedWebIsComplete | api/v1/kubenova_types.go:747-769 | for accepted specifications the three appear together, ingress mode always yields an Ingress, with a TLS entry iff TLS is enabled |
| Endpoints.FindNodePort | internal/controller/kubenova_controller.go:442-458 | the number of the first allocated port of the name, or none |
| Endpoints.ScanNodePorts | internal/controller/kubenova_controller.go:915-923 | the numbers of the last allocated http and https ports |
| Endpoints.FirstAndLastPortCoincide | internal/controller/kubenova_controller.go:442-458 | with distinct names and allocated ports the first match and the last match are the same port, found iff present |
| Endpoints.ChooseNodePort | internal/controller/kubenova_controller.go:419-465 | the first allocated https port if HTTPS is enabled, else the first allocated http port, else the configured one, else 30080 |
| Endpoints.FormatNodePortURL | internal/controller/kubenova_controller.go:909-946 | scheme, node and the last allocated https port, else the last allocated http port, and the two texts where there is none |
| Endpoints.WebURLIsWanted | internal/controller/kubenova_controller.go:902-946 | the address in both modes, and that the previous one is kept otherwise |
| Endpoints.OneSlash | api/v1/kubenova_types.go:888-892 | taking the leading slash off and putting one back leaves exactly one |
| Endpoints.EndpointProxyIsWanted | api/v1/kubenova_types.go:869-914 | the user's endpoint, the plain storage, the user's proxy, or the web address with the path, in this order of precedence and in the specification's own fields |
| Endpoints.DecimalReadsBack | internal/builder/secret.go:33-33 | a number written in decimal reads back as itself |
| Endpoints.IngressEndpointsAgree | api/v1/kubenova_types.go:869-914 | in ingress mode the derived proxy endpoint is the web address followed by the prefix, or `/storage`, with one slash between |
| Endpoints.NodePortEndpointsAgreeIffSamePort | api/v1/kubenova_types.go:869-914 | in nodeport mode it is so iff the port assumed when the Secret was built is the port of the address; always if the same Service was seen; GuessIsRightIff brings the condition back to the specification |
| Endpoints.BuildSecret | internal/builder/secret.go:29-148 | every key of the Secret has the value the specification, node address and port give it |
| Endpoints.SecretHoldsEndpointProxy | internal/builder/secret.go:75-94 | the proxy entry of the final map is the endpoint the agreement lemmas speak of |
| Endpoints.CertificatePathsAreMounted | internal/builder/secret.go:62-73 | certificate paths are set iff portal-rpc mounts their directory, unless TLS is enabled without a secret, which validation rejects |
| Nodes.GetNodeIP | internal/controller/kubenova_controller.go:968-1016 | the nested loops return the address the declarative rule picks |
| Nodes.NodeIPRuleIsFunctional | internal/controller/kubenova_controller.go:968-1016 | the rule (preferred address of the first usable node, else the first routable address of node 0, else none) leaves no choice |
| Statuses.SetConditionMembers | internal/controller/kubenova_controller.go:872-889 | recording a condition replaces the one of its type, keeps all others, and keeps one per type |
| Statuses.ConcludedStatusIsPersisted | internal/controller/kubenova_controller.go:872-890 | the final status carries both conditions at its generation, and is Ready iff all was ready |
| Protocol.AnyForeignActionsAreReliedOn | internal/controller/kubenova_controller.go:69-192 | every sequence of edits, deletion requests, re-creations and object writes by others is an admitted interference |
| Protocol.PeacefulActionsAreForeignSteps | internal/controller/kubenova_controller.go:69-192 | it is no lapse unless it deletes or re-owns an object, passes one off as the instance's, or leaves one without what it needs |
| Protocol.Replacing | internal/controller/kubenova_controller.go:84-98 | an instance without the finalizer can be removed and re-created by peaceful actions |
| Protocol.OperatorStepIsLegal | internal/controller/kubenova_controller.go:84-98 | every write of the operator keeps the store well formed, advances versions, and never undoes a deletion |
| Runs.NextKeepsInv | internal/controller/kubenova_controller.go:69-278 | one step of anybody keeps all invariants |
| Runs.EveryStateIsSound | internal/controller/kubenova_controller.go:69-278 | every state of every run satisfies all invariants: no orphaned binding, observed generation not ahead, only persisted phases, prerequisites stored whoever creates objects, Ready means deployed |
| Runs.HistoryIsLinear | internal/controller/kubenova_controller.go:202-245 | any later state evolves from any earlier one: an equal version means an equal instance, generations grow and fix the specification |
| Runs.DeletingIsAbsorbing | internal/controller/kubenova_controller.go:248-254 | an instance that shows Deleting shows it until it is gone |
| Runs.PrerequisitesAreStored | internal/controller/kubenova_controller.go:131-179 | in every state of every run in which nobody deletes managed objects, a stored backend manifest has its account, Secret, ConfigMap and binding, a web manifest its nginx ConfigMap or names another, an Ingress its Service |
| Runs.ManifestReferences | internal/builder/service.go:181-358 | what the backend and web manifests refer to |
| Runs.CreatedObjectsAreOwned | internal/controller/kubenova_controller.go:334-693 | every object the operator creates, except the binding, carries the controller reference, and only while the finalizer holds |
| Runs.ExistingObjectsAreNotOverwritten | internal/controller/kubenova_controller.go:334-375 | no write changes an existing ServiceAccount, Service, Ingress or binding, except deleting the binding |
| Runs.DeletionKeepsPrerequisitesIffUnneeded | internal/controller/kubenova_controller.go:131-179 | after somebody deletes an object, what is left has what it needs iff nothing left needs that object |
| Runs.ReplaceableIffNotHeld | internal/controller/kubenova_controller.go:84-98 | peaceful actions between two calls can put another instance in place of the one read iff it lacks the finalizer |
| Runs.MarkingIsUnsoundIffNotHeld | internal/controller/kubenova_controller.go:248-254 | the status write of a deletion can say Deleting of an instance nobody deletes, or run ahead of the generation, iff the instance read lacks the finalizer |
| Incidents.StrayDeletion | internal/controller/kubenova_controller.go:75-87 | a run of the code in which it does: one peaceful succession before the second call, and a successor at generation 1 is stored as Deleting at generation 7 |
| Incidents.BlindDeletion | internal/controller/kubenova_controller.go:248-278 | a run of the code in which only the lookup of the binding fails: the round reports success, the instance is gone, the binding stays |
| Incidents.LostEdit | internal/controller/kubenova_controller.go:248-278 | a run of the code without faults or lapses in which an edit made after the first read is undone by the removal of the finalizer |
| Runs.AppliedIsShown | internal/controller/kubenova_controller.go:528-559 | a Deployment the comparison accepts or an update has just written shows the manifest of the specification |
| Runs.SkipIsSound | internal/controller/kubenova_controller.go:100-106 | when the stored status is Ready at the current generation, an earlier round read exactly that generation and specification, which is accepted, found the namespace, and saw every required object stored with that specification's content |
| Cluster.ApiServer.Update | internal/controller/kubenova_controller.go:90-98 | conditional write of the main resource under interference and faults; the history stays a run if the write is a step |
| Cluster.ApiServer.UpdateStatus | internal/controller/kubenova_controller.go:222-234 | conditional write of the status subresource, likewise |
| Cluster.ApiServer.Create | internal/controller/kubenova_controller.go:346-356 | creation under interference and faults, likewise |
| Cluster.ApiServer.UpdateObject | internal/controller/kubenova_controller.go:404-413 | conditional update of a managed object, likewise |
| Cluster.ApiServer.Delete | internal/controller/kubenova_controller.go:260-266 | deletion of a managed object, likewise |
| Cluster.ApiServer.OthersAct | internal/controller/kubenova_controller.go:69-192 | interference while no call is made keeps the history a run |
| StatusRetry.UpdateStatusWithRetry | internal/controller/kubenova_controller.go:202-245 | a conflict is retried and nothing else is: every attempt but the last met a conflict, the last decides, and it is returned as a conflict only if it was the third; success iff one of three attempts is undisturbed and those before it met conflicts; at most 300 ms of pauses, never the final error; the one effective write stored exactly this status and nothing else |
| StatusRetry.Attempt | internal/controller/kubenova_controller.go:206-241 | succeeds iff neither call fails and nobody changes the instance between them, meets a conflict iff somebody does, and then nothing was written |
| StatusRetry.DecidedIffLands | internal/controller/kubenova_controller.go:206-241 | a decided loop has succeeded iff one of the first three attempts stores the status after conflicts only |
| Ensuring.EnsureExists | internal/controller/kubenova_controller.go:346-356 | get, create only what is missing: state, answer and number of calls, whatever the others do and whichever call fails; success means the object was seen stored |
| Ensuring.EnsureData | internal/controller/kubenova_controller.go:394-413 | get, create, or replace the data if it differs, exactly, under any interference and faults; success means the stored data is the wanted one |
| Ensuring.EnsureDeployment | internal/controller/kubenova_controller.go:522-554 | get, create, or read again and write back with the fields copied if they differ, exactly, under any interference and faults; success means the stored Deployment needs no update |
| Steps.TakeBoth | internal/controller/kubenova_controller.go:131-179 | two lists of steps in a row: the second is taken in the state the first leaves, and only if that has not failed |
| Steps.StopsAtFailure | internal/controller/kubenova_controller.go:131-179 | no step after a failure is taken |
| Phases.ReconcileRBAC | internal/controller/kubenova_controller.go:334-375 | account, then binding, stopping at the first failure: state, answer and number of calls exactly; success means both were stored; undisturbed it is the specified effect |
| Phases.LookUpNodeIP | internal/controller/kubenova_controller.go:968-979 | the rule's address, or nothing when the list cannot be read |
| Phases.GetWebNodePort | internal/controller/kubenova_controller.go:419-465 | the port for the Service as read, or for none if the read fails; no call outside nodeport mode |
| Phases.ReconcileSecret | internal/controller/kubenova_controller.go:378-416 | success means the Secret is stored with the data for the nodes as listed by the first call and the Service as read by the second, or for none where that call failed |
| Phases.ReconcileConfigMaps | internal/controller/kubenova_controller.go:468-503 | the seven in their order, stopping at the first failure, exactly; success means all were stored with their content |
| Phases.DeployService | internal/controller/kubenova_controller.go:515-573 | Deployment, then Service, exactly; success means the Deployment was stored as its manifest has it, and the Service is there |
| Phases.ReconcileServices | internal/controller/kubenova_controller.go:506-577 | every enabled backend once, in whatever order the map yields, up to the first that fails, exactly; each stored as its manifest has it; the phase in memory is Creating |
| Phases.ReconcileWeb | internal/controller/kubenova_controller.go:580-693 | nginx ConfigMap, Deployment, Service and Ingress in this order, stopping at the first failure, exactly; ConfigMap and Deployment stored with the specification's content |
| Readiness.UpdateWebURL | internal/controller/kubenova_controller.go:902-946 | the address for the Service as read by the first call and the nodes as listed by the second; no call outside nodeport mode |
| Readiness.UpdateAccessInfo | internal/controller/kubenova_controller.go:895-966 | every field of the access information, in the specification's own fields; entries of other services and, without telemetry, the Jaeger address are kept |
| Readiness.CheckBackends | internal/controller/kubenova_controller.go:800-841 | the i-th reading is what the i-th call found, or nothing iff it failed or found none; entries of read Deployments are replaced, all others keep their value |
| Readiness.CheckComponentStatus | internal/controller/kubenova_controller.go:794-893 | one reading per Deployment, each by its own call; Ready iff every one that was read has ready equal to desired, with the matching condition and all others kept; access information as read; it succeeds iff this status can be stored, whichever reads failed |
| Finalizing.AddFinalizer | internal/controller/kubenova_controller.go:90-98 | succeeds iff the call does not fail and nobody has changed the instance since it was read, and then the finalizer was added to exactly that instance |
| Finalizing.MarkDeleting | internal/controller/kubenova_controller.go:252-254 | the status is stored iff the retry can land it; where and when it was stored; the deletion stays protected either way |
| Finalizing.DeleteBinding | internal/controller/kubenova_controller.go:256-266 | blind iff the lookup failed and the binding was there, and then it goes on; after success the binding is there iff it was blind |
| Finalizing.Release | internal/controller/kubenova_controller.go:256-274 | binding and finalizer together |
| Finalizing.DropFinalizer | internal/controller/kubenova_controller.go:268-274 | succeeds iff the call does not fail and meets the version last refreshed, of the very instance that was read, with all foreign finalizers still there; then the finalizer is dropped and the copy's specification and labels are written back |
| Finalizing.LostIffEditedBeforeTheRefresh | internal/controller/kubenova_controller.go:210-240 | in a history whose last step is such a removal, every state since the read shows what is left iff no step between the read and the refresh changed specification or labels |
| Finalizing.UnchangedSinceRefresh | internal/controller/kubenova_controller.go:270-274 | nothing was stored between the refresh and the removal, because the version was still the same |
| Finalizing.ReconcileDelete | internal/controller/kubenova_controller.go:248-278 | it finishes iff no call after the lookup fails and the last write meets the version refreshed, whatever failed before; a finished deletion orphans the binding iff it was there and its lookup failed, and loses nothing of a surviving instance iff nobody edited it between the read and the last refresh; which lapses it admits; where its status was stored |
| Reconciling.ReconcileValidation | internal/controller/kubenova_controller.go:282-314 | phase and condition in memory only, and the first section rejected |
| Reconciling.ReconcileNamespace | internal/controller/kubenova_controller.go:317-331 | success iff the call did not fail and the namespace is there, and then it was seen |
| Reconciling.StoreFailure | internal/controller/kubenova_controller.go:111-119 | Failed at the generation read, stored if the retry succeeds, which undisturbed it does |
| Reconciling.FailedStatusSays | internal/controller/kubenova_controller.go:111-128 | that status shows Failed and whether the specification was accepted, at the generation read, and keeps everything else |
| Reconciling.DeployPhases | internal/controller/kubenova_controller.go:131-179 | phases 3 to 7 are one list of steps, taken in order up to the first that fails: state, answer and number of calls exactly, whatever the others do and whichever calls fail; success means every required object was seen stored with the specification's content and, without meddling, is still there; undisturbed it is the specified effect |
| Reconciling.DeployAccepted | internal/controller/kubenova_controller.go:121-179 | a completed round of phases 2 to 7 leaves the evidence that a later Ready rests on; undisturbed, it ends at the namespace iff that is missing |
| Reconciling.RunAccepted | internal/controller/kubenova_controller.go:121-191 | a round that gets as far as the status leaves that evidence; undisturbed it stores a truthful status, or Failed if the namespace is missing |
| Reconciling.ReconcileLive | internal/controller/kubenova_controller.go:108-191 | outcomes of a round for a live instance: rejected iff not accepted; undisturbed, what a rejected round or one without namespace stores |
| Reconciling.Reconcile | internal/controller/kubenova_controller.go:69-192 | what is read decides what the round does, each outcome iff: failed read, gone, deletion, finalizer, skip; an instance without the finalizer gets it iff the call does not fail and nobody has changed it; a skip changes nothing; a finished deletion orphans the binding iff its lookup failed while it was there; each lapse has its cause; undisturbed the round is rejected, misses the namespace or deploys everything, each iff, and stores a status that says so |
| Reconciling.Operate | internal/controller/kubenova_controller.go:69-192 | any number of rounds: every state is sound, no blind removal without faults, and once a round can be skipped all are, without a write, while generation and deletion mark stay |
| Reconciling.CurrentAllAlong | internal/controller/kubenova_controller.go:100-106 | an instance current at both ends of a stretch of history was current throughout |
| Convergence.RunApplies | internal/controller/kubenova_controller.go:131-179 | an undisturbed run brings exactly the required keys into their state, each from what was stored under it alone |
| Convergence.RunAddsWhatIsMissing | internal/controller/kubenova_controller.go:334-693 | the stored keys grow by exactly the required ones; existing accounts, bindings, Services and Ingresses stay |
| Convergence.LeftoverAccountIsRelied | internal/controller/kubenova_controller.go:346-356 | a first run keeps the ServiceAccount of an earlier instance, with its owner, and deploys backends that need it |
| Convergence.OrderDoesNotMatter | internal/controller/kubenova_controller.go:513-573 | any two orders of the services give the same stored objects |
| Convergence.SecondRunChangesOnlyTheSecret | internal/controller/kubenova_controller.go:378-412 | the second run changes nothing but the Secret's data, and that iff the Service now found gives another proxy endpoint |
| Convergence.FirstRunHalfSettles | internal/controller/kubenova_controller.go:334-693 | after the first run every required object but the Secret is in its final state, whatever was stored at first |
| Convergence.HalfSettledRunSettles | internal/controller/kubenova_controller.go:334-693 | a run from there settles the Secret too |
| Convergence.SecondRunSettles | internal/controller/kubenova_controller.go:334-693 | after the second run every required object is in its final state |
| Convergence.SettledWhateverIsReady | internal/controller/kubenova_controller.go:540-548 | being settled does not depend on how many replicas are ready |
| Convergence.SettledRunRewritesOnlyWhatDrifts | internal/controller/kubenova_controller.go:513-651 | later runs change nothing; they write the backends that drift, in the order visited, and the web Deployment |
| Convergence.DriftsIffNotCanonical | internal/controller/kubenova_controller.go:757-759 | in a settled store a backend drifts iff its resources are not in the form the store gives them |
| Convergence.RunKeepsStoreForm | internal/controller/kubenova_controller.go:540-548 | what is stored stays in the store's form |
| Convergence.BuiltServiceIsPublished | internal/builder/web.go:242-311 | the nodeport Service, once its ports are allocated, has distinct allocated ports and `https` iff enabled |
| Convergence.SettledAddressesAgree | internal/controller/kubenova_controller.go:895-946 | in a settled store the Secret's proxy endpoint is the web address plus the path, in both modes |
| Convergence.GuessIsRightIff | internal/controller/kubenova_controller.go:428-442 | the first Secret agrees with the Service its run creates iff the configured http port, or 30080, is the port reached: the https one if HTTPS is enabled, as configured or allocated |
| Convergence.GuessCanBeWrong | internal/controller/kubenova_controller.go:428-442 | an accepted specification for which it never agrees |
| Delivery.WhatIsRequired | internal/builder/service.go:42-155 | which keys a completed round has put in place, kind by kind: a backend iff its section does not switch it off, an Ingress iff ingress mode is configured, the binding under its name |
| Delivery.AllBackendsByDefault | api/v1/kubenova_types.go:693-701 | without any service section all seven Deployments and Services are required |
| Delivery.ShownBackendRuns | internal/controller/kubenova_controller.go:522-554 | a stored backend that shows its manifest has the image, the literal values, the resources or their stored form, the mount paths, the volume names, the account and the replica count the specification asks for |
| Delivery.ShownWebRuns | internal/controller/kubenova_controller.go:616-651 | likewise every field of the web Deployment but the account |
| Delivery.RunDelivers | internal/controller/kubenova_controller.go:131-179 | an undisturbed run delivers all this from any store: every backend that is not switched off, the web front end, the Secret key by key and the configurations |
| Delivery.MissingIsCreatedAsAsked | internal/controller/kubenova_controller.go:334-693 | accounts, bindings, Services and Ingresses that are missing are created as the specification asks, those that are there stay as they are |
| Delivery.EvidenceDelivers | internal/controller/kubenova_controller.go:131-179 | the evidence of a completed round under any interference is that each of these was seen in the store, as asked |
| Delivery.SkippedIsDelivered | internal/controller/kubenova_controller.go:100-106 | behind every skip, everything this very specification asks for has been in the store since its generation was read |
| Delivery.EqualManifestsIffSameAsked | internal/controller/kubenova_controller.go:696-791 | the manifests of two specifications compare equal iff they ask for the same replicas, image, values, number of variables, resources and certificates |
| Delivery.EditReachesBackendIff | internal/controller/kubenova_controller.go:522-554 | a run brings a backend that runs one specification up to another iff that asks for something else; otherwise it leaves it as it is |
| Delivery.QuietEdits | internal/controller/kubenova_controller.go:777-791 | edits of pull policy, pull secrets or the name of the certificate Secret alone are among those that do not reach it |
| Delivery.RewrittenIsAsAsked | internal/controller/kubenova_controller.go:540-548 | a backend that is rewritten gets these too, and the pod's other fields stay |
| Settling.SettleOnce | internal/controller/kubenova_controller.go:69-192 | an undisturbed round is a skip or a run that delivers what the specification asks for; Ready after it means every enabled backend and the web front end exist with as many replicas ready as wanted |
| Settling.TwoRoundsSettle | internal/controller/kubenova_controller.go:69-192 | after two deploying rounds no object changes any more, but for readiness others report, and only what drifts is written |
| Settling.SettledDrift | internal/controller/kubenova_controller.go:757-759 | then exactly the enabled backends without canonical resources drift |
| Settling.SkipFreezes | internal/controller/kubenova_controller.go:100-106 | after a skip nothing but readiness changes, settled or not |
| Settling.ReportsAreAllowed | internal/controller/kubenova_controller.go:794-841 | a Deployment controller's report is interference of the kind admitted between rounds |
| Settling.Settle | internal/controller/kubenova_controller.go:69-192 | any number of rounds with readiness reported in between, whatever form the store gives quantities: what the specification asks for is there after one, fixpoint after two, later only the web Deployment and the backends without canonical resources written, stored Secret and stored status agree on the address |
| Settling.SettleFromCreation | internal/controller/kubenova_controller.go:69-192 | from an instance nobody has adopted yet: the first round adds the finalizer and nothing else, the second delivers everything, and the rest is as for Settle |
| Bindings.SameBindingIffSameQualifiedName | internal/builder/rbac.go:48-51 | two instances share a binding iff `namespace-name` is the same text |
| Bindings.BindingsAreSeparate | internal/builder/rbac.go:48-51 | different instances have different bindings within a namespace and between namespaces without hyphens |
| Bindings.BindingsCanCoincide | internal/builder/rbac.go:48-51 | two different instances with one binding |
| Bindings.WorkersMoveOnlyTheirOwnBinding | internal/controller/kubenova_controller.go:258-266 | the binding a worker creates and the one it deletes have the same name, and it touches no other |
| Bindings.NobodyElseTouchesTheBinding | internal/controller/kubenova_controller.go:258-266 | in every run of any number of separate instances a binding changes only by its own instance's steps |
| Bindings.OtherWorkersAreInterference | internal/controller/kubenova_controller.go:258-266 | a step of another namespace's worker is, from here, peaceful interference, and both go on seeing the same bindings, as long as they share none |
| Bindings.DeletingRemovesAnotherIffShared | internal/controller/kubenova_controller.go:260-266 | the call that deletes one instance's binding removes another's iff the two share it |
| Bindings.DeleteAnother | internal/controller/kubenova_controller.go:256-266 | so does the worker of that instance, when it deletes undisturbed |
| Checksums.Serialize | internal/builder/common.go:49-63 | the text written is the canonical one of the data, in whatever order the map is iterated |
| Checksums.SerializationIsUnique | internal/builder/common.go:49-63 | the canonical text depends on the data only |
| Checksums.SortAscends | internal/builder/common.go:54-54 | the sorted keys are strictly ascending |
| Checksums.SerializationIsRecoverable | internal/builder/common.go:49-63 | the parser recovers the data iff no key contains `=` and no value a newline |
| Checksums.UncleanDataCollide | internal/builder/common.go:49-63 | without either condition two different maps share a text |
| Checksums.Checksum | internal/builder/common.go:44-68 | the hash of the canonical text, or the empty string for missing data |
| Checksums.SplitInvertsJoin | internal/builder/common.go:104-105 | the join is undone by splitting iff the list is not empty and no part contains the separator |
| Checksums.ListChecksum | internal/builder/common.go:98-108 | the hash of the join of the checksums in the order of the list |
| Checksums.ListChecksumIsInjective | internal/builder/common.go:98-108 | equal list checksums of clean data mean equal lists, or the hash collides on the two joins, or on the texts of the maps at some position |
| DeepCopies.AccessRef.DeepCopyInto | api/v1/zz_generated.deepcopy.go:30-39 | the copy says the same, has a map of its own, and only the target is written |
| DeepCopies.CopyServices | api/v1/zz_generated.deepcopy.go:105-120 | entry by entry: nil entries stay nil, all others get new targets with the same value |
| DeepCopies.CopyComponents | api/v1/zz_generated.deepcopy.go:83-126 | every pointer and map reachable is new, and they say the same |
| DeepCopies.StatusGraph.DeepCopyInto | api/v1/zz_generated.deepcopy.go:320-336 | the copy says the same and everything reachable through it is new, even when the copy is written over its source |
| DeepCopies.SeparateComponentsDoNotInterfere | api/v1/zz_generated.deepcopy.go:83-126 | writes to other objects do not change what the pointers lead to |
| DeepCopies.SeparateAccessDoesNotInterfere | api/v1/zz_generated.deepcopy.go:30-39 | writes to other objects do not change the access information |

## Left out

Assumptions about the surroundings:

- Reads are linearizable: the informer cache and its staleness are not modelled.
- One worker per object, as the work queue of controller-runtime guarantees.
- Only the operator writes the status, its own finalizer and the bindings named after instances.
- The API server's defaulting preserves the compared fields other than resource quantities, which it may rewrite into a form of its own, always the same for the same text.
- SetControllerReference does not fail, and a controller reference is modelled as the owner's uid.
- Garbage collection of owned objects is an action of the others, as is what the Deployment controller reports. It counts as meddling, because it can take away what a later instance relies on (LeftoverAccountIsRelied).
- A lookup answers NotFound only when the object is absent; all other errors of the server are one error.

Parts of the repository:

- Logging, events, metrics, leader election, flags and the manager's setup, including the watches of SetupWithManager.
- Requeue delays and the clock: timestamps, transition times and message texts of the status.
- The text of the ConfigMaps (configmap.go, nginx.go): a backend's is a constant of its name, nginx's a function of the two sections its template reads.
- Labels, probes, affinity, security contexts and update strategies of the manifests: constants that no code compares.
- GetMinIOEndpointForBackend without node information, connection strings and the validators nobody calls.
- Widths of integers: no value is computed with, they are compared and printed only.

Contracts that say less than they could:

- Reconciling.Reconcile: does not model the requeue delay it returns, which is wall-clock time; the outcome stands for the pair of result and error.
- Reconciling.DeployPhases: joins the five blocks of phases 3 to 7, whose error handling is the same but for the message.
- Validation.ValidateKubeNova: strings are sequences of characters, so the lengths of the JWT secrets are counted in characters, where the source counts bytes.
- Runs.PrerequisitesAreStored: gives no guarantee about the nginx ConfigMap once a specification has named the operator's own as the user's, because the operator then does not create it.
- Drift.DeploymentSpecEqual: compares quantities by their text, where the source compares their parsed representations; absent and empty lists are told apart.
- Convergence.DriftsIffNotCanonical: is about a Deployment stored in the store's form, which RunKeepsStoreForm keeps if rewriting twice is rewriting once.
- Bindings.OtherWorkersAreInterference: is about a worker of another namespace; two instances in one namespace write the same objects.
- Settling.Settle: admits only readiness reports, and only between rounds, because a report between a read and a write makes the write conflict and the round fail; says nothing about the Secret when the second round is skipped, because then the guessed port may stay, as SkipFreezes and GuessIsRightIff say.
- Checksums.Checksum: takes the hash as a parameter and treats the bytes of a Secret as characters.
- Checksums.Serialize: the library's sort is a function here; only its result matters.
- DeepCopies.StatusGraph.DeepCopyInto: message and time fields of a component's status are part of one value.
