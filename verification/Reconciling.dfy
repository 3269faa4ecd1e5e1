/** The reconcile loop (Reconcile in internal/controller/kubenova_controller.go): one worker, any number of
    rounds, arbitrary interference and faults between its calls. */
module Reconciling {
  import opened Types
  import opened Builders
  import opened Endpoints
  import opened Validation
  import opened Statuses
  import opened Nodes
  import opened Protocol
  import opened Runs
  import opened Cluster
  import opened Deploy
  import opened Ensuring
  import opened StatusRetry
  import opened Phases
  import opened Steps
  import opened Readiness
  import opened Finalizing

  // ---------- phases 1 to 7 ----------

  /** The status in memory after validation, nothing of which is stored yet. */
  function Validated(status: Status, spec: Spec, generation: nat): Status {
    Mark(SetPhase(status, Validating, generation), ValidatedCondition, Accepted(spec), generation)
  }

  lemma ValidatedKeepsConditions(status: Status, spec: Spec, generation: nat)
    requires OnePerType(status.conditions)
    ensures OnePerType(Validated(status, spec, generation).conditions)
    ensures Accepted(spec) ==>
      Condition(ValidatedCondition, true, generation) in Validated(status, spec, generation).conditions
  {
    SetConditionMembers(status.conditions, Condition(ValidatedCondition, Accepted(spec), generation));
  }

  method ReconcileValidation(kn: Instance) returns (error: Option<Section>)
    modifies kn
    ensures kn.meta == old(kn.meta) && kn.spec == old(kn.spec)
    ensures kn.status == Validated(old(kn.status), kn.spec, kn.meta.generation)
    ensures error == ValidateKubeNova(kn.spec) && (error.None? <==> Accepted(kn.spec))
    ensures kn.status.phase == Validating && kn.status.observedGeneration == kn.meta.generation
    ensures Condition(ValidatedCondition, error.None?, kn.meta.generation) in kn.status.conditions
  {
    SetConditionMembers(kn.status.conditions, Condition(ValidatedCondition, Accepted(kn.spec), kn.meta.generation));
    kn.status := SetPhase(kn.status, Validating, kn.meta.generation);
    error := ValidateKubeNova(kn.spec);
    if error.Some? {
      kn.status := Mark(kn.status, ValidatedCondition, false, kn.meta.generation);
      return;
    }
    kn.status := Mark(kn.status, ValidatedCondition, true, kn.meta.generation);
  }

  method ReconcileNamespace(api: ApiServer, kn: Instance) returns (r: Result<()>)
    requires api.Valid() && InCharge(api.lapses, api.world, kn.meta, kn.spec)
    modifies api
    ensures api.Valid() && Progress(api.id, old(api.Snap()), api.Snap(), kn.meta, kn.spec)
    ensures api.writes == old(api.writes)
    ensures r.Ok? <==> old(api.Fails()) == NoFault && NamespaceKey in api.world.objects
    ensures r.Ok? ==> Done(api.id, old(api.Snap()), api.Snap(), kn.meta, kn.spec, {NamespaceKey})
    ensures api.Quiet() ==> api.world == old(api.world)
  {
    hide InCharge, Progress, IsRun, Inv, Evidence, ForeignStep, OperatorStep, WellFormed, Done;
    ghost var s0 := api.Snap();
    var found := Look(api, NamespaceKey, kn.meta, kn.spec);
    api.Now();
    KeysHaveVersions(api.world, NamespaceKey);
    ProgressOnly(api.id, s0, api.Snap(), kn.meta, kn.spec);
    if found.Ok? {
      DoneNow(api.id, s0, api.Snap(), kn.meta, kn.spec, NamespaceKey);
    }
    r := if found.Ok? then Ok(()) else Err(found.error);
  }

  /** Everything the phases before the services provide. */
  function EarlyKeys(id: Id): set<Key> {
    RBACKeys(id) + {SecretKey} + ConfigMapKeys()
  }

  lemma EarlyKeysProvide(id: Id, s0: Snapshot, s1: Snapshot, meta: ObjectMeta, spec: Spec)
    requires Done(id, s0, s1, meta, spec, EarlyKeys(id))
    ensures Provided(id, s1.lapses, s1.world)
  {
    hide InCharge;
  }

  /** RBAC, Secret and ConfigMaps. */
  method DeployFoundations(api: ApiServer, kn: Instance)
    returns (r: Result<()>, ghost nodeIP: string, ghost nodePort: int)
    requires api.Valid() && InCharge(api.lapses, api.world, kn.meta, kn.spec)
    modifies api
    ensures api.Valid() && Progress(api.id, old(api.Snap()), api.Snap(), kn.meta, kn.spec)
    ensures r.Ok? ==> Done(api.id, old(api.Snap()), api.Snap(), kn.meta, kn.spec, EarlyKeys(api.id))
    ensures Ending(api.world, r, api.calls)
            == TakeAll(api, old(api.calls), old(api.world),
                       FoundationSteps(api.id, kn.meta.uid, kn.spec, nodeIP, nodePort))
    ensures api.Quiet() ==>
      r.Ok? && Undisturbed(old(api.world), api.world)
      && StageOf(api)
         == DeployConfigMaps(DeploySecret(DeployRBAC(old(StageOf(api)), api.admission, api.id, kn.meta.uid),
                                          kn.meta.uid, kn.spec, NodeIP(old(api.world.nodes))),
                             kn.meta.uid, BACKENDS)
  {
    hide InCharge, Done, Progress, IsRun, Inv, Evidence, ForeignStep, OperatorStep, WellFormed, NodeIP, DeployRBAC,
      DeploySecret, DeployConfigMaps, RBACKeys, ConfigMapKeys, BACKENDS, TakeAll, RBACSteps, SecretSteps, ConfigSteps;
    ghost var s0 := api.Snap();
    ghost var uid := kn.meta.uid;
    nodeIP, nodePort := "", 0;
    r := ReconcileRBAC(api, kn);
    if r.Err? {
      TakeThree(api, s0.calls, s0.world, RBACSteps(api.id, uid), SecretSteps(uid, kn.spec, nodeIP, nodePort),
                ConfigSteps(uid, BACKENDS));
      return;
    }
    ghost var s1 := api.Snap();
    DoneIsProgress(api.id, s0, s1, kn.meta, kn.spec, RBACKeys(api.id));
    r, nodeIP, nodePort := ReconcileSecret(api, kn);
    TakeThree(api, s0.calls, s0.world, RBACSteps(api.id, uid), SecretSteps(uid, kn.spec, nodeIP, nodePort),
              ConfigSteps(uid, BACKENDS));
    ghost var s2 := api.Snap();
    ProgressIsTransitive(api.id, s0, s1, s2, kn.meta, kn.spec);
    if r.Err? {
      return;
    }
    DoneComposes(api.id, s0, s1, s2, kn.meta, kn.spec, RBACKeys(api.id), {SecretKey});
    DoneIsProgress(api.id, s0, s2, kn.meta, kn.spec, RBACKeys(api.id) + {SecretKey});
    r := ReconcileConfigMaps(api, kn);
    ProgressIsTransitive(api.id, s0, s2, api.Snap(), kn.meta, kn.spec);
    if r.Ok? {
      DoneComposes(api.id, s0, s2, api.Snap(), kn.meta, kn.spec, RBACKeys(api.id) + {SecretKey}, ConfigMapKeys());
    }
  }

  lemma PhasesCoverRequirements(id: Id, spec: Spec)
    ensures RequiredKeys(id, spec) == EarlyKeys(id) + ServiceKeys(EnabledBackends(spec)) + WebKeys(spec)
  {
    hide RBACKeys, ConfigMapKeys, ServiceKeys, WebKeys;
  }

  /** Phases 3 to 7. Their caller treats a failure of any of them alike. */
  method DeployPhases(api: ApiServer, kn: Instance)
    returns (r: Result<()>, ghost order: seq<Component>, ghost nodeIP: string, ghost nodePort: int)
    requires api.Valid() && InCharge(api.lapses, api.world, kn.meta, kn.spec) && OwnsNginxConfig(api.lapses, kn.spec)
    modifies api, kn
    ensures kn.meta == old(kn.meta) && kn.spec == old(kn.spec)
    ensures kn.status == old(kn.status).(phase := kn.status.phase, observedGeneration := kn.status.observedGeneration)
    ensures api.Valid() && Progress(api.id, old(api.Snap()), api.Snap(), kn.meta, kn.spec)
    ensures r.Ok? ==>
      Lists(order, EnabledBackends(kn.spec))
      && Done(api.id, old(api.Snap()), api.Snap(), kn.meta, kn.spec, RequiredKeys(api.id, kn.spec))
    // Which calls were made, to what effect, and that the round has stopped at the first step that failed.
    ensures Ending(api.world, r, api.calls)
            == TakeAll(api, old(api.calls), old(api.world),
                       AllSteps(api.id, kn.meta.uid, kn.spec, nodeIP, nodePort, order))
    ensures api.Quiet() ==>
      r.Ok? && Undisturbed(old(api.world), api.world)
      && StageOf(api) == DeployAll(old(StageOf(api)), api.admission, api.id, kn.meta.uid, kn.spec,
                                   NodeIP(old(api.world.nodes)), order)
  {
    hide InCharge, Done, Progress, IsRun, Inv, Evidence, ForeignStep, OperatorStep, WellFormed, NodeIP, EarlyKeys,
      ServiceKeys, WebKeys, RequiredKeys, DeployRBAC, DeploySecret, DeployConfigMaps, DeployBackends, DeployWeb,
      BACKENDS, EnabledBackends, Lists, TakeAll, FoundationSteps, ServiceSteps, WebSteps;
    order := [];
    ghost var s0 := api.Snap();
    ghost var uid := kn.meta.uid;
    r, nodeIP, nodePort := DeployFoundations(api, kn);
    if r.Err? {
      TakeThree(api, s0.calls, s0.world, FoundationSteps(api.id, uid, kn.spec, nodeIP, nodePort),
                ServiceSteps(uid, kn.spec, order), WebSteps(uid, kn.spec));
      return;
    }
    ghost var s1 := api.Snap();
    DoneIsProgress(api.id, s0, s1, kn.meta, kn.spec, EarlyKeys(api.id));
    EarlyKeysProvide(api.id, s0, s1, kn.meta, kn.spec);
    r, order := ReconcileServices(api, kn);
    TakeThree(api, s0.calls, s0.world, FoundationSteps(api.id, uid, kn.spec, nodeIP, nodePort),
              ServiceSteps(uid, kn.spec, order), WebSteps(uid, kn.spec));
    ghost var s2 := api.Snap();
    ProgressIsTransitive(api.id, s0, s1, s2, kn.meta, kn.spec);
    if r.Err? {
      return;
    }
    ghost var k2 := EarlyKeys(api.id) + ServiceKeys(EnabledBackends(kn.spec));
    DoneComposes(api.id, s0, s1, s2, kn.meta, kn.spec, EarlyKeys(api.id), ServiceKeys(EnabledBackends(kn.spec)));
    DoneIsProgress(api.id, s0, s2, kn.meta, kn.spec, k2);
    ProgressKeepsCharge(api.id, s0, s2, kn.meta, kn.spec);
    r := ReconcileWeb(api, kn);
    ProgressIsTransitive(api.id, s0, s2, api.Snap(), kn.meta, kn.spec);
    if r.Ok? {
      DoneComposes(api.id, s0, s2, api.Snap(), kn.meta, kn.spec, k2, WebKeys(kn.spec));
      PhasesCoverRequirements(api.id, kn.spec);
    }
  }

  // ---------- one live round ----------

  datatype Outcome =
    | Gone | ReadFailed
    | DeletionDone | DeletionFailed
    | FinalizerAdded | FinalizerFailed
    | Skipped
    | Rejected | NamespaceMissing | DeploymentFailed | StatusFailed
    | Reconciled

  lemma FailureIsStorable(id: Id, s: Snapshot, meta: ObjectMeta, spec: Spec, status: Status)
    requires InCharge(s.lapses, s.world, meta, spec) && OnePerType(status.conditions)
    ensures Storable(id, s, meta, spec, SetPhase(status, Failed, meta.generation))
  {
    hide InCharge;
    FailedStatusIsPersisted(status, meta.generation);
  }

  /** A failed phase is reported if possible; whether the report is stored makes no difference to the round. */
  method StoreFailure(api: ApiServer, kn: Instance) returns (ghost stored: bool)
    requires api.Valid() && InCharge(api.lapses, api.world, kn.meta, kn.spec) && OnePerType(kn.status.conditions)
    modifies api, kn
    ensures api.Valid() && Prefix(old(api.trace), api.trace)
    ensures api.lapses == old(api.lapses) && api.completed == old(api.completed) && api.writes == old(api.writes)
    ensures api.calls > old(api.calls)
    ensures kn.status == SetPhase(old(kn.status), Failed, old(kn.meta.generation)) && kn.spec == old(kn.spec)
    ensures stored ==> Stores(api.world, kn.status)
    ensures stored <==> Lands(api, old(api.calls), old(api.world))
    ensures api.Quiet() ==> stored && SameButStatus(old(api.world.kn), api.world.kn)
  {
    hide InCharge, IsRun, Inv, Evidence, ForeignStep, OperatorStep, WellFormed, Storable, OnePerType, OnlyOthersWrote,
      Lands, Decided, AfterOneAttempt;
    FailureIsStorable(api.id, api.Snap(), kn.meta, kn.spec, kn.status);
    InChargeIsThere(api.lapses, api.world, kn.meta, kn.spec);
    kn.status := SetPhase(kn.status, Failed, kn.meta.generation);
    var r, attempts, slept := UpdateStatusWithRetry(api, kn);
    stored := r.Ok?;
  }

  /** The stored instance shows this status. */
  ghost predicate Stores(w: World, status: Status) {
    w.kn.Some? && w.kn.value.status == status
  }

  lemma InChargeIsThere(l: Lapses, w: World, meta: ObjectMeta, spec: Spec)
    requires InCharge(l, w, meta, spec)
    ensures w.kn.Some?
  {
  }

  lemma DoneIsACompletion(id: Id, s0: Snapshot, s: Snapshot, meta: ObjectMeta, spec: Spec, first: nat)
    requires Done(id, s0, s, meta, spec, EvidenceKeys(id, spec)) && first < |s0.trace| && |s.trace| > 0
    requires s0.trace[first].kn.Some? && Accepted(spec)
    requires var o := s0.trace[first].kn.value;
      o.meta.uid == meta.uid && o.meta.generation == meta.generation && o.spec == spec
    ensures var c := Completion(meta.uid, meta.generation, spec, first, |s.trace| - 1);
      CompletionHolds(s.canon, id, s.trace, c) && Deployed(id, s.(completed := s.completed + {c}), meta, spec)
  {
    hide RequiredKeys, Accepted, InCharge;
    forall k | k in RequiredKeys(id, spec) && !s.lapses.meddled ensures k in s.world.objects {
      if k.BindingKey? {
        RequiredBindingIsOwn(id, spec, k);
      }
    }
    SawAllLater(s.canon, s.trace, s.trace, |s0.trace|, first, spec, EvidenceKeys(id, spec));
    var c := Completion(meta.uid, meta.generation, spec, first, |s.trace| - 1);
    assert c in s.completed + {c};
  }

  /** Phases 2 to 7 of an accepted specification, and the evidence they leave. */
  method DeployAccepted(api: ApiServer, kn: Instance, ghost first: nat)
    returns (outcome: Outcome, ghost order: seq<Component>)
    requires api.Valid() && InCharge(api.lapses, api.world, kn.meta, kn.spec) && OwnsNginxConfig(api.lapses, kn.spec)
    requires Accepted(kn.spec) && first < |api.trace| && api.trace[first].kn.Some?
    requires var o := api.trace[first].kn.value;
      o.meta.uid == kn.meta.uid && o.meta.generation == kn.meta.generation && o.spec == kn.spec
    modifies api, kn
    ensures api.Valid() && Prefix(old(api.trace), api.trace)
    ensures api.lapses == old(api.lapses) && old(api.completed) <= api.completed
    ensures InCharge(api.lapses, api.world, kn.meta, kn.spec) && api.calls >= old(api.calls)
    ensures kn.meta == old(kn.meta) && kn.spec == old(kn.spec)
    ensures kn.status == old(kn.status).(phase := kn.status.phase, observedGeneration := kn.status.observedGeneration)
    ensures outcome in {NamespaceMissing, DeploymentFailed, Reconciled}
    ensures outcome == NamespaceMissing ==> api.writes == old(api.writes)
    ensures outcome == Reconciled ==>
      Lists(order, EnabledBackends(kn.spec)) && Deployed(api.id, api.Snap(), kn.meta, kn.spec)
    ensures api.Quiet() ==> (outcome == NamespaceMissing <==> NamespaceKey !in old(api.world.objects))
    ensures api.Quiet() && outcome == NamespaceMissing ==> api.world == old(api.world)
    ensures api.Quiet() && NamespaceKey in old(api.world.objects) ==>
      outcome == Reconciled && Undisturbed(old(api.world), api.world)
      && StageOf(api) == DeployAll(old(StageOf(api)), api.admission, api.id, kn.meta.uid, kn.spec,
                                   NodeIP(old(api.world.nodes)), order)
  {
    hide InCharge, Done, Progress, IsRun, Inv, Evidence, ForeignStep, OperatorStep, WellFormed, NodeIP, RequiredKeys,
      DeployAll, EnabledBackends, Lists, OwnsNginxConfig, Deployed, CompletionHolds, Accepted, TakeAll, AllSteps;
    order := [];
    ghost var s0 := api.Snap();
    var r := ReconcileNamespace(api, kn);
    ghost var s1 := api.Snap();
    ProgressKeepsCharge(api.id, s0, s1, kn.meta, kn.spec);
    if r.Err? {
      return NamespaceMissing, order;
    }
    OwnsNginxConfigStill(s0.lapses, s1.lapses, kn.spec);
    ghost var nodeIP, nodePort;
    r, order, nodeIP, nodePort := DeployPhases(api, kn);
    ghost var s2 := api.Snap();
    ProgressIsTransitive(api.id, s0, s1, s2, kn.meta, kn.spec);
    ProgressKeepsCharge(api.id, s0, s2, kn.meta, kn.spec);
    if r.Err? {
      return DeploymentFailed, order;
    }
    DoneComposes(api.id, s0, s1, s2, kn.meta, kn.spec, {NamespaceKey}, RequiredKeys(api.id, kn.spec));
    DoneIsACompletion(api.id, s0, s2, kn.meta, kn.spec, first);
    api.Completes(Completion(kn.meta.uid, kn.meta.generation, kn.spec, first, |s2.trace| - 1));
    outcome := Reconciled;
  }

  /** What a round stores that gets no further than validation or the namespace. */
  function FailedStatus(status: Status, spec: Spec, generation: nat): Status {
    SetPhase(Validated(status, spec, generation), Failed, generation)
  }

  /** It says Failed at the generation read, and whether the specification was accepted there. */
  lemma FailedStatusSays(status: Status, spec: Spec, generation: nat)
    ensures var s := FailedStatus(status, spec, generation);
      s.phase == Failed && s.observedGeneration == generation
      && Condition(ValidatedCondition, Accepted(spec), generation) in s.conditions
      && (forall d :: d in status.conditions && d.kind != ValidatedCondition ==> d in s.conditions)
      && s.services == status.services && s.web == status.web && s.access == status.access
  {
    hide Accepted;
    SetConditionMembers(status.conditions, Condition(ValidatedCondition, Accepted(spec), generation));
  }

  /** The specification names the operator's own nginx ConfigMap as the user's. */
  predicate NamesOwnConfig(spec: Spec) {
    spec.web.customNginxConfigMap == ConfigMapName(WebFrontend)
  }

  ghost predicate AllDeployed(w: World) {
    AllReady(ReadAll(w, ALL_DEPLOYMENTS))
  }

  /** Ready iff every stored Deployment is ready, and the address under which the web front end is reached;
      `before` is the status of the round before. */
  ghost predicate TruthfulStatus(status: Status, w: World, spec: Spec, before: Status) {
    && (status.phase == Ready <==> AllDeployed(w))
    && status.access.Some? && status.access.value.webURL == CurrentURL(w, spec, before)
  }

  lemma SameObjectsLookTheSame(w: World, w': World, spec: Spec, status: Status, status': Status)
    requires w.objects == w'.objects && w.nodes == w'.nodes && status.access == status'.access
    ensures ReadAll(w, ALL_DEPLOYMENTS) == ReadAll(w', ALL_DEPLOYMENTS)
    ensures CurrentURL(w, spec, status) == CurrentURL(w', spec, status')
  {
    hide BACKENDS, WebURL, NodeIP;
  }

  /** Phases 2 to 8 of an accepted specification. */
  method RunAccepted(api: ApiServer, kn: Instance, ghost first: nat)
    returns (outcome: Outcome, ghost order: seq<Component>)
    requires api.Valid() && InCharge(api.lapses, api.world, kn.meta, kn.spec) && OwnsNginxConfig(api.lapses, kn.spec)
    requires Accepted(kn.spec) && first < |api.trace| && api.trace[first].kn.Some?
    requires var o := api.trace[first].kn.value;
      o.meta.uid == kn.meta.uid && o.meta.generation == kn.meta.generation && o.spec == kn.spec
    requires OnePerType(kn.status.conditions)
    requires Condition(ValidatedCondition, true, kn.meta.generation) in kn.status.conditions
    modifies api, kn
    ensures api.Valid() && Prefix(old(api.trace), api.trace) && old(api.completed) <= api.completed
    ensures api.calls > old(api.calls) && api.lapses == old(api.lapses) && kn.spec == old(kn.spec)
    ensures outcome in {NamespaceMissing, DeploymentFailed, StatusFailed, Reconciled}
    ensures outcome == NamespaceMissing ==> api.writes == old(api.writes)
    ensures outcome in {StatusFailed, Reconciled} ==>
      Lists(order, EnabledBackends(kn.spec))
      && CompletedBefore(api.completed, old(kn.meta.uid), old(kn.meta.generation), |api.trace|)
    ensures outcome == Reconciled ==>
      api.world.kn.Some? && api.world.kn.value.status == kn.status && kn.status.phase in {Ready, Creating}
    ensures api.Quiet() ==> (outcome == NamespaceMissing <==> NamespaceKey !in old(api.world.objects))
    ensures api.Quiet() && outcome == NamespaceMissing ==>
      Stores(api.world, SetPhase(old(kn.status), Failed, old(kn.meta.generation)))
    ensures api.Quiet() && NamespaceKey in old(api.world.objects) ==>
      outcome == Reconciled && api.world.nodes == old(api.world.nodes)
      && StageOf(api) == DeployAll(old(StageOf(api)), api.admission, api.id, old(kn.meta.uid), kn.spec,
                                   NodeIP(old(api.world.nodes)), order)
      && TruthfulStatus(kn.status, api.world, kn.spec, old(kn.status)) && SameButStatus(old(api.world.kn), api.world.kn)
  {
    hide InCharge, IsRun, Inv, Evidence, ForeignStep, OperatorStep, WellFormed, NodeIP, RequiredKeys, DeployAll,
      EnabledBackends, Lists, Deployed, Accepted, OnePerType, SetCondition, AllReady, ReadAll, BACKENDS,
      ALL_DEPLOYMENTS, Recorded, ReadInTurn, TellsAccess, URLRead, URLCalls, Lands, StateOf, CurrentURL,
      ConfigMapName, CompletedBefore;
    outcome, order := DeployAccepted(api, kn, first);
    if outcome != Reconciled {
      ghost var stored := StoreFailure(api, kn);
      return;
    }
    ghost var s, status := api.Snap(), kn.status;
    ghost var meta := kn.meta;
    var r, readings := CheckComponentStatus(api, kn);
    DeployedIsEvidence(api.id, s, meta, kn.spec, |api.trace|);
    if api.world.objects == s.world.objects && api.world.nodes == s.world.nodes {
      SameObjectsLookTheSame(s.world, api.world, kn.spec, status, old(kn.status));
    }
    if r.Err? {
      outcome := StatusFailed;
    }
  }

  lemma DeployedIsEvidence(id: Id, s: Snapshot, meta: ObjectMeta, spec: Spec, at: nat)
    requires Deployed(id, s, meta, spec) && |s.trace| <= at
    ensures CompletedBefore(s.completed, meta.uid, meta.generation, at)
  {
    hide InCharge, RequiredKeys;
  }

  /** A round for an instance that carries the finalizer and is not being deleted. */
  method ReconcileLive(api: ApiServer, kn: Instance) returns (outcome: Outcome, ghost order: seq<Component>)
    requires api.Valid() && InCharge(api.lapses, api.world, kn.meta, kn.spec)
    requires api.world.kn == Some(kn.View()) && OnePerType(kn.status.conditions)
    modifies api, kn
    ensures api.Valid() && Prefix(old(api.trace), api.trace) && old(api.completed) <= api.completed
    ensures api.calls > old(api.calls)
    ensures api.lapses == old(api.lapses).(borrowed :=
      old(api.lapses.borrowed) || (Accepted(old(kn.spec)) && NamesOwnConfig(old(kn.spec))))
    ensures kn.spec == old(kn.spec)
    ensures outcome in {Rejected, NamespaceMissing, DeploymentFailed, StatusFailed, Reconciled}
    ensures outcome == Rejected <==> !Accepted(kn.spec)
    ensures outcome in {Rejected, NamespaceMissing} ==> api.writes == old(api.writes)
    ensures outcome in {StatusFailed, Reconciled} ==>
      Lists(order, EnabledBackends(kn.spec))
      && CompletedBefore(api.completed, old(kn.meta.uid), old(kn.meta.generation), |api.trace|)
    ensures outcome == Reconciled ==>
      api.world.kn.Some? && api.world.kn.value.status == kn.status && kn.status.phase in {Ready, Creating}
    ensures api.Quiet() && outcome in {Rejected, NamespaceMissing} ==>
      Stores(api.world, FailedStatus(old(kn.status), kn.spec, old(kn.meta.generation)))
    ensures api.Quiet() && Accepted(kn.spec) ==>
      (outcome == NamespaceMissing <==> NamespaceKey !in old(api.world.objects))
    ensures api.Quiet() && Accepted(kn.spec) && NamespaceKey in old(api.world.objects) ==>
      outcome == Reconciled && api.world.nodes == old(api.world.nodes)
      && StageOf(api) == DeployAll(old(StageOf(api)), api.admission, api.id, old(kn.meta.uid), kn.spec,
                                   NodeIP(old(api.world.nodes)), order)
      && TruthfulStatus(kn.status, api.world, kn.spec, old(kn.status)) && SameButStatus(old(api.world.kn), api.world.kn)
  {
    hide InCharge, IsRun, Inv, Evidence, ForeignStep, OperatorStep, WellFormed, NodeIP, DeployAll, EnabledBackends,
      Lists, Accepted, OnePerType, SetCondition, TruthfulStatus, ConfigMapName, CompletedBefore;
    order := [];
    ghost var first := |api.trace| - 1;
    ValidatedKeepsConditions(kn.status, kn.spec, kn.meta.generation);
    var error := ReconcileValidation(kn);
    AcceptedIffNoError(kn.spec);
    if error.Some? {
      ghost var stored := StoreFailure(api, kn);
      return Rejected, order;
    }
    if NamesOwnConfig(kn.spec) {
      InChargeIgnoresBorrowing(api.lapses, api.world, kn.meta, kn.spec);
      api.Admits(api.lapses.(borrowed := true));
    }
    ghost var validated := kn.status;
    outcome, order := RunAccepted(api, kn, first);
    TruthIgnoresConditions(kn.status, api.world, kn.spec, validated, old(kn.status));
  }

  lemma TruthIgnoresConditions(status: Status, w: World, spec: Spec, before: Status, before': Status)
    requires before.access == before'.access
    ensures TruthfulStatus(status, w, spec, before) <==> TruthfulStatus(status, w, spec, before')
  {
    hide AllDeployed, WebURL, NodeIP;
  }

  lemma AcceptedIffNoError(spec: Spec)
    ensures Accepted(spec) <==> ValidateKubeNova(spec).None?
  {
  }

  lemma InChargeIgnoresBorrowing(l: Lapses, w: World, meta: ObjectMeta, spec: Spec)
    requires InCharge(l, w, meta, spec)
    ensures InCharge(l.(borrowed := true), w, meta, spec)
  {
  }

  // ---------- one round ----------

  /** What has to hold of the instance for a round to change nothing. */
  predicate Skips(o: KubeNova) {
    !o.meta.deleting && FINALIZER in o.meta.finalizers
    && o.status.observedGeneration == o.meta.generation && o.status.phase == Ready
  }

  lemma ReadIsInCharge(id: Id, l: Lapses, w: World, o: KubeNova)
    requires WellFormed(w) && Inv(id, l, w) && w.kn == Some(o) && !o.meta.deleting && FINALIZER in o.meta.finalizers
    ensures InCharge(l, w, o.meta, o.spec) && OnePerType(o.status.conditions)
  {
  }

  /** The faults of the calls a round has made so far. */
  ghost predicate SomeCallFailed(api: ApiServer, from: nat)
    reads api
  {
    exists n :: from <= n < api.calls && api.fault(n) != NoFault
  }

  /** The stored status of this instance says how things are. */
  ghost predicate Truthful(w: World, o: KubeNova) {
    SameButStatus(Some(o), w.kn) && TruthfulStatus(w.kn.value.status, w, o.spec, o.status)
  }

  /** This call failed to see the binding, which is in the store. */
  ghost predicate FailedToSee(api: ApiServer, lookup: nat, w: World)
    reads api
  {
    api.fault(lookup) != NoFault && Binding(api.id) in w.objects
  }

  /** The finalizer went to exactly the instance that was read. */
  ghost predicate FinalizerJustAdded(trace: seq<World>, from: nat, read: World) {
    |trace| == from + 3 && trace[from + 1].kn == read.kn && AddsFinalizer(trace[from + 1], trace[from + 2])
  }

  /** A run of the worker is on record for the generation that was read. */
  ghost predicate HasEvidence(completed: set<Completion>, read: World, at: nat) {
    read.kn.Some? && CompletedBefore(completed, read.kn.value.meta.uid, read.kn.value.meta.generation, at)
  }

  /** A deletion is stray only without the finalizer, a configuration borrowed only if an accepted specification
      names it, and meddling is never the worker's. */
  ghost predicate OtherLapsesExplained(l: Lapses, l': Lapses, read: World) {
    && l'.meddled == l.meddled
    && (l'.stray && !l.stray ==> read.kn.Some? && read.kn.value.meta.deleting && !Holds(read))
    && (l'.borrowed && !l.borrowed ==>
          read.kn.Some? && Accepted(read.kn.value.spec) && NamesOwnConfig(read.kn.value.spec))
  }

  /** An instance nobody has asked to delete and that does not carry the finalizer yet. */
  ghost predicate Unadopted(w: World) {
    w.kn.Some? && !w.kn.value.meta.deleting && !Holds(w)
  }

  /** The instance has got the finalizer, and nothing else has changed. */
  ghost predicate Adopted(w: World, w': World) {
    && w.kn.Some? && w'.kn.Some?
    && w'.objects == w.objects && w'.nodes == w.nodes
    && w'.kn.value.spec == w.kn.value.spec && w'.kn.value.status == w.kn.value.status
    && w'.kn.value.meta.finalizers == w.kn.value.meta.finalizers + {FINALIZER}
    && w'.kn.value.meta.generation == w.kn.value.meta.generation && w'.kn.value.meta.uid == w.kn.value.meta.uid
    && !w'.kn.value.meta.deleting
  }

  /** What a round does is decided by what it reads. */
  ghost predicate DecidedByRead(outcome: Outcome, f: Fault, read: World) {
    && (outcome == ReadFailed <==> f != NoFault)
    && (outcome == Gone <==> f == NoFault && read.kn.None?)
    && (outcome in {DeletionDone, DeletionFailed} <==>
          f == NoFault && read.kn.Some? && read.kn.value.meta.deleting)
    && (outcome in {FinalizerAdded, FinalizerFailed} <==> f == NoFault && Unadopted(read))
    && (outcome == Skipped <==>
          f == NoFault && read.kn.Some? && !read.kn.value.meta.deleting && Holds(read)
          && read.kn.value.status.phase == Ready
          && read.kn.value.status.observedGeneration == read.kn.value.meta.generation)
  }

  /** Rejected or without a namespace, each iff that is so, and then this is what the stored status says. */
  ghost predicate SaysWhyItEnded(outcome: Outcome, w: World, w': World) {
    w.kn.Some? && var o := w.kn.value;
      (outcome == Rejected <==> !Accepted(o.spec))
      && (outcome == NamespaceMissing <==> Accepted(o.spec) && NamespaceKey !in w.objects)
      && (outcome in {Rejected, NamespaceMissing} ==>
            Stores(w', FailedStatus(o.status, o.spec, o.meta.generation)))
  }

  /** The finalizer is added exactly when the call does not fail and still finds the instance that was read. */
  ghost predicate FinalizerAnswer(api: ApiServer, outcome: Outcome, call: nat, read: World) {
    outcome in {FinalizerAdded, FinalizerFailed} ==>
      (outcome == FinalizerAdded <==> api.fault(call) == NoFault && api.env(call, read).kn == read.kn)
  }

  lemma EndedBecause(outcome: Outcome, w: World, w': World)
    requires w.kn.Some? && (outcome == Rejected <==> !Accepted(w.kn.value.spec))
    requires Accepted(w.kn.value.spec) ==> (outcome == NamespaceMissing <==> NamespaceKey !in w.objects)
    requires var o := w.kn.value;
      outcome in {Rejected, NamespaceMissing} ==> Stores(w', FailedStatus(o.status, o.spec, o.meta.generation))
    ensures SaysWhyItEnded(outcome, w, w')
  {
  }

  lemma ReadDecides(f: Fault, read: World)
    ensures f != NoFault ==> DecidedByRead(ReadFailed, f, read)
    ensures f == NoFault && read.kn.None? ==> DecidedByRead(Gone, f, read)
    ensures f == NoFault && read.kn.Some? && read.kn.value.meta.deleting ==>
      DecidedByRead(DeletionDone, f, read) && DecidedByRead(DeletionFailed, f, read)
    ensures f == NoFault && Unadopted(read) ==>
      DecidedByRead(FinalizerAdded, f, read) && DecidedByRead(FinalizerFailed, f, read)
    ensures f == NoFault && read.kn.Some? && Skips(read.kn.value) ==> DecidedByRead(Skipped, f, read)
    ensures f == NoFault && Live(read) ==>
      forall outcome :: outcome in {Rejected, NamespaceMissing, DeploymentFailed, StatusFailed, Reconciled} ==>
        DecidedByRead(outcome, f, read)
  {
  }

  lemma FinalizerMeansHeld(w: World, w': World)
    ensures AddsFinalizer(w, w') && !w.kn.value.meta.deleting ==> Holds(w') && Adopted(w, w')
  {
  }

  /** One round. `order` is the order in which the services were visited, `lookup` the call by which a deletion
      looked its binding up. */
  method Reconcile(api: ApiServer) returns (outcome: Outcome, ghost order: seq<Component>, ghost lookup: nat)
    requires api.Valid()
    modifies api
    ensures api.Valid() && Prefix(old(api.trace), api.trace) && old(api.completed) <= api.completed
    ensures api.calls > old(api.calls)
    // Which state the round acts on.
    ensures |api.trace| > |old(api.trace)| && api.trace[|old(api.trace)|] == old(api.Before())
    ensures DecidedByRead(outcome, old(api.Fails()), old(api.Before()))
    // An instance without the finalizer gets it, unless the call fails or somebody has changed the instance since.
    ensures FinalizerAnswer(api, outcome, old(api.calls) + 1, old(api.Before()))
    ensures api.Quiet() && Unadopted(old(api.world)) ==>
      outcome == FinalizerAdded && Holds(api.world) && Adopted(old(api.world), api.world)
    // A round that is skipped or reads nothing changes nothing.
    ensures outcome in {Skipped, Gone, ReadFailed} ==>
      api.world == old(api.Before()) && api.trace == old(api.trace) + [api.world]
      && api.writes == old(api.writes) && api.lapses == old(api.lapses)
    ensures outcome == FinalizerAdded ==>
      api.writes == old(api.writes) && FinalizerJustAdded(api.trace, |old(api.trace)|, old(api.Before()))
    // A round that got as far as the status leaves evidence for the generation it read.
    ensures outcome in {StatusFailed, Reconciled} ==>
      HasEvidence(api.completed, old(api.Before()), |api.trace|)
    // Each lapse has its cause in this round.
    ensures Within(old(api.lapses), api.lapses)
    ensures outcome in {DeletionDone, DeletionFailed} ==> old(api.calls) < lookup < api.calls
    ensures api.lapses.blind <==>
      old(api.lapses.blind)
      || (outcome in {DeletionDone, DeletionFailed} && FailedToSee(api, lookup, old(api.Before())))
    ensures api.lapses.blind && !old(api.lapses.blind) ==> SomeCallFailed(api, old(api.calls))
    ensures OtherLapsesExplained(old(api.lapses), api.lapses, old(api.Before()))
    // A finished deletion orphans the binding exactly when it was there and its lookup failed.
    ensures outcome == DeletionDone ==>
      !Holds(api.world) && (NoOrphan(api.id, api.world) <==> !FailedToSee(api, lookup, old(api.Before())))
    ensures api.Still() && api.OnlyFails(old(api.calls) + 3)
            && old(api.world.kn).Some? && old(api.world.kn).value.meta.deleting ==>
      outcome == DeletionDone && lookup == old(api.calls) + 3
    // An undisturbed round that gets no further than validation or the namespace says so.
    ensures api.Quiet() && Live(old(api.world)) ==> SaysWhyItEnded(outcome, old(api.world), api.world)
    // An undisturbed round deploys everything and tells whether it is ready.
    ensures api.Quiet() && Deploys(old(api.world)) ==>
      outcome == Reconciled && api.world.nodes == old(api.world.nodes)
      && (var o := old(api.world.kn).value;
          Truthful(api.world, o) && Lists(order, EnabledBackends(o.spec))
          && StageOf(api) == DeployAll(old(StageOf(api)), api.admission, api.id, o.meta.uid, o.spec,
                                       NodeIP(api.world.nodes), order))
  {
    hide InCharge, IsRun, Inv, Evidence, ForeignStep, OperatorStep, WellFormed, NodeIP, DeployAll, CurrentURL,
      EnabledBackends, Lists, Accepted, OnePerType, AddsFinalizer, AllDeployed, NamesOwnConfig, RefreshedAt,
      ReleasedFrom, NoOrphan, Smooth, CompletedBefore, Lands, NoFaultBetween, Adopted, NothingLost, NoEdits, Storable,
      TruthfulStatus, DecidedByRead, FailedStatus, Stores, SaysWhyItEnded;
    order, lookup := [], 0;
    api.Now();
    ReadDecides(api.Fails(), api.Before());
    ghost var calls := api.calls;
    var read := api.GetInstance();
    if read.Err? {
      outcome := if read.error == NotFound then Gone else ReadFailed;
      return;
    }
    var kn := new Instance(read.value);
    api.Now();
    if kn.meta.deleting {
      ghost var refreshed;
      var r;
      r, refreshed, lookup := ReconcileDelete(api, kn);
      outcome := if r.Ok? then DeletionDone else DeletionFailed;
      return;
    }
    if FINALIZER !in kn.meta.finalizers {
      var r := AddFinalizer(api, kn);
      outcome := if r.Ok? then FinalizerAdded else FinalizerFailed;
      FinalizerMeansHeld(old(api.Before()), api.world);
      return;
    }
    if kn.status.observedGeneration == kn.meta.generation && kn.status.phase == Ready {
      return Skipped, order, lookup;
    }
    ReadIsInCharge(api.id, api.lapses, api.world, read.value);
    outcome, order := ReconcileLive(api, kn);
    if api.Quiet() {
      EndedBecause(outcome, old(api.world), api.world);
    }
  }

  /** A round gets as far as validation. */
  ghost predicate Live(w: World) {
    w.kn.Some? && !w.kn.value.meta.deleting && FINALIZER in w.kn.value.meta.finalizers && !Skips(w.kn.value)
  }

  /** An undisturbed round deploys. */
  ghost predicate Deploys(w: World) {
    Live(w) && Accepted(w.kn.value.spec) && NamespaceKey in w.objects
  }

  // ---------- any number of rounds ----------

  /** This instance at this generation, with no deletion under way. */
  ghost predicate Current(w: World, uid: nat, generation: nat) {
    w.kn.Some? && w.kn.value.meta.uid == uid && w.kn.value.meta.generation == generation && !w.kn.value.meta.deleting
  }

  lemma CurrentAllAlong(id: Id, l: Lapses, trace: seq<World>, s: nat, i: nat, j: nat, uid: nat, generation: nat)
    requires IsRun(id, l, trace) && s <= i <= j < |trace|
    requires Current(trace[s], uid, generation) && Current(trace[j], uid, generation)
    ensures Current(trace[i], uid, generation)
  {
    hide IsRun;
    HistoryIsLinear(id, l, trace, s, i);
    HistoryIsLinear(id, l, trace, i, j);
  }

  lemma SkipsUntilOthersAct(id: Id, l: Lapses, w: World, w': World, uid: nat, generation: nat)
    requires ForeignStep(id, l, w, w') && Current(w, uid, generation)
    requires Current(w', uid, generation) && Skips(w.kn.value)
    ensures Skips(w'.kn.value)
  {
  }

  ghost predicate OnlyOthersActed(id: Id, l: Lapses, trace: seq<World>, from: nat) {
    0 < from && forall j :: from <= j < |trace| ==> ForeignStep(id, l, trace[j - 1], trace[j])
  }

  lemma NobodyActedYet(id: Id, l: Lapses, trace: seq<World>)
    requires |trace| > 0
    ensures OnlyOthersActed(id, l, trace, |trace|)
  {
  }

  /** If the round could be skipped before and the generation is still the same after, it was. */
  lemma RoundWasSkipped(id: Id, l: Lapses, l': Lapses, trace: seq<World>, longer: seq<World>, n: nat, uid: nat,
                        generation: nat)
    requires 0 < n <= |trace| < |longer| && Prefix(trace, longer) && IsRun(id, l', longer)
    requires Current(trace[n - 1], uid, generation) && Current(longer[|longer| - 1], uid, generation)
    requires Current(trace[|trace| - 1], uid, generation) ==>
      Skips(trace[|trace| - 1].kn.value) && OnlyOthersActed(id, l, trace, n)
    requires ForeignStep(id, l, trace[|trace| - 1], longer[|trace|])
    requires longer[|trace|].kn.Some? && Skips(longer[|trace|].kn.value) ==>
      longer == trace + [longer[|trace|]] && l' == l
    ensures Current(trace[|trace| - 1], uid, generation) && longer[|trace|].kn.Some? && Skips(longer[|trace|].kn.value)
    ensures longer == trace + [longer[|trace|]] && OnlyOthersActed(id, l', longer, n)
  {
    hide IsRun, ForeignStep, Skips;
    var m := |trace|;
    CurrentAllAlong(id, l', longer, n - 1, m - 1, |longer| - 1, uid, generation);
    CurrentAllAlong(id, l', longer, n - 1, m, |longer| - 1, uid, generation);
    SkipsUntilOthersAct(id, l, trace[m - 1], longer[m], uid, generation);
  }

  /** One more round, while it matters whether all rounds since `n` were skipped. */
  method Round(api: ApiServer, ghost n: nat, ghost uid: nat, ghost generation: nat) returns (outcome: Outcome)
    requires api.Valid() && 0 < n <= |api.trace|
    requires Current(api.trace[n - 1], uid, generation) && Current(api.world, uid, generation) ==>
      (Skips(api.trace[n - 1].kn.value) ==>
         Skips(api.world.kn.value) && OnlyOthersActed(api.id, api.lapses, api.trace, n))
    modifies api
    ensures api.Valid() && Prefix(old(api.trace), api.trace) && api.calls > old(api.calls)
    ensures api.lapses.blind && !old(api.lapses.blind) ==> SomeCallFailed(api, old(api.calls))
    ensures old(api.lapses.blind) ==> api.lapses.blind
    ensures Current(api.trace[n - 1], uid, generation) && Current(api.world, uid, generation)
            && Skips(api.trace[n - 1].kn.value) ==>
      Current(old(api.world), uid, generation) && Skips(api.world.kn.value) && outcome in {Skipped, ReadFailed}
      && api.writes == old(api.writes) && OnlyOthersActed(api.id, api.lapses, api.trace, n)
  {
    hide IsRun, Inv, Evidence, ForeignStep, OperatorStep, WellFormed, Deploys, AddsFinalizer, Lists, CurrentURL,
      AllDeployed, Accepted, NamesOwnConfig, DeployAll, NodeIP, OnlyOthersActed, SomeCallFailed;
    ghost var trace, lapses := api.trace, api.lapses;
    api.Now();
    ghost var order, lookup;
    outcome, order, lookup := Reconcile(api);
    if Current(trace[n - 1], uid, generation) && Skips(trace[n - 1].kn.value) && Current(api.world, uid, generation) {
      RoundWasSkipped(api.id, lapses, api.lapses, trace, api.trace, n, uid, generation);
    }
  }

  /** The worker, for any number of rounds. Whatever the others do and whichever calls fail, every state is sound;
      without faults no removal is blind; and once a round could be skipped, all are, and the operator writes
      nothing, for as long as this generation of this instance stays and nobody asks for its deletion. */
  method Operate(api: ApiServer, rounds: nat) returns (outcomes: seq<Outcome>)
    requires api.Valid()
    modifies api
    ensures api.Valid() && Prefix(old(api.trace), api.trace) && |outcomes| == rounds
    ensures forall k :: 0 <= k < |api.trace| ==> WellFormed(api.trace[k]) && Inv(api.id, api.lapses, api.trace[k])
    ensures !SomeCallFailed(api, old(api.calls)) ==> api.lapses.blind == old(api.lapses.blind)
    ensures old(api.world.kn).Some? && Skips(old(api.world.kn).value)
            && Current(api.world, old(api.world.kn).value.meta.uid, old(api.world.kn).value.meta.generation) ==>
      (forall i :: 0 <= i < rounds ==> outcomes[i] in {Skipped, ReadFailed})
      && api.writes == old(api.writes) && OnlyOthersActed(api.id, api.lapses, api.trace, |old(api.trace)|)
  {
    hide IsRun, Inv, Evidence, ForeignStep, OperatorStep, WellFormed, OnlyOthersActed;
    outcomes := [];
    ghost var n := |api.trace|;
    ghost var kn := api.world.kn;
    ghost var skips := kn.Some? && Skips(kn.value);
    ghost var uid, generation := if skips then kn.value.meta.uid else 0, if skips then kn.value.meta.generation else 0;
    NobodyActedYet(api.id, api.lapses, api.trace);
    for i := 0 to rounds
      invariant api.Valid() && Prefix(old(api.trace), api.trace) && |outcomes| == i && api.calls >= old(api.calls)
      invariant api.trace[n - 1] == old(api.world) && n <= |api.trace|
      invariant old(api.lapses.blind) ==> api.lapses.blind
      invariant !SomeCallFailed(api, old(api.calls)) ==> api.lapses.blind == old(api.lapses.blind)
      invariant skips && Current(api.world, uid, generation) ==>
        Skips(api.world.kn.value) && (forall j :: 0 <= j < i ==> outcomes[j] in {Skipped, ReadFailed})
        && api.writes == old(api.writes) && OnlyOthersActed(api.id, api.lapses, api.trace, n)
    {
      var outcome := Round(api, n, uid, generation);
      outcomes := outcomes + [outcome];
    }
    EveryStateIsSound(api.id, api.lapses, api.trace);
  }
}
