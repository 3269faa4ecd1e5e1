/** The deployment phases of one reconciliation: RBAC, Secret, ConfigMaps, backend services, web front end
    (reconcileRBAC to reconcileWeb in internal/controller/kubenova_controller.go). */
module Phases {
  import opened Types
  import opened Builders
  import opened Endpoints
  import opened Statuses
  import opened Nodes
  import opened Drift
  import opened Protocol
  import opened Runs
  import opened Cluster
  import opened Deploy
  import opened Ensuring
  import opened StatusRetry
  import opened Intent
  import opened Steps

  /** What the phases need to know about an undisturbed call: only objects and the write log change. */
  ghost predicate Undisturbed(w: World, w': World) {
    w'.kn == w.kn && w'.nodes == w.nodes
  }

  // ---------- RBAC ----------

  method ReconcileRBAC(api: ApiServer, kn: Instance) returns (r: Result<()>)
    requires api.Valid() && InCharge(api.lapses, api.world, kn.meta, kn.spec)
    modifies api
    ensures api.Valid() && Progress(api.id, old(api.Snap()), api.Snap(), kn.meta, kn.spec)
    ensures r.Ok? ==> Done(api.id, old(api.Snap()), api.Snap(), kn.meta, kn.spec, RBACKeys(api.id))
    ensures Ending(api.world, r, api.calls)
            == TakeAll(api, old(api.calls), old(api.world), RBACSteps(api.id, kn.meta.uid))
    ensures api.Quiet() ==>
      r.Ok? && Undisturbed(old(api.world), api.world)
      && StageOf(api) == DeployRBAC(old(StageOf(api)), api.admission, api.id, kn.meta.uid)
  {
    hide InCharge, Done, IsRun, Inv, Evidence, ForeignStep, OperatorStep, WellFormed, PutIfAbsent, TakeAll,
      CreatingIfMissing;
    ghost var s0 := api.Snap();
    ghost var steps := RBACSteps(api.id, kn.meta.uid);
    TakeTwo(api, api.calls, api.world, steps[0], steps[1]);
    var account := Own(BuildServiceAccount(), kn.meta.uid);
    r := EnsureExists(api, AccountKey, account, kn.meta, kn.spec);
    if r.Err? {
      return;
    }
    ghost var s1 := api.Snap();
    var binding := BuildClusterRoleBinding(api.id);
    r := EnsureExists(api, BindingKey(BindingName(api.id)), binding, kn.meta, kn.spec);
    ProgressIsTransitive(api.id, s0, s1, api.Snap(), kn.meta, kn.spec);
    if r.Ok? {
      DoneComposes(api.id, s0, s1, api.Snap(), kn.meta, kn.spec, {AccountKey}, {Binding(api.id)});
      assert {AccountKey} + {Binding(api.id)} == RBACKeys(api.id);
    }
  }

  // ---------- Secret ----------

  method LookUpNodeIP(api: ApiServer, ghost meta: ObjectMeta, ghost spec: Spec) returns (ip: string)
    requires api.Valid() && InCharge(api.lapses, api.world, meta, spec)
    modifies api
    ensures api.Valid() && Progress(api.id, old(api.Snap()), api.Snap(), meta, spec) && api.writes == old(api.writes)
    ensures ip == (if old(api.Fails()) == NoFault then NodeIP(api.world.nodes) else "")
    ensures api.world == old(api.Before())
    ensures api.trace == old(api.trace) + [api.world] && api.calls == old(api.calls) + 1
    ensures api.Quiet() ==> api.world == old(api.world)
  {
    hide IsRun, Inv, Evidence, ForeignStep, OperatorStep, WellFormed, NodeIPRule, NodeIP;
    api.Now();
    OthersLeaveInCharge(api.id, api.lapses, api.world, api.Before(), meta, spec);
    var nodes := api.ListNodes();
    if nodes.Err? {
      return "";
    }
    ip := GetNodeIP(nodes.value);
  }

  method GetWebNodePort(api: ApiServer, web: WebConfig, ghost meta: ObjectMeta, ghost spec: Spec) returns (port: int)
    requires api.Valid() && InCharge(api.lapses, api.world, meta, spec)
    modifies api
    ensures api.Valid() && Progress(api.id, old(api.Snap()), api.Snap(), meta, spec) && api.writes == old(api.writes)
    ensures if web.exposeType != "nodeport"
            then port == 0 && api.trace == old(api.trace) && api.calls == old(api.calls) && api.world == old(api.world)
            else port == PortRead(web, old(api.Fails()), api.world) && api.trace == old(api.trace) + [api.world]
                 && api.calls == old(api.calls) + 1 && api.world == old(api.Before())
    ensures api.Quiet() ==> api.world == old(api.world) && port == ProxyNodePort(web, WebServiceOf(api.world.objects))
  {
    hide InCharge, IsRun, Inv, Evidence, ForeignStep, OperatorStep;
    if web.exposeType != "nodeport" {
      ProgressFromStart(api.id, api.Snap(), meta, spec);
      return 0;
    }
    var found := Look(api, ServiceKey(WebFrontend), meta, spec);
    api.Now();
    if found.Err? {
      port := ChooseNodePort(web, None);
      return;
    }
    port := ChooseNodePort(web, Some(found.value.item.body.service));
  }

  lemma ProgressFromStart(id: Id, s: Snapshot, meta: ObjectMeta, spec: Spec)
    requires InCharge(s.lapses, s.world, meta, spec)
    ensures Progress(id, s, s, meta, spec)
  {
  }

  /** The node address a list of the nodes gives. */
  ghost function AddressRead(f: Fault, w: World): string {
    if f == NoFault then NodeIP(w.nodes) else ""
  }

  /** The port a read of the web Service gives. */
  function PortRead(web: WebConfig, f: Fault, w: World): int {
    ProxyNodePort(web, if f == NoFault then WebServiceOf(w.objects) else None)
  }

  lemma NoPortToRead(web: WebConfig, f: Fault, w: World)
    requires web.exposeType != "nodeport"
    ensures PortRead(web, f, w) == 0
  {
  }

  method ReconcileSecret(api: ApiServer, kn: Instance)
    returns (r: Result<()>, ghost nodeIP: string, ghost nodePort: int)
    requires api.Valid() && InCharge(api.lapses, api.world, kn.meta, kn.spec)
    modifies api
    ensures api.Valid() && Progress(api.id, old(api.Snap()), api.Snap(), kn.meta, kn.spec)
    ensures r.Ok? ==> Done(api.id, old(api.Snap()), api.Snap(), kn.meta, kn.spec, {SecretKey})
    // The data is that for the nodes as listed by the first call, and for the Service as read by the second.
    ensures |api.trace| > |old(api.trace)| + 1
    ensures nodeIP == AddressRead(old(api.Fails()), api.trace[|old(api.trace)|])
    ensures nodePort
            == PortRead(kn.spec.web, api.fault(old(api.calls) + 1), api.trace[|old(api.trace)| + 1])
    ensures r.Ok? ==>
      SecretKey in api.world.objects
      && api.world.objects[SecretKey].body == SecretBody(SecretData(kn.spec, nodeIP, nodePort))
    ensures Ending(api.world, r, api.calls)
            == TakeAll(api, old(api.calls), old(api.world), SecretSteps(kn.meta.uid, kn.spec, nodeIP, nodePort))
    ensures api.Quiet() ==>
      r.Ok? && Undisturbed(old(api.world), api.world)
      && StageOf(api) == DeploySecret(old(StageOf(api)), kn.meta.uid, kn.spec, NodeIP(old(api.world.nodes)))
  {
    hide InCharge, Done, IsRun, Inv, Evidence, ForeignStep, OperatorStep, WellFormed, NodeIP, ProxyNodePort, PutData,
      SecretData, WebServiceOf, PortRead, WantsSecret, CreatingOrReplacing, TakeAll,
      SecretSteps;
    ghost var s0 := api.Snap();
    var ip := LookUpNodeIP(api, kn.meta, kn.spec);
    ghost var s1 := api.Snap();
    var port := GetWebNodePort(api, kn.spec.web, kn.meta, kn.spec);
    ghost var s2 := api.Snap();
    ProgressIsTransitive(api.id, s0, s1, s2, kn.meta, kn.spec);
    nodeIP, nodePort := ip, port;
    SecretStepsTaken(api, s0.calls, s0.world, kn.meta.uid, kn.spec, nodeIP, nodePort);
    var secret := BuildSecret(kn.spec, ip, port);
    r := EnsureData(api, SecretKey, Own(secret, kn.meta.uid), kn.meta, kn.spec);
    ProgressIsTransitive(api.id, s0, s2, api.Snap(), kn.meta, kn.spec);
    if kn.spec.web.exposeType != "nodeport" {
      NoPortToRead(kn.spec.web, api.fault(old(api.calls) + 1), api.trace[|s0.trace| + 1]);
    }
    if r.Ok? {
      DoneAfter(api.id, s0, s2, api.Snap(), kn.meta, kn.spec, {SecretKey});
    }
  }

  lemma DoneAfter(id: Id, s0: Snapshot, s1: Snapshot, s2: Snapshot, meta: ObjectMeta, spec: Spec, keys: set<Key>)
    requires Progress(id, s0, s1, meta, spec) && Done(id, s1, s2, meta, spec, keys)
    ensures Done(id, s0, s2, meta, spec, keys)
  {
    hide InCharge, Seen;
    SawAllLater(s2.canon, s2.trace, s2.trace, |s1.trace|, |s0.trace|, spec, keys);
  }

  // ---------- ConfigMaps ----------

  function ConfigMapKeysOf(components: seq<Component>): set<Key> {
    set c | c in components :: ConfigMapKey(c)
  }

  lemma AllBackends(c: Component)
    ensures c in BACKENDS <==> c != WebFrontend
  {
    assert BACKENDS[0] == PortalAPI && BACKENDS[1] == PortalRPC && BACKENDS[2] == ManagerAPI;
    assert BACKENDS[3] == ManagerRPC && BACKENDS[4] == WorkloadAPI;
    assert BACKENDS[5] == ConsoleAPI && BACKENDS[6] == ConsoleRPC;
  }

  lemma BackendConfigMapKeys()
    ensures ConfigMapKeysOf(BACKENDS) == ConfigMapKeys()
  {
    forall c: Component ensures c in BACKENDS <==> c != WebFrontend {
      AllBackends(c);
    }
  }

  lemma NoConfigMaps()
    ensures ConfigMapKeysOf([]) == {}
  {
  }

  lemma OneMoreConfigMap(components: seq<Component>, c: Component)
    ensures ConfigMapKeysOf(components + [c]) == ConfigMapKeysOf(components) + {ConfigMapKey(c)}
  {
  }

  lemma DeployOneMoreConfigMap(s: Stage, uid: nat, components: seq<Component>, c: Component)
    ensures DeployConfigMaps(s, uid, components + [c])
            == PutData(DeployConfigMaps(s, uid, components), ConfigMapKey(c), Own(BuildConfigMap(c), uid))
  {
    hide PutData, BuildConfigMap;
    assert (components + [c])[..|components|] == components;
  }

  lemma ConfigMapShows(canon: Canon, spec: Spec, c: Component, uid: nat)
    requires c != WebFrontend
    ensures Shows(canon, spec, ConfigMapKey(c), Own(BuildConfigMap(c), uid).body)
    ensures BodyFits(ConfigMapKey(c), Own(BuildConfigMap(c), uid).body)
  {
  }

  /** One more ConfigMap; if it fails, the rest is not tried. */
  lemma OneMoreConfigStep(api: ApiServer, first: nat, w: World, uid: nat, i: nat)
    requires i < |BACKENDS| && TakeAll(api, first, w, ConfigSteps(uid, BACKENDS[..i])).reply.Ok?
    ensures var e := TakeAll(api, first, w, ConfigSteps(uid, BACKENDS[..i]));
      var c := BACKENDS[i];
      var next := CreatingOrReplacing(api, e.calls, e.after, ConfigMapKey(c), Own(BuildConfigMap(c), uid));
      && TakeAll(api, first, w, ConfigSteps(uid, BACKENDS[..i + 1])) == next
      && (next.reply.Err? ==> TakeAll(api, first, w, ConfigSteps(uid, BACKENDS)) == next)
  {
    hide BACKENDS, ConfigSteps, TakeAll, CreatingOrReplacing;
    var e := TakeAll(api, first, w, ConfigSteps(uid, BACKENDS[..i]));
    var step := Data(ConfigMapKey(BACKENDS[i]), Own(BuildConfigMap(BACKENDS[i]), uid));
    ConfigStepsOneMore(uid, BACKENDS, i);
    TakeBoth(api, first, w, ConfigSteps(uid, BACKENDS[..i]), [step]);
    TakeOne(api, e.calls, e.after, step);
    if i + 1 < |BACKENDS| {
      ConfigStepsOneMore(uid, BACKENDS, i + 1);
      TakeBoth(api, first, w, ConfigSteps(uid, BACKENDS[..i + 1]), ConfigSteps(uid, BACKENDS[i + 1..]));
    } else {
      assert BACKENDS[..i + 1] == BACKENDS;
    }
  }

  method ReconcileConfigMaps(api: ApiServer, kn: Instance) returns (r: Result<()>)
    requires api.Valid() && InCharge(api.lapses, api.world, kn.meta, kn.spec)
    modifies api
    ensures api.Valid() && Progress(api.id, old(api.Snap()), api.Snap(), kn.meta, kn.spec)
    ensures r.Ok? ==> Done(api.id, old(api.Snap()), api.Snap(), kn.meta, kn.spec, ConfigMapKeys())
    ensures Ending(api.world, r, api.calls)
            == TakeAll(api, old(api.calls), old(api.world), ConfigSteps(kn.meta.uid, BACKENDS))
    ensures api.Quiet() ==>
      r.Ok? && Undisturbed(old(api.world), api.world)
      && StageOf(api) == DeployConfigMaps(old(StageOf(api)), kn.meta.uid, BACKENDS)
  {
    hide InCharge, Done, Progress, IsRun, Inv, Evidence, ForeignStep, OperatorStep, WellFormed, PutData, Shows,
      BuildConfigMap, BACKENDS, ConfigMapKeysOf, TakeAll, CreatingOrReplacing, ConfigSteps;
    ghost var s0, start := api.Snap(), StageOf(api);
    TakeNone(api, api.calls, api.world);
    NoConfigSteps(kn.meta.uid, BACKENDS);
    NothingDoneYet(api.id, s0, kn.meta, kn.spec);
    NoConfigMaps();
    assert BACKENDS[..0] == [];
    for i := 0 to |BACKENDS|
      invariant api.Valid() && InCharge(api.lapses, api.world, kn.meta, kn.spec)
      invariant Done(api.id, s0, api.Snap(), kn.meta, kn.spec, ConfigMapKeysOf(BACKENDS[..i]))
      invariant api.Quiet() ==>
        Undisturbed(s0.world, api.world) && StageOf(api) == DeployConfigMaps(start, kn.meta.uid, BACKENDS[..i])
      invariant Ending(api.world, Ok(()), api.calls)
                == TakeAll(api, s0.calls, s0.world, ConfigSteps(kn.meta.uid, BACKENDS[..i]))
    {
      OneMoreConfigStep(api, s0.calls, s0.world, kn.meta.uid, i);
      ghost var s1 := api.Snap();
      var c := BACKENDS[i];
      AllBackends(c);
      ConfigMapShows(api.admission.canon, kn.spec, c, kn.meta.uid);
      r := EnsureData(api, ConfigMapKey(c), Own(BuildConfigMap(c), kn.meta.uid), kn.meta, kn.spec);
      DoneIsProgress(api.id, s0, s1, kn.meta, kn.spec, ConfigMapKeysOf(BACKENDS[..i]));
      ProgressIsTransitive(api.id, s0, s1, api.Snap(), kn.meta, kn.spec);
      if r.Err? {
        return;
      }
      OkIsOk(r);
      DoneComposes(api.id, s0, s1, api.Snap(), kn.meta, kn.spec, ConfigMapKeysOf(BACKENDS[..i]), {ConfigMapKey(c)});
      assert BACKENDS[..i + 1] == BACKENDS[..i] + [c];
      OneMoreConfigMap(BACKENDS[..i], c);
      DoneIsProgress(api.id, s0, api.Snap(), kn.meta, kn.spec, ConfigMapKeysOf(BACKENDS[..i + 1]));
      DeployOneMoreConfigMap(start, kn.meta.uid, BACKENDS[..i], c);
    }
    assert BACKENDS[..|BACKENDS|] == BACKENDS;
    BackendConfigMapKeys();
    DoneIsProgress(api.id, s0, api.Snap(), kn.meta, kn.spec, ConfigMapKeys());
    r := Ok(());
  }

  lemma DoneIsProgress(id: Id, s0: Snapshot, s1: Snapshot, meta: ObjectMeta, spec: Spec, keys: set<Key>)
    requires Done(id, s0, s1, meta, spec, keys)
    ensures Progress(id, s0, s1, meta, spec) && InCharge(s1.lapses, s1.world, meta, spec)
  {
  }

  // ---------- backend services ----------

  /** What the first phases have provided for the Deployments. */
  ghost predicate Provided(id: Id, l: Lapses, w: World) {
    && Binding(id) in w.objects
    && (!l.meddled ==> RBACKeys(id) + {SecretKey} + ConfigMapKeys() <= w.objects.Keys)
  }

  lemma ProvidedStays(id: Id, from: Snapshot, to: Snapshot, meta: ObjectMeta, spec: Spec)
    requires Provided(id, from.lapses, from.world) && Progress(id, from, to, meta, spec)
    ensures Provided(id, to.lapses, to.world)
  {
    hide InCharge;
  }

  lemma BackendIsCreatable(id: Id, l: Lapses, w: World, spec: Spec, c: Component, uid: nat)
    requires Provided(id, l, w) && c != WebFrontend
    ensures Creatable(id, l, w, DeploymentKey(c),
                      Object(Some(uid), map[], DeploymentBody(ResourcesOf(spec, c).deployment, 0)), uid)
  {
    hide References;
    BackendReferences(BackendOf(spec, c), Object(Some(uid), map[], DeploymentBody(ResourcesOf(spec, c).deployment, 0)));
    assert ConfigMapKey(c) in ConfigMapKeys();
  }

  lemma PlainObjectIsCreatable(id: Id, l: Lapses, w: World, k: Key, o: Object, uid: nat)
    requires k.ServiceKey? || (k.IngressKey? && (!l.meddled ==> ServiceKey(WebFrontend) in w.objects))
    requires BodyFits(k, o.body) && o.owner == Some(uid)
    ensures Creatable(id, l, w, k, o, uid)
  {
  }

  method DeployService(api: ApiServer, kn: Instance, c: Component, resources: ServiceResources) returns (r: Result<()>)
    requires api.Valid() && InCharge(api.lapses, api.world, kn.meta, kn.spec) && Provided(api.id, api.lapses, api.world)
    requires c != WebFrontend && resources == ResourcesOf(kn.spec, c)
    modifies api
    ensures api.Valid() && Progress(api.id, old(api.Snap()), api.Snap(), kn.meta, kn.spec)
    ensures r.Ok? ==> Done(api.id, old(api.Snap()), api.Snap(), kn.meta, kn.spec, {DeploymentKey(c), ServiceKey(c)})
    ensures Ending(api.world, r, api.calls)
            == TakeAll(api, old(api.calls), old(api.world), BackendSteps(kn.meta.uid, kn.spec, c))
    ensures api.Quiet() ==>
      r.Ok? && Undisturbed(old(api.world), api.world)
      && StageOf(api) == DeployBackend(old(StageOf(api)), api.admission, kn.meta.uid, kn.spec, c)
  {
    hide InCharge, Done, IsRun, Inv, Evidence, ForeignStep, OperatorStep, WellFormed, Creatable, Provided,
      PutIfAbsent, PutDeployment, TakeAll, CreatingIfMissing, CreatingOrRewriting;
    ghost var s0 := api.Snap();
    ghost var steps := BackendSteps(kn.meta.uid, kn.spec, c);
    TakeTwo(api, api.calls, api.world, steps[0], steps[1]);
    BackendIsCreatable(api.id, api.lapses, api.world, kn.spec, c, kn.meta.uid);
    r := EnsureDeployment(api, DeploymentKey(c), resources.deployment, kn.meta.uid, kn.meta, kn.spec);
    if r.Err? {
      return;
    }
    ghost var s1 := api.Snap();
    var service := Own(Object(None, map[], ServiceBody(resources.service)), kn.meta.uid);
    PlainObjectIsCreatable(api.id, api.lapses, api.world, ServiceKey(c), service, kn.meta.uid);
    r := EnsureExists(api, ServiceKey(c), service, kn.meta, kn.spec);
    ProgressIsTransitive(api.id, s0, s1, api.Snap(), kn.meta, kn.spec);
    if r.Ok? {
      DoneComposes(api.id, s0, s1, api.Snap(), kn.meta, kn.spec, {DeploymentKey(c)}, {ServiceKey(c)});
      assert {DeploymentKey(c)} + {ServiceKey(c)} == {DeploymentKey(c), ServiceKey(c)};
    }
  }

  /** `order` lists each of these components once. */
  ghost predicate Lists(order: seq<Component>, components: set<Component>) {
    && (forall c :: c in order <==> c in components)
    && (forall i, j :: 0 <= i < j < |order| ==> order[i] != order[j])
  }

  lemma ListsOneMore(order: seq<Component>, components: set<Component>, c: Component)
    requires Lists(order, components) && c !in components
    ensures Lists(order + [c], components + {c})
  {
  }

  lemma AnotherService(done: set<Component>, c: Component)
    ensures ServiceKeys(done + {c}) == ServiceKeys(done) + {DeploymentKey(c), ServiceKey(c)}
  {
  }

  lemma DeployOneMore(s: Stage, admission: Admission, uid: nat, spec: Spec, order: seq<Component>, c: Component)
    ensures DeployBackends(s, admission, uid, spec, order + [c])
            == DeployBackend(DeployBackends(s, admission, uid, spec, order), admission, uid, spec, c)
  {
    hide DeployBackend;
    assert (order + [c])[..|order|] == order;
  }

  /** One more service after the ones in `order`. */
  method DeployNext(api: ApiServer, kn: Instance, services: map<Component, ServiceResources>, c: Component,
                    ghost s0: Snapshot, ghost start: Stage, ghost order: seq<Component>, ghost done: set<Component>)
    returns (r: Result<()>)
    requires api.Valid() && Done(api.id, s0, api.Snap(), kn.meta, kn.spec, ServiceKeys(done))
    requires Provided(api.id, api.lapses, api.world)
    requires c in services && c != WebFrontend && services[c] == ResourcesOf(kn.spec, c)
    requires Ending(api.world, Ok(()), api.calls)
             == TakeAll(api, s0.calls, s0.world, ServiceSteps(kn.meta.uid, kn.spec, order))
    requires api.Quiet() ==>
      Undisturbed(s0.world, api.world)
      && StageOf(api) == DeployBackends(start, api.admission, kn.meta.uid, kn.spec, order)
    modifies api
    ensures api.Valid() && Progress(api.id, s0, api.Snap(), kn.meta, kn.spec)
    ensures r.Ok? ==>
      Done(api.id, s0, api.Snap(), kn.meta, kn.spec, ServiceKeys(done + {c})) && Provided(api.id, api.lapses, api.world)
    ensures Ending(api.world, r, api.calls)
            == TakeAll(api, s0.calls, s0.world, ServiceSteps(kn.meta.uid, kn.spec, order + [c]))
    ensures api.Quiet() ==>
      r.Ok? && Undisturbed(s0.world, api.world)
      && StageOf(api) == DeployBackends(start, api.admission, kn.meta.uid, kn.spec, order + [c])
  {
    hide InCharge, Done, Progress, IsRun, Inv, Evidence, ForeignStep, OperatorStep, WellFormed, Provided,
      DeployBackend, DeployBackends, ServiceKeys, ResourcesOf, TakeAll, ServiceSteps, BackendSteps;
    ghost var s1 := api.Snap();
    OneMoreService(api, s0.calls, s0.world, kn.meta.uid, kn.spec, order, c);
    DoneIsProgress(api.id, s0, s1, kn.meta, kn.spec, ServiceKeys(done));
    DeployOneMore(start, api.admission, kn.meta.uid, kn.spec, order, c);
    r := DeployService(api, kn, c, services[c]);
    ProgressIsTransitive(api.id, s0, s1, api.Snap(), kn.meta, kn.spec);
    if r.Err? {
      return;
    }
    DoneComposes(api.id, s0, s1, api.Snap(), kn.meta, kn.spec, ServiceKeys(done), {DeploymentKey(c), ServiceKey(c)});
    ProvidedStays(api.id, s1, api.Snap(), kn.meta, kn.spec);
    AnotherService(done, c);
  }

  lemma NoServiceYet(s: Stage, admission: Admission, uid: nat, spec: Spec)
    ensures ServiceKeys({}) == {} && Lists([], {}) && DeployBackends(s, admission, uid, spec, []) == s
  {
  }

  lemma NoStepsYet(api: ApiServer, first: nat, w: World, uid: nat, spec: Spec)
    ensures TakeAll(api, first, w, ServiceSteps(uid, spec, [])) == Ending(w, Ok(()), first)
  {
    TakeNone(api, first, w);
  }

  /** Visits the services in whatever order the map yields them; `order` records it. */
  method DeployServices(api: ApiServer, kn: Instance, services: map<Component, ServiceResources>)
    returns (r: Result<()>, ghost order: seq<Component>)
    requires api.Valid() && InCharge(api.lapses, api.world, kn.meta, kn.spec) && Provided(api.id, api.lapses, api.world)
    requires WebFrontend !in services && EachItsOwn(services, kn.spec)
    modifies api
    ensures api.Valid() && Progress(api.id, old(api.Snap()), api.Snap(), kn.meta, kn.spec)
    ensures r.Ok? ==>
      Lists(order, services.Keys)
      && Done(api.id, old(api.Snap()), api.Snap(), kn.meta, kn.spec, ServiceKeys(services.Keys))
    // After a failure the order ends with the service that failed.
    ensures Ending(api.world, r, api.calls)
            == TakeAll(api, old(api.calls), old(api.world), ServiceSteps(kn.meta.uid, kn.spec, order))
    ensures exists tried :: tried <= services.Keys && Lists(order, tried)
    ensures api.Quiet() ==>
      r.Ok? && Undisturbed(old(api.world), api.world)
      && StageOf(api) == DeployBackends(old(StageOf(api)), api.admission, kn.meta.uid, kn.spec, order)
  {
    hide InCharge, Done, Progress, IsRun, Inv, Evidence, ForeignStep, OperatorStep, WellFormed, Provided,
      DeployBackend, DeployBackends, ResourcesOf, ServiceKeys, Lists, TakeAll, ServiceSteps;
    NoStepsYet(api, api.calls, api.world, kn.meta.uid, kn.spec);
    ghost var s0, start := api.Snap(), StageOf(api);
    var todo := services.Keys;
    ghost var done: set<Component> := {};
    order := [];
    NothingDoneYet(api.id, s0, kn.meta, kn.spec);
    NoServiceYet(start, api.admission, kn.meta.uid, kn.spec);
    while todo != {}
      invariant todo <= services.Keys && done == services.Keys - todo && Lists(order, done)
      invariant api.Valid() && Provided(api.id, api.lapses, api.world)
      invariant Ending(api.world, Ok(()), api.calls)
                == TakeAll(api, s0.calls, s0.world, ServiceSteps(kn.meta.uid, kn.spec, order))
      invariant Done(api.id, s0, api.Snap(), kn.meta, kn.spec, ServiceKeys(done))
      invariant api.Quiet() ==>
        Undisturbed(s0.world, api.world)
        && StageOf(api) == DeployBackends(start, api.admission, kn.meta.uid, kn.spec, order)
      decreases |todo|
    {
      var c :| c in todo;
      r := DeployNext(api, kn, services, c, s0, start, order, done);
      ListsOneMore(order, done, c);
      if r.Err? {
        order := order + [c];
        return;
      }
      OkIsOk(r);
      order, done, todo := order + [c], done + {c}, todo - {c};
    }
    assert done == services.Keys;
    DoneIsProgress(api.id, s0, api.Snap(), kn.meta, kn.spec, ServiceKeys(done));
    r := Ok(());
  }

  method ReconcileServices(api: ApiServer, kn: Instance) returns (r: Result<()>, ghost order: seq<Component>)
    requires api.Valid() && InCharge(api.lapses, api.world, kn.meta, kn.spec) && Provided(api.id, api.lapses, api.world)
    modifies api, kn
    ensures kn.meta == old(kn.meta) && kn.spec == old(kn.spec)
    ensures kn.status == SetPhase(old(kn.status), Creating, kn.meta.generation)
    ensures api.Valid() && Progress(api.id, old(api.Snap()), api.Snap(), kn.meta, kn.spec)
    ensures r.Ok? ==>
      Lists(order, EnabledBackends(kn.spec))
      && Done(api.id, old(api.Snap()), api.Snap(), kn.meta, kn.spec, ServiceKeys(EnabledBackends(kn.spec)))
    ensures Ending(api.world, r, api.calls)
            == TakeAll(api, old(api.calls), old(api.world), ServiceSteps(kn.meta.uid, kn.spec, order))
    ensures exists tried :: tried <= EnabledBackends(kn.spec) && Lists(order, tried)
    ensures api.Quiet() ==>
      r.Ok? && Undisturbed(old(api.world), api.world)
      && StageOf(api) == DeployBackends(old(StageOf(api)), api.admission, kn.meta.uid, kn.spec, order)
  {
    hide InCharge, Done, Progress, IsRun, Inv, Evidence, ForeignStep, OperatorStep, WellFormed, Provided, ServiceKeys,
      DeployBackends, EnabledBackends, EachItsOwn, Lists, TakeAll, ServiceSteps, Listed;
    kn.status := SetPhase(kn.status, Creating, kn.meta.generation);
    var services := BuildAllServices(kn.spec);
    WebIsNotEnabled(kn.spec);
    r, order := DeployServices(api, kn, services);
  }

  lemma WebIsNotEnabled(spec: Spec)
    ensures WebFrontend !in EnabledBackends(spec)
  {
  }

  // ---------- web front end ----------

  /** The user has not named the operator's own nginx ConfigMap as the custom one, or that has been recorded. */
  ghost predicate OwnsNginxConfig(l: Lapses, spec: Spec) {
    spec.web.customNginxConfigMap == ConfigMapName(WebFrontend) ==> l.borrowed
  }

  lemma WebIsCreatable(id: Id, l: Lapses, w: World, spec: Spec, uid: nat)
    requires OwnsNginxConfig(l, spec)
    requires !l.meddled && spec.web.customNginxConfigMap == "" ==> ConfigMapKey(WebFrontend) in w.objects
    ensures Creatable(id, l, w, DeploymentKey(WebFrontend),
                      Object(Some(uid), map[], DeploymentBody(WebDeployment(spec), 0)), uid)
  {
    hide References, WebDeployment, ConfigMapName;
    WebReferences(spec, Object(Some(uid), map[], DeploymentBody(WebDeployment(spec), 0)));
    WebHasReplicas(spec);
  }

  function NginxConfigKeys(spec: Spec): set<Key> {
    if spec.web.customNginxConfigMap == "" then {ConfigMapKey(WebFrontend)} else {}
  }

  function IngressKeys(spec: Spec): set<Key> {
    if HasIngress(spec.web) then {IngressKey} else {}
  }

  method DeployNginx(api: ApiServer, kn: Instance, config: Option<Object>) returns (r: Result<()>)
    requires api.Valid() && InCharge(api.lapses, api.world, kn.meta, kn.spec)
    requires config == if kn.spec.web.customNginxConfigMap == "" then Some(BuildNginxConfigMap(kn.spec)) else None
    modifies api
    ensures api.Valid() && Progress(api.id, old(api.Snap()), api.Snap(), kn.meta, kn.spec)
    ensures r.Ok? ==> Done(api.id, old(api.Snap()), api.Snap(), kn.meta, kn.spec, NginxConfigKeys(kn.spec))
    ensures Ending(api.world, r, api.calls)
            == TakeAll(api, old(api.calls), old(api.world), NginxSteps(kn.meta.uid, kn.spec))
    ensures api.Quiet() ==>
      r.Ok? && Undisturbed(old(api.world), api.world)
      && StageOf(api) == DeployNginxConfig(old(StageOf(api)), kn.meta.uid, kn.spec)
  {
    hide InCharge, Done, IsRun, Inv, Evidence, ForeignStep, OperatorStep, WellFormed, PutData, TakeAll,
      CreatingOrReplacing;
    TakeNone(api, api.calls, api.world);
    if config.Some? {
      TakeOne(api, api.calls, api.world, Data(ConfigMapKey(WebFrontend), Own(config.value, kn.meta.uid)));
      r := EnsureData(api, ConfigMapKey(WebFrontend), Own(config.value, kn.meta.uid), kn.meta, kn.spec);
    } else {
      NothingDoneYet(api.id, api.Snap(), kn.meta, kn.spec);
      DoneIsProgress(api.id, api.Snap(), api.Snap(), kn.meta, kn.spec, {});
      r := Ok(());
    }
  }

  method DeployWebIngress(api: ApiServer, kn: Instance, ingress: Option<IngressSpec>) returns (r: Result<()>)
    requires api.Valid() && InCharge(api.lapses, api.world, kn.meta, kn.spec)
    requires ingress == WebIngress(kn.spec.web)
    requires !api.lapses.meddled ==> ServiceKey(WebFrontend) in api.world.objects
    modifies api
    ensures api.Valid() && Progress(api.id, old(api.Snap()), api.Snap(), kn.meta, kn.spec)
    ensures r.Ok? ==> Done(api.id, old(api.Snap()), api.Snap(), kn.meta, kn.spec, IngressKeys(kn.spec))
    ensures Ending(api.world, r, api.calls)
            == TakeAll(api, old(api.calls), old(api.world), IngressSteps(kn.meta.uid, kn.spec))
    ensures api.Quiet() ==>
      r.Ok? && Undisturbed(old(api.world), api.world)
      && StageOf(api) == DeployIngress(old(StageOf(api)), api.admission, kn.meta.uid, kn.spec)
  {
    hide InCharge, Done, IsRun, Inv, Evidence, ForeignStep, OperatorStep, WellFormed, PutIfAbsent, Creatable,
      WebIngress, TakeAll, CreatingIfMissing;
    TakeNone(api, api.calls, api.world);
    if ingress.Some? {
      var o := Own(Object(None, map[], IngressBody(ingress.value)), kn.meta.uid);
      TakeOne(api, api.calls, api.world, Exists(IngressKey, o));
      PlainObjectIsCreatable(api.id, api.lapses, api.world, IngressKey, o, kn.meta.uid);
      r := EnsureExists(api, IngressKey, o, kn.meta, kn.spec);
    } else {
      NothingDoneYet(api.id, api.Snap(), kn.meta, kn.spec);
      DoneIsProgress(api.id, api.Snap(), api.Snap(), kn.meta, kn.spec, {});
      r := Ok(());
    }
  }

  lemma DoneIsStored(id: Id, from: Snapshot, to: Snapshot, meta: ObjectMeta, spec: Spec, keys: set<Key>)
    requires Done(id, from, to, meta, spec, keys)
    ensures Progress(id, from, to, meta, spec) && InCharge(to.lapses, to.world, meta, spec) && to.lapses == from.lapses
    ensures !to.lapses.meddled ==> forall k :: k in keys && !k.BindingKey? ==> k in to.world.objects
  {
    hide InCharge, SawAll;
  }

  lemma OwnsNginxConfigStill(l: Lapses, l': Lapses, spec: Spec)
    requires OwnsNginxConfig(l, spec) && l' == l
    ensures OwnsNginxConfig(l', spec)
  {
  }

  method ReconcileWeb(api: ApiServer, kn: Instance) returns (r: Result<()>)
    requires api.Valid() && InCharge(api.lapses, api.world, kn.meta, kn.spec) && OwnsNginxConfig(api.lapses, kn.spec)
    modifies api
    ensures api.Valid() && Progress(api.id, old(api.Snap()), api.Snap(), kn.meta, kn.spec)
    ensures r.Ok? ==> Done(api.id, old(api.Snap()), api.Snap(), kn.meta, kn.spec, WebKeys(kn.spec))
    ensures Ending(api.world, r, api.calls)
            == TakeAll(api, old(api.calls), old(api.world), WebSteps(kn.meta.uid, kn.spec))
    ensures api.Quiet() ==>
      r.Ok? && Undisturbed(old(api.world), api.world)
      && StageOf(api) == DeployWeb(old(StageOf(api)), api.admission, kn.meta.uid, kn.spec)
  {
    hide InCharge, IsRun, Inv, Evidence, ForeignStep, OperatorStep, WellFormed, Creatable, SawAll, Progress, Done,
      PutIfAbsent, PutDeployment, DeployNginxConfig, DeployIngress, WebDeployment, WebService, WebIngress,
      OwnsNginxConfig, WantsWeb, WantsWebService, WantsWebResources, WantsIngress, CreatingIfMissing,
      CreatingOrRewriting, TakeAll, WebSteps, NginxSteps, IngressSteps, Holding, Admit, Kept, BuildNginxConfigMap;
    ghost var s0 := api.Snap();
    WebStepsTaken(api, api.calls, api.world, kn.meta.uid, kn.spec);
    var web := BuildWebResources(kn.spec);
    r := DeployNginx(api, kn, web.nginxConfig);
    if r.Err? {
      return;
    }
    ghost var s1 := api.Snap();
    DoneIsStored(api.id, s0, s1, kn.meta, kn.spec, NginxConfigKeys(kn.spec));
    OwnsNginxConfigStill(s0.lapses, s1.lapses, kn.spec);
    WebIsCreatable(api.id, api.lapses, api.world, kn.spec, kn.meta.uid);
    WebHasReplicas(kn.spec);
    r := EnsureDeployment(api, DeploymentKey(WebFrontend), web.deployment, kn.meta.uid, kn.meta, kn.spec);
    ghost var s2 := api.Snap();
    ProgressIsTransitive(api.id, s0, s1, s2, kn.meta, kn.spec);
    if r.Err? {
      return;
    }
    ghost var k2 := NginxConfigKeys(kn.spec) + {DeploymentKey(WebFrontend)};
    DoneComposes(api.id, s0, s1, s2, kn.meta, kn.spec, NginxConfigKeys(kn.spec), {DeploymentKey(WebFrontend)});
    DoneIsStored(api.id, s1, s2, kn.meta, kn.spec, {DeploymentKey(WebFrontend)});
    var service := Own(Object(None, map[], ServiceBody(web.service)), kn.meta.uid);
    PlainObjectIsCreatable(api.id, api.lapses, api.world, ServiceKey(WebFrontend), service, kn.meta.uid);
    r := EnsureExists(api, ServiceKey(WebFrontend), service, kn.meta, kn.spec);
    ghost var s3 := api.Snap();
    ProgressIsTransitive(api.id, s0, s2, s3, kn.meta, kn.spec);
    if r.Err? {
      return;
    }
    ghost var k3 := k2 + {ServiceKey(WebFrontend)};
    DoneIsStored(api.id, s2, s3, kn.meta, kn.spec, {ServiceKey(WebFrontend)});
    DoneComposes(api.id, s0, s2, s3, kn.meta, kn.spec, k2, {ServiceKey(WebFrontend)});
    r := DeployWebIngress(api, kn, web.ingress);
    ProgressIsTransitive(api.id, s0, s3, api.Snap(), kn.meta, kn.spec);
    if r.Ok? {
      DoneComposes(api.id, s0, s3, api.Snap(), kn.meta, kn.spec, k3, IngressKeys(kn.spec));
      assert k3 + IngressKeys(kn.spec) == WebKeys(kn.spec);
    }
  }

  lemma WebHasReplicas(spec: Spec)
    ensures WebDeployment(spec).replicas.Some?
  {
  }
}
