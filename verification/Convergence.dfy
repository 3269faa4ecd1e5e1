/** What repeated undisturbed runs do to the store: what each managed object becomes, that the order of the
    services does not matter, and which runs still write. */
module Convergence {
  import opened Types
  import opened Builders
  import opened Endpoints
  import opened Validation
  import opened Drift
  import opened Protocol
  import opened Runs
  import opened Cluster
  import opened Deploy
  import opened Phases

  /** What stays fixed over the runs considered here. */
  datatype Plan = Plan(admission: Admission, id: Id, uid: nat, spec: Spec, nodeIP: string)

  type Objects = map<Key, Object>

  function Run(p: Plan, s: Stage, order: seq<Component>): Stage {
    DeployAll(s, p.admission, p.id, p.uid, p.spec, p.nodeIP, order)
  }

  // ---------- the goal, object by object ----------

  /** The object a run wants under a key. Only the Secret depends on the store: through the port of the web Service. */
  function Desired(p: Plan, port: int, k: Key): Object {
    match k
    case NamespaceKey => Object(None, map[], NamespaceBody)
    case AccountKey => Own(BuildServiceAccount(), p.uid)
    case BindingKey(_) => BuildClusterRoleBinding(p.id)
    case SecretKey => Own(SecretObject(p.spec, p.nodeIP, port), p.uid)
    case ConfigMapKey(c) => Own(if c == WebFrontend then BuildNginxConfigMap(p.spec) else BuildConfigMap(c), p.uid)
    case DeploymentKey(c) =>
      Object(Some(p.uid), map[],
             DeploymentBody(if c == WebFrontend then WebDeployment(p.spec) else ResourcesOf(p.spec, c).deployment, 0))
    case ServiceKey(c) =>
      Object(Some(p.uid), map[],
             ServiceBody(if c == WebFrontend then WebService(p.spec.web) else ResourcesOf(p.spec, c).service))
    case IngressKey =>
      Object(Some(p.uid), map[], IngressBody(if HasIngress(p.spec.web) then WebIngress(p.spec.web).value
                                             else IngressSpec("", "", None, map[])))
  }

  /** What becomes of a stored object, or of its absence. */
  function Merged(admission: Admission, k: Key, stored: Option<Object>, desired: Object): Object {
    if stored.None? then Admit(admission, desired)
    else if k.SecretKey? || k.ConfigMapKey? then stored.value.(body := desired.body)
    else if k.DeploymentKey? && stored.value.body.DeploymentBody? && desired.body.DeploymentBody?
            && !SpecEqual(stored.value.body.deployment, desired.body.deployment)
    then Kept(admission.canon, Rewrite(k, stored.value, desired.body.deployment))
    else stored.value
  }

  function Find(m: Objects, k: Key): Option<Object> {
    if k in m then Some(m[k]) else None
  }

  function After(p: Plan, port: int, m: Objects, k: Key): Object {
    Merged(p.admission, k, Find(m, k), Desired(p, port, k))
  }

  /** The store with these keys brought into their state after a run, and no others. */
  function Apply(p: Plan, port: int, m: Objects, keys: set<Key>): Objects {
    m + map k | k in keys :: After(p, port, m, k)
  }

  lemma ApplyComposes(p: Plan, port: int, m: Objects, first: set<Key>, second: set<Key>)
    requires first !! second
    ensures Apply(p, port, Apply(p, port, m, first), second) == Apply(p, port, m, first + second)
  {
    hide Merged, Desired;
    var between := Apply(p, port, m, first);
    assert forall k :: k in second ==> Find(between, k) == Find(m, k);
  }

  lemma ApplyNothing(p: Plan, port: int, m: Objects)
    ensures Apply(p, port, m, {}) == m
  {
  }

  // ---------- each step is one key ----------

  lemma PutIfAbsentApplies(p: Plan, port: int, s: Stage, k: Key)
    requires k.AccountKey? || k.BindingKey? || k.ServiceKey? || k.IngressKey?
    ensures PutIfAbsent(s, p.admission, k, Desired(p, port, k)).objects == Apply(p, port, s.objects, {k})
  {
    hide Desired, Admit;
  }

  lemma PutDataApplies(p: Plan, port: int, s: Stage, k: Key)
    requires k.SecretKey? || k.ConfigMapKey?
    ensures PutData(s, k, Desired(p, port, k)).objects == Apply(p, port, s.objects, {k})
  {
    DesiredDataIsAdmitted(p, port, k);
    hide Desired, Admit;
  }

  lemma DesiredDataIsAdmitted(p: Plan, port: int, k: Key)
    requires k.SecretKey? || k.ConfigMapKey?
    ensures Admit(p.admission, Desired(p, port, k)) == Desired(p, port, k)
  {
    hide SecretData, WebIngress, WebDeployment, BackendDeployment, WebService, BackendService;
  }

  lemma PutDeploymentApplies(p: Plan, port: int, s: Stage, c: Component)
    ensures PutDeployment(s, p.admission.canon, DeploymentKey(c), p.uid,
                          Desired(p, port, DeploymentKey(c)).body.deployment).objects
            == Apply(p, port, s.objects, {DeploymentKey(c)})
  {
    hide SpecEqual, Rewrite, WebDeployment, ResourcesOf, WebIngress, SecretObject, WebService, BuildNginxConfigMap,
      StoredForm;
  }

  lemma BackendApplies(p: Plan, port: int, s: Stage, c: Component)
    requires c != WebFrontend
    ensures DeployBackend(s, p.admission, p.uid, p.spec, c).objects
            == Apply(p, port, s.objects, {DeploymentKey(c), ServiceKey(c)})
  {
    hide Apply, PutDeployment, PutIfAbsent, ResourcesOf;
    var s1 := PutDeployment(s, p.admission.canon, DeploymentKey(c), p.uid, ResourcesOf(p.spec, c).deployment);
    PutDeploymentApplies(p, port, s, c);
    PutIfAbsentApplies(p, port, s1, ServiceKey(c));
    ApplyComposes(p, port, s.objects, {DeploymentKey(c)}, {ServiceKey(c)});
    assert {DeploymentKey(c)} + {ServiceKey(c)} == {DeploymentKey(c), ServiceKey(c)};
  }

  // ---------- the order of the services ----------

  lemma ListsButLast(order: seq<Component>, components: set<Component>)
    requires Lists(order, components) && order != []
    ensures var last := order[|order| - 1];
      last in components && Lists(order[..|order| - 1], components - {last})
  {
    var n := |order| - 1;
    var init := order[..n];
    forall c | c in init ensures c in components - {order[n]} {
      var i :| 0 <= i < n && init[i] == c;
      assert order[i] == c;
    }
    forall c | c in components - {order[n]} ensures c in init {
      var i :| 0 <= i < |order| && order[i] == c;
      assert init[i] == c;
    }
  }

  lemma {:induction false} BackendsApply(p: Plan, port: int, s: Stage, order: seq<Component>,
                                         components: set<Component>)
    requires Lists(order, components) && WebFrontend !in components
    ensures DeployBackends(s, p.admission, p.uid, p.spec, order).objects
            == Apply(p, port, s.objects, ServiceKeys(components))
    decreases |order|
  {
    hide Apply, DeployBackend;
    if order == [] {
      assert components == {} by {
        assert forall c :: c in components ==> c in order;
      }
      assert ServiceKeys(components) == {};
      ApplyNothing(p, port, s.objects);
    } else {
      var n := |order| - 1;
      var c := order[n];
      ListsButLast(order, components);
      BackendsApply(p, port, s, order[..n], components - {c});
      BackendApplies(p, port, DeployBackends(s, p.admission, p.uid, p.spec, order[..n]), c);
      ApplyComposes(p, port, s.objects, ServiceKeys(components - {c}), {DeploymentKey(c), ServiceKey(c)});
      AnotherService(components - {c}, c);
      assert components - {c} + {c} == components;
    }
  }

  /** The stored objects after the services are deployed do not depend on the order the map yields them in. */
  lemma OrderDoesNotMatter(p: Plan, s: Stage, order: seq<Component>, order': seq<Component>)
    requires Lists(order, EnabledBackends(p.spec)) && Lists(order', EnabledBackends(p.spec))
    ensures DeployBackends(s, p.admission, p.uid, p.spec, order).objects
            == DeployBackends(s, p.admission, p.uid, p.spec, order').objects
    ensures Run(p, s, order).objects == Run(p, s, order').objects
  {
    hide Apply, ServiceKeys;
    WebIsNotEnabled(p.spec);
    BackendsApply(p, 0, s, order, EnabledBackends(p.spec));
    BackendsApply(p, 0, s, order', EnabledBackends(p.spec));
    RunApplies(p, s, order);
    RunApplies(p, s, order');
  }

  // ---------- a whole run ----------

  lemma {:induction false} ConfigMapsApply(p: Plan, port: int, s: Stage, components: seq<Component>)
    requires forall i, j :: 0 <= i < j < |components| ==> components[i] != components[j]
    requires WebFrontend !in components
    ensures DeployConfigMaps(s, p.uid, components).objects == Apply(p, port, s.objects, ConfigMapKeysOf(components))
    decreases |components|
  {
    hide Apply, PutData, WebIngress, WebDeployment, WebService, ResourcesOf, SecretObject;
    if components == [] {
      assert ConfigMapKeysOf(components) == {};
      ApplyNothing(p, port, s.objects);
    } else {
      var n := |components| - 1;
      var c := components[n];
      assert forall d :: d in components[..n] ==> d in components;
      assert c in components;
      ConfigMapsApply(p, port, s, components[..n]);
      PutDataApplies(p, port, DeployConfigMaps(s, p.uid, components[..n]), ConfigMapKey(c));
      assert components == components[..n] + [c];
      assert ConfigMapKeysOf(components) == ConfigMapKeysOf(components[..n]) + {ConfigMapKey(c)};
      ApplyComposes(p, port, s.objects, ConfigMapKeysOf(components[..n]), {ConfigMapKey(c)});
    }
  }

  lemma RBACApplies(p: Plan, port: int, s: Stage)
    ensures DeployRBAC(s, p.admission, p.id, p.uid).objects == Apply(p, port, s.objects, RBACKeys(p.id))
  {
    hide Apply, PutIfAbsent;
    var b := BindingKey(BindingName(p.id));
    PutIfAbsentApplies(p, port, s, AccountKey);
    PutIfAbsentApplies(p, port, PutIfAbsent(s, p.admission, AccountKey, Desired(p, port, AccountKey)), b);
    ApplyComposes(p, port, s.objects, {AccountKey}, {b});
    assert {AccountKey} + {b} == RBACKeys(p.id);
  }

  lemma WebApplies(p: Plan, port: int, s: Stage)
    ensures DeployWeb(s, p.admission, p.uid, p.spec).objects == Apply(p, port, s.objects, WebKeys(p.spec))
  {
    hide Apply, PutIfAbsent, PutDeployment, PutData, WebDeployment, WebService, WebIngress;
    var m, d, v := s.objects, DeploymentKey(WebFrontend), ServiceKey(WebFrontend);
    var s1 := DeployNginxConfig(s, p.uid, p.spec);
    var k1 := NginxConfigKeys(p.spec);
    PutDataApplies(p, port, s, ConfigMapKey(WebFrontend));
    ApplyNothing(p, port, m);
    assert s1.objects == Apply(p, port, m, k1);
    var s2 := PutDeployment(s1, p.admission.canon, d, p.uid, WebDeployment(p.spec));
    PutDeploymentApplies(p, port, s1, WebFrontend);
    ApplyComposes(p, port, m, k1, {d});
    var s3 := PutIfAbsent(s2, p.admission, v, Object(Some(p.uid), map[], ServiceBody(WebService(p.spec.web))));
    PutIfAbsentApplies(p, port, s2, v);
    ApplyComposes(p, port, m, k1 + {d}, {v});
    var k3 := k1 + {d} + {v};
    PutIfAbsentApplies(p, port, s3, IngressKey);
    ApplyNothing(p, port, s3.objects);
    assert DeployIngress(s3, p.admission, p.uid, p.spec).objects == Apply(p, port, s3.objects, IngressKeys(p.spec));
    ApplyComposes(p, port, m, k3, IngressKeys(p.spec));
    assert k3 + IngressKeys(p.spec) == WebKeys(p.spec);
  }

  /** The port the run's Secret assumes. */
  function PortSeen(p: Plan, m: Objects): int {
    ProxyNodePort(p.spec.web, WebServiceOf(m))
  }

  /** A run brings exactly the required keys into their state, each from what was stored under it alone. */
  lemma RunApplies(p: Plan, s: Stage, order: seq<Component>)
    requires Lists(order, EnabledBackends(p.spec))
    ensures Run(p, s, order).objects == Apply(p, PortSeen(p, s.objects), s.objects, RequiredKeys(p.id, p.spec))
  {
    hide Apply, PutData, ProxyNodePort, SecretData, DeployRBAC, DeployConfigMaps, DeployBackends, DeployWeb, BACKENDS,
      Lists, EnabledBackends;
    var m, port := s.objects, PortSeen(p, s.objects);
    var s1 := DeployRBAC(s, p.admission, p.id, p.uid);
    RBACApplies(p, port, s);
    RBACLeavesService(p, s);
    var s2 := DeploySecret(s1, p.uid, p.spec, p.nodeIP);
    PutDataApplies(p, port, s1, SecretKey);
    ApplyComposes(p, port, m, RBACKeys(p.id), {SecretKey});
    var s3 := DeployConfigMaps(s2, p.uid, BACKENDS);
    BackendsAreListed();
    ConfigMapsApply(p, port, s2, BACKENDS);
    var k3 := RBACKeys(p.id) + {SecretKey} + ConfigMapKeys();
    ApplyComposes(p, port, m, RBACKeys(p.id) + {SecretKey}, ConfigMapKeys());
    var s4 := DeployBackends(s3, p.admission, p.uid, p.spec, order);
    WebIsNotEnabled(p.spec);
    BackendsApply(p, port, s3, order, EnabledBackends(p.spec));
    ApplyComposes(p, port, m, k3, ServiceKeys(EnabledBackends(p.spec)));
    WebApplies(p, port, s4);
    var k4 := k3 + ServiceKeys(EnabledBackends(p.spec));
    KeysAreDisjoint(p.id, p.spec);
    ApplyComposes(p, port, m, k4, WebKeys(p.spec));
  }

  lemma BackendsAreListed()
    ensures WebFrontend !in BACKENDS && ConfigMapKeysOf(BACKENDS) == ConfigMapKeys()
    ensures forall i, j :: 0 <= i < j < |BACKENDS| ==> BACKENDS[i] != BACKENDS[j]
  {
    AllBackends(WebFrontend);
    BackendConfigMapKeys();
  }

  lemma KeysAreDisjoint(id: Id, spec: Spec)
    ensures RBACKeys(id) + {SecretKey} + ConfigMapKeys() + ServiceKeys(EnabledBackends(spec)) !! WebKeys(spec)
  {
  }

  lemma RBACLeavesService(p: Plan, s: Stage)
    ensures WebServiceOf(DeployRBAC(s, p.admission, p.id, p.uid).objects) == WebServiceOf(s.objects)
  {
    hide Admit;
  }

  // ---------- fixpoints ----------

  ghost predicate Fits(m: Objects) {
    forall k :: k in m ==> BodyFits(k, m[k].body)
  }

  lemma CopyingAgain(canon: Canon, k: Key, stored: DeploymentSpec, desired: DeploymentSpec)
    ensures CopyFields(k, StoredForm(canon, CopyFields(k, stored, desired)), desired) == CopyFields(k, stored, desired)
    ensures CopyFields(k, StoredForm(canon, desired), desired) == desired
  {
    hide CanonicalResources;
  }

  /** A second look at an object a run has just dealt with changes nothing, except that the Secret may be
      wanted differently by then. */
  lemma MergedIsStable(p: Plan, port: int, m: Objects, k: Key, port': int)
    requires k != SecretKey || SecretData(p.spec, p.nodeIP, port) == SecretData(p.spec, p.nodeIP, port')
    requires Fits(m)
    ensures var o := After(p, port, m, k);
      Merged(p.admission, k, Some(o), Desired(p, port', k)) == o && (k.DeploymentKey? ==> o.body.DeploymentBody?)
  {
    hide SpecEqual, SecretData, BackendDeployment, WebDeployment, WebService, WebIngress, BackendService,
      BuildNginxConfigMap, StoredForm, CopyFields;
    if k != SecretKey {
      DesiredIgnoresPort(p, port, port', k);
    }
    if k.DeploymentKey? {
      var d := Desired(p, port, k).body.deployment;
      CopyingAgain(p.admission.canon, k, if k in m then m[k].body.deployment else d, d);
    } else if k.SecretKey? || k.ConfigMapKey? {
      DesiredDataIsAdmitted(p, port, k);
    }
  }

  /** Every required object is stored and in its final state. */
  ghost predicate Settled(p: Plan, m: Objects) {
    forall k :: k in RequiredKeys(p.id, p.spec) ==>
      k in m && After(p, PortSeen(p, m), m, k) == m[k] && (k.DeploymentKey? ==> m[k].body.DeploymentBody?)
  }

  lemma ServiceStays(p: Plan, port: int, m: Objects)
    ensures ServiceKey(WebFrontend) in m ==>
      WebServiceOf(Apply(p, port, m, RequiredKeys(p.id, p.spec))) == WebServiceOf(m)
  {
    hide RequiredKeys, Desired;
  }

  /** After the first run a second one changes nothing but the data of the Secret, and that exactly when the
      web Service it now finds gives another proxy endpoint than the one assumed before. */
  lemma SecondRunChangesOnlyTheSecret(p: Plan, s0: Stage, order: seq<Component>, order': seq<Component>)
    requires Lists(order, EnabledBackends(p.spec)) && Lists(order', EnabledBackends(p.spec)) && Fits(s0.objects)
    ensures var s1 := Run(p, s0, order); var m1, m2 := s1.objects, Run(p, s1, order').objects;
      SecretKey in m1
      && m2 == m1[SecretKey := m1[SecretKey].(body := SecretBody(SecretData(p.spec, p.nodeIP, PortSeen(p, m1))))]
      && (m2 == m1
          <==> EndpointProxy(p.spec, p.nodeIP, PortSeen(p, m1))
               == EndpointProxy(p.spec, p.nodeIP, PortSeen(p, s0.objects)))
  {
    hide RequiredKeys, SecretData, EndpointProxy, PortSeen, Run, EnabledBackends, Lists, Merged, Desired;
    var s1 := Run(p, s0, order);
    var m0, m1 := s0.objects, s1.objects;
    var port0, port1 := PortSeen(p, m0), PortSeen(p, m1);
    RunApplies(p, s0, order);
    RunApplies(p, s1, order');
    SecretIsRequired(p.id, p.spec);
    SecretAfter(p, port0, m0);
    SecretAfter(p, port1, m1);
    var m2 := Run(p, s1, order').objects;
    forall k | k in m2 && k != SecretKey ensures k in m1 && m2[k] == m1[k] {
      if k in RequiredKeys(p.id, p.spec) {
        MergedIsStable(p, port0, m0, k, port1);
      }
    }
    SameDataIffSameEndpoint(p.spec, p.nodeIP, port1, port0);
  }

  lemma SecretIsRequired(id: Id, spec: Spec)
    ensures SecretKey in RequiredKeys(id, spec)
  {
  }

  lemma SecretAfter(p: Plan, port: int, m: Objects)
    ensures After(p, port, m, SecretKey).body == SecretBody(SecretData(p.spec, p.nodeIP, port))
    ensures SecretKey in m ==>
      After(p, port, m, SecretKey) == m[SecretKey].(body := SecretBody(SecretData(p.spec, p.nodeIP, port)))
  {
    hide SecretData;
  }

  lemma SameDataIffSameEndpoint(spec: Spec, nodeIP: string, port: int, port': int)
    ensures SecretData(spec, nodeIP, port) == SecretData(spec, nodeIP, port')
            <==> EndpointProxy(spec, nodeIP, port) == EndpointProxy(spec, nodeIP, port')
  {
    hide ConnectionEntries, ServiceEntries, EndpointProxy;
    SecretHoldsEndpointProxy(spec, nodeIP, port);
    SecretHoldsEndpointProxy(spec, nodeIP, port');
  }

  /** This object is stored and in the state a run brings it into. */
  ghost predicate Rested(p: Plan, port: int, m: Objects, k: Key) {
    k in m && After(p, port, m, k) == m[k] && (k.DeploymentKey? ==> m[k].body.DeploymentBody?)
  }

  /** Every required object is in its final state, except perhaps the Secret. */
  ghost predicate HalfSettled(p: Plan, m: Objects) {
    Fits(m) && SecretKey in m && forall k :: k in RequiredKeys(p.id, p.spec) && k != SecretKey ==> Rested(p, 0, m, k)
  }

  lemma SettledMeansRested(p: Plan, m: Objects)
    ensures Settled(p, m) <==> forall k :: k in RequiredKeys(p.id, p.spec) ==> Rested(p, PortSeen(p, m), m, k)
  {
    hide After, SpecEqual, RequiredKeys, PortSeen, ResourcesOf;
  }

  /** After the first run only the Secret is left to settle, whatever was stored at first. */
  lemma FirstRunHalfSettles(p: Plan, s: Stage, order: seq<Component>)
    requires Lists(order, EnabledBackends(p.spec)) && Fits(s.objects)
    ensures HalfSettled(p, Run(p, s, order).objects)
  {
    hide RequiredKeys, SecretData, PortSeen, Run, EnabledBackends, Lists, Merged, Desired, SpecEqual, ResourcesOf;
    var m, m1, port := s.objects, Run(p, s, order).objects, PortSeen(p, s.objects);
    RunApplies(p, s, order);
    RunFits(p, port, m);
    SecretIsRequired(p.id, p.spec);
    forall k | k in RequiredKeys(p.id, p.spec) && k != SecretKey ensures Rested(p, 0, m1, k) {
      MergedIsStable(p, port, m, k, 0);
    }
  }

  lemma DesiredIgnoresPort(p: Plan, port: int, port': int, k: Key)
    requires k != SecretKey
    ensures Desired(p, port, k) == Desired(p, port', k)
  {
  }

  lemma SecretIsStable(p: Plan, port: int, m: Objects)
    requires SecretKey in m && m[SecretKey].body == SecretBody(SecretData(p.spec, p.nodeIP, port))
    ensures Rested(p, port, m, SecretKey)
  {
    hide SecretData, WebIngress, WebDeployment, WebService, ResourcesOf, SpecEqual, BuildNginxConfigMap, Rewrite,
      Admit;
  }

  /** The run after that settles everything. */
  lemma HalfSettledRunSettles(p: Plan, s: Stage, order: seq<Component>)
    requires Lists(order, EnabledBackends(p.spec)) && HalfSettled(p, s.objects)
    ensures Settled(p, Run(p, s, order).objects)
  {
    hide RequiredKeys, SecretData, PortSeen, Run, EnabledBackends, Lists, Merged, Desired, SpecEqual, ResourcesOf,
      Settled;
    var m, m', port := s.objects, Run(p, s, order).objects, PortSeen(p, s.objects);
    RunApplies(p, s, order);
    WebServiceIsRequired(p.id, p.spec);
    SecretIsRequired(p.id, p.spec);
    ServiceStays(p, port, m);
    PortIsOfService(p, m, m');
    forall k | k in RequiredKeys(p.id, p.spec) ensures Rested(p, PortSeen(p, m'), m', k) {
      if k == SecretKey {
        SecretAfter(p, port, m);
        SecretIsStable(p, port, m');
      } else {
        assert Rested(p, 0, m, k);
        DesiredIgnoresPort(p, 0, port, k);
        assert m'[k] == m[k];
      }
    }
    SettledMeansRested(p, m');
  }

  /** After the second run every required object is settled, whatever was stored at first. */
  lemma SecondRunSettles(p: Plan, s0: Stage, order: seq<Component>, order': seq<Component>)
    requires Lists(order, EnabledBackends(p.spec)) && Lists(order', EnabledBackends(p.spec)) && Fits(s0.objects)
    ensures Settled(p, Run(p, Run(p, s0, order), order').objects)
  {
    hide RequiredKeys, Run, EnabledBackends, Lists, HalfSettled, Settled;
    FirstRunHalfSettles(p, s0, order);
    HalfSettledRunSettles(p, Run(p, s0, order), order');
  }

  // ---------- readiness ----------

  /** The same objects, except that Deployments may report other numbers of ready replicas. */
  predicate OnlyReadinessDiffers(m: Objects, m': Objects) {
    m.Keys == m'.Keys
    && forall k :: k in m ==>
         m'[k] == m[k]
         || (k.DeploymentKey? && m[k].body.DeploymentBody? && m'[k].body.DeploymentBody?
             && m'[k] == m[k].(body := DeploymentBody(m[k].body.deployment, m'[k].body.readyReplicas)))
  }

  lemma ReadinessIsTransitive(m: Objects, m': Objects, m'': Objects)
    requires OnlyReadinessDiffers(m, m') && OnlyReadinessDiffers(m', m'')
    ensures OnlyReadinessDiffers(m, m'')
  {
  }

  lemma StoreFormWhateverIsReady(canon: Canon, m: Objects, m': Objects)
    requires OnlyReadinessDiffers(m, m') && InStoreForm(canon, m)
    ensures InStoreForm(canon, m')
  {
    hide StoredForm;
    forall k | k in m' ensures Kept(canon, m'[k]) == m'[k] {
      assert Kept(canon, m[k]) == m[k];
    }
  }

  lemma RestedWhateverIsReady(p: Plan, port: int, m: Objects, m': Objects, k: Key)
    requires OnlyReadinessDiffers(m, m') && Rested(p, port, m, k)
    ensures Rested(p, port, m', k)
  {
    hide SpecEqual, Desired, ResourcesOf, WebDeployment;
  }

  lemma SettledWhateverIsReady(p: Plan, m: Objects, m': Objects)
    requires OnlyReadinessDiffers(m, m') && Fits(m)
    ensures Fits(m')
    ensures HalfSettled(p, m) ==> HalfSettled(p, m')
    ensures Settled(p, m) ==> Settled(p, m')
    ensures WebServiceOf(m) == WebServiceOf(m')
  {
    hide RequiredKeys, Rested, Settled, PortSeen;
    forall k, port | Rested(p, port, m, k) ensures Rested(p, port, m', k) {
      RestedWhateverIsReady(p, port, m, m', k);
    }
    SettledMeansRested(p, m);
    SettledMeansRested(p, m');
    PortIsOfService(p, m, m');
  }

  lemma WebServiceIsRequired(id: Id, spec: Spec)
    ensures ServiceKey(WebFrontend) in RequiredKeys(id, spec)
  {
  }

  lemma PortIsOfService(p: Plan, m: Objects, m': Objects)
    requires WebServiceOf(m) == WebServiceOf(m')
    ensures PortSeen(p, m) == PortSeen(p, m')
  {
  }

  lemma RunFits(p: Plan, port: int, m: Objects)
    requires Fits(m)
    ensures Fits(Apply(p, port, m, RequiredKeys(p.id, p.spec)))
  {
    hide SecretData, BackendDeployment, WebService, WebIngress, BackendService, BuildNginxConfigMap, SpecEqual;
    var m' := Apply(p, port, m, RequiredKeys(p.id, p.spec));
    forall k | k in m' ensures BodyFits(k, m'[k].body) {
      if k in RequiredKeys(p.id, p.spec) {
        DesiredFits(p, port, k);
      }
    }
  }

  lemma DesiredFits(p: Plan, port: int, k: Key)
    ensures BodyFits(k, Desired(p, port, k).body) && BodyFits(k, Admit(p.admission, Desired(p, port, k)).body)
  {
    hide SecretData, WebService, WebIngress, BackendService;
    WebHasReplicas(p.spec);
  }

  // ---------- what later runs still write ----------

  lemma SettledDataIsNotWritten(p: Plan, s: Stage, k: Key)
    requires Settled(p, s.objects) && k in RequiredKeys(p.id, p.spec) && (k.SecretKey? || k.ConfigMapKey?)
    ensures PutData(s, k, Desired(p, PortSeen(p, s.objects), k)) == s
  {
    hide RequiredKeys, Desired, PortSeen;
    assert After(p, PortSeen(p, s.objects), s.objects, k) == s.objects[k];
  }

  /** The comparison finds the stored Deployment of this backend different from its manifest. */
  predicate Drifts(p: Plan, m: Objects, c: Component) {
    var k := DeploymentKey(c);
    k in m && m[k].body.DeploymentBody? && !SpecEqual(m[k].body.deployment, ManifestOf(p.spec, c))
  }

  /** The Deployments a run writes on the way, if it visits the services in this order. */
  function Drifting(p: Plan, m: Objects, order: seq<Component>): seq<Key>
    decreases |order|
  {
    if order == [] then []
    else
      var n := |order| - 1;
      Drifting(p, m, order[..n]) + if Drifts(p, m, order[n]) then [DeploymentKey(order[n])] else []
  }

  lemma SettledIsStored(p: Plan, s: Stage, k: Key)
    requires Settled(p, s.objects) && k in RequiredKeys(p.id, p.spec)
    ensures k in s.objects
    ensures k.DeploymentKey? ==>
      s.objects[k].body.DeploymentBody?
      && (Drifts(p, s.objects, k.c) ==>
            Kept(p.admission.canon, Rewrite(k, s.objects[k], ManifestOf(p.spec, k.c))) == s.objects[k])
  {
    hide RequiredKeys, PortSeen, SpecEqual, WebDeployment, BackendDeployment, Admit, StoredForm;
    assert After(p, PortSeen(p, s.objects), s.objects, k) == s.objects[k];
  }

  lemma {:induction false} SettledConfigMapsAreNotWritten(p: Plan, s: Stage, components: seq<Component>)
    requires Settled(p, s.objects) && WebFrontend !in components
    ensures DeployConfigMaps(s, p.uid, components) == s
    decreases |components|
  {
    hide Settled, PutData, SecretObject;
    if components != [] {
      var n := |components| - 1;
      assert forall d :: d in components[..n] ==> d in components;
      SettledConfigMapsAreNotWritten(p, s, components[..n]);
      SettledDataIsNotWritten(p, s, ConfigMapKey(components[n]));
    }
  }

  lemma {:induction false} SettledBackendsKeepTheirState(p: Plan, s: Stage, order: seq<Component>)
    requires Settled(p, s.objects) && forall c :: c in order ==> c in EnabledBackends(p.spec)
    ensures DeployBackends(s, p.admission, p.uid, p.spec, order)
            == Stage(s.objects, s.writes + Drifting(p, s.objects, order))
    decreases |order|
  {
    hide Settled, EnabledBackends, SpecEqual, BackendDeployment, Kept, Rewrite;
    if order != [] {
      var n := |order| - 1;
      var c, k := order[n], DeploymentKey(order[n]);
      assert forall d :: d in order[..n] ==> d in order;
      assert c in order;
      SettledBackendsKeepTheirState(p, s, order[..n]);
      WebIsNotEnabled(p.spec);
      SettledIsStored(p, s, k);
      SettledIsStored(p, s, ServiceKey(c));
      assert s.objects[k := s.objects[k]] == s.objects;
    }
  }

  lemma SettledWebIsRewritten(p: Plan, s: Stage)
    requires Settled(p, s.objects)
    ensures DeployWeb(s, p.admission, p.uid, p.spec) == Stage(s.objects, s.writes + [DeploymentKey(WebFrontend)])
  {
    hide Settled, EnabledBackends, SpecEqual, WebDeployment, WebService, PutData, Rewrite, WebIngress, Kept;
    var d := DeploymentKey(WebFrontend);
    if p.spec.web.customNginxConfigMap == "" {
      SettledDataIsNotWritten(p, s, ConfigMapKey(WebFrontend));
    }
    SettledIsStored(p, s, d);
    SettledIsStored(p, s, ServiceKey(WebFrontend));
    WebManifestAlwaysDrifts(p.spec);
    if HasIngress(p.spec.web) {
      SettledIsStored(p, s, IngressKey);
    }
    assert s.objects[d := s.objects[d]] == s.objects;
  }

  /** From then on a run changes nothing. It writes the web Deployment and the backends the comparison finds
      different, as they are. */
  lemma SettledRunRewritesOnlyWhatDrifts(p: Plan, s: Stage, order: seq<Component>)
    requires Settled(p, s.objects) && Lists(order, EnabledBackends(p.spec))
    ensures Run(p, s, order)
            == Stage(s.objects, s.writes + Drifting(p, s.objects, order) + [DeploymentKey(WebFrontend)])
  {
    hide Settled, EnabledBackends, SpecEqual, DeployWeb, DeployBackends, DeployConfigMaps, BACKENDS, PutData,
      SecretObject, WebIngress, WebDeployment, WebService, ResourcesOf, WebServiceOf, ProxyNodePort, Rewrite,
      BindingName, Admit, Drifting;
    SettledIsStored(p, s, AccountKey);
    SettledIsStored(p, s, BindingKey(BindingName(p.id)));
    SettledDataIsNotWritten(p, s, SecretKey);
    BackendsAreListed();
    SettledConfigMapsAreNotWritten(p, s, BACKENDS);
    SettledBackendsKeepTheirState(p, s, order);
    SettledWebIsRewritten(p, Stage(s.objects, s.writes + Drifting(p, s.objects, order)));
  }

  /** The resources a specification gives a backend. */
  function ResourcesFor(spec: Spec, c: Component): Resources {
    GetServiceResources(ServiceConfigOf(spec, c))
  }

  /** In a settled store a backend drifts exactly when its resources are not in the form the store gives them;
      its Deployment is stored in that form. */
  lemma DriftsIffNotCanonical(p: Plan, m: Objects, c: Component)
    requires Settled(p, m) && c in EnabledBackends(p.spec)
    requires DeploymentKey(c) in m ==> Kept(p.admission.canon, m[DeploymentKey(c)]) == m[DeploymentKey(c)]
    ensures Drifts(p, m, c)
            <==> CanonicalResources(p.admission.canon, ResourcesFor(p.spec, c)) != ResourcesFor(p.spec, c)
  {
    hide Settled, EnabledBackends, SpecEqual, BackendDeployment, CanonicalResources, RequiredKeys, ResourcesFor,
      Rewrite;
    var canon, k, d := p.admission.canon, DeploymentKey(c), ManifestOf(p.spec, c);
    WebIsNotEnabled(p.spec);
    BackendIsRequired(p.id, p.spec, c);
    SettledIsStored(p, Stage(m, []), k);
    ManifestResources(p.spec, c);
    if Drifts(p, m, c) {
      if CanonicalResources(canon, ResourcesFor(p.spec, c)) == ResourcesFor(p.spec, c) {
        RewrittenBackendIsAccepted(canon, k, m[k], p.spec, c);
      }
    } else {
      EqualResources(m[k].body.deployment, d);
      assert StoredForm(canon, m[k].body.deployment) == m[k].body.deployment;
      assert m[k].body.deployment.template.containers[0].resources
          == CanonicalResources(canon, m[k].body.deployment.template.containers[0].resources);
    }
  }

  lemma BackendIsRequired(id: Id, spec: Spec, c: Component)
    requires c in EnabledBackends(spec)
    ensures DeploymentKey(c) in RequiredKeys(id, spec)
  {
  }

  lemma ManifestResources(spec: Spec, c: Component)
    requires c != WebFrontend
    ensures |ManifestOf(spec, c).template.containers| == 1
    ensures ManifestOf(spec, c).template.containers[0].resources == ResourcesFor(spec, c)
  {
  }

  lemma EqualResources(stored: DeploymentSpec, desired: DeploymentSpec)
    requires SpecEqual(stored, desired) && |desired.template.containers| > 0
    ensures |stored.template.containers| > 0
    ensures stored.template.containers[0].resources == desired.template.containers[0].resources
  {
  }

  /** With canonical resources a rewritten backend is one the comparison accepts. */
  lemma RewrittenBackendIsAccepted(canon: Canon, k: Key, stored: Object, spec: Spec, c: Component)
    requires stored.body.DeploymentBody? && k == DeploymentKey(c) && c != WebFrontend
    requires Kept(canon, Rewrite(k, stored, ManifestOf(spec, c))) == stored
    requires CanonicalResources(canon, ResourcesFor(spec, c)) == ResourcesFor(spec, c)
    ensures SpecEqual(stored.body.deployment, ManifestOf(spec, c))
  {
    hide BackendDeployment, CanonicalResources, ResourcesFor;
    var d := ManifestOf(spec, c);
    BackendManifestIsComparable(BackendOf(spec, c));
    ManifestResources(spec, c);
    assert d.template.containers[0].(resources := d.template.containers[0].resources) == d.template.containers[0];
    assert StoredForm(canon, CopyFields(k, stored.body.deployment, d)).template.containers == d.template.containers;
  }

  // ---------- the store's form ----------

  predicate InStoreForm(canon: Canon, m: Objects) {
    forall k :: k in m ==> Kept(canon, m[k]) == m[k]
  }

  /** What is in canonical form is written the same way again. */
  ghost predicate Idempotent(canon: Canon) {
    forall q :: canon(canon(q)) == canon(q)
  }

  lemma KeepingAgain(canon: Canon, o: Object)
    requires Idempotent(canon)
    ensures Kept(canon, Kept(canon, o)) == Kept(canon, o)
  {
    if o.body.DeploymentBody? {
      var d := o.body.deployment;
      forall c | c in d.template.containers
        ensures CanonicalResources(canon, CanonicalResources(canon, c.resources))
                == CanonicalResources(canon, c.resources)
      {
        CanonicalAgain(canon, c.resources.requests);
        CanonicalAgain(canon, c.resources.limits);
      }
      assert StoredForm(canon, StoredForm(canon, d)) == StoredForm(canon, d);
    }
  }

  lemma CanonicalAgain(canon: Canon, list: Quantities)
    requires Idempotent(canon)
    ensures Canonical(canon, Canonical(canon, list)) == Canonical(canon, list)
  {
    if list.Some? && list.value != map[] {
      var once := Canonical(canon, list).value;
      assert once.Keys == list.value.Keys;
      var k :| k in list.value;
      assert k in once && once != map[];
      var twice := Canonical(canon, Some(once)).value;
      assert forall q :: q in once ==> twice[q] == canon(canon(list.value[q])) == once[q];
      assert twice == once;
    }
  }

  /** A store that writes a canonical form the same way again stays in its form. */
  lemma RunKeepsStoreForm(p: Plan, s: Stage, order: seq<Component>)
    requires Lists(order, EnabledBackends(p.spec)) && InStoreForm(p.admission.canon, s.objects)
    requires Idempotent(p.admission.canon)
    ensures InStoreForm(p.admission.canon, Run(p, s, order).objects)
  {
    hide Run, Desired, RequiredKeys, EnabledBackends, Lists, PortSeen, Kept, SpecEqual, Rewrite;
    RunApplies(p, s, order);
    var m, m', port := s.objects, Run(p, s, order).objects, PortSeen(p, s.objects);
    forall k | k in m' ensures Kept(p.admission.canon, m'[k]) == m'[k] {
      if k in RequiredKeys(p.id, p.spec) {
        MergedIsInStoreForm(p, port, m, k);
      }
    }
  }

  lemma DesiredHasItsKind(p: Plan, port: int, k: Key)
    ensures k.DeploymentKey? <==> Desired(p, port, k).body.DeploymentBody?
  {
    hide SecretData, WebIngress, WebDeployment, BackendDeployment, WebService, BackendService;
  }

  lemma MergedIsInStoreForm(p: Plan, port: int, m: Objects, k: Key)
    requires InStoreForm(p.admission.canon, m)
    requires Idempotent(p.admission.canon)
    ensures Kept(p.admission.canon, After(p, port, m, k)) == After(p, port, m, k)
  {
    hide SpecEqual, Rewrite, StoredForm, SecretData, WebDeployment, BackendDeployment, WebService, WebIngress,
      BackendService, BuildNginxConfigMap;
    var canon, d := p.admission.canon, Desired(p, port, k);
    DesiredHasItsKind(p, port, k);
    hide Desired;
    KeepingAgain(canon, d);
    if k in m && m[k].body.DeploymentBody? && d.body.DeploymentBody? {
      KeepingAgain(canon, Rewrite(k, m[k], d.body.deployment));
    }
  }

  /** A run adds exactly the required keys, and leaves every ServiceAccount, binding, Service and Ingress it finds. */
  lemma RunAddsWhatIsMissing(p: Plan, s: Stage, order: seq<Component>)
    requires Lists(order, EnabledBackends(p.spec))
    ensures Run(p, s, order).objects.Keys == s.objects.Keys + RequiredKeys(p.id, p.spec)
    ensures forall k :: k in s.objects && (k.AccountKey? || k.BindingKey? || k.ServiceKey? || k.IngressKey?) ==>
              k in Run(p, s, order).objects && Run(p, s, order).objects[k] == s.objects[k]
  {
    hide Run, Desired, RequiredKeys, EnabledBackends, Lists, PortSeen;
    RunApplies(p, s, order);
  }

  lemma MissingBackendIsCreated(p: Plan, port: int, m: Objects, c: Component)
    requires DeploymentKey(c) !in m
    ensures After(p, port, m, DeploymentKey(c))
            == Kept(p.admission.canon, Object(Some(p.uid), map[], DeploymentBody(ManifestOf(p.spec, c), 0)))
  {
    hide BackendDeployment, WebDeployment, StoredForm;
  }

  lemma PresentAccountIsKept(p: Plan, port: int, m: Objects)
    requires AccountKey in m
    ensures After(p, port, m, AccountKey) == m[AccountKey]
  {
  }

  lemma ManifestIsBackend(spec: Spec, c: Component)
    requires c != WebFrontend
    ensures ManifestOf(spec, c) == BackendDeployment(BackendOf(spec, c)) && BackendOf(spec, c).component == c
  {
  }

  /** What a first run makes of a ServiceAccount left over from an earlier instance: it keeps it, with its owner,
      and deploys backends that need it. When the garbage collector then removes what belonged to the earlier
      instance, they are left without. */
  lemma LeftoverAccountIsRelied(p: Plan, dead: nat, order: seq<Component>, c: Component)
    requires Lists(order, EnabledBackends(p.spec)) && c in EnabledBackends(p.spec)
    ensures var m := Run(p, Stage(map[AccountKey := Own(BuildServiceAccount(), dead)], []), order).objects;
      var k := DeploymentKey(c);
      && AccountKey in m && m[AccountKey].owner == Some(dead)
      && k in m && m[k].owner == Some(p.uid) && AccountKey in References(k, m[k])
  {
    hide Run, EnabledBackends, Lists, References, ManifestOf, BackendDeployment, RequiredKeys, After, Kept, PortSeen;
    var s := Stage(map[AccountKey := Own(BuildServiceAccount(), dead)], []);
    var port := PortSeen(p, s.objects);
    var m, k := Run(p, s, order).objects, DeploymentKey(c);
    RunAddsWhatIsMissing(p, s, order);
    WebIsNotEnabled(p.spec);
    BackendIsRequired(p.id, p.spec, c);
    RunApplies(p, s, order);
    MissingBackendIsCreated(p, port, s.objects, c);
    PresentAccountIsKept(p, port, s.objects);
    var wanted := Object(Some(p.uid), map[], DeploymentBody(ManifestOf(p.spec, c), 0));
    assert m[k] == Kept(p.admission.canon, wanted);
    ManifestIsBackend(p.spec, c);
    BackendReferences(BackendOf(p.spec, c), wanted);
    KeptKeepsShape(p.admission.canon, NO_LAPSE, k, wanted);
  }

  // ---------- the addresses agree ----------

  /** With every port allocated, the Service built for nodeport mode is as the address lemmas need it. */
  lemma BuiltServiceIsPublished(admission: Admission, web: WebConfig, uid: nat)
    requires web.exposeType == "nodeport" && admission.allocate("http") > 0 && admission.allocate("https") > 0
    ensures var o := Admit(admission, Object(Some(uid), map[], ServiceBody(WebService(web))));
      o.body.ServiceBody? && Published(web, o.body.service)
  {
    assert |"http"| == 4 && |"https"| == 5;
    var ports := Admit(admission, Object(Some(uid), map[], ServiceBody(WebService(web)))).body.service.ports;
    assert ports[0].name == "http" && ports[0] in ports;
    if HTTPSEnabled(web) {
      assert ports[1].name == "https" && ports[1] in ports;
    }
  }

  /** The Service the first run creates in nodeport mode. */
  function CreatedService(p: Plan): Object {
    Admit(p.admission, Object(Some(p.uid), map[], ServiceBody(WebService(p.spec.web))))
  }

  function Chosen(port: int, fallback: int): int {
    if port > 0 then port else fallback
  }

  /** The node port under which the web front end is reached: the https one if HTTPS is enabled, else the http
      one, as configured or as allocated. */
  function ReachedPort(p: Plan): int {
    var web := p.spec.web;
    if HTTPSEnabled(web) then Chosen(web.nodePort.value.https.value.port, p.admission.allocate("https"))
    else Chosen(if web.nodePort.Some? then web.nodePort.value.httpPort else 0, p.admission.allocate("http"))
  }

  lemma CreatedServiceIsReached(p: Plan)
    requires p.spec.web.exposeType == "nodeport"
    requires p.admission.allocate("http") > 0 && p.admission.allocate("https") > 0
    ensures CreatedService(p).body.ServiceBody? && Published(p.spec.web, CreatedService(p).body.service)
    ensures URLPort(p.spec.web, CreatedService(p).body.service) == ReachedPort(p)
  {
    BuiltServiceIsPublished(p.admission, p.spec.web, p.uid);
    var ports := CreatedService(p).body.service.ports;
    assert |"http"| == 4 && |"https"| == 5;
    LastNodePortIs(ports, if HTTPSEnabled(p.spec.web) then 1 else 0);
  }

  /** The Secret of a first run, built before the Service exists, names the address shown for the Service that
      run creates. */
  predicate GuessAgrees(p: Plan, previous: string) {
    var created := CreatedService(p).body;
    created.ServiceBody?
    && Agrees(EndpointProxy(p.spec, p.nodeIP, ProxyNodePort(p.spec.web, None)),
              WebURL(p.spec.web, Some(created.service), p.nodeIP, previous), p.spec)
  }

  /** A first run in nodeport mode whose proxy endpoint is derived. */
  predicate Guesses(p: Plan) {
    DerivesProxy(p.spec) && p.spec.web.exposeType == "nodeport" && p.nodeIP != ""
    && p.admission.allocate("http") > 0 && p.admission.allocate("https") > 0
  }

  /** It does so exactly when the configured http port, or 30080, is the port the front end is reached under.
      With HTTPS enabled that is the https port: the guess then puts the http port under an https scheme. */
  lemma GuessIsRightIff(p: Plan, previous: string)
    requires Guesses(p)
    ensures GuessAgrees(p, previous) <==> ConfiguredPort(p.spec.web) == ReachedPort(p)
  {
    hide EndpointProxy, WebURL, Agrees, URLPort, CreatedService, ReachedPort, Published;
    CreatedServiceIsReached(p);
    NodePortEndpointsAgreeIffSamePort(p.spec, None, CreatedService(p).body.service, p.nodeIP, previous);
  }

  /** The guess can be wrong for a specification that is accepted and chooses both of its ports. */
  lemma GuessCanBeWrong() returns (spec: Spec)
    ensures Accepted(spec) && HTTPSEnabled(spec.web) && DerivesProxy(spec) && spec.web.exposeType == "nodeport"
    ensures spec.web.nodePort.value.httpPort == 30080 && spec.web.nodePort.value.https.value.port == 30443
    ensures forall p: Plan, previous: string :: p.spec == spec && Guesses(p) ==> !GuessAgrees(p, previous)
  {
    var secret := seq(32, _ => 'x');
    var web := WebConfig(1, "", None, "nodeport", None,
                         Some(NodePortConfig(30080, Some(NodePortHTTPS(true, 30443, "tls")))),
                         Some(MinIOProxy(true, "", "")), "");
    spec := Spec(None, Database("h", 3306, "d", "u", "p", 0, 0, ""), Cache("h", 6379, "node", "", false, false, ""),
                 Storage("e", "", "a", "s", "b", None), None,
                 Services(0, JWT(secret, 0, secret, 0, 0), None, "", "", None, None, None, None, None, None, None),
                 web);
    assert |"ingress"| == 7 && |"nodeport"| == 8 && |secret| == 32;
    hide GuessAgrees, Accepted;
    forall p: Plan, previous: string | p.spec == spec && Guesses(p) ensures !GuessAgrees(p, previous) {
      GuessIsRightIff(p, previous);
    }
  }

  /** In a settled store the proxy endpoint in the Secret is the web address shown in the status plus the path. */
  lemma SettledAddressesAgree(p: Plan, m: Objects, previous: string)
    requires Settled(p, m) && DerivesProxy(p.spec)
    requires if p.spec.web.exposeType == "nodeport"
             then p.nodeIP != "" && WebServiceOf(m).Some? && Published(p.spec.web, WebServiceOf(m).value)
             else p.spec.web.exposeType == "ingress" && p.spec.web.ingress.Some?
    ensures SecretKey in m && m[SecretKey].body.SecretBody? && MINIO_ENDPOINT_PROXY in m[SecretKey].body.secret
    ensures Agrees(m[SecretKey].body.secret[MINIO_ENDPOINT_PROXY],
                   WebURL(p.spec.web, WebServiceOf(m), p.nodeIP, previous), p.spec)
  {
    hide RequiredKeys, Desired, Merged, EndpointProxy, WebURL, SecretData, Agrees, Published, WebServiceOf,
      ProxyNodePort;
    SecretIsRequired(p.id, p.spec);
    var port := PortSeen(p, m);
    SecretAfter(p, port, m);
    SecretHoldsEndpointProxy(p.spec, p.nodeIP, port);
    if p.spec.web.exposeType == "nodeport" {
      NodePortEndpointsAgreeIffSamePort(p.spec, WebServiceOf(m), WebServiceOf(m).value, p.nodeIP, previous);
    } else {
      IngressEndpointsAgree(p.spec, p.nodeIP, port, WebServiceOf(m), previous);
    }
  }
}
