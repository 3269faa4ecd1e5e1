/** What the deployment phases deliver, in terms of the specification's own fields: after an undisturbed round from
    any store, behind every skip, and which edits of a specification reach the backends that are already there. */
module Delivery {
  import opened Types
  import opened Builders
  import opened Endpoints
  import opened Validation
  import opened Drift
  import opened Intent
  import opened Protocol
  import opened Runs
  import opened Cluster
  import opened Deploy
  import opened Phases
  import C = Convergence

  // ---------- which objects are required ----------

  /** What a completed round has put in place, key by key. */
  lemma WhatIsRequired(id: Id, spec: Spec, k: Key)
    ensures k in RequiredKeys(id, spec) <==>
      match k
      case NamespaceKey => false
      case AccountKey | SecretKey => true
      case BindingKey(name) => name == "kube-nova-" + id.namespace + "-" + id.name + "-cluster-admin"
      case ConfigMapKey(c) => c != WebFrontend || spec.web.customNginxConfigMap == ""
      case DeploymentKey(c) => c != WebFrontend ==> !SwitchedOff(ServiceConfigOf(spec, c))
      case ServiceKey(c) => c != WebFrontend ==> !SwitchedOff(ServiceConfigOf(spec, c))
      case IngressKey => spec.web.exposeType == "ingress" && spec.web.ingress.Some?
  {
    hide ServiceConfigOf;
  }

  /** Whoever configures no backend gets all seven. */
  lemma AllBackendsByDefault(id: Id, spec: Spec, c: Component)
    requires var s := spec.services;
      s.portalAPI.None? && s.portalRPC.None? && s.managerAPI.None? && s.managerRPC.None? && s.workloadAPI.None?
      && s.consoleAPI.None? && s.consoleRPC.None?
    ensures DeploymentKey(c) in RequiredKeys(id, spec) && ServiceKey(c) in RequiredKeys(id, spec)
  {
    WhatIsRequired(id, spec, DeploymentKey(c));
    WhatIsRequired(id, spec, ServiceKey(c));
    hide RequiredKeys;
  }

  // ---------- what a manifest asks for ----------

  lemma SaysOfBoth(a: seq<EnvVar>, b: seq<EnvVar>, name: string, value: string)
    ensures Says(a + b, name, value)
            <==> Says(b, name, value) || (Says(a, name, value) && forall v :: !Says(b, name, v))
    decreases |b|
  {
    hide Says;
    if b == [] {
      assert a + b == a;
      forall v ensures !Says(b, name, v) {
        NothingSaid(name, v);
      }
    } else {
      var n := |b| - 1;
      var front, last := b[..n], b[n];
      assert a + b == a + front + [last] && b == front + [last];
      SaysOfBoth(a, front, name, value);
      SaysOneMore(a + front, last, name, value);
      forall v ensures Says(b, name, v)
                       <==> if last.name == name && last.value != "" then last.value == v else Says(front, name, v)
      {
        SaysOneMore(front, last, name, v);
      }
      if last.name == name && last.value != "" {
        assert Says(b, name, last.value);
      }
    }
  }

  lemma BaseEnvironment(name: string, value: string)
    ensures Says([EnvVar("TZ", "Asia/Shanghai", None), EnvVar("POD_NAMESPACE", "", Some("metadata.namespace"))],
                 name, value)
            <==> name == "TZ" && value == "Asia/Shanghai"
  {
    var tz, pod := EnvVar("TZ", "Asia/Shanghai", None), EnvVar("POD_NAMESPACE", "", Some("metadata.namespace"));
    NothingSaid(name, value);
    SaysOneMore([], tz, name, value);
    SaysOneMore([tz], pod, name, value);
    assert |"TZ"| == 2 && [] + [tz] == [tz] && [tz] + [pod] == [tz, pod];
  }

  lemma EnvironmentSays(section: Option<ServiceConfig>, env: seq<EnvVar>, name: string, value: string)
    requires env == [EnvVar("TZ", "Asia/Shanghai", None), EnvVar("POD_NAMESPACE", "", Some("metadata.namespace"))]
                    + (if section.Some? then section.value.env else [])
    ensures Says(env, name, value) <==> WantsValue(section, name, value)
  {
    hide Says;
    var own := if section.Some? then section.value.env else [];
    BaseEnvironment(name, value);
    SaysOfBoth([EnvVar("TZ", "Asia/Shanghai", None), EnvVar("POD_NAMESPACE", "", Some("metadata.namespace"))], own,
               name, value);
    forall v | section.None? ensures !Says(own, name, v) {
      NothingSaid(name, v);
    }
  }

  lemma MountedIffWanted(spec: Spec, c: Component, mounts: seq<VolumeMount>, name: string, path: string)
    requires forall m :: m in mounts <==> WantsMount(spec, c, m)
    ensures Mounted(mounts, name, path) <==> exists m :: WantsMount(spec, c, m) && m.name == name && m.mountPath == path
  {
    hide WantsMount;
  }

  lemma NamedIffWanted(spec: Spec, c: Component, volumes: seq<Volume>, own: string, name: string)
    requires forall v :: v in volumes <==> WantsVolume(spec, c, own, v)
    ensures name in VolumeNames(volumes) <==> exists v :: WantsVolume(spec, c, own, v) && v.name == name
  {
    hide WantsVolume;
    var names := VolumeNames(volumes);
    if name in names {
      var i :| 0 <= i < |names| && names[i] == name;
      assert volumes[i] in volumes;
    }
    if v :| v in volumes && v.name == name {
      VolumeNamesOf(volumes, v);
    }
  }

  lemma CanonicalIsStored(canon: Canon, wanted: Quantities)
    ensures AsWantedOrStored(canon, wanted, Canonical(canon, wanted)) && AsWantedOrStored(canon, wanted, wanted)
  {
  }

  /** What is the same as a backend's manifest in what counts, or as the form the store gives it, runs it. */
  lemma SameAsManifestRuns(canon: Canon, spec: Spec, c: Component, d: DeploymentSpec, form: DeploymentSpec)
    requires c != WebFrontend && SpecEqual(d, form)
    requires form == BackendDeployment(BackendOf(spec, c))
             || form == StoredForm(canon, BackendDeployment(BackendOf(spec, c)))
    ensures RunsBackend(canon, spec, c, d)
  {
    hide SpecEqual, WantsMount, WantsVolume, WantsBackendImage, WantsValue, WantsReplicas, BackendOf, Says, Mounted,
      Canonical, AsWantedOrStored, WantsResources, WantsPull, ServiceConfigOf, BackendDeployment;
    var section, m := ServiceConfigOf(spec, c), BackendDeployment(BackendOf(spec, c));
    BackendManifestIsComparable(BackendOf(spec, c));
    BackendIsWanted(spec, c);
    var x := m.template.containers[0];
    FormOfOneContainer(canon, m);
    assert Comparable(form);
    SpecEqualIffSameInWhatCounts(d, form);
    var y := d.template.containers[0];
    assert SameProgram(y, form.template.containers[0]);
    forall n, v ensures Says(y.env, n, v) <==> WantsValue(section, n, v) {
      EnvironmentSays(section, x.env, n, v);
    }
    forall n, p
      ensures Mounted(y.mounts, n, p) <==> exists o :: WantsMount(spec, c, o) && o.name == n && o.mountPath == p
    {
      MountedIffWanted(spec, c, x.mounts, n, p);
    }
    forall n
      ensures n in VolumeNames(d.template.volumes)
              <==> exists v :: WantsVolume(spec, c, ComponentName(c), v) && v.name == n
    {
      NamedIffWanted(spec, c, m.template.volumes, ComponentName(c), n);
      assert n in VolumeNames(d.template.volumes) <==> n in Elements(VolumeNames(d.template.volumes));
      assert n in VolumeNames(m.template.volumes) <==> n in Elements(VolumeNames(m.template.volumes));
    }
    CanonicalIsStored(canon, x.resources.requests);
    CanonicalIsStored(canon, x.resources.limits);
  }

  lemma FormOfOneContainer(canon: Canon, d: DeploymentSpec)
    requires |d.template.containers| == 1
    ensures var x := d.template.containers[0];
      StoredForm(canon, d)
      == d.(template := d.template.(containers := [x.(resources := CanonicalResources(canon, x.resources))]))
  {
    hide CanonicalResources;
  }

  /** A backend Deployment that shows its manifest runs what the specification asks for. */
  lemma ShownBackendRuns(canon: Canon, spec: Spec, c: Component, body: Body)
    requires c != WebFrontend && Shows(canon, spec, DeploymentKey(c), body)
    ensures RunsBackend(canon, spec, c, body.deployment)
  {
    hide SpecEqual, BackendDeployment, BackendOf, StoredForm, RunsBackend;
    var m := BackendDeployment(BackendOf(spec, c));
    SameAsManifestRuns(canon, spec, c, body.deployment,
                       if SpecEqual(body.deployment, m) then m else StoredForm(canon, m));
  }

  lemma ShownWebRuns(canon: Canon, spec: Spec, body: Body)
    requires Shows(canon, spec, DeploymentKey(WebFrontend), body)
    ensures RunsWeb(canon, spec, body.deployment)
  {
    hide WantsWebMount, WantsWebVolume, WantsWebPorts, WantsImage, WantsPull, WantsWebResources, Canonical,
      AsWantedOrStored, WebDeployment;
    var d, w := body.deployment, WebDeployment(spec);
    WebIsWanted(spec);
    FormOfOneContainer(canon, CopyFields(DeploymentKey(WebFrontend), d, w));
    CanonicalIsStored(canon, w.template.containers[0].resources.requests);
    CanonicalIsStored(canon, w.template.containers[0].resources.limits);
  }

  // ---------- what a round delivers ----------

  ghost predicate BackendDelivered(canon: Canon, spec: Spec, c: Component, objects: map<Key, Object>) {
    var k := DeploymentKey(c);
    k in objects && objects[k].body.DeploymentBody? && RunsBackend(canon, spec, c, objects[k].body.deployment)
  }

  ghost predicate WebDelivered(canon: Canon, spec: Spec, objects: map<Key, Object>) {
    var k := DeploymentKey(WebFrontend);
    k in objects && objects[k].body.DeploymentBody? && RunsWeb(canon, spec, objects[k].body.deployment)
  }

  /** For some node address and port. */
  ghost predicate SecretDelivered(spec: Spec, objects: map<Key, Object>) {
    SecretKey in objects && objects[SecretKey].body.SecretBody?
    && exists nodeIP, nodePort :: WantsSecret(spec, nodeIP, nodePort, objects[SecretKey].body.secret)
  }

  predicate ConfigDelivered(spec: Spec, c: Component, objects: map<Key, Object>) {
    ConfigMapKey(c) in objects
    && objects[ConfigMapKey(c)].body
       == ConfigBody(if c == WebFrontend then NginxConfig(spec.storage, spec.web) else BackendConfig(c))
  }

  /** The store runs what the specification asks for: every backend that is not switched off, the web front end,
      the Secret and the configurations. */
  ghost predicate Delivered(canon: Canon, spec: Spec, objects: map<Key, Object>) {
    && (forall c: Component :: c != WebFrontend && !SwitchedOff(ServiceConfigOf(spec, c)) ==>
          BackendDelivered(canon, spec, c, objects))
    && WebDelivered(canon, spec, objects) && SecretDelivered(spec, objects)
    && (forall c: Component :: (c != WebFrontend || spec.web.customNginxConfigMap == "") ==>
          ConfigDelivered(spec, c, objects))
  }

  lemma DeploymentShown(canon: Canon, spec: Spec, c: Component, objects: map<Key, Object>)
    requires DeploymentKey(c) in objects && Shows(canon, spec, DeploymentKey(c), objects[DeploymentKey(c)].body)
    ensures if c == WebFrontend then WebDelivered(canon, spec, objects) else BackendDelivered(canon, spec, c, objects)
  {
    hide RunsBackend, RunsWeb, SpecEqual, BackendDeployment, WebDeployment, StoredForm, CopyFields;
    if c == WebFrontend {
      ShownWebRuns(canon, spec, objects[DeploymentKey(c)].body);
    } else {
      ShownBackendRuns(canon, spec, c, objects[DeploymentKey(c)].body);
    }
  }

  lemma SecretShown(canon: Canon, spec: Spec, objects: map<Key, Object>)
    requires SecretKey in objects && Shows(canon, spec, SecretKey, objects[SecretKey].body)
    ensures SecretDelivered(spec, objects)
  {
    hide SecretData, WantsSecret;
    var nodeIP, port :| objects[SecretKey].body == SecretBody(SecretData(spec, nodeIP, port));
    SecretIsWanted(spec, nodeIP, port);
  }

  lemma ConfigShown(canon: Canon, spec: Spec, c: Component, objects: map<Key, Object>)
    requires ConfigMapKey(c) in objects && Shows(canon, spec, ConfigMapKey(c), objects[ConfigMapKey(c)].body)
    ensures ConfigDelivered(spec, c, objects)
  {
  }

  /** What shows its manifests delivers. */
  lemma ShownIsDelivered(canon: Canon, id: Id, spec: Spec, objects: map<Key, Object>)
    requires forall k :: k in RequiredKeys(id, spec) ==> k in objects && Shows(canon, spec, k, objects[k].body)
    ensures Delivered(canon, spec, objects)
  {
    hide RequiredKeys, Shows, BackendDelivered, WebDelivered, SecretDelivered, ConfigDelivered, SwitchedOff;
    WhatIsRequired(id, spec, SecretKey);
    SecretShown(canon, spec, objects);
    WhatIsRequired(id, spec, DeploymentKey(WebFrontend));
    DeploymentShown(canon, spec, WebFrontend, objects);
    forall c: Component | c != WebFrontend && !SwitchedOff(ServiceConfigOf(spec, c))
      ensures BackendDelivered(canon, spec, c, objects)
    {
      WhatIsRequired(id, spec, DeploymentKey(c));
      DeploymentShown(canon, spec, c, objects);
    }
    forall c: Component | c != WebFrontend || spec.web.customNginxConfigMap == ""
      ensures ConfigDelivered(spec, c, objects)
    {
      WhatIsRequired(id, spec, ConfigMapKey(c));
      ConfigShown(canon, spec, c, objects);
    }
  }

  /** What a run makes of an object shows the manifest. */
  lemma BroughtIntoStateShows(p: C.Plan, port: int, m: C.Objects, k: Key)
    requires C.Fits(m)
    ensures Shows(p.admission.canon, p.spec, k, C.After(p, port, m, k).body)
  {
    if k.DeploymentKey? {
      DeploymentBroughtIntoState(p, port, m, k.c);
    } else if k.SecretKey? {
      C.SecretAfter(p, port, m);
    } else if k.ConfigMapKey? {
      ConfigBroughtIntoState(p, port, m, k.c);
    }
  }

  lemma ConfigBroughtIntoState(p: C.Plan, port: int, m: C.Objects, c: Component)
    ensures C.After(p, port, m, ConfigMapKey(c)).body == ConfigOf(p.spec, c).body
  {
    C.DesiredDataIsAdmitted(p, port, ConfigMapKey(c));
    DesiredConfig(p, port, c);
    hide C.Desired, Admit, ConfigOf;
  }

  lemma DesiredConfig(p: C.Plan, port: int, c: Component)
    ensures C.Desired(p, port, ConfigMapKey(c)).body == ConfigOf(p.spec, c).body
  {
    hide SecretObject, WebDeployment, WebService, WebIngress, ResourcesOf;
  }

  lemma DesiredDeployment(p: C.Plan, port: int, c: Component)
    ensures C.Desired(p, port, DeploymentKey(c)).body == DeploymentBody(ManifestOf(p.spec, c), 0)
  {
    hide SecretObject, WebDeployment, WebService, WebIngress, BackendDeployment, BuildNginxConfigMap;
  }

  lemma DeploymentBroughtIntoState(p: C.Plan, port: int, m: C.Objects, c: Component)
    requires C.Fits(m)
    ensures Shows(p.admission.canon, p.spec, DeploymentKey(c), C.After(p, port, m, DeploymentKey(c)).body)
  {
    hide SpecEqual, ManifestOf, StoredForm, CopyFields, Shows, Applied, C.Desired;
    DesiredDeployment(p, port, c);
    var canon, k, d := p.admission.canon, DeploymentKey(c), ManifestOf(p.spec, c);
    var o := C.After(p, port, m, k);
    CopyingApplies(canon, k, if k in m then m[k].body.deployment else d, d);
    assert Applied(canon, k, o.body.deployment, d) by {
      if k in m && SpecEqual(m[k].body.deployment, d) {
        EqualIsApplied(canon, k, m[k].body.deployment, d);
      }
    }
    AppliedIsShown(canon, p.spec, k, o.body);
  }

  lemma EqualIsApplied(canon: Canon, k: Key, stored: DeploymentSpec, desired: DeploymentSpec)
    requires SpecEqual(stored, desired)
    ensures Applied(canon, k, stored, desired)
  {
    hide SpecEqual;
  }

  /** An undisturbed run delivers what the specification asks for, whatever was stored before. */
  lemma RunDelivers(p: C.Plan, s: Stage, order: seq<Component>)
    requires Lists(order, EnabledBackends(p.spec)) && C.Fits(s.objects)
    ensures Delivered(p.admission.canon, p.spec, C.Run(p, s, order).objects)
  {
    hide C.Run, C.After, RequiredKeys, EnabledBackends, Lists, Shows, Delivered, C.PortSeen, C.Fits;
    var m, m', port := s.objects, C.Run(p, s, order).objects, C.PortSeen(p, s.objects);
    C.RunApplies(p, s, order);
    forall k | k in RequiredKeys(p.id, p.spec)
      ensures k in m' && Shows(p.admission.canon, p.spec, k, m'[k].body)
    {
      BroughtIntoStateShows(p, port, m, k);
    }
    ShownIsDelivered(p.admission.canon, p.id, p.spec, m');
  }

  /** How many replicas are ready makes no difference. */
  lemma DeliveredWhateverIsReady(canon: Canon, spec: Spec, m: C.Objects, m': C.Objects)
    requires Delivered(canon, spec, m) && C.OnlyReadinessDiffers(m, m')
    ensures Delivered(canon, spec, m')
  {
    hide RunsBackend, RunsWeb, SwitchedOff, WantsSecret;
    forall c: Component | c != WebFrontend && !SwitchedOff(ServiceConfigOf(spec, c))
      ensures BackendDelivered(canon, spec, c, m')
    {
      assert BackendDelivered(canon, spec, c, m);
    }
    forall c: Component | c != WebFrontend || spec.web.customNginxConfigMap == "" ensures ConfigDelivered(spec, c, m') {
      assert ConfigDelivered(spec, c, m);
    }
  }

  // ---------- what a round creates ----------

  /** An object of a kind that is only ever created, as the specification asks for it. */
  ghost predicate CreatedAsAsked(p: C.Plan, k: Key, o: Object) {
    match k
    case AccountKey => o == Object(Some(p.uid), map[], AccountBody)
    case BindingKey(_) => o == Object(None, map[], BindingBody(p.id.namespace))
    case ServiceKey(c) =>
      exists s :: o == Admit(p.admission, Object(Some(p.uid), map[], ServiceBody(s)))
                  && if c == WebFrontend then WantsWebService(p.spec.web, s)
                     else s == ServiceSpec(ClusterIP, [ServicePort("http", Port(c), Port(c), 0)])
    case IngressKey =>
      exists i :: o == Object(Some(p.uid), map[], IngressBody(i))
                  && WantsIngress(p.spec.web, DefaultAnnotations(), Some(i))
    case _ => true
  }

  /** What is missing is created as asked; what is there of these kinds stays as it is. */
  lemma MissingIsCreatedAsAsked(p: C.Plan, s: Stage, order: seq<Component>, k: Key)
    requires Lists(order, EnabledBackends(p.spec)) && k in RequiredKeys(p.id, p.spec)
    ensures var m := C.Run(p, s, order).objects;
      k in m && (k !in s.objects ==> CreatedAsAsked(p, k, m[k]))
      && (k in s.objects && (k.AccountKey? || k.BindingKey? || k.ServiceKey? || k.IngressKey?) ==> m[k] == s.objects[k])
  {
    hide C.Run, C.After, RequiredKeys, EnabledBackends, Lists, CreatedAsAsked, C.PortSeen;
    C.RunApplies(p, s, order);
    C.RunAddsWhatIsMissing(p, s, order);
    if k !in s.objects {
      WhatIsRequired(p.id, p.spec, k);
      CreatedIsAsAsked(p, C.PortSeen(p, s.objects), s.objects, k);
    }
  }

  lemma CreatedIsAsAsked(p: C.Plan, port: int, m: C.Objects, k: Key)
    requires k !in m && (k.IngressKey? ==> p.spec.web.exposeType == "ingress" && p.spec.web.ingress.Some?)
    ensures CreatedAsAsked(p, k, C.After(p, port, m, k))
  {
    hide Admit, WantsWebService, WantsIngress, SecretObject, WebDeployment, BackendDeployment, WebService,
      BuildNginxConfigMap, DefaultAnnotations, WebIngress;
    if k.ServiceKey? {
      WebServiceIsWanted(p.spec.web);
    } else if k.IngressKey? {
      IngressIsWanted(p.spec.web);
      PlainIsAdmitted(p.admission, C.Desired(p, port, k));
    } else if k.AccountKey? || k.BindingKey? {
      PlainIsAdmitted(p.admission, C.Desired(p, port, k));
    }
  }

  lemma PlainIsAdmitted(admission: Admission, o: Object)
    requires !o.body.ServiceBody? && !o.body.DeploymentBody?
    ensures Admit(admission, o) == o
  {
  }

  // ---------- what is behind a skip ----------

  ghost predicate ConfigWithin(spec: Spec, c: Component, trace: seq<World>, first: nat, last: nat) {
    exists j :: first <= j <= last && j < |trace| && ConfigDelivered(spec, c, trace[j].objects)
  }

  /** Between these two moments the store showed everything the specification asks for, object by object. */
  ghost predicate DeliveredWithin(canon: Canon, id: Id, spec: Spec, trace: seq<World>, first: nat, last: nat) {
    && first <= last < |trace|
    && (forall c: Component :: c != WebFrontend && !SwitchedOff(ServiceConfigOf(spec, c)) ==>
          exists j :: first <= j <= last && BackendDelivered(canon, spec, c, trace[j].objects))
    && (exists j :: first <= j <= last && WebDelivered(canon, spec, trace[j].objects))
    && (exists j :: first <= j <= last && SecretDelivered(spec, trace[j].objects))
    && (forall c: Component :: (c != WebFrontend || spec.web.customNginxConfigMap == "") ==>
          ConfigWithin(spec, c, trace, first, last))
    && (forall k :: k in RequiredKeys(id, spec) ==> exists j :: first <= j <= last && k in trace[j].objects)
  }

  lemma SeenShows(canon: Canon, id: Id, trace: seq<World>, c: Completion, k: Key) returns (j: nat)
    requires CompletionHolds(canon, id, trace, c) && k in RequiredKeys(id, c.spec)
    ensures c.first <= j <= c.last < |trace| && k in trace[j].objects
    ensures Shows(canon, c.spec, k, trace[j].objects[k].body)
  {
    hide RequiredKeys, Shows, Accepted;
    assert Seen(canon, trace, c.first, c.last, c.spec, k);
    j :| c.first <= j <= c.last && j < |trace| && Shown(canon, trace[j], k, c.spec);
  }

  /** The evidence of a completed round is that everything was delivered. */
  lemma EvidenceDelivers(canon: Canon, id: Id, trace: seq<World>, c: Completion)
    requires CompletionHolds(canon, id, trace, c)
    ensures DeliveredWithin(canon, id, c.spec, trace, c.first, c.last)
  {
    hide RequiredKeys, Shows, BackendDelivered, WebDelivered, SecretDelivered, ConfigDelivered, SwitchedOff, Accepted,
      Seen;
    WhatIsRequired(id, c.spec, SecretKey);
    var s := SeenShows(canon, id, trace, c, SecretKey);
    SecretShown(canon, c.spec, trace[s].objects);
    WhatIsRequired(id, c.spec, DeploymentKey(WebFrontend));
    var w := SeenShows(canon, id, trace, c, DeploymentKey(WebFrontend));
    DeploymentShown(canon, c.spec, WebFrontend, trace[w].objects);
    forall b: Component | b != WebFrontend && !SwitchedOff(ServiceConfigOf(c.spec, b))
      ensures exists j :: c.first <= j <= c.last && BackendDelivered(canon, c.spec, b, trace[j].objects)
    {
      WhatIsRequired(id, c.spec, DeploymentKey(b));
      var j := SeenShows(canon, id, trace, c, DeploymentKey(b));
      DeploymentShown(canon, c.spec, b, trace[j].objects);
    }
    forall b: Component | b != WebFrontend || c.spec.web.customNginxConfigMap == ""
      ensures ConfigWithin(c.spec, b, trace, c.first, c.last)
    {
      WhatIsRequired(id, c.spec, ConfigMapKey(b));
      var j := SeenShows(canon, id, trace, c, ConfigMapKey(b));
      ConfigShown(canon, c.spec, b, trace[j].objects);
    }
    forall k | k in RequiredKeys(id, c.spec) ensures exists j :: c.first <= j <= c.last && k in trace[j].objects {
      var j := SeenShows(canon, id, trace, c, k);
    }
  }

  /** Whenever the stored status is Ready at the current generation, everything this very specification asks for has
      been in the store since this generation was read. */
  lemma SkippedIsDelivered(canon: Canon, id: Id, l: Lapses, trace: seq<World>, completed: set<Completion>, k: nat)
    returns (first: nat, last: nat)
    requires IsRun(id, l, trace) && Evidence(canon, id, trace, completed)
    requires k < |trace| && ReadyForCurrentGeneration(trace[k])
    ensures first <= last <= k && SameInstance(trace[first], trace[k])
    ensures trace[first].kn.value.meta.generation == trace[k].kn.value.meta.generation
    ensures trace[first].kn.value.spec == trace[k].kn.value.spec && Accepted(trace[k].kn.value.spec)
    ensures DeliveredWithin(canon, id, trace[k].kn.value.spec, trace, first, last)
  {
    hide IsRun, Evidence, DeliveredWithin, Accepted;
    var c := SkipIsSound(canon, id, l, trace, completed, k);
    EvidenceDelivers(canon, id, trace, c);
    first, last := c.first, c.last;
  }

  // ---------- which edits reach the backends ----------

  function EnvCount(section: Option<ServiceConfig>): nat {
    if section.Some? then |section.value.env| else 0
  }

  /** Both specifications ask for the same, as far as a backend that is already there is concerned. */
  ghost predicate AsksTheSame(spec: Spec, spec': Spec, c: Component) {
    var s, s' := ServiceConfigOf(spec, c), ServiceConfigOf(spec', c);
    && (forall n :: WantsReplicas(s, n) <==> WantsReplicas(s', n))
    && (forall i :: WantsBackendImage(spec, s, ComponentName(c), i)
                    <==> WantsBackendImage(spec', s', ComponentName(c), i))
    && EnvCount(s) == EnvCount(s') && (forall n, v :: WantsValue(s, n, v) <==> WantsValue(s', n, v))
    && (forall r :: WantsResources(s, r) <==> WantsResources(s', r))
    && (WantsCerts(spec, c) <==> WantsCerts(spec', c))
  }

  lemma SameReplicas(s: Option<ServiceConfig>, s': Option<ServiceConfig>, n: int, n': int)
    requires WantsReplicas(s, n) && WantsReplicas(s', n')
    ensures n == n' <==> forall k :: WantsReplicas(s, k) <==> WantsReplicas(s', k)
  {
  }

  lemma OneImage(spec: Spec, s: Option<ServiceConfig>, name: string, i: string, j: string)
    requires WantsBackendImage(spec, s, name, i) && WantsBackendImage(spec, s, name, j)
    ensures i == j
  {
  }

  lemma SameImage(spec: Spec, spec': Spec, s: Option<ServiceConfig>, s': Option<ServiceConfig>, name: string,
                  i: string, i': string)
    requires WantsBackendImage(spec, s, name, i) && WantsBackendImage(spec', s', name, i')
    ensures i == i' <==> forall j :: WantsBackendImage(spec, s, name, j) <==> WantsBackendImage(spec', s', name, j)
  {
    hide WantsBackendImage;
    forall j ensures WantsBackendImage(spec, s, name, j) <==> j == i {
      if WantsBackendImage(spec, s, name, j) {
        OneImage(spec, s, name, i, j);
      }
    }
    forall j ensures WantsBackendImage(spec', s', name, j) <==> j == i' {
      if WantsBackendImage(spec', s', name, j) {
        OneImage(spec', s', name, i', j);
      }
    }
  }

  lemma SameResources(s: Option<ServiceConfig>, s': Option<ServiceConfig>, r: Resources, r': Resources)
    requires WantsResources(s, r) && WantsResources(s', r')
    ensures r == r' <==> forall q :: WantsResources(s, q) <==> WantsResources(s', q)
  {
  }

  lemma SameMounts(spec: Spec, spec': Spec, c: Component, mounts: seq<VolumeMount>, mounts': seq<VolumeMount>)
    requires forall m :: m in mounts <==> WantsMount(spec, c, m)
    requires forall m :: m in mounts' <==> WantsMount(spec', c, m)
    ensures (forall n, p :: Mounted(mounts, n, p) <==> Mounted(mounts', n, p))
            <==> (WantsCerts(spec, c) <==> WantsCerts(spec', c))
  {
    var certs := VolumeMount("minio-certs", "/app/etc/minio-certs", "", true);
    assert |"minio-certs"| == 11 && |"config"| == 6 && |"cache"| == 5;
    assert Mounted(mounts, "minio-certs", "/app/etc/minio-certs") <==> certs in mounts;
    assert Mounted(mounts', "minio-certs", "/app/etc/minio-certs") <==> certs in mounts';
    if WantsCerts(spec, c) <==> WantsCerts(spec', c) {
      assert forall m :: m in mounts <==> m in mounts';
    }
  }

  lemma SameVolumes(spec: Spec, spec': Spec, c: Component, volumes: seq<Volume>, volumes': seq<Volume>)
    requires forall v :: v in volumes <==> WantsVolume(spec, c, ComponentName(c), v)
    requires forall v :: v in volumes' <==> WantsVolume(spec', c, ComponentName(c), v)
    ensures (WantsCerts(spec, c) <==> WantsCerts(spec', c)) ==>
      Elements(VolumeNames(volumes)) == Elements(VolumeNames(volumes'))
  {
    hide ComponentName;
    forall n | WantsCerts(spec, c) <==> WantsCerts(spec', c)
      ensures n in VolumeNames(volumes) <==> n in VolumeNames(volumes')
    {
      NamedIffWanted(spec, c, volumes, ComponentName(c), n);
      NamedIffWanted(spec', c, volumes', ComponentName(c), n);
      WantedNames(spec, c, n);
      WantedNames(spec', c, n);
    }
  }

  lemma WantedNames(spec: Spec, c: Component, name: string)
    ensures (exists v :: WantsVolume(spec, c, ComponentName(c), v) && v.name == name)
            <==> name == "config" || (name == "minio-certs" && WantsCerts(spec, c))
                 || (name == "cache" && c in {ConsoleAPI, ConsoleRPC})
  {
    hide ComponentName;
    var config := Volume("config", FromConfigMap(ComponentName(c) + "-config"));
    assert WantsVolume(spec, c, ComponentName(c), config);
    if WantsCerts(spec, c) {
      var certs := Volume("minio-certs", FromSecret(spec.storage.tls.value.secretName));
      assert WantsVolume(spec, c, ComponentName(c), certs);
    }
    if c in {ConsoleAPI, ConsoleRPC} {
      assert WantsVolume(spec, c, ComponentName(c), Volume("cache", Scratch));
    }
  }

  lemma SameEnvironment(s: Option<ServiceConfig>, s': Option<ServiceConfig>, env: seq<EnvVar>, env': seq<EnvVar>)
    requires env == [EnvVar("TZ", "Asia/Shanghai", None), EnvVar("POD_NAMESPACE", "", Some("metadata.namespace"))]
                    + (if s.Some? then s.value.env else [])
    requires env' == [EnvVar("TZ", "Asia/Shanghai", None), EnvVar("POD_NAMESPACE", "", Some("metadata.namespace"))]
                     + (if s'.Some? then s'.value.env else [])
    ensures |env| == |env'| <==> EnvCount(s) == EnvCount(s')
    ensures (forall n, v :: Says(env, n, v) <==> Says(env', n, v))
            <==> forall n, v :: WantsValue(s, n, v) <==> WantsValue(s', n, v)
  {
    hide Says, WantsValue;
    forall n, v
      ensures Says(env, n, v) <==> WantsValue(s, n, v)
      ensures Says(env', n, v) <==> WantsValue(s', n, v)
    {
      EnvironmentSays(s, env, n, v);
      EnvironmentSays(s', env', n, v);
    }
  }

  /** The comparison takes the manifests of two specifications for the same exactly when they ask for the same. */
  lemma EqualManifestsIffSameAsked(spec: Spec, spec': Spec, c: Component)
    requires c != WebFrontend
    ensures SpecEqual(ManifestOf(spec, c), ManifestOf(spec', c)) <==> AsksTheSame(spec, spec', c)
  {
    hide SpecEqual, Says, Mounted, BackendDeployment, BackendOf, WantsValue, WantsPull, WantsReplicas,
      WantsBackendImage, WantsResources, WantsMount, WantsVolume, WantsCerts, EnvCount;
    var m, m' := ManifestOf(spec, c), ManifestOf(spec', c);
    var s, s' := ServiceConfigOf(spec, c), ServiceConfigOf(spec', c);
    BackendManifestIsComparable(BackendOf(spec, c));
    BackendManifestIsComparable(BackendOf(spec', c));
    BackendIsWanted(spec, c);
    BackendIsWanted(spec', c);
    SpecEqualIffSameInWhatCounts(m, m');
    var x, x' := m.template.containers[0], m'.template.containers[0];
    SameReplicas(s, s', m.replicas.value, m'.replicas.value);
    SameImage(spec, spec', s, s', ComponentName(c), x.image, x'.image);
    SameResources(s, s', x.resources, x'.resources);
    SameEnvironment(s, s', x.env, x'.env);
    SameMounts(spec, spec', c, x.mounts, x'.mounts);
    SameVolumes(spec, spec', c, m.template.volumes, m'.template.volumes);
  }

  /** A backend that runs one specification is brought up to another exactly when that asks for something else. */
  lemma EditReachesBackendIff(p: C.Plan, port: int, m: C.Objects, spec: Spec, c: Component)
    requires c != WebFrontend && DeploymentKey(c) in m && m[DeploymentKey(c)].body.DeploymentBody?
    requires SpecEqual(m[DeploymentKey(c)].body.deployment, ManifestOf(spec, c))
    ensures var k, d := DeploymentKey(c), ManifestOf(p.spec, c);
      C.After(p, port, m, k)
      == if AsksTheSame(spec, p.spec, c) then m[k] else Kept(p.admission.canon, Rewrite(k, m[k], d))
  {
    hide SpecEqual, ManifestOf, StoredForm, CopyFields, C.Desired, AsksTheSame, Kept, Rewrite;
    var stored, d, d' := m[DeploymentKey(c)].body.deployment, ManifestOf(spec, c), ManifestOf(p.spec, c);
    DesiredDeployment(p, port, c);
    EqualManifestsIffSameAsked(spec, p.spec, c);
    ManifestsCompare(spec, c);
    ManifestsCompare(p.spec, c);
    SpecEqualIsAnEquivalence(stored, d, d');
    if SpecEqual(stored, d') {
      SpecEqualIsAnEquivalence(d, stored, d');
    }
  }

  /** Whatever else is stored, a backend that is rewritten gets all that its manifest has, the fields the comparison
      does not see included; the pod's other fields stay. */
  lemma RewrittenIsAsAsked(canon: Canon, spec: Spec, c: Component, stored: Object)
    requires c != WebFrontend && stored.body.DeploymentBody?
    ensures var d := Kept(canon, Rewrite(DeploymentKey(c), stored, ManifestOf(spec, c))).body.deployment;
      RunsBackend(canon, spec, c, d)
      && WantsPull(spec, d.template.containers[0].pullPolicy, d.template.imagePullSecrets)
      && d.template.containers[0].name == ComponentName(c)
      && (forall m :: m in d.template.containers[0].mounts <==> WantsMount(spec, c, m))
      && (forall v :: v in d.template.volumes <==> WantsVolume(spec, c, ComponentName(c), v))
      && d.template.untouched == stored.body.deployment.template.untouched
  {
    hide RunsBackend, BackendDeployment, BackendOf, CanonicalResources, WantsMount, WantsVolume, WantsPull,
      WantsReplicas, WantsBackendImage, WantsResources, Applied, ComponentName, ServiceConfigOf, Shows;
    var k, m := DeploymentKey(c), ManifestOf(spec, c);
    BackendIsWanted(spec, c);
    FormOfOneContainer(canon, CopyFields(k, stored.body.deployment, m));
    CopyingApplies(canon, k, stored.body.deployment, m);
    var body := Kept(canon, Rewrite(k, stored, m)).body;
    AppliedIsShown(canon, spec, k, body);
    ShownBackendRuns(canon, spec, c, body);
  }

  lemma ManifestsCompare(spec: Spec, c: Component)
    requires c != WebFrontend
    ensures Comparable(ManifestOf(spec, c)) && SpecEqual(ManifestOf(spec, c), ManifestOf(spec, c))
  {
    hide SpecEqual, BackendDeployment, BackendOf;
    BackendManifestIsComparable(BackendOf(spec, c));
  }

  /** Edits of these fields alone do not reach it: how images are pulled and with which secrets, and the name of the
      Secret with the storage's certificates. */
  lemma QuietEdits(spec: Spec, c: Component, registry: ImageRegistry, policy: string, secrets: seq<string>,
                   certs: string, certs': string)
    requires spec.registry == Some(registry) && spec.storage.tls == Some(MinIOTLS(true, certs))
    requires certs != "" && certs' != ""
    ensures AsksTheSame(spec, spec.(registry := Some(registry.(pullPolicy := policy, pullSecrets := secrets))), c)
    ensures AsksTheSame(spec, spec.(storage := spec.storage.(tls := Some(MinIOTLS(true, certs')))), c)
  {
    hide WantsReplicas, WantsValue, WantsResources;
  }
}
