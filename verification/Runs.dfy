/** What holds in every state of every run of the protocol. */
module Runs {
  import opened Types
  import opened Builders
  import opened Drift
  import opened Endpoints
  import opened Validation
  import opened Statuses
  import opened Protocol

  // ---------- the state invariants ----------

  function Binding(id: Id): Key {
    BindingKey(BindingName(id))
  }

  /** If the instance's binding exists, so does the instance, and it carries the finalizer. */
  ghost predicate NoOrphan(id: Id, w: World) {
    Binding(id) in w.objects ==> Holds(w)
  }

  ghost predicate StatusSound(w: World) {
    w.kn.Some? ==>
      w.kn.value.status.observedGeneration <= w.kn.value.meta.generation
      && (w.kn.value.status.phase == Deleting ==> w.kn.value.meta.deleting)
  }

  ghost predicate PhaseSound(w: World) {
    w.kn.Some? ==>
      Persisted(w.kn.value.status)
      && (w.kn.value.status.phase == Ready ==> w.kn.value.status.observedGeneration <= w.kn.value.meta.generation)
  }

  /** What a stored Deployment or Ingress needs is stored. */
  ghost predicate Wired(l: Lapses, w: World) {
    forall k :: k in w.objects ==> Needs(l, k, w.objects[k]) <= w.objects.Keys
  }

  /** A backend Deployment of a live instance has its binding. */
  ghost predicate Bound(id: Id, w: World) {
    w.kn.Some? && !w.kn.value.meta.deleting ==>
      forall c: Component ::
        (c != WebFrontend && DeploymentKey(c) in w.objects
         && w.objects[DeploymentKey(c)].owner == Some(w.kn.value.meta.uid))
          ==> Binding(id) in w.objects
  }

  ghost predicate ReadyForCurrentGeneration(w: World) {
    w.kn.Some? && w.kn.value.status.phase == Ready
    && w.kn.value.status.observedGeneration == w.kn.value.meta.generation
  }

  /** Ready at the current generation means that everything the specification asks for is stored. */
  ghost predicate ReadyIsDeployed(id: Id, w: World) {
    ReadyForCurrentGeneration(w) && !w.kn.value.meta.deleting ==>
      RequiredKeys(id, w.kn.value.spec) <= w.objects.Keys
  }

  ghost predicate Inv(id: Id, l: Lapses, w: World) {
    && PhaseSound(w)
    && (!l.blind ==> NoOrphan(id, w))
    && (!l.stray ==> StatusSound(w))
    && (!l.meddled ==> Wired(l, w))
    && (!l.meddled && !l.blind ==> Bound(id, w) && ReadyIsDeployed(id, w))
  }

  lemma NeedsAreManaged(l: Lapses, w: World, k: Key)
    requires Wired(l, w)
    ensures NeedsAt(l, w, k) <= Managed(w)
  {
    hide Needs;
    forall q | q in NeedsAt(l, w, k) ensures q in Managed(w) {
      assert Needs(l, k, w.objects[k]) <= w.objects.Keys;
      if q.BindingKey? {
        NeedsNoBinding(l, k, w.objects[k], q.name);
      }
    }
  }

  lemma RequiredBindingIsOwn(id: Id, spec: Spec, k: Key)
    requires k in RequiredKeys(id, spec) && k.BindingKey?
    ensures k == Binding(id)
  {
  }

  /** What is required stays while the namespace's objects and the own binding do. */
  lemma RequiredStays(id: Id, spec: Spec, w: World, w': World)
    requires RequiredKeys(id, spec) <= w.objects.Keys && Managed(w) <= w'.objects.Keys
    requires Binding(id) in w.objects ==> Binding(id) in w'.objects
    ensures RequiredKeys(id, spec) <= w'.objects.Keys
  {
    hide RequiredKeys;
    forall k | k in RequiredKeys(id, spec) ensures k in w'.objects {
      if k.BindingKey? {
        RequiredBindingIsOwn(id, spec, k);
      }
    }
  }

  lemma ForeignStepKeepsInv(id: Id, l: Lapses, w: World, w': World)
    requires WellFormed(w) && Inv(id, l, w) && ForeignStep(id, l, w, w')
    ensures Inv(id, l, w')
  {
    hide References, BodyFits, BindingName, RequiredKeys;
    if !l.meddled && !l.blind && ReadyForCurrentGeneration(w') && !w'.kn.value.meta.deleting {
      RequiredStays(id, w'.kn.value.spec, w, w');
    }
    if !l.meddled {
      forall k | k in w'.objects ensures Needs(l, k, w'.objects[k]) <= w'.objects.Keys {
        assert NeedsAt(l, w, k) <= Managed(w) by {
          NeedsAreManaged(l, w, k);
        }
      }
    }
  }

  lemma InstanceStepKeepsInv(id: Id, l: Lapses, w: World, w': World)
    requires WellFormed(w) && Inv(id, l, w)
    requires AddsFinalizer(w, w') || WritesStatus(id, l, w, w') || RemovesFinalizer(id, l, w, w')
    ensures Inv(id, l, w')
  {
    assert w'.objects == w.objects;
    if !l.meddled {
      assert Wired(l, w);
    }
  }

  lemma ObjectStepKeepsInv(id: Id, l: Lapses, w: World, w': World, k: Key)
    requires WellFormed(w) && Inv(id, l, w)
    requires CreatesObject(id, l, w, w', k) || UpdatesObject(l, w, w', k)
    ensures Inv(id, l, w')
  {
    assert w.objects.Keys <= w'.objects.Keys && w'.kn == w.kn;
    if !l.meddled {
      forall q | q in w'.objects ensures Needs(l, q, w'.objects[q]) <= w'.objects.Keys {
        if q != k {
          assert w'.objects[q] == w.objects[q];
        }
      }
    }
  }

  lemma DeletesBindingKeepsInv(id: Id, l: Lapses, w: World, w': World)
    requires WellFormed(w) && Inv(id, l, w) && DeletesBinding(id, l, w, w')
    ensures Inv(id, l, w')
  {
    hide BindingName, Persisted, RequiredKeys, BodyFits;
    if !l.meddled {
      forall q | q in w'.objects ensures Needs(l, q, w'.objects[q]) <= w'.objects.Keys {
        assert Needs(l, q, w.objects[q]) <= w.objects.Keys && Binding(id) !in Needs(l, q, w.objects[q]);
      }
    }
  }

  lemma NextKeepsInv(id: Id, l: Lapses, w: World, w': World)
    requires WellFormed(w) && Inv(id, l, w) && Next(id, l, w, w')
    ensures WellFormed(w') && Inv(id, l, w')
  {
    hide ForeignStep, AddsFinalizer, WritesStatus, RemovesFinalizer, CreatesObject, UpdatesObject, DeletesBinding,
      Inv, WellFormed;
    NextIsLegal(id, l, w, w');
    if ForeignStep(id, l, w, w') {
      ForeignStepKeepsInv(id, l, w, w');
    } else if w' == w {
    } else if AddsFinalizer(w, w') || WritesStatus(id, l, w, w') || RemovesFinalizer(id, l, w, w') {
      InstanceStepKeepsInv(id, l, w, w');
    } else if DeletesBinding(id, l, w, w') {
      DeletesBindingKeepsInv(id, l, w, w');
    } else {
      var k :| CreatesObject(id, l, w, w', k) || UpdatesObject(l, w, w', k);
      ObjectStepKeepsInv(id, l, w, w', k);
    }
  }

  // ---------- safety over whole runs ----------

  /** Every state of every run: no orphaned binding unless a blind removal happened, observed generations
      not ahead unless a stray deletion ran, only persisted phases, prerequisites stored at every crash point. */
  lemma {:induction false} EveryStateIsSound(id: Id, l: Lapses, trace: seq<World>)
    requires IsRun(id, l, trace) && Inv(id, l, trace[0])
    ensures forall k :: 0 <= k < |trace| ==> WellFormed(trace[k]) && Inv(id, l, trace[k])
    decreases |trace|
  {
    hide Next, Inv, WellFormed;
    if |trace| > 1 {
      var n := |trace| - 1;
      EveryStateIsSound(id, l, trace[..n]);
      assert forall k :: 0 <= k < n ==> trace[..n][k] == trace[k];
      NextKeepsInv(id, l, trace[n - 1], trace[n]);
    }
  }

  /** Any later state evolves from any earlier one. */
  lemma {:induction false} HistoryIsLinear(id: Id, l: Lapses, trace: seq<World>, i: nat, j: nat)
    requires IsRun(id, l, trace) && i <= j < |trace|
    ensures WellFormed(trace[i]) && WellFormed(trace[j]) && Evolves(trace[i], trace[j])
    decreases |trace|
  {
    hide Next, WellFormed, Evolves;
    var n := |trace| - 1;
    EvolvesIsReflexive(trace[j]);
    if j < n {
      HistoryIsLinear(id, l, trace[..n], i, j);
    } else if n > 0 {
      HistoryIsLinear(id, l, trace[..n], if i < n then i else n - 1, n - 1);
      NextIsLegal(id, l, trace[n - 1], trace[n]);
      if i < n {
        EvolvesIsTransitive(trace[i], trace[n - 1], trace[n]);
      }
    }
  }

  lemma DeletingStaysInOneStep(id: Id, l: Lapses, w: World, w': World)
    requires WellFormed(w) && Next(id, l, w, w') && !l.stray
    requires SameInstance(w, w') && w.kn.value.status.phase == Deleting
    ensures w'.kn.value.status.phase == Deleting
  {
    if !ForeignStep(id, l, w, w') {
      if k :| CreatesObject(id, l, w, w', k) || UpdatesObject(l, w, w', k) {
        assert w'.kn == w.kn;
      }
    }
  }

  /** Deleting is absorbing: once an instance shows it, it shows it until it is gone. */
  lemma {:induction false} DeletingIsAbsorbing(id: Id, l: Lapses, trace: seq<World>, i: nat, j: nat)
    requires IsRun(id, l, trace) && !l.stray && i <= j < |trace|
    requires SameInstance(trace[i], trace[j]) && trace[i].kn.value.status.phase == Deleting
    ensures trace[j].kn.value.status.phase == Deleting
    decreases |trace|
  {
    hide Next, Advanced;
    var n := |trace| - 1;
    if j < n {
      DeletingIsAbsorbing(id, l, trace[..n], i, j);
    } else if i < n {
      HistoryIsLinear(id, l, trace, i, n - 1);
      HistoryIsLinear(id, l, trace, n - 1, n);
      assert SameInstance(trace[i], trace[n - 1]);
      DeletingIsAbsorbing(id, l, trace[..n], i, n - 1);
      DeletingStaysInOneStep(id, l, trace[n - 1], trace[n]);
    }
  }

  /** Whatever the operator creates, except the binding, carries the controller reference of the stored instance. */
  lemma CreatedObjectsAreOwned(id: Id, l: Lapses, w: World, w': World, k: Key)
    requires OperatorStep(id, l, w, w') && k !in w.objects && k in w'.objects
    ensures Holds(w)
    ensures if k == Binding(id) then w'.objects[k].owner.None? else w'.objects[k].owner == Some(w.kn.value.meta.uid)
  {
    if q :| CreatesObject(id, l, w, w', q) || UpdatesObject(l, w, w', q) {
      assert q == k;
    }
  }

  lemma ManifestReferences(spec: Spec, c: Component, o: Object)
    requires o.body.DeploymentBody?
    ensures c != WebFrontend && o.body.deployment == BackendDeployment(BackendOf(spec, c)) ==>
      References(DeploymentKey(c), o) == {AccountKey, SecretKey, ConfigMapKey(c)}
    ensures o.body.deployment == WebDeployment(spec) ==>
      References(DeploymentKey(WebFrontend), o)
      == if NginxConfigMapName(spec.web) == ConfigMapName(WebFrontend) then {ConfigMapKey(WebFrontend)} else {}
  {
    if c != WebFrontend && o.body.deployment == BackendDeployment(BackendOf(spec, c)) {
      BackendReferences(BackendOf(spec, c), o);
    }
    if o.body.deployment == WebDeployment(spec) {
      WebReferences(spec, o);
    }
  }

  lemma BackendReferences(b: Backend, o: Object)
    requires o.body.DeploymentBody? && o.body.deployment == BackendDeployment(b)
    ensures References(DeploymentKey(b.component), o) == {AccountKey, SecretKey, ConfigMapKey(b.component)}
  {
    hide ConfigMapName;
    assert o.body.deployment.template.volumes[0].source == FromConfigMap(ConfigMapName(b.component));
  }

  lemma WebReferences(spec: Spec, o: Object)
    requires o.body.DeploymentBody? && o.body.deployment == WebDeployment(spec)
    ensures References(DeploymentKey(WebFrontend), o)
            == if NginxConfigMapName(spec.web) == ConfigMapName(WebFrontend) then {ConfigMapKey(WebFrontend)} else {}
  {
    hide ConfigMapName, NginxConfigMapName;
    assert |ACCOUNT_NAME| > 0;
    assert o.body.deployment.template.volumes[0].source == FromConfigMap(NginxConfigMapName(spec.web));
  }

  predicate Carries(o: Object, d: DeploymentSpec) {
    o.body.DeploymentBody? && o.body.deployment == d
  }

  /** A backend manifest has its account, Secret and ConfigMap; if the instance lives, it also has the binding. */
  ghost predicate BackendSupplied(id: Id, l: Lapses, w: World, spec: Spec, c: Component) {
    var k := DeploymentKey(c);
    k in w.objects && c != WebFrontend && Carries(w.objects[k], BackendDeployment(BackendOf(spec, c))) ==>
      {AccountKey, SecretKey, ConfigMapKey(c)} <= w.objects.Keys
      && (!l.blind && w.kn.Some? && !w.kn.value.meta.deleting && w.objects[k].owner == Some(w.kn.value.meta.uid) ==>
            Binding(id) in w.objects)
  }

  /** A web manifest has the operator's nginx ConfigMap, or names another. */
  ghost predicate WebSupplied(l: Lapses, w: World, spec: Spec) {
    var k := DeploymentKey(WebFrontend);
    k in w.objects && Carries(w.objects[k], WebDeployment(spec)) ==>
      ConfigMapKey(WebFrontend) in w.objects || NginxConfigMapName(spec.web) != ConfigMapName(WebFrontend) || l.borrowed
  }

  lemma BackendIsSupplied(id: Id, l: Lapses, w: World, spec: Spec, c: Component)
    requires Inv(id, l, w) && !l.meddled
    ensures BackendSupplied(id, l, w, spec, c)
  {
    hide BackendDeployment, BackendOf, WebDeployment, References, PhaseSound, StatusSound, NoOrphan, ReadyIsDeployed;
    var k := DeploymentKey(c);
    if k in w.objects && w.objects[k].body.DeploymentBody? {
      ManifestReferences(spec, c, w.objects[k]);
      assert Needs(l, k, w.objects[k]) <= w.objects.Keys;
    }
  }

  lemma WebIsSupplied(id: Id, l: Lapses, w: World, spec: Spec)
    requires Inv(id, l, w) && !l.meddled
    ensures WebSupplied(l, w, spec) && (IngressKey in w.objects ==> ServiceKey(WebFrontend) in w.objects)
  {
    hide BackendDeployment, BackendOf, WebDeployment, NginxConfigMapName, ConfigMapName, PhaseSound, StatusSound,
      NoOrphan, ReadyIsDeployed, Bound;
    var k := DeploymentKey(WebFrontend);
    if k in w.objects && w.objects[k].body.DeploymentBody? {
      ManifestReferences(spec, WebFrontend, w.objects[k]);
      assert Needs(l, k, w.objects[k]) <= w.objects.Keys;
    }
    if IngressKey in w.objects {
      assert Needs(l, IngressKey, w.objects[IngressKey]) <= w.objects.Keys;
    }
  }

  /** Crash-safe ordering: in every state of every run, wherever it is cut off, a stored manifest has what it needs. */
  lemma PrerequisitesAreStored(id: Id, l: Lapses, trace: seq<World>, n: nat, spec: Spec, c: Component)
    requires IsRun(id, l, trace) && Inv(id, l, trace[0]) && n < |trace| && !l.meddled
    ensures BackendSupplied(id, l, trace[n], spec, c) && WebSupplied(l, trace[n], spec)
    ensures IngressKey in trace[n].objects ==> ServiceKey(WebFrontend) in trace[n].objects
  {
    hide IsRun, Inv, WellFormed, BackendSupplied, WebSupplied;
    EveryStateIsSound(id, l, trace);
    BackendIsSupplied(id, l, trace[n], spec, c);
    WebIsSupplied(id, l, trace[n], spec);
  }

  /** When somebody deletes an object, what is left still has what it needs exactly when nothing left needs it. */
  lemma DeletionKeepsPrerequisitesIffUnneeded(l: Lapses, w: World, k: Key)
    requires Wired(l, w) && k in w.objects
    ensures Wired(l, w.(objects := w.objects - {k}, versions := w.versions - {k}))
            <==> forall q :: q in w.objects && q != k ==> k !in Needs(l, q, w.objects[q])
  {
    hide Needs;
    var rest := w.objects - {k};
    if forall q :: q in w.objects && q != k ==> k !in Needs(l, q, w.objects[q]) {
      forall q | q in rest ensures Needs(l, q, rest[q]) <= rest.Keys {
        assert Needs(l, q, w.objects[q]) <= w.objects.Keys;
      }
    } else {
      var q :| q in w.objects && q != k && k in Needs(l, q, w.objects[q]);
      assert q in rest && rest[q] == w.objects[q] && k !in rest.Keys;
    }
  }

  /** No write of the operator touches an existing ServiceAccount, Service, Ingress or binding,
      except that it may delete the binding. */
  lemma ExistingObjectsAreNotOverwritten(id: Id, l: Lapses, w: World, w': World, k: Key)
    requires OperatorStep(id, l, w, w') && WellFormed(w) && k in w.objects
    requires k.AccountKey? || k.ServiceKey? || k.IngressKey? || k.BindingKey? || k.NamespaceKey?
    ensures (k in w'.objects && w'.objects[k] == w.objects[k] && w'.versions[k] == w.versions[k])
            || (k == Binding(id)
                && w' == w.(objects := w.objects - {k}, versions := w.versions - {k}, clock := w.clock + 1))
  {
    if q :| CreatesObject(id, l, w, w', q) || UpdatesObject(l, w, w', q) {
      assert q != k;
    }
  }

  /** A run stays a run when more lapses are admitted. */
  lemma {:induction false} MoreLapses(id: Id, l: Lapses, l': Lapses, trace: seq<World>)
    requires IsRun(id, l, trace) && Within(l, l')
    ensures IsRun(id, l', trace)
    decreases |trace|
  {
    hide Next, WellFormed;
    if |trace| > 1 {
      MoreLapses(id, l, l', trace[..|trace| - 1]);
      NextAdmitsMore(id, l, l', trace[|trace| - 2], trace[|trace| - 1]);
    }
  }

  lemma ForeignStepAdmitsMore(id: Id, l: Lapses, l': Lapses, w: World, w': World)
    requires ForeignStep(id, l, w, w') && Within(l, l')
    ensures ForeignStep(id, l', w, w')
  {
    hide Rely, References;
    forall k | k in w'.objects && !l'.meddled
      ensures Needs(l', k, w'.objects[k]) <= w'.objects.Keys + NeedsAt(l', w, k)
    {
      var needs, before := Needs(l, k, w'.objects[k]), NeedsAt(l, w, k);
      assert needs <= w'.objects.Keys + before;
      var excused: set<Key> := if l'.borrowed then {ConfigMapKey(WebFrontend)} else {};
      assert Needs(l', k, w'.objects[k]) == needs - excused && NeedsAt(l', w, k) == before - excused;
    }
  }

  lemma InvAdmitsMore(id: Id, l: Lapses, l': Lapses, w: World)
    requires Inv(id, l, w) && Within(l, l')
    ensures Inv(id, l', w)
  {
    hide PhaseSound, NoOrphan, StatusSound, Bound, ReadyIsDeployed, References;
  }

  lemma NextAdmitsMore(id: Id, l: Lapses, l': Lapses, w: World, w': World)
    requires Next(id, l, w, w') && Within(l, l')
    ensures Next(id, l', w, w')
  {
    hide ForeignStep, References;
    if ForeignStep(id, l, w, w') {
      ForeignStepAdmitsMore(id, l, l', w, w');
    } else {
      if k :| CreatesObject(id, l, w, w', k) {
        assert CreatesObject(id, l', w, w', k);
      } else if k :| UpdatesObject(l, w, w', k) {
        assert UpdatesObject(l', w, w', k);
      }
    }
  }

  lemma RunExtends(id: Id, l: Lapses, trace: seq<World>, w: World)
    requires IsRun(id, l, trace) && Next(id, l, trace[|trace| - 1], w)
    ensures IsRun(id, l, trace + [w])
  {
    hide Next, WellFormed;
    assert (trace + [w])[..|trace|] == trace;
  }

  // ---------- who can lose the instance ----------

  /** An instance can be replaced by another of the same name between two calls exactly when it does not carry
      the finalizer. */
  lemma ReplaceableIffNotHeld(id: Id, w: World)
    requires WellFormed(w) && w.kn.Some?
    ensures (exists actions :: AllPeaceful(id, NO_LAPSE, w, actions) && ActAll(id, w, actions).kn.Some?
                               && !SameInstance(w, ActAll(id, w, actions)))
            <==> !Holds(w)
  {
    hide WellFormed;
    if Holds(w) {
      forall actions: seq<ForeignAction> ensures SameInstance(w, ActAll(id, w, actions)) {
        AnyForeignActionsAreReliedOn(id, w, actions);
      }
    } else {
      var actions := Replacing(id, w);
      UidIsKnown(w);
    }
  }

  lemma UidIsKnown(w: World)
    requires WellFormed(w) && w.kn.Some?
    ensures w.kn.value.meta.uid <= w.lastUid
  {
  }

  /** The store with the status a deletion has computed for the instance it read, written to whatever is there. */
  function MarkedDeleting(w: World, read: KubeNova): World {
    if w.kn.None? then w
    else w.(kn := Some(w.kn.value.(status := SetPhase(read.status, Deleting, read.meta.generation))))
  }

  /** The status write of a deletion can be unsound, Deleting on an instance nobody deletes or an observed
      generation ahead, exactly when the instance read does not carry the finalizer. */
  lemma MarkingIsUnsoundIffNotHeld(id: Id, w: World)
    requires WellFormed(w) && w.kn.Some? && w.kn.value.meta.deleting
    ensures (exists actions :: AllPeaceful(id, NO_LAPSE, w, actions)
                               && !StatusSound(MarkedDeleting(ActAll(id, w, actions), w.kn.value)))
            <==> !Holds(w)
  {
    hide WellFormed;
    if Holds(w) {
      forall actions: seq<ForeignAction> ensures StatusSound(MarkedDeleting(ActAll(id, w, actions), w.kn.value)) {
        AnyForeignActionsAreReliedOn(id, w, actions);
      }
    } else {
      var actions := Replacing(id, w);
      assert !StatusSound(MarkedDeleting(ActAll(id, w, actions), w.kn.value));
    }
  }

  // ---------- evidence for Ready ----------

  function ManifestOf(spec: Spec, c: Component): DeploymentSpec {
    if c == WebFrontend then WebDeployment(spec) else BackendDeployment(BackendOf(spec, c))
  }

  function ConfigOf(spec: Spec, c: Component): Object {
    if c == WebFrontend then BuildNginxConfigMap(spec) else BuildConfigMap(c)
  }

  /** What a specification has a stored object say. A backend is what the drift comparison accepts for its
      manifest, or for the form the store gives it; the web Deployment, which it never accepts, has the manifest's
      copied fields in the store's form; the Secret has
      the specification's data for some node address and port. Kinds that are only ever created say nothing. */
  ghost predicate Shows(canon: Canon, spec: Spec, k: Key, body: Body) {
    match k
    case SecretKey => exists nodeIP, port :: body == SecretBody(SecretData(spec, nodeIP, port))
    case ConfigMapKey(c) => body == ConfigOf(spec, c).body
    case DeploymentKey(c) =>
      body.DeploymentBody?
      && (if c == WebFrontend
          then body.deployment == StoredForm(canon, CopyFields(k, body.deployment, WebDeployment(spec)))
          else SpecEqual(body.deployment, BackendDeployment(BackendOf(spec, c)))
               || SpecEqual(body.deployment, StoredForm(canon, BackendDeployment(BackendOf(spec, c)))))
    case _ => true
  }

  ghost predicate Shown(canon: Canon, w: World, k: Key, spec: Spec) {
    k in w.objects && Shows(canon, spec, k, w.objects[k].body)
  }

  lemma AppliedIsShown(canon: Canon, spec: Spec, k: Key, body: Body)
    requires k.DeploymentKey? && body.DeploymentBody? && Applied(canon, k, body.deployment, ManifestOf(spec, k.c))
    ensures Shows(canon, spec, k, body)
  {
    hide SpecEqual, CopyFields, WebDeployment, BackendDeployment, StoredForm;
    if k.c == WebFrontend {
      WebManifestAlwaysDrifts(spec);
    } else {
      BackendManifestIsComparable(BackendOf(spec, k.c));
      AppliedIsEqual(canon, k, body.deployment, BackendDeployment(BackendOf(spec, k.c)));
    }
  }

  /** A run of the worker that read generation `generation` of instance `uid` in state `first` and
      completed every deployment phase by state `last`. */
  datatype Completion = Completion(uid: nat, generation: nat, spec: Spec, first: nat, last: nat)

  ghost predicate Seen(canon: Canon, trace: seq<World>, first: nat, last: nat, spec: Spec, k: Key) {
    exists j :: first <= j <= last && j < |trace| && Shown(canon, trace[j], k, spec)
  }

  /** What a completed run has seen: the namespace it found, and all it has put in place. */
  function EvidenceKeys(id: Id, spec: Spec): set<Key> {
    {NamespaceKey} + RequiredKeys(id, spec)
  }

  ghost predicate CompletionHolds(canon: Canon, id: Id, trace: seq<World>, c: Completion) {
    && c.first <= c.last < |trace|
    && trace[c.first].kn.Some?
    && trace[c.first].kn.value.meta.uid == c.uid
    && trace[c.first].kn.value.meta.generation == c.generation
    && trace[c.first].kn.value.spec == c.spec
    && Accepted(c.spec)
    && forall k :: k in EvidenceKeys(id, c.spec) ==> Seen(canon, trace, c.first, c.last, c.spec, k)
  }

  ghost predicate Backed(w: World, at: nat, completed: set<Completion>) {
    w.kn.Some? && w.kn.value.status.phase == Ready ==>
      exists c :: c in completed && c.uid == w.kn.value.meta.uid
                  && c.generation == w.kn.value.status.observedGeneration && c.last <= at
  }

  ghost predicate Evidence(canon: Canon, id: Id, trace: seq<World>, completed: set<Completion>) {
    && (forall c :: c in completed ==> CompletionHolds(canon, id, trace, c))
    && (forall k :: 0 <= k < |trace| ==> Backed(trace[k], k, completed))
  }

  /** Soundness of the skip: whenever the stored status is Ready at the current generation, an earlier run
      read exactly this generation, accepted it, found the namespace, and saw every object it asks for stored as it
      asks for it. */
  lemma SkipIsSound(canon: Canon, id: Id, l: Lapses, trace: seq<World>, completed: set<Completion>, k: nat)
    returns (c: Completion)
    requires IsRun(id, l, trace) && Evidence(canon, id, trace, completed)
    requires k < |trace| && ReadyForCurrentGeneration(trace[k])
    ensures c.last <= k && CompletionHolds(canon, id, trace, c)
    ensures SameInstance(trace[c.first], trace[k])
    ensures c.generation == trace[k].kn.value.meta.generation && c.spec == trace[k].kn.value.spec
    ensures Accepted(trace[k].kn.value.spec)
  {
    hide IsRun, Accepted, EvidenceKeys;
    c :| c in completed && c.uid == trace[k].kn.value.meta.uid
         && c.generation == trace[k].kn.value.status.observedGeneration && c.last <= k;
    HistoryIsLinear(id, l, trace, c.first, k);
  }

  lemma SeenLater(canon: Canon, trace: seq<World>, more: seq<World>, first: nat, last: nat, last': nat, spec: Spec,
                  k: Key)
    requires Seen(canon, trace, first, last, spec, k) && last <= last'
    ensures Seen(canon, trace + more, first, last', spec, k)
  {
    hide Shown;
    var j :| first <= j <= last && j < |trace| && Shown(canon, trace[j], k, spec);
    assert (trace + more)[j] == trace[j];
  }

  lemma EvidenceExtends(canon: Canon, id: Id, trace: seq<World>, completed: set<Completion>, w: World)
    requires Evidence(canon, id, trace, completed) && Backed(w, |trace|, completed)
    ensures Evidence(canon, id, trace + [w], completed)
  {
    hide Backed, Accepted, EvidenceKeys;
    var longer := trace + [w];
    assert forall k :: 0 <= k < |trace| ==> longer[k] == trace[k];
    forall c | c in completed ensures CompletionHolds(canon, id, longer, c) {
      assert CompletionHolds(canon, id, trace, c);
      forall k | k in EvidenceKeys(id, c.spec) ensures Seen(canon, longer, c.first, c.last, c.spec, k) {
        SeenLater(canon, trace, [w], c.first, c.last, c.last, c.spec, k);
      }
    }
  }

  /** Who does not write the status keeps the evidence. */
  lemma BackedCarriesOver(w: World, w': World, at: nat, completed: set<Completion>)
    requires Backed(w, at, completed)
    requires w'.kn.Some? && w'.kn.value.status.phase == Ready ==>
               SameInstance(w, w') && w'.kn.value.status == w.kn.value.status
    ensures Backed(w', at + 1, completed)
  {
  }
}
