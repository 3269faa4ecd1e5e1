/** The reconciliation protocol: the states of the store, what other writers may do between two API calls
    (the rely), what each write of the operator does (the guarantee), and what follows for every run. */
module Protocol {
  import opened Types
  import opened Builders
  import opened Validation
  import opened Statuses
  import opened Nodes

  const FINALIZER := "kubenova.io/finalizer"

  // ---------- the store ----------

  /** The part of the cluster one instance's worker addresses: its KubeNova object, the objects of its
      namespace and its binding, and the nodes. Every write is stamped with the next value of `clock`. */
  datatype World = World(kn: Option<KubeNova>, objects: map<Key, Object>, versions: map<Key, nat>,
                         nodes: seq<Node>, clock: nat, lastUid: nat)

  /** Objects are stored under keys of their kind, and a stored Deployment has a replica count. */
  predicate BodyFits(k: Key, b: Body) {
    match k
    case NamespaceKey => b.NamespaceBody?
    case AccountKey => b.AccountBody?
    case BindingKey(_) => b.BindingBody?
    case SecretKey => b.SecretBody?
    case ConfigMapKey(_) => b.ConfigBody?
    case DeploymentKey(_) => b.DeploymentBody? && b.deployment.replicas.Some?
    case ServiceKey(_) => b.ServiceBody?
    case IngressKey => b.IngressBody?
  }

  ghost predicate WellFormed(w: World) {
    && w.objects.Keys == w.versions.Keys
    && (forall k :: k in w.objects ==> BodyFits(k, w.objects[k].body))
    && (forall k :: k in w.versions ==> w.versions[k] <= w.clock)
    && (forall k :: k in w.objects && w.objects[k].owner.Some? ==> w.objects[k].owner.value <= w.lastUid)
    && (w.kn.Some? ==> var m := w.kn.value.meta;
          m.resourceVersion <= w.clock && m.uid <= w.lastUid && (m.deleting ==> m.finalizers != {}))
  }

  ghost predicate SameInstance(w: World, w': World) {
    w.kn.Some? && w'.kn.Some? && w.kn.value.meta.uid == w'.kn.value.meta.uid
  }

  /** Generations grow, a generation fixes the specification, and a deletion is never undone:
      from then on finalizers can only be taken away. */
  ghost predicate Advanced(o: KubeNova, o': KubeNova) {
    && o.meta.generation <= o'.meta.generation
    && (o.meta.generation == o'.meta.generation ==> o.spec == o'.spec)
    && (o.meta.deleting ==> o'.meta.deleting && o'.meta.finalizers <= o.meta.finalizers)
  }

  /** What every write of anybody respects: stamps and uids are fresh, so an unchanged stamp means an unchanged
      object. */
  ghost predicate Evolves(w: World, w': World) {
    && w.clock <= w'.clock && w.lastUid <= w'.lastUid
    && (w'.kn.Some? ==>
          (w'.kn == w.kn || w'.kn.value.meta.resourceVersion > w.clock)
          && (if SameInstance(w, w') then Advanced(w.kn.value, w'.kn.value) else w'.kn.value.meta.uid > w.lastUid))
    && (forall k :: k in w'.objects && k in w'.versions ==>
          (k in w.objects && k in w.versions && w'.objects[k] == w.objects[k] && w'.versions[k] == w.versions[k])
          || w'.versions[k] > w.clock)
  }

  lemma EvolvesIsReflexive(w: World)
    ensures Evolves(w, w)
  {
  }

  lemma EvolvesIsTransitive(w0: World, w1: World, w2: World)
    requires WellFormed(w0) && WellFormed(w1) && Evolves(w0, w1) && Evolves(w1, w2)
    ensures Evolves(w0, w2)
  {
  }

  // ---------- the other writers ----------

  ghost predicate Holds(w: World) {
    w.kn.Some? && FINALIZER in w.kn.value.meta.finalizers
  }

  /** Only the operator writes the status and its own finalizer, so an object that carries the finalizer cannot
      vanish. */
  ghost predicate LeavesOperatorFields(w: World, w': World) {
    && (SameInstance(w, w') ==>
          w'.kn.value.status == w.kn.value.status && (Holds(w') <==> Holds(w)))
    && (Holds(w) ==> SameInstance(w, w'))
    && (w'.kn.Some? && !SameInstance(w, w') ==> w'.kn.value.status == EMPTY_STATUS && !Holds(w'))
  }

  /** The rely: any number of writes by anybody else. */
  ghost predicate Rely(id: Id, w: World, w': World) {
    && WellFormed(w') && Evolves(w, w') && LeavesOperatorFields(w, w')
    && (BindingKey(BindingName(id)) in w'.objects <==> BindingKey(BindingName(id)) in w.objects)
  }

  /** The managed objects an object cannot work without. */
  function References(k: Key, o: Object): set<Key> {
    if k.DeploymentKey? && o.body.DeploymentBody? then
      var pod := o.body.deployment.template;
      (if pod.serviceAccountName == ACCOUNT_NAME then {AccountKey} else {})
      + (if |pod.containers| > 0 && pod.containers[0].envFromSecret == Some(SECRET_NAME) then {SecretKey} else {})
      + (if exists v :: v in pod.volumes && v.source == FromConfigMap(ConfigMapName(k.c))
         then {ConfigMapKey(k.c)} else {})
    else if k.IngressKey? then {ServiceKey(WebFrontend)}
    else {}
  }

  /** The references that count: not the one to the operator's own nginx ConfigMap once a specification has
      named it as the user's. */
  function Needs(l: Lapses, k: Key, o: Object): set<Key> {
    References(k, o) - if l.borrowed then {ConfigMapKey(WebFrontend)} else {}
  }

  function NeedsAt(l: Lapses, w: World, k: Key): set<Key> {
    if k in w.objects then Needs(l, k, w.objects[k]) else {}
  }

  /** The objects of the instance's namespace. Bindings are cluster-wide, and those of other instances come and go. */
  function Managed(w: World): set<Key> {
    set k | k in w.objects && !k.BindingKey?
  }

  lemma NeedsNoBinding(l: Lapses, k: Key, o: Object, name: string)
    ensures BindingKey(name) !in Needs(l, k, o)
  {
  }

  /** Other writers create and edit managed objects, but do not delete or re-own them, do not pass objects off
      as the instance's own, and whatever they make an object need is there. */
  ghost predicate Orderly(l: Lapses, w: World, w': World) {
    && Managed(w) <= w'.objects.Keys
    && forall k :: k in w'.objects ==>
         (k.BindingKey?
          || if k in w.objects then w'.objects[k].owner == w.objects[k].owner
             else w'.kn.Some? ==> w'.objects[k].owner != Some(w'.kn.value.meta.uid))
         && Needs(l, k, w'.objects[k]) <= w'.objects.Keys + NeedsAt(l, w, k)
  }

  /** A single write by somebody else. */
  datatype ForeignAction =
    | EditSpec(spec: Spec)
    | EditLabels(labels: map<string, string>)
    | AddForeignFinalizer(finalizer: string)
    | DropForeignFinalizer(finalizer: string)
    | RequestDeletion
    | CreateInstance(spec: Spec, foreignFinalizers: set<string>)
    | PutObject(key: Key, object: Object)
    | DropObject(key: Key)
    | SetNodes(nodes: seq<Node>)

  function Stamp(o: KubeNova, clock: nat): KubeNova {
    o.(meta := o.meta.(resourceVersion := clock + 1))
  }

  /** Stores a changed instance, or removes it when it is being deleted and nothing holds it any more. */
  function PutInstance(w: World, o: KubeNova): World {
    w.(kn := if o.meta.deleting && o.meta.finalizers == {} then None else Some(Stamp(o, w.clock)), clock := w.clock + 1)
  }

  function Act(id: Id, w: World, a: ForeignAction): World {
    match a
    case EditSpec(spec) =>
      if w.kn.None? || w.kn.value.spec == spec then w
      else
        var m := w.kn.value.meta;
        PutInstance(w, w.kn.value.(spec := spec, meta := m.(generation := m.generation + 1)))
    case EditLabels(labels) =>
      if w.kn.None? then w else PutInstance(w, w.kn.value.(meta := w.kn.value.meta.(labels := labels)))
    case AddForeignFinalizer(f) =>
      if w.kn.None? || w.kn.value.meta.deleting || f == FINALIZER then w
      else PutInstance(w, w.kn.value.(meta := w.kn.value.meta.(finalizers := w.kn.value.meta.finalizers + {f})))
    case DropForeignFinalizer(f) =>
      if w.kn.None? || f == FINALIZER then w
      else PutInstance(w, w.kn.value.(meta := w.kn.value.meta.(finalizers := w.kn.value.meta.finalizers - {f})))
    case RequestDeletion =>
      if w.kn.None? || w.kn.value.meta.deleting then w
      else
        var m := w.kn.value.meta;
        PutInstance(w, w.kn.value.(meta := m.(deleting := true, generation := m.generation + 1)))
    case CreateInstance(spec, finalizers) =>
      if w.kn.Some? then w
      else
        var m := ObjectMeta(w.lastUid + 1, w.clock + 1, 1, finalizers - {FINALIZER}, false, map[]);
        w.(kn := Some(KubeNova(m, spec, EMPTY_STATUS)), clock := w.clock + 1, lastUid := w.lastUid + 1)
    case PutObject(k, o) =>
      if k == BindingKey(BindingName(id)) || !BodyFits(k, o.body) || (o.owner.Some? && o.owner.value > w.lastUid) then w
      else w.(objects := w.objects[k := o], versions := w.versions[k := w.clock + 1], clock := w.clock + 1)
    case DropObject(k) =>
      if k == BindingKey(BindingName(id)) then w
      else w.(objects := w.objects - {k}, versions := w.versions - {k}, clock := w.clock + 1)
    case SetNodes(nodes) => w.(nodes := nodes)
  }

  function ActAll(id: Id, w: World, actions: seq<ForeignAction>): World
    decreases |actions|
  {
    if actions == [] then w else ActAll(id, Act(id, w, actions[0]), actions[1..])
  }

  lemma PutInstanceIsReliedOn(id: Id, w: World, o: KubeNova)
    requires WellFormed(w) && w.kn.Some?
    requires o.meta.uid == w.kn.value.meta.uid && o.status == w.kn.value.status && Advanced(w.kn.value, o)
    requires FINALIZER in o.meta.finalizers <==> Holds(w)
    ensures Rely(id, w, PutInstance(w, o))
  {
  }

  lemma ObjectActionIsReliedOn(id: Id, w: World, a: ForeignAction)
    requires WellFormed(w) && (a.PutObject? || a.DropObject?)
    ensures Rely(id, w, Act(id, w, a))
  {
    hide BindingName;
  }

  lemma OtherActionIsReliedOn(id: Id, w: World, a: ForeignAction)
    requires WellFormed(w) && (a.SetNodes? || a.CreateInstance?)
    ensures Rely(id, w, Act(id, w, a))
  {
    hide BindingName, BodyFits;
  }

  lemma OneActionIsReliedOn(id: Id, w: World, a: ForeignAction)
    requires WellFormed(w)
    ensures Rely(id, w, Act(id, w, a))
  {
    if a.PutObject? || a.DropObject? {
      ObjectActionIsReliedOn(id, w, a);
    } else if a.SetNodes? || a.CreateInstance? {
      OtherActionIsReliedOn(id, w, a);
    } else if w.kn.Some? && Act(id, w, a) != w {
      var o := w.kn.value;
      var changed := match a
        case EditSpec(spec) => o.(spec := spec, meta := o.meta.(generation := o.meta.generation + 1))
        case EditLabels(labels) => o.(meta := o.meta.(labels := labels))
        case AddForeignFinalizer(f) => o.(meta := o.meta.(finalizers := o.meta.finalizers + {f}))
        case DropForeignFinalizer(f) => o.(meta := o.meta.(finalizers := o.meta.finalizers - {f}))
        case RequestDeletion => o.(meta := o.meta.(deleting := true, generation := o.meta.generation + 1))
        case _ => o;
      PutInstanceIsReliedOn(id, w, changed);
    }
  }

  lemma RelyIsTransitive(id: Id, w0: World, w1: World, w2: World)
    requires WellFormed(w0) && Rely(id, w0, w1) && Rely(id, w1, w2)
    ensures Rely(id, w0, w2)
  {
    EvolvesIsTransitive(w0, w1, w2);
  }

  /** The rely is met by any sequence of single writes: edits, deletion requests, re-creations, object changes. */
  lemma {:induction false} AnyForeignActionsAreReliedOn(id: Id, w: World, actions: seq<ForeignAction>)
    requires WellFormed(w)
    ensures Rely(id, w, ActAll(id, w, actions))
    decreases |actions|
  {
    if actions != [] {
      var next := Act(id, w, actions[0]);
      OneActionIsReliedOn(id, w, actions[0]);
      AnyForeignActionsAreReliedOn(id, next, actions[1..]);
      RelyIsTransitive(id, w, next, ActAll(id, next, actions[1..]));
    }
  }

  /** A write that neither deletes nor re-owns an object of the namespace, nor passes one off as the instance's own,
      nor leaves one without what it needs. */
  ghost predicate Peaceful(l: Lapses, w: World, a: ForeignAction) {
    match a
    case PutObject(k, o) =>
      Needs(l, k, o) <= w.objects.Keys + {k} + NeedsAt(l, w, k)
      && (k.BindingKey?
          || if k in w.objects then o.owner == w.objects[k].owner
             else w.kn.Some? ==> o.owner != Some(w.kn.value.meta.uid))
    case DropObject(k) => k.BindingKey?
    case _ => true
  }

  ghost predicate AllPeaceful(id: Id, l: Lapses, w: World, actions: seq<ForeignAction>)
    decreases |actions|
  {
    actions == [] || (Peaceful(l, w, actions[0]) && AllPeaceful(id, l, Act(id, w, actions[0]), actions[1..]))
  }

  lemma OneActionIsOrderly(id: Id, l: Lapses, w: World, a: ForeignAction)
    requires WellFormed(w) && Peaceful(l, w, a)
    ensures Orderly(l, w, Act(id, w, a))
  {
    hide References, BodyFits, BindingName;
  }

  lemma OrderlyIsTransitive(id: Id, l: Lapses, w0: World, w1: World, w2: World)
    requires WellFormed(w1) && Rely(id, w1, w2) && Orderly(l, w0, w1) && Orderly(l, w1, w2)
    ensures Orderly(l, w0, w2)
  {
    hide Needs, BodyFits, BindingName;
    forall k | k in w2.objects ensures Needs(l, k, w2.objects[k]) <= w2.objects.Keys + NeedsAt(l, w0, k) {
      forall q | q in NeedsAt(l, w1, k) ensures q in w2.objects || q in NeedsAt(l, w0, k) {
        assert Needs(l, k, w1.objects[k]) <= w1.objects.Keys + NeedsAt(l, w0, k);
        if q.BindingKey? {
          NeedsNoBinding(l, k, w1.objects[k], q.name);
        }
        assert q in w1.objects ==> q in Managed(w1);
      }
    }
  }

  /** Any sequence of peaceful writes is interference that is no lapse. */
  lemma {:induction false} PeacefulActionsAreForeignSteps(id: Id, l: Lapses, w: World, actions: seq<ForeignAction>)
    requires WellFormed(w) && AllPeaceful(id, l, w, actions)
    ensures ForeignStep(id, l, w, ActAll(id, w, actions))
    decreases |actions|
  {
    hide Orderly, Rely, Peaceful;
    AnyForeignActionsAreReliedOn(id, w, actions);
    if actions == [] {
      OrderlyIsReflexive(l, w);
    } else {
      var next := Act(id, w, actions[0]);
      OneActionIsReliedOn(id, w, actions[0]);
      OneActionIsOrderly(id, l, w, actions[0]);
      assert WellFormed(next) by {
        ReliedOnIsWellFormed(id, w, next);
      }
      PeacefulActionsAreForeignSteps(id, l, next, actions[1..]);
      if !l.meddled {
        OrderlyIsTransitive(id, l, w, next, ActAll(id, next, actions[1..]));
      }
    }
  }

  lemma OrderlyIsReflexive(l: Lapses, w: World)
    ensures Orderly(l, w, w)
  {
  }

  lemma ReliedOnIsWellFormed(id: Id, w: World, w': World)
    requires Rely(id, w, w')
    ensures WellFormed(w')
  {
  }

  /** Somebody gets rid of an instance the operator does not hold, and creates another of the same name. */
  lemma Replacing(id: Id, w: World) returns (actions: seq<ForeignAction>)
    requires WellFormed(w) && w.kn.Some? && !Holds(w)
    ensures AllPeaceful(id, NO_LAPSE, w, actions)
    ensures var w' := ActAll(id, w, actions);
      w'.kn.Some? && w'.kn.value.meta.uid > w.lastUid && !w'.kn.value.meta.deleting
    decreases !w.kn.value.meta.deleting, |w.kn.value.meta.finalizers|
  {
    var o := w.kn.value;
    var step := RequestDeletion;
    if o.meta.deleting {
      var f :| f in o.meta.finalizers;
      step := DropForeignFinalizer(f);
    }
    var next := Act(id, w, step);
    OneActionIsReliedOn(id, w, step);
    var rest: seq<ForeignAction>;
    if next.kn.None? {
      rest := [CreateInstance(o.spec, {})];
      assert ActAll(id, next, rest) == ActAll(id, Act(id, next, rest[0]), rest[1..]);
    } else {
      rest := Replacing(id, next);
    }
    actions := [step] + rest;
    assert actions[1..] == rest;
  }

  // ---------- the operator ----------

  /** What went wrong in a run, as far as the guarantees below depend on it.
      blind: a deletion dropped the finalizer after failing to look its binding up;
      stray: a deletion ran for an object that does not carry the finalizer;
      meddled: others delete or re-own managed objects, or write some that lack what they need;
      borrowed: an accepted specification names the operator's own nginx ConfigMap as the user's. */
  datatype Lapses = Lapses(blind: bool, stray: bool, meddled: bool, borrowed: bool)

  const NO_LAPSE := Lapses(false, false, false, false)

  predicate Within(l: Lapses, l': Lapses) {
    (l.blind ==> l'.blind) && (l.stray ==> l'.stray) && (l.meddled ==> l'.meddled) && (l.borrowed ==> l'.borrowed)
  }

  // The objects a completed run has put in place for a specification, phase by phase.

  function RBACKeys(id: Id): set<Key> {
    {AccountKey, BindingKey(BindingName(id))}
  }

  function ConfigMapKeys(): set<Key> {
    set c: Component | c != WebFrontend :: ConfigMapKey(c)
  }

  function ServiceKeys(components: set<Component>): set<Key> {
    (set c | c in components :: DeploymentKey(c)) + (set c | c in components :: ServiceKey(c))
  }

  function WebKeys(spec: Spec): set<Key> {
    {DeploymentKey(WebFrontend), ServiceKey(WebFrontend)}
    + (if spec.web.customNginxConfigMap == "" then {ConfigMapKey(WebFrontend)} else {})
    + (if HasIngress(spec.web) then {IngressKey} else {})
  }

  function RequiredKeys(id: Id, spec: Spec): set<Key> {
    RBACKeys(id) + {SecretKey} + ConfigMapKeys() + ServiceKeys(EnabledBackends(spec)) + WebKeys(spec)
  }

  ghost predicate OnlyInstanceChanged(w: World, w': World) {
    w' == w.(kn := w'.kn, clock := w.clock + 1)
  }

  ghost predicate AddsFinalizer(w: World, w': World) {
    && OnlyInstanceChanged(w, w') && w.kn.Some? && !w.kn.value.meta.deleting
    && var o := w.kn.value;
       w'.kn == Some(Stamp(o.(meta := o.meta.(finalizers := o.meta.finalizers + {FINALIZER})), w.clock))
  }

  ghost predicate StatusAllowed(id: Id, l: Lapses, w: World, status: Status)
    requires w.kn.Some?
  {
    var o := w.kn.value;
    && Persisted(status)
    && (status.phase == Ready ==> status.observedGeneration <= o.meta.generation)
    && (!l.stray ==>
          status.observedGeneration <= o.meta.generation
          && (o.status.phase == Deleting ==> status.phase == Deleting)
          && (status.phase == Deleting ==> o.meta.deleting))
    && (!l.meddled && !l.blind && status.phase == Ready && status.observedGeneration == o.meta.generation ==>
          RequiredKeys(id, o.spec) <= w.objects.Keys)
  }

  ghost predicate WritesStatus(id: Id, l: Lapses, w: World, w': World) {
    && OnlyInstanceChanged(w, w') && w.kn.Some? && w'.kn.Some?
    && w'.kn.value == Stamp(w.kn.value.(status := w'.kn.value.status), w.clock)
    && StatusAllowed(id, l, w, w'.kn.value.status)
  }

  /** Dropping the finalizer may restore an older specification and older labels, nothing else. */
  ghost predicate RemovesFinalizer(id: Id, l: Lapses, w: World, w': World) {
    && OnlyInstanceChanged(w, w') && w.kn.Some? && w.kn.value.meta.deleting
    && (l.blind || BindingKey(BindingName(id)) !in w.objects)
    && var o, left := w.kn.value, w.kn.value.meta.finalizers - {FINALIZER};
       if left == {} then w'.kn.None?
       else w'.kn.Some? &&
            var o' := w'.kn.value;
            o' == Stamp(KubeNova(o.meta.(finalizers := left, labels := o'.meta.labels,
                                   generation := o.meta.generation + if o'.spec == o.spec then 0 else 1),
                                 o'.spec, o.status), w.clock)
  }

  ghost predicate OnlyObjectPut(w: World, w': World, k: Key) {
    k in w'.objects &&
    w' == w.(objects := w.objects[k := w'.objects[k]], versions := w.versions[k := w.clock + 1], clock := w.clock + 1)
  }

  ghost predicate Supplied(l: Lapses, w: World, k: Key, o: Object) {
    !l.meddled ==> Needs(l, k, o) <= w.objects.Keys
  }

  /** Creation happens only while the instance is held by the finalizer. Everything but the binding is
      owned by the instance; what a Deployment or Ingress needs is already stored. */
  ghost predicate CreatesObject(id: Id, l: Lapses, w: World, w': World, k: Key) {
    && OnlyObjectPut(w, w', k) && k !in w.objects && Holds(w)
    && var o := w'.objects[k];
       && BodyFits(k, o.body) && Supplied(l, w, k, o)
       && (if k == BindingKey(BindingName(id)) then o.owner.None?
           else !k.BindingKey? && !k.NamespaceKey? && o.owner == Some(w.kn.value.meta.uid))
       && (k.DeploymentKey? && k.c != WebFrontend && !l.meddled && !l.blind ==>
             BindingKey(BindingName(id)) in w.objects)
  }

  /** Only data of Secrets and ConfigMaps and the five compared or copied fields of Deployments are rewritten. */
  ghost predicate UpdatesObject(l: Lapses, w: World, w': World, k: Key) {
    && OnlyObjectPut(w, w', k) && k in w.objects
    && var o, o' := w.objects[k], w'.objects[k];
       && o'.owner == o.owner && o'.labels == o.labels && BodyFits(k, o'.body) && Supplied(l, w, k, o')
       && (|| k.SecretKey? || k.ConfigMapKey?
           || (k.DeploymentKey? && o.body.DeploymentBody?
               && o'.body.readyReplicas == o.body.readyReplicas
               && o'.body.deployment.template.untouched == o.body.deployment.template.untouched))
  }

  ghost predicate DeletesBinding(id: Id, l: Lapses, w: World, w': World) {
    var b := BindingKey(BindingName(id));
    && w' == w.(objects := w.objects - {b}, versions := w.versions - {b}, clock := w.clock + 1)
    && (l.blind || (w.kn.Some? && w.kn.value.meta.deleting))
  }

  /** The guarantee: the writes of the operator. */
  ghost predicate OperatorStep(id: Id, l: Lapses, w: World, w': World) {
    || w' == w
    || AddsFinalizer(w, w')
    || WritesStatus(id, l, w, w')
    || RemovesFinalizer(id, l, w, w')
    || (exists k :: CreatesObject(id, l, w, w', k))
    || (exists k :: UpdatesObject(l, w, w', k))
    || DeletesBinding(id, l, w, w')
  }

  ghost predicate ForeignStep(id: Id, l: Lapses, w: World, w': World) {
    Rely(id, w, w') && (l.meddled || Orderly(l, w, w'))
  }

  ghost predicate Next(id: Id, l: Lapses, w: World, w': World) {
    ForeignStep(id, l, w, w') || OperatorStep(id, l, w, w')
  }

  /** A run of the whole system: every state the store goes through, whoever writes. */
  ghost predicate IsRun(id: Id, l: Lapses, trace: seq<World>) {
    if |trace| == 0 then false
    else if |trace| == 1 then WellFormed(trace[0])
    else IsRun(id, l, trace[..|trace| - 1]) && Next(id, l, trace[|trace| - 2], trace[|trace| - 1])
  }

  lemma InstanceStepIsLegal(id: Id, l: Lapses, w: World, w': World)
    requires WellFormed(w)
    requires AddsFinalizer(w, w') || WritesStatus(id, l, w, w') || RemovesFinalizer(id, l, w, w')
    ensures WellFormed(w') && Evolves(w, w')
  {
    hide References, BodyFits, RequiredKeys, Persisted;
    assert w'.objects == w.objects && w'.versions == w.versions;
  }

  lemma ObjectStepIsLegal(id: Id, l: Lapses, w: World, w': World, k: Key)
    requires WellFormed(w) && (CreatesObject(id, l, w, w', k) || UpdatesObject(l, w, w', k))
    ensures WellFormed(w') && Evolves(w, w')
  {
    hide References, BodyFits, RequiredKeys, Persisted;
  }

  lemma OperatorStepIsLegal(id: Id, l: Lapses, w: World, w': World)
    requires WellFormed(w) && OperatorStep(id, l, w, w')
    ensures WellFormed(w') && Evolves(w, w')
  {
    hide AddsFinalizer, WritesStatus, RemovesFinalizer, CreatesObject, UpdatesObject, BodyFits;
    if w' == w || DeletesBinding(id, l, w, w') {
    } else if AddsFinalizer(w, w') || WritesStatus(id, l, w, w') || RemovesFinalizer(id, l, w, w') {
      InstanceStepIsLegal(id, l, w, w');
    } else {
      var k :| CreatesObject(id, l, w, w', k) || UpdatesObject(l, w, w', k);
      ObjectStepIsLegal(id, l, w, w', k);
    }
  }

  lemma NextIsLegal(id: Id, l: Lapses, w: World, w': World)
    requires WellFormed(w) && Next(id, l, w, w')
    ensures WellFormed(w') && Evolves(w, w')
  {
    hide OperatorStep, WellFormed, Evolves;
    if !ForeignStep(id, l, w, w') {
      OperatorStepIsLegal(id, l, w, w');
    }
  }
}
