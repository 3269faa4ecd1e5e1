/** The three ways the deployment phases bring one object into place: get, then create or update. */
module Ensuring {
  import opened Types
  import opened Builders
  import opened Drift
  import opened Protocol
  import opened Runs
  import opened Cluster
  import opened Deploy

  /** What the worker relies on from its first read to its last status write: the stored instance is the one
      it read, possibly edited since, and cannot vanish. */
  ghost predicate Held(w: World, meta: ObjectMeta, spec: Spec) {
    && Holds(w) && w.kn.value.meta.uid == meta.uid
    && Advanced(KubeNova(meta, spec, EMPTY_STATUS), w.kn.value)
  }

  /** The same, while no deletion is under way. */
  ghost predicate InCharge(l: Lapses, w: World, meta: ObjectMeta, spec: Spec) {
    && Held(w, meta, spec)
    && (l.stray || w.kn.value.status.phase != Deleting)
  }

  /** What is left of a state after the others have acted on it. */
  ghost predicate Survives(id: Id, l: Lapses, w: World, w': World, meta: ObjectMeta, spec: Spec) {
    && InCharge(l, w', meta, spec)
    && (Binding(id) in w.objects ==> Binding(id) in w'.objects)
    && (!l.meddled ==> Managed(w) <= w'.objects.Keys)
  }

  lemma OthersLeaveInCharge(id: Id, l: Lapses, w: World, w': World, meta: ObjectMeta, spec: Spec)
    requires InCharge(l, w, meta, spec) && ForeignStep(id, l, w, w')
    ensures Survives(id, l, w, w', meta, spec)
  {
  }

  /** What a deployment phase leaves intact while it works. */
  ghost predicate Progress(id: Id, from: Snapshot, to: Snapshot, meta: ObjectMeta, spec: Spec) {
    && InCharge(to.lapses, to.world, meta, spec)
    && Prefix(from.trace, to.trace) && to.lapses == from.lapses && to.completed == from.completed
    && from.calls <= to.calls && to.canon == from.canon
    && (Binding(id) in from.world.objects ==> Binding(id) in to.world.objects)
    && (!to.lapses.meddled ==> Managed(from.world) <= to.world.objects.Keys)
  }

  ghost predicate SawAll(canon: Canon, trace: seq<World>, first: nat, spec: Spec, keys: set<Key>) {
    |trace| > 0 && forall k :: k in keys ==> Seen(canon, trace, first, |trace| - 1, spec, k)
  }

  lemma SawAllLater(canon: Canon, trace: seq<World>, longer: seq<World>, first: nat, earlier: nat, spec: Spec,
                    keys: set<Key>)
    requires SawAll(canon, trace, first, spec, keys) && Prefix(trace, longer) && earlier <= first
    ensures SawAll(canon, longer, earlier, spec, keys)
  {
    hide Shown;
    forall k | k in keys ensures Seen(canon, longer, earlier, |longer| - 1, spec, k) {
      var j :| first <= j <= |trace| - 1 && j < |trace| && Shown(canon, trace[j], k, spec);
      assert longer[j] == trace[j];
    }
  }

  /** A stretch of work that has seen every one of these objects stored as the specification has it; nobody
      else can have removed them. */
  ghost predicate Done(id: Id, from: Snapshot, to: Snapshot, meta: ObjectMeta, spec: Spec, keys: set<Key>) {
    && Progress(id, from, to, meta, spec) && SawAll(to.canon, to.trace, |from.trace|, spec, keys)
    && (!to.lapses.meddled ==> forall k :: k in keys && !k.BindingKey? ==> k in to.world.objects)
    && (Binding(id) in keys ==> Binding(id) in to.world.objects)
  }

  lemma NothingDoneYet(id: Id, s: Snapshot, meta: ObjectMeta, spec: Spec)
    requires InCharge(s.lapses, s.world, meta, spec) && |s.trace| > 0
    ensures Done(id, s, s, meta, spec, {})
  {
  }

  lemma ProgressIsTransitive(id: Id, s0: Snapshot, s1: Snapshot, s2: Snapshot, meta: ObjectMeta, spec: Spec)
    requires Progress(id, s0, s1, meta, spec) && Progress(id, s1, s2, meta, spec)
    ensures Progress(id, s0, s2, meta, spec)
  {
    hide InCharge;
  }

  lemma DoneComposes(id: Id, s0: Snapshot, s1: Snapshot, s2: Snapshot, meta: ObjectMeta, spec: Spec, k1: set<Key>,
                     k2: set<Key>)
    requires Done(id, s0, s1, meta, spec, k1) && Done(id, s1, s2, meta, spec, k2)
    ensures Done(id, s0, s2, meta, spec, k1 + k2)
  {
    hide InCharge, Seen;
    SawAllLater(s2.canon, s1.trace, s2.trace, |s0.trace|, |s0.trace|, spec, k1);
    SawAllLater(s2.canon, s2.trace, s2.trace, |s1.trace|, |s0.trace|, spec, k2);
  }

  /** An object the operator may create under this key. */
  ghost predicate Creatable(id: Id, l: Lapses, w: World, k: Key, o: Object, uid: nat) {
    && BodyFits(k, o.body) && Supplied(l, w, k, o)
    && (if k == Binding(id) then o.owner == None else !k.BindingKey? && !k.NamespaceKey? && o.owner == Some(uid))
    && (k.DeploymentKey? && k.c != WebFrontend && !l.meddled && !l.blind ==> Binding(id) in w.objects)
  }

  lemma CreatableIsStable(id: Id, l: Lapses, w: World, w': World, k: Key, o: Object, uid: nat)
    requires Creatable(id, l, w, k, o, uid) && ForeignStep(id, l, w, w')
    ensures Creatable(id, l, w', k, o, uid)
  {
  }

  lemma CreationIsAStep(id: Id, l: Lapses, f: Fault, w: World, k: Key, o: Object, uid: nat, admission: Admission)
    requires Creatable(id, l, w, k, o, uid) && Holds(w) && w.kn.value.meta.uid == uid
    ensures OperatorStep(id, l, w, Disturbed(f, w, CreateEffect(w, admission, k, o)).after)
  {
    if k !in w.objects {
      assert CreatesObject(id, l, w, PutObjectAt(w, k, Admit(admission, o)), k);
    }
  }

  /** A body the operator may put in place of the stored one. */
  ghost predicate Rewritable(l: Lapses, w: World, k: Key, o: Object, body: Body) {
    && BodyFits(k, body) && Supplied(l, w, k, o.(body := body))
    && (k.SecretKey? || k.ConfigMapKey?
        || (k.DeploymentKey? && o.body.DeploymentBody? && body.DeploymentBody?
            && body.readyReplicas == o.body.readyReplicas
            && body.deployment.template.untouched == o.body.deployment.template.untouched))
  }

  lemma SuppliedStays(id: Id, l: Lapses, w: World, w': World, k: Key, o: Object)
    requires Supplied(l, w, k, o) && ForeignStep(id, l, w, w')
    ensures Supplied(l, w', k, o)
  {
    hide Needs, Rely;
    forall q | q in Needs(l, k, o) && !l.meddled ensures q in w'.objects {
      if q.BindingKey? {
        NeedsNoBinding(l, k, o, q.name);
      }
      assert q in Managed(w);
    }
  }

  lemma WriteBackIsAStep(canon: Canon, id: Id, l: Lapses, f: Fault, w: World, w': World, k: Key, read: Stored,
                         body: Body)
    requires WellFormed(w) && ForeignStep(id, l, w, w')
    requires Lookup(NoFault, w, k) == Ok(read) && Rewritable(l, w, k, read.item, body)
    ensures var e := UpdateObjectEffect(w', canon, k, read.item.(body := body), read.version);
      OperatorStep(id, l, w', Disturbed(f, w', e).after)
  {
    hide Rely, Orderly, OperatorStep, Rewritable, Needs, BodyFits, Kept, UpdatesObject;
    UnchangedVersion(id, l, w, w', k);
    SuppliedBody(l, w, k, read.item, body);
    SuppliedStays(id, l, w, w', k, read.item.(body := body));
    var after := UpdateObjectEffect(w', canon, k, read.item.(body := body), read.version).after;
    if after != w' {
      KeptIsAnUpdate(canon, l, w, w', k, body);
      UpdateIsAStep(id, l, w', after, k);
    }
    IdlingIsAStep(id, l, w');
  }

  lemma UnchangedVersion(id: Id, l: Lapses, w: World, w': World, k: Key)
    requires WellFormed(w) && ForeignStep(id, l, w, w') && k in w.objects && k in w.versions
    ensures k in w'.objects && k in w'.versions && w'.versions[k] == w.versions[k] ==> w'.objects[k] == w.objects[k]
  {
    hide Orderly, LeavesOperatorFields;
  }

  lemma SuppliedBody(l: Lapses, w: World, k: Key, o: Object, body: Body)
    requires Rewritable(l, w, k, o, body)
    ensures Supplied(l, w, k, o.(body := body))
  {
  }

  lemma KeptIsAnUpdate(canon: Canon, l: Lapses, w: World, w': World, k: Key, body: Body)
    requires k in w.objects && k in w'.objects && w'.objects[k] == w.objects[k]
    requires Rewritable(l, w, k, w.objects[k], body) && Supplied(l, w', k, w.objects[k].(body := body))
    ensures UpdatesObject(l, w', PutObjectAt(w', k, Kept(canon, w.objects[k].(body := body))), k)
  {
    hide Kept, Needs, BodyFits;
    KeptKeepsShape(canon, l, k, w.objects[k].(body := body));
  }

  lemma UpdateIsAStep(id: Id, l: Lapses, w: World, w': World, k: Key)
    requires UpdatesObject(l, w, w', k)
    ensures OperatorStep(id, l, w, w')
  {
    hide UpdatesObject, AddsFinalizer, WritesStatus, RemovesFinalizer, CreatesObject, DeletesBinding;
  }

  lemma IdlingIsAStep(id: Id, l: Lapses, w: World)
    ensures OperatorStep(id, l, w, w)
  {
  }

  /** Secrets and ConfigMaps need nothing else to be stored. */
  lemma DataFits(id: Id, l: Lapses, w: World, k: Key, o: Object, stored: Object, uid: nat)
    requires (k.SecretKey? || k.ConfigMapKey?) && BodyFits(k, o.body) && o.owner == Some(uid)
    ensures Creatable(id, l, w, k, o, uid) && Rewritable(l, w, k, stored, o.body)
    ensures forall admission :: Admit(admission, o) == o
  {
  }

  lemma CopiedFieldsFit(id: Id, l: Lapses, w: World, k: Key, o: Object, desired: DeploymentSpec, uid: nat)
    requires WellFormed(w) && k.DeploymentKey? && k in w.objects && w.objects[k] == o && o.body.DeploymentBody?
    requires !l.meddled ==> Wired(l, w)
    requires Creatable(id, l, w, k, Object(Some(uid), map[], DeploymentBody(desired, 0)), uid)
    ensures Rewritable(l, w, k, o, Rewrite(k, o, desired).body)
    ensures o.(body := Rewrite(k, o, desired).body) == Rewrite(k, o, desired)
  {
    if !l.meddled {
      assert Needs(l, k, Rewrite(k, o, desired))
          <= Needs(l, k, o) + Needs(l, k, Object(Some(uid), map[], DeploymentBody(desired, 0)));
    }
  }

  lemma KeysHaveVersions(w: World, k: Key)
    requires WellFormed(w)
    ensures k in w.objects <==> k in w.versions
  {
  }

  lemma DataIsKept(canon: Canon, k: Key, o: Object)
    requires (k.SecretKey? || k.ConfigMapKey?) && BodyFits(k, o.body)
    ensures Kept(canon, o) == o
  {
  }

  lemma FoundDeployment(id: Id, l: Lapses, w: World, k: Key)
    requires WellFormed(w) && Inv(id, l, w) && k.DeploymentKey? && k in w.objects
    ensures k in w.versions && w.objects[k].body.DeploymentBody? && (!l.meddled ==> Wired(l, w))
  {
  }

  lemma DoneNow(id: Id, from: Snapshot, to: Snapshot, meta: ObjectMeta, spec: Spec, k: Key)
    requires Progress(id, from, to, meta, spec) && |from.trace| < |to.trace| && to.trace[|to.trace| - 1] == to.world
    requires Shown(to.canon, to.world, k, spec)
    ensures Done(id, from, to, meta, spec, {k})
  {
    hide InCharge, Shows;
    assert Seen(to.canon, to.trace, |from.trace|, |to.trace| - 1, spec, k);
  }

  predicate CreateOnly(k: Key) {
    k.AccountKey? || k.BindingKey? || k.ServiceKey? || k.IngressKey?
  }

  lemma PresenceIsEnough(canon: Canon, w: World, k: Key, spec: Spec)
    requires CreateOnly(k) && k in w.objects
    ensures Shown(canon, w, k, spec)
  {
  }

  ghost function StageOf(api: ApiServer): Stage
    reads api
  {
    Stage(api.world.objects, api.writes)
  }

  /** A plain read. */
  method Look(api: ApiServer, k: Key, ghost meta: ObjectMeta, ghost spec: Spec) returns (r: Result<Stored>)
    requires api.Valid() && InCharge(api.lapses, api.world, meta, spec)
    modifies api
    ensures api.Valid() && Progress(api.id, old(api.Snap()), api.Snap(), meta, spec)
    ensures r == Lookup(old(api.Fails()), api.world, k) && api.writes == old(api.writes)
    ensures api.world == old(api.Before()) && api.trace == old(api.trace) + [api.world]
    ensures api.calls == old(api.calls) + 1
    ensures api.Quiet() ==> api.world == old(api.world)
  {
    hide IsRun, Inv, Evidence, ForeignStep, OperatorStep, WellFormed;
    api.Now();
    OthersLeaveInCharge(api.id, api.lapses, api.world, api.Before(), meta, spec);
    r := api.Get(k);
  }

  /** How a stretch of calls that began with the `first`-th, in state `w`, has ended. */
  datatype Ending = Ending(after: World, reply: Result<()>, calls: nat)

  function Ended(e: Effect<()>, calls: nat): Ending {
    Ending(e.after, e.reply, calls)
  }

  /** The call that creates an object found missing. */
  ghost function Creating(api: ApiServer, call: nat, seen: World, k: Key, o: Object): Ending {
    var now := api.env(call, seen);
    Ended(Disturbed(api.fault(call), now, CreateEffect(now, api.admission, k, o)), call + 1)
  }

  /** The call that writes an object back that was read at this version. */
  ghost function WritingBack(api: ApiServer, call: nat, seen: World, k: Key, o: Object, version: nat): Ending {
    var now := api.env(call, seen);
    Ended(Disturbed(api.fault(call), now, UpdateObjectEffect(now, api.admission.canon, k, o, version)), call + 1)
  }

  /** Get, and create only what is missing. */
  ghost function CreatingIfMissing(api: ApiServer, first: nat, w: World, k: Key, o: Object): Ending {
    var seen := api.env(first, w);
    match Lookup(api.fault(first), seen, k)
    case Ok(_) => Ending(seen, Ok(()), first + 1)
    case Err(NotFound) => Creating(api, first + 1, seen, k, o)
    case Err(error) => Ending(seen, Err(error), first + 1)
  }

  /** Get, and create what is missing or replace the data that differs. */
  ghost function CreatingOrReplacing(api: ApiServer, first: nat, w: World, k: Key, o: Object): Ending {
    var seen := api.env(first, w);
    match Lookup(api.fault(first), seen, k)
    case Ok(found) =>
      if found.item.body == o.body then Ending(seen, Ok(()), first + 1)
      else WritingBack(api, first + 1, seen, k, found.item.(body := o.body), found.version)
    case Err(NotFound) => Creating(api, first + 1, seen, k, o)
    case Err(error) => Ending(seen, Err(error), first + 1)
  }

  /** Get once more, and write the Deployment read then back with the desired fields. */
  ghost function Rewriting(api: ApiServer, first: nat, w: World, k: Key, desired: DeploymentSpec): Ending {
    var seen := api.env(first, w);
    match Lookup(api.fault(first), seen, k)
    case Ok(found) =>
      if found.item.body.DeploymentBody?
      then WritingBack(api, first + 1, seen, k, Rewrite(k, found.item, desired), found.version)
      else Ending(seen, Err(Unavailable), first + 1)
    case Err(error) => Ending(seen, Err(error), first + 1)
  }

  /** Get, and create what is missing or rewrite what the comparison finds different. */
  ghost function CreatingOrRewriting(api: ApiServer, first: nat, w: World, k: Key, o: Object, desired: DeploymentSpec)
    : Ending
  {
    var seen := api.env(first, w);
    match Lookup(api.fault(first), seen, k)
    case Ok(found) =>
      if found.item.body.DeploymentBody? && SpecEqual(found.item.body.deployment, desired)
      then Ending(seen, Ok(()), first + 1)
      else Rewriting(api, first + 1, seen, k, desired)
    case Err(NotFound) => Creating(api, first + 1, seen, k, o)
    case Err(error) => Ending(seen, Err(error), first + 1)
  }

  lemma LookupDecides(api: ApiServer, first: nat, w: World, k: Key, o: Object)
    ensures var seen := api.env(first, w);
      match Lookup(api.fault(first), seen, k)
      case Ok(found) =>
        CreatingIfMissing(api, first, w, k, o) == Ending(seen, Ok(()), first + 1)
        && CreatingOrReplacing(api, first, w, k, o)
           == (if found.item.body == o.body then Ending(seen, Ok(()), first + 1)
               else WritingBack(api, first + 1, seen, k, found.item.(body := o.body), found.version))
      case Err(error) =>
        CreatingIfMissing(api, first, w, k, o) == CreatingOrReplacing(api, first, w, k, o)
        == if error == NotFound then Creating(api, first + 1, seen, k, o) else Ending(seen, Err(error), first + 1)
  {
    hide Lookup, Creating, WritingBack;
  }

  lemma LookupAndDriftDecide(api: ApiServer, first: nat, w: World, k: Key, o: Object, desired: DeploymentSpec)
    ensures var seen := api.env(first, w); var ending := CreatingOrRewriting(api, first, w, k, o, desired);
      match Lookup(api.fault(first), seen, k)
      case Ok(found) =>
        found.item.body.DeploymentBody? ==>
          ending == if SpecEqual(found.item.body.deployment, desired) then Ending(seen, Ok(()), first + 1)
                    else Rewriting(api, first + 1, seen, k, desired)
      case Err(error) =>
        ending == if error == NotFound then Creating(api, first + 1, seen, k, o)
                  else Ending(seen, Err(error), first + 1)
  {
    hide Lookup, Creating, Rewriting, SpecEqual;
  }

  /** Creates an object that is known to be missing. */
  method CreateMissing(api: ApiServer, k: Key, o: Object, ghost meta: ObjectMeta, ghost spec: Spec)
    returns (r: Result<()>)
    requires api.Valid() && InCharge(api.lapses, api.world, meta, spec)
    requires Creatable(api.id, api.lapses, api.world, k, o, meta.uid)
    modifies api
    ensures api.Valid() && Progress(api.id, old(api.Snap()), api.Snap(), meta, spec)
    ensures Ending(api.world, r, api.calls) == Creating(api, old(api.calls), old(api.world), k, o)
    ensures r.Ok? ==> k in api.world.objects && api.world.objects[k] == Admit(api.admission, o)
    ensures api.Quiet() ==>
      api.world.kn == old(api.world.kn) && api.world.nodes == old(api.world.nodes)
      && (k !in old(api.world.objects) ==> r.Ok? && StageOf(api) == Put(old(StageOf(api)), k, Admit(api.admission, o)))
  {
    hide IsRun, Inv, Evidence, ForeignStep, OperatorStep, WellFormed, Creatable, Rewritable;
    api.Now();
    OthersLeaveInCharge(api.id, api.lapses, api.world, api.Before(), meta, spec);
    CreatableIsStable(api.id, api.lapses, api.world, api.Before(), k, o, meta.uid);
    CreationIsAStep(api.id, api.lapses, api.Fails(), api.Before(), k, o, meta.uid, api.admission);
    r := api.Create(k, o);
  }

  lemma ProgressOnly(id: Id, from: Snapshot, to: Snapshot, meta: ObjectMeta, spec: Spec)
    requires Progress(id, from, to, meta, spec)
    ensures InCharge(to.lapses, to.world, meta, spec) && Prefix(from.trace, to.trace)
    ensures to.lapses == from.lapses && to.completed == from.completed && from.calls <= to.calls
  {
  }

  /** Get, and create if it is not there; an existing object is left as it is. */
  method EnsureExists(api: ApiServer, k: Key, o: Object, ghost meta: ObjectMeta, ghost spec: Spec)
    returns (r: Result<()>)
    requires api.Valid() && InCharge(api.lapses, api.world, meta, spec) && CreateOnly(k)
    requires Creatable(api.id, api.lapses, api.world, k, o, meta.uid)
    modifies api
    ensures api.Valid() && Progress(api.id, old(api.Snap()), api.Snap(), meta, spec)
    ensures Ending(api.world, r, api.calls) == CreatingIfMissing(api, old(api.calls), old(api.world), k, o)
    ensures r.Ok? ==> Done(api.id, old(api.Snap()), api.Snap(), meta, spec, {k})
    ensures api.Quiet() ==>
      r.Ok? && api.world.kn == old(api.world.kn) && api.world.nodes == old(api.world.nodes)
      && StageOf(api) == PutIfAbsent(old(StageOf(api)), api.admission, k, o)
  {
    hide InCharge, IsRun, Inv, Evidence, ForeignStep, OperatorStep, WellFormed, Creatable, Rewritable, Progress, Done,
      Shown, Admit, CreateOnly, Creating, CreatingIfMissing;
    ghost var s0 := api.Snap();
    LookupDecides(api, api.calls, api.world, k, o);
    api.Now();
    CreatableIsStable(api.id, api.lapses, api.world, api.Before(), k, o, meta.uid);
    var found := Look(api, k, meta, spec);
    ghost var s1 := api.Snap();
    api.Now();
    KeysHaveVersions(api.world, k);
    ProgressOnly(api.id, s0, s1, meta, spec);
    if found.Ok? {
      PresenceIsEnough(api.admission.canon, api.world, k, spec);
      DoneNow(api.id, s0, s1, meta, spec, k);
      return Ok(());
    }
    if found.error != NotFound {
      return Err(found.error);
    }
    r := CreateMissing(api, k, o, meta, spec);
    ProgressIsTransitive(api.id, s0, s1, api.Snap(), meta, spec);
    ProgressOnly(api.id, s1, api.Snap(), meta, spec);
    if r.Ok? {
      PresenceIsEnough(api.admission.canon, api.world, k, spec);
      DoneNow(api.id, s0, api.Snap(), meta, spec, k);
    }
  }

  /** Replaces the body of an object by one computed from what was just read: the version check makes sure
      that nothing was written in between. */
  method WriteBack(api: ApiServer, k: Key, read: Stored, body: Body, ghost meta: ObjectMeta, ghost spec: Spec)
    returns (r: Result<()>)
    requires api.Valid() && InCharge(api.lapses, api.world, meta, spec)
    requires Lookup(NoFault, api.world, k) == Ok(read)
    requires Rewritable(api.lapses, api.world, k, read.item, body)
    modifies api
    ensures api.Valid() && Progress(api.id, old(api.Snap()), api.Snap(), meta, spec)
    ensures Ending(api.world, r, api.calls)
            == WritingBack(api, old(api.calls), old(api.world), k, read.item.(body := body), read.version)
    ensures r.Ok? ==>
      k in api.world.objects && api.world.objects[k] == Kept(api.admission.canon, read.item.(body := body))
    ensures api.Quiet() ==>
      r.Ok? && api.world.kn == old(api.world.kn) && api.world.nodes == old(api.world.nodes)
      && StageOf(api) == Put(old(StageOf(api)), k, Kept(api.admission.canon, read.item.(body := body)))
  {
    hide IsRun, Inv, Evidence, ForeignStep, OperatorStep, WellFormed, Creatable, Rewritable;
    api.Now();
    OthersLeaveInCharge(api.id, api.lapses, api.world, api.Before(), meta, spec);
    WriteBackIsAStep(api.admission.canon, api.id, api.lapses, api.Fails(), api.world, api.Before(), k, read, body);
    r := api.UpdateObject(k, read.item.(body := body), read.version);
  }

  /** Get, then create, or replace the data if it differs. */
  method EnsureData(api: ApiServer, k: Key, o: Object, ghost meta: ObjectMeta, ghost spec: Spec) returns (r: Result<()>)
    requires api.Valid() && InCharge(api.lapses, api.world, meta, spec)
    requires (k.SecretKey? || k.ConfigMapKey?) && BodyFits(k, o.body)
    requires o.owner == Some(meta.uid) && Shows(api.admission.canon, spec, k, o.body)
    modifies api
    ensures api.Valid() && Progress(api.id, old(api.Snap()), api.Snap(), meta, spec)
    ensures Ending(api.world, r, api.calls) == CreatingOrReplacing(api, old(api.calls), old(api.world), k, o)
    ensures r.Ok? ==> k in api.world.objects && api.world.objects[k].body == o.body
    ensures |api.trace| > |old(api.trace)|
    ensures r.Ok? ==> Done(api.id, old(api.Snap()), api.Snap(), meta, spec, {k})
    ensures api.Quiet() ==>
      r.Ok? && api.world.kn == old(api.world.kn) && api.world.nodes == old(api.world.nodes)
      && StageOf(api) == PutData(old(StageOf(api)), k, o)
  {
    hide InCharge, BodyFits, Admit, Kept, IsRun, Inv, Evidence, ForeignStep, OperatorStep, Creatable, Rewritable, Done,
      Shows, Creating, WritingBack, CreatingOrReplacing, CreatingIfMissing, WellFormed;
    ghost var s0 := api.Snap();
    LookupDecides(api, api.calls, api.world, k, o);
    api.Now();
    var found := Look(api, k, meta, spec);
    api.Now();
    KeysHaveVersions(api.world, k);
    match found {
      case Ok(stored) =>
        if stored.item.body != o.body {
          DataFits(api.id, api.lapses, api.world, k, o, stored.item, meta.uid);
          DataIsKept(api.admission.canon, k, stored.item.(body := o.body));
          r := WriteBack(api, k, stored, o.body, meta, spec);
        } else {
          r := Ok(());
        }
      case Err(error) =>
        if error != NotFound {
          return Err(error);
        }
        DataFits(api.id, api.lapses, api.world, k, o, o, meta.uid);
        r := CreateMissing(api, k, o, meta, spec);
    }
    if r.Ok? {
      DoneNow(api.id, s0, api.Snap(), meta, spec, k);
    }
  }

  /** The Deployment stored under this key needs no update. */
  predicate Holding(canon: Canon, w: World, k: Key, desired: DeploymentSpec) {
    k in w.objects && w.objects[k].body.DeploymentBody? && Applied(canon, k, w.objects[k].body.deployment, desired)
  }

  lemma HoldingIsDone(id: Id, from: Snapshot, to: Snapshot, meta: ObjectMeta, spec: Spec, k: Key)
    requires Progress(id, from, to, meta, spec) && |from.trace| < |to.trace| && to.trace[|to.trace| - 1] == to.world
    requires k.DeploymentKey? && Holding(to.canon, to.world, k, ManifestOf(spec, k.c))
    ensures Done(id, from, to, meta, spec, {k})
  {
    hide Progress, Done, ManifestOf, Applied, Shows;
    AppliedIsShown(to.canon, spec, k, to.world.objects[k].body);
    DoneNow(id, from, to, meta, spec, k);
  }

  lemma DeploymentIsAdmitted(admission: Admission, o: Object)
    requires o.body.DeploymentBody?
    ensures Admit(admission, o) == Kept(admission.canon, o)
  {
  }

  lemma EqualIsHolding(canon: Canon, w: World, k: Key, desired: DeploymentSpec)
    requires k in w.objects && w.objects[k].body.DeploymentBody? && SpecEqual(w.objects[k].body.deployment, desired)
    ensures Holding(canon, w, k, desired)
  {
    hide SpecEqual, CopyFields;
  }

  lemma RewrittenIsHolding(canon: Canon, w: World, k: Key, stored: Object, desired: DeploymentSpec)
    requires stored.body.DeploymentBody?
    ensures k in w.objects && w.objects[k] == Kept(canon, Rewrite(k, stored, desired)) ==> Holding(canon, w, k, desired)
    ensures k in w.objects && w.objects[k].body == DeploymentBody(StoredForm(canon, desired), 0) ==>
      Holding(canon, w, k, desired)
  {
    hide SpecEqual, CopyFields;
    CopyingApplies(canon, k, stored.body.deployment, desired);
  }

  /** Gets a Deployment again and copies the desired fields over. */
  method UpdateDeployment(api: ApiServer, k: Key, desired: DeploymentSpec, ghost meta: ObjectMeta, ghost spec: Spec)
    returns (r: Result<()>)
    requires api.Valid() && InCharge(api.lapses, api.world, meta, spec)
    requires k.DeploymentKey? && desired.replicas.Some?
    requires Creatable(api.id, api.lapses, api.world, k, Object(Some(meta.uid), map[], DeploymentBody(desired, 0)),
                       meta.uid)
    modifies api
    ensures api.Valid() && Progress(api.id, old(api.Snap()), api.Snap(), meta, spec)
    ensures Ending(api.world, r, api.calls) == Rewriting(api, old(api.calls), old(api.world), k, desired)
    ensures r.Ok? ==> Holding(api.admission.canon, api.world, k, desired)
    ensures api.Quiet() && k in old(api.world.objects) ==>
      r.Ok? && api.world.kn == old(api.world.kn) && api.world.nodes == old(api.world.nodes)
      && old(api.world.objects)[k].body.DeploymentBody?
      && StageOf(api) == Put(old(StageOf(api)), k,
                             Kept(api.admission.canon, Rewrite(k, old(api.world.objects)[k], desired)))
  {
    hide InCharge, IsRun, Inv, Evidence, ForeignStep, OperatorStep, WellFormed, Creatable, Rewritable, References,
      Wired, Rewrite, Holding;
    var o := Object(Some(meta.uid), map[], DeploymentBody(desired, 0));
    api.Now();
    OthersLeaveInCharge(api.id, api.lapses, api.world, api.Before(), meta, spec);
    CreatableIsStable(api.id, api.lapses, api.world, api.Before(), k, o, meta.uid);
    var latest := api.Get(k);
    api.Now();
    if k in api.world.objects {
      FoundDeployment(api.id, api.lapses, api.world, k);
    }
    if latest.Err? {
      return Err(latest.error);
    }
    CopiedFieldsFit(api.id, api.lapses, api.world, k, latest.value.item, desired, meta.uid);
    r := WriteBack(api, k, latest.value, Rewrite(k, latest.value.item, desired).body, meta, spec);
    RewrittenIsHolding(api.admission.canon, api.world, k, latest.value.item, desired);
  }

  /** Get, then create, or update when the comparison finds a difference. */
  method EnsureDeployment(api: ApiServer, k: Key, desired: DeploymentSpec, uid: nat, ghost meta: ObjectMeta,
                          ghost spec: Spec)
    returns (r: Result<()>)
    requires api.Valid() && InCharge(api.lapses, api.world, meta, spec) && uid == meta.uid
    requires k.DeploymentKey? && desired.replicas.Some? && desired == ManifestOf(spec, k.c)
    requires Creatable(api.id, api.lapses, api.world, k, Object(Some(uid), map[], DeploymentBody(desired, 0)), uid)
    modifies api
    ensures api.Valid() && Progress(api.id, old(api.Snap()), api.Snap(), meta, spec)
    ensures Ending(api.world, r, api.calls)
            == CreatingOrRewriting(api, old(api.calls), old(api.world), k,
                                   Object(Some(uid), map[], DeploymentBody(desired, 0)), desired)
    ensures r.Ok? ==> Holding(api.admission.canon, api.world, k, desired)
    ensures r.Ok? ==> Done(api.id, old(api.Snap()), api.Snap(), meta, spec, {k})
    ensures api.Quiet() ==>
      r.Ok? && api.world.kn == old(api.world.kn) && api.world.nodes == old(api.world.nodes)
      && StageOf(api) == PutDeployment(old(StageOf(api)), api.admission.canon, k, uid, desired)
  {
    hide InCharge, IsRun, Inv, Evidence, ForeignStep, OperatorStep, WellFormed, Creatable, Progress, SpecEqual,
      CopyFields, Rewrite, Done, ManifestOf, Holding, Admit, Creating, Rewriting, CreatingOrRewriting;
    ghost var s0 := api.Snap();
    var o := Object(Some(uid), map[], DeploymentBody(desired, 0));
    LookupAndDriftDecide(api, api.calls, api.world, k, o, desired);
    api.Now();
    CreatableIsStable(api.id, api.lapses, api.world, api.Before(), k, o, uid);
    var found := Look(api, k, meta, spec);
    ghost var s1 := api.Snap();
    api.Now();
    KeysHaveVersions(api.world, k);
    ProgressOnly(api.id, s0, s1, meta, spec);
    if found.Err? {
      if found.error != NotFound {
        return Err(found.error);
      }
      DeploymentIsAdmitted(api.admission, o);
      r := CreateMissing(api, k, o, meta, spec);
      ProgressIsTransitive(api.id, s0, s1, api.Snap(), meta, spec);
      ProgressOnly(api.id, s1, api.Snap(), meta, spec);
      if r.Ok? {
        RewrittenIsHolding(api.admission.canon, api.world, k, o, desired);
        HoldingIsDone(api.id, s0, api.Snap(), meta, spec, k);
      }
      return;
    }
    FoundDeployment(api.id, api.lapses, api.world, k);
    var equal := DeploymentSpecEqual(found.value.item.body.deployment, desired);
    if equal {
      EqualIsHolding(api.admission.canon, api.world, k, desired);
      HoldingIsDone(api.id, s0, s1, meta, spec, k);
      return Ok(());
    }
    r := UpdateDeployment(api, k, desired, meta, spec);
    ProgressIsTransitive(api.id, s0, s1, api.Snap(), meta, spec);
    ProgressOnly(api.id, s1, api.Snap(), meta, spec);
    if r.Ok? {
      HoldingIsDone(api.id, s0, api.Snap(), meta, spec, k);
    }
  }
}
