/** The API server as the operator's client sees it: every call is preceded by whatever the other
    writers do, and may be refused or lose its reply. */
module Cluster {
  import opened Types
  import opened Drift
  import opened Statuses
  import opened Nodes
  import opened Protocol
  import opened Runs

  /** How a call fails: not at all, before it has any effect, or after it took effect. */
  datatype Fault = NoFault | Refused | LostReply

  datatype Effect<+T> = Effect(after: World, reply: Result<T>)

  // ---------- what an undisturbed call does ----------

  function InstanceWrite(w: World, o: KubeNova): Effect<KubeNova>
    requires w.kn.Some?
  {
    if o == w.kn.value then Effect(w, Ok(o)) else Effect(PutInstance(w, o), Ok(Stamp(o, w.clock)))
  }

  /** Update of the main resource: conditional on the version, blind to the status, and it cannot add
      finalizers to an object that is being deleted. */
  function UpdateEffect(w: World, o: KubeNova): Effect<KubeNova> {
    if w.kn.None? then Effect(w, Err(NotFound))
    else
      var s := w.kn.value;
      if s.meta.uid != o.meta.uid || s.meta.resourceVersion != o.meta.resourceVersion then Effect(w, Err(Conflict))
      else if s.meta.deleting && !(o.meta.finalizers <= s.meta.finalizers) then Effect(w, Err(Invalid))
      else
        InstanceWrite(w, KubeNova(s.meta.(finalizers := o.meta.finalizers, labels := o.meta.labels,
                                    generation := s.meta.generation + if o.spec == s.spec then 0 else 1),
                                  o.spec, s.status))
  }

  /** Update of the status subresource: conditional on the version, and it writes nothing but the status. */
  function UpdateStatusEffect(w: World, o: KubeNova): Effect<KubeNova> {
    if w.kn.None? then Effect(w, Err(NotFound))
    else
      var s := w.kn.value;
      if s.meta.uid != o.meta.uid || s.meta.resourceVersion != o.meta.resourceVersion then Effect(w, Err(Conflict))
      else InstanceWrite(w, s.(status := o.status))
  }

  function PutObjectAt(w: World, k: Key, o: Object): World {
    w.(objects := w.objects[k := o], versions := w.versions[k := w.clock + 1], clock := w.clock + 1)
  }

  /** What the store makes of what it is given: which node ports it allocates, and how it writes quantities. */
  datatype Admission = Admission(allocate: string -> int, canon: Canon)

  /** A Deployment as the store keeps it; all other objects are kept as they are. */
  function Kept(canon: Canon, o: Object): Object {
    if o.body.DeploymentBody?
    then o.(body := DeploymentBody(StoredForm(canon, o.body.deployment), o.body.readyReplicas)) else o
  }

  /** The store's form changes nothing an object refers to, nor its kind. */
  lemma KeptKeepsShape(canon: Canon, l: Lapses, k: Key, o: Object)
    ensures BodyFits(k, Kept(canon, o).body) <==> BodyFits(k, o.body)
    ensures References(k, Kept(canon, o)) == References(k, o) && Needs(l, k, Kept(canon, o)) == Needs(l, k, o)
    ensures Kept(canon, o).owner == o.owner && Kept(canon, o).labels == o.labels
    ensures Kept(canon, o).body.DeploymentBody? <==> o.body.DeploymentBody?
    ensures o.body.DeploymentBody? ==>
      Kept(canon, o).body.readyReplicas == o.body.readyReplicas
      && Kept(canon, o).body.deployment.template.untouched == o.body.deployment.template.untouched
  {
    hide CanonicalResources, ConfigMapName;
  }

  /** Node ports nobody chose are allocated when a NodePort Service is created. */
  function Admit(admission: Admission, o: Object): Object {
    if o.body.ServiceBody? && o.body.service.kind.NodePort? then
      var ports := o.body.service.ports;
      o.(body := ServiceBody(o.body.service.(ports :=
           seq(|ports|, i requires 0 <= i < |ports| =>
             if ports[i].nodePort == 0 then ports[i].(nodePort := admission.allocate(ports[i].name)) else ports[i]))))
    else Kept(admission.canon, o)
  }

  function CreateEffect(w: World, admission: Admission, k: Key, o: Object): Effect<()> {
    if k in w.objects then Effect(w, Err(Conflict)) else Effect(PutObjectAt(w, k, Admit(admission, o)), Ok(()))
  }

  function UpdateObjectEffect(w: World, canon: Canon, k: Key, o: Object, version: nat): Effect<()> {
    if k !in w.objects || k !in w.versions then Effect(w, Err(NotFound))
    else if w.versions[k] != version then Effect(w, Err(Conflict))
    else if w.objects[k] == Kept(canon, o) then Effect(w, Ok(()))
    else Effect(PutObjectAt(w, k, Kept(canon, o)), Ok(()))
  }

  function DeleteEffect(w: World, k: Key): Effect<()> {
    if k !in w.objects then Effect(w, Err(NotFound))
    else Effect(w.(objects := w.objects - {k}, versions := w.versions - {k}, clock := w.clock + 1), Ok(()))
  }

  /** The same call when it may fail. */
  function Disturbed<T>(f: Fault, w: World, e: Effect<T>): Effect<T> {
    match f
    case NoFault => e
    case Refused => Effect(w, Err(Unavailable))
    case LostReply => Effect(e.after, Err(Unavailable))
  }

  /** An object together with the version it was read at. */
  datatype Stored = Stored(item: Object, version: nat)

  function Lookup(f: Fault, w: World, k: Key): Result<Stored> {
    if f != NoFault then Err(Unavailable)
    else if k in w.objects && k in w.versions then Ok(Stored(w.objects[k], w.versions[k]))
    else Err(NotFound)
  }

  /** The ghost history of a server at one moment, and the calls made by then. */
  datatype Snapshot = Snapshot(world: World, trace: seq<World>, lapses: Lapses, completed: set<Completion>,
                               calls: nat, canon: Canon)

  ghost predicate Prefix(trace: seq<World>, longer: seq<World>) {
    |trace| <= |longer| && forall i :: 0 <= i < |trace| ==> longer[i] == trace[i]
  }

  // ---------- the server ----------

  class ApiServer {
    const id: Id
    /** What the others have made of the store by the time the n-th call acts on it. */
    const env: (nat, World) -> World
    const fault: nat -> Fault
    const admission: Admission

    var world: World
    var calls: nat
    /** The managed objects written to, in order, with or without success. */
    var writes: seq<Key>

    ghost var trace: seq<World>
    ghost var lapses: Lapses
    ghost var completed: set<Completion>

    /** The state the next call acts on. */
    function Before(): World
      reads this
    {
      env(calls, world)
    }

    function Fails(): Fault
      reads this
    {
      fault(calls)
    }

    ghost function Snap(): Snapshot
      reads this
    {
      Snapshot(world, trace, lapses, completed, calls, admission.canon)
    }

    ghost predicate ReliableOthers()
      reads this
    {
      forall n: nat, w: World {:trigger env(n, w)} :: WellFormed(w) ==> ForeignStep(id, lapses, w, env(n, w))
    }

    /** The history is a run of the protocol that started soundly, and every stored Ready is backed by evidence. */
    ghost predicate Valid()
      reads this
    {
      && |trace| > 0 && trace[|trace| - 1] == world
      && IsRun(id, lapses, trace) && Inv(id, lapses, trace[0])
      && ReliableOthers()
      && Evidence(admission.canon, id, trace, completed)
    }

    /** Nobody interferes. */
    ghost predicate Still() {
      forall n: nat, w: World {:trigger env(n, w)} :: env(n, w) == w
    }

    /** Nobody interferes from this call on. */
    ghost predicate StillFrom(call: nat) {
      forall n: nat, w: World {:trigger env(n, w)} :: n >= call ==> env(n, w) == w
    }

    /** No call fails, unless it is this one. */
    ghost predicate OnlyFails(call: nat) {
      forall n: nat {:trigger fault(n)} :: n != call ==> fault(n) == NoFault
    }

    /** Nobody interferes and nothing fails. */
    ghost predicate Quiet() {
      Still() && (forall n: nat {:trigger fault(n)} :: fault(n) == NoFault)
    }

    constructor (id: Id, env: (nat, World) -> World, fault: nat -> Fault, admission: Admission, world: World,
                 ghost lapses: Lapses)
      requires WellFormed(world) && Inv(id, lapses, world)
      requires world.kn.Some? ==> world.kn.value.status.phase != Ready
      requires forall n: nat, w: World {:trigger env(n, w)} :: WellFormed(w) ==> ForeignStep(id, lapses, w, env(n, w))
      ensures Valid() && this.world == world && this.lapses == lapses && this.id == id
      ensures this.env == env && this.fault == fault && this.admission == admission
      ensures calls == 0 && writes == [] && trace == [world] && completed == {}
    {
      this.id, this.env, this.fault, this.admission := id, env, fault, admission;
      this.world, this.calls, this.writes := world, 0, [];
      this.trace, this.lapses, this.completed := [world], lapses, {};
    }

    /** The present state is well formed and satisfies the invariants. */
    lemma Now()
      requires Valid()
      ensures WellFormed(world) && Inv(id, lapses, world)
      ensures WellFormed(Before()) && ForeignStep(id, lapses, world, Before()) && Inv(id, lapses, Before())
    {
      hide Inv, IsRun, Evidence, ForeignStep, OperatorStep;
      EveryStateIsSound(id, lapses, trace);
      assert WellFormed(trace[|trace| - 1]);
      NextKeepsInv(id, lapses, world, Before());
    }

    /** The history after the others have acted. */
    lemma AfterForeign(w: World)
      requires Valid() && ForeignStep(id, lapses, world, w)
      ensures IsRun(id, lapses, trace + [w])
      ensures Evidence(admission.canon, id, trace + [w], completed)
      ensures (trace + [w])[0] == trace[0]
    {
      hide Inv, IsRun, WellFormed, CompletionHolds, OperatorStep;
      RunExtends(id, lapses, trace, w);
      BackedCarriesOver(world, w, |trace| - 1, completed);
      EvidenceExtends(admission.canon, id, trace, completed, w);
    }

    lemma AfterOthers()
      requires Valid()
      ensures IsRun(id, lapses, trace + [Before()])
      ensures Evidence(admission.canon, id, trace + [Before()], completed)
      ensures (trace + [Before()])[0] == trace[0]
    {
      hide Inv, IsRun, WellFormed, Evidence, ForeignStep, OperatorStep;
      Now();
      AfterForeign(Before());
    }

    /** The others act while the worker makes no call. */
    method OthersAct(w: World)
      requires Valid() && ForeignStep(id, lapses, world, w)
      modifies this
      ensures Valid() && world == w && trace == old(trace) + [w]
      ensures unchanged(`lapses) && unchanged(`completed) && unchanged(`writes) && unchanged(`calls)
    {
      hide Inv, IsRun, Evidence, ForeignStep, WellFormed;
      AfterForeign(w);
      world := w;
      trace := trace + [w];
    }

    /** The history after a call turned the state the others left into `after`. */
    lemma AfterCall(after: World)
      requires Valid() && OperatorStep(id, lapses, Before(), after)
      requires Backed(after, |trace| + 1, completed)
      ensures IsRun(id, lapses, trace + [Before(), after])
      ensures Evidence(admission.canon, id, trace + [Before(), after], completed)
      ensures (trace + [Before(), after])[0] == trace[0]
    {
      hide Inv, IsRun, Evidence, OperatorStep, ForeignStep, Backed;
      AfterOthers();
      var longer := trace + [Before()];
      RunExtends(id, lapses, longer, after);
      EvidenceExtends(admission.canon, id, longer, completed, after);
      assert longer + [after] == trace + [Before(), after];
    }

    /** A call that leaves the status alone keeps what is known about stored Readys. */
    lemma StillBacked(after: World)
      requires Valid()
      requires after.kn.Some? && after.kn.value.status.phase == Ready ==>
                 SameInstance(Before(), after) && after.kn.value.status == Before().kn.value.status
      ensures Backed(after, |trace| + 1, completed)
    {
      hide Inv, IsRun, ForeignStep, WellFormed;
      AfterOthers();
      assert (trace + [Before()])[|trace|] == Before();
      BackedCarriesOver(Before(), after, |trace|, completed);
    }

    method GetInstance() returns (r: Result<KubeNova>)
      requires Valid()
      modifies this
      ensures Valid() && unchanged(`lapses) && unchanged(`completed) && unchanged(`writes)
      ensures world == old(Before()) && calls == old(calls) + 1 && trace == old(trace) + [world]
      ensures r == (if old(Fails()) != NoFault then Err(Unavailable)
                    else if world.kn.Some? then Ok(world.kn.value) else Err(NotFound))
    {
      hide Inv, IsRun, Evidence, ForeignStep, WellFormed;
      AfterOthers();
      var f := Fails();
      world := Before();
      calls := calls + 1;
      trace := trace + [world];
      r := if f != NoFault then Err(Unavailable) else if world.kn.Some? then Ok(world.kn.value) else Err(NotFound);
    }

    method Get(k: Key) returns (r: Result<Stored>)
      requires Valid()
      modifies this
      ensures Valid() && unchanged(`lapses) && unchanged(`completed) && unchanged(`writes)
      ensures world == old(Before()) && calls == old(calls) + 1 && trace == old(trace) + [world]
      ensures r == Lookup(old(Fails()), world, k)
    {
      hide Inv, IsRun, Evidence, ForeignStep, WellFormed;
      AfterOthers();
      var f := Fails();
      world := Before();
      calls := calls + 1;
      trace := trace + [world];
      r := Lookup(f, world, k);
    }

    method ListNodes() returns (r: Result<seq<Node>>)
      requires Valid()
      modifies this
      ensures Valid() && unchanged(`lapses) && unchanged(`completed) && unchanged(`writes)
      ensures world == old(Before()) && calls == old(calls) + 1 && trace == old(trace) + [world]
      ensures r == if old(Fails()) != NoFault then Err(Unavailable) else Ok(world.nodes)
    {
      hide Inv, IsRun, Evidence, ForeignStep, WellFormed;
      AfterOthers();
      var f := Fails();
      world := Before();
      calls := calls + 1;
      trace := trace + [world];
      r := if f != NoFault then Err(Unavailable) else Ok(world.nodes);
    }

    /** Update of the main resource. The history stays a run if the write is a step of the protocol. */
    method Update(o: KubeNova) returns (r: Result<KubeNova>)
      requires Valid()
      modifies this
      ensures Effect(world, r) == Disturbed(old(Fails()), old(Before()), UpdateEffect(old(Before()), o))
      ensures calls == old(calls) + 1 && trace == old(trace) + [old(Before()), world]
      ensures unchanged(`lapses) && unchanged(`completed) && unchanged(`writes)
      ensures OperatorStep(id, lapses, old(Before()), world) ==> Valid()
    {
      hide Inv, IsRun, Evidence, ForeignStep, WellFormed, OperatorStep;
      var e := Disturbed(Fails(), Before(), UpdateEffect(Before(), o));
      if OperatorStep(id, lapses, Before(), e.after) {
        StillBacked(e.after);
        AfterCall(e.after);
      }
      trace := trace + [Before(), e.after];
      world, calls := e.after, calls + 1;
      r := e.reply;
    }

    method UpdateStatus(o: KubeNova) returns (r: Result<KubeNova>)
      requires Valid()
      modifies this
      ensures Effect(world, r) == Disturbed(old(Fails()), old(Before()), UpdateStatusEffect(old(Before()), o))
      ensures calls == old(calls) + 1 && trace == old(trace) + [old(Before()), world]
      ensures unchanged(`lapses) && unchanged(`completed) && unchanged(`writes)
      ensures OperatorStep(id, lapses, old(Before()), world) && Backed(world, |old(trace)| + 1, completed) ==> Valid()
    {
      hide Inv, IsRun, Evidence, ForeignStep, WellFormed, OperatorStep, Backed;
      var e := Disturbed(Fails(), Before(), UpdateStatusEffect(Before(), o));
      if OperatorStep(id, lapses, Before(), e.after) && Backed(e.after, |trace| + 1, completed) {
        AfterCall(e.after);
      }
      trace := trace + [Before(), e.after];
      world, calls := e.after, calls + 1;
      r := e.reply;
    }

    method Create(k: Key, o: Object) returns (r: Result<()>)
      requires Valid()
      modifies this
      ensures Effect(world, r) == Disturbed(old(Fails()), old(Before()), CreateEffect(old(Before()), admission, k, o))
      ensures calls == old(calls) + 1 && trace == old(trace) + [old(Before()), world]
      ensures unchanged(`lapses) && unchanged(`completed) && writes == old(writes) + [k]
      ensures OperatorStep(id, lapses, old(Before()), world) ==> Valid()
    {
      hide Inv, IsRun, Evidence, ForeignStep, WellFormed, OperatorStep;
      var e := Disturbed(Fails(), Before(), CreateEffect(Before(), admission, k, o));
      if OperatorStep(id, lapses, Before(), e.after) {
        StillBacked(e.after);
        AfterCall(e.after);
      }
      trace, writes := trace + [Before(), e.after], writes + [k];
      world, calls := e.after, calls + 1;
      r := e.reply;
    }

    method UpdateObject(k: Key, o: Object, version: nat) returns (r: Result<()>)
      requires Valid()
      modifies this
      ensures Effect(world, r)
              == Disturbed(old(Fails()), old(Before()),
                           UpdateObjectEffect(old(Before()), admission.canon, k, o, version))
      ensures calls == old(calls) + 1 && trace == old(trace) + [old(Before()), world]
      ensures unchanged(`lapses) && unchanged(`completed) && writes == old(writes) + [k]
      ensures OperatorStep(id, lapses, old(Before()), world) ==> Valid()
    {
      hide Inv, IsRun, Evidence, ForeignStep, WellFormed, OperatorStep;
      var e := Disturbed(Fails(), Before(), UpdateObjectEffect(Before(), admission.canon, k, o, version));
      if OperatorStep(id, lapses, Before(), e.after) {
        StillBacked(e.after);
        AfterCall(e.after);
      }
      trace, writes := trace + [Before(), e.after], writes + [k];
      world, calls := e.after, calls + 1;
      r := e.reply;
    }

    method Delete(k: Key) returns (r: Result<()>)
      requires Valid()
      modifies this
      ensures Effect(world, r) == Disturbed(old(Fails()), old(Before()), DeleteEffect(old(Before()), k))
      ensures calls == old(calls) + 1 && trace == old(trace) + [old(Before()), world]
      ensures unchanged(`lapses) && unchanged(`completed) && writes == old(writes) + [k]
      ensures OperatorStep(id, lapses, old(Before()), world) ==> Valid()
    {
      hide Inv, IsRun, Evidence, ForeignStep, WellFormed, OperatorStep;
      var e := Disturbed(Fails(), Before(), DeleteEffect(Before(), k));
      if OperatorStep(id, lapses, Before(), e.after) {
        StillBacked(e.after);
        AfterCall(e.after);
      }
      trace, writes := trace + [Before(), e.after], writes + [k];
      world, calls := e.after, calls + 1;
      r := e.reply;
    }

    /** Records that something the guarantees depend on has gone wrong. */
    ghost method Admits(l: Lapses)
      requires Valid() && Within(lapses, l)
      modifies `lapses
      ensures Valid() && lapses == l
    {
      hide IsRun, Inv, Evidence, ForeignStep, WellFormed;
      MoreLapses(id, lapses, l, trace);
      InvAdmitsMore(id, lapses, l, trace[0]);
      forall n: nat, w: World | WellFormed(w) ensures ForeignStep(id, l, w, env(n, w)) {
        ForeignStepAdmitsMore(id, lapses, l, w, env(n, w));
      }
      lapses := l;
    }

    /** Records a run of the worker that has put everything in place. */
    ghost method Completes(c: Completion)
      requires Valid() && CompletionHolds(admission.canon, id, trace, c)
      modifies `completed
      ensures Valid() && completed == old(completed) + {c}
    {
      hide IsRun, Inv, ForeignStep, WellFormed, CompletionHolds;
      completed := completed + {c};
    }
  }
}
