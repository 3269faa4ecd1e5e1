/** Two runs of the worker in which a deletion goes wrong: one call fails, or somebody else acts between two
    calls, and nothing else happens. */
module Incidents {
  import opened Types
  import opened Builders
  import opened Statuses
  import opened Protocol
  import opened Runs
  import opened Cluster
  import opened StatusRetry
  import opened Finalizing
  import opened Reconciling

  const FOREIGN_FINALIZER := "other/finalizer"

  /** An instance that is being deleted, and its binding if it ever got one. */
  function Dying(id: Id, spec: Spec, generation: nat, finalizer: string, bound: bool): World {
    var b := Binding(id);
    World(Some(KubeNova(ObjectMeta(1, 1, generation, {finalizer}, true, map[]), spec, EMPTY_STATUS)),
          if bound then map[b := BuildClusterRoleBinding(id)] else map[],
          if bound then map[b := 1] else map[], [], 1, 1)
  }

  lemma DyingIsSound(id: Id, spec: Spec, generation: nat, finalizer: string, bound: bool)
    requires bound ==> finalizer == FINALIZER
    ensures var w := Dying(id, spec, generation, finalizer, bound); WellFormed(w) && Inv(id, NO_LAPSE, w)
  {
    hide BindingName, RequiredKeys;
  }

  /** A round in which a single call fails, the lookup of the binding: it reports success, the instance is gone,
      and the binding is left behind. */
  method BlindDeletion(id: Id, spec: Spec, admission: Admission) returns (api: ApiServer, outcome: Outcome)
    ensures api.Valid() && api.id == id && api.Still() && api.OnlyFails(3)
    ensures Inv(id, NO_LAPSE, api.trace[0]) && outcome == DeletionDone
    ensures Binding(id) in api.world.objects && !Holds(api.world) && !NoOrphan(id, api.world)
  {
    hide IsRun, Inv, Evidence, OperatorStep, WellFormed, BindingName, ForeignStep;
    var w := Dying(id, spec, 2, FINALIZER, true);
    DyingIsSound(id, spec, 2, FINALIZER, true);
    StayingPutIsForeign(id);
    api := new ApiServer(id, (n: nat, w: World) => w, (n: nat) => if n == 3 then Refused else NoFault, admission, w,
                         NO_LAPSE);
    ghost var order, lookup;
    outcome, order, lookup := Reconcile(api);
  }

  lemma StayingPutIsForeign(id: Id)
    ensures forall w: World :: WellFormed(w) ==> ForeignStep(id, NO_LAPSE, w, w)
  {
    forall w: World | WellFormed(w) ensures ForeignStep(id, NO_LAPSE, w, w) {
      assert ActAll(id, w, []) == w;
      PeacefulActionsAreForeignSteps(id, NO_LAPSE, w, []);
    }
  }

  /** Somebody takes the last foreign finalizer off the dying instance and creates the next one. */
  function Succession(spec: Spec): seq<ForeignAction> {
    [DropForeignFinalizer(FOREIGN_FINALIZER), CreateInstance(spec, {})]
  }

  lemma SuccessionIsPeaceful(id: Id, w: World, spec: Spec)
    requires WellFormed(w)
    ensures ForeignStep(id, NO_LAPSE, w, ActAll(id, w, Succession(spec)))
  {
    var actions := Succession(spec);
    assert actions[1..] == [CreateInstance(spec, {})] && actions[1..][1..] == [];
    var next := Act(id, w, actions[0]);
    assert AllPeaceful(id, NO_LAPSE, next, actions[1..]);
    PeacefulActionsAreForeignSteps(id, NO_LAPSE, w, actions);
  }

  lemma SuccessorOfDying(id: Id, spec: Spec, generation: nat)
    ensures var w := ActAll(id, Dying(id, spec, generation, FOREIGN_FINALIZER, false), Succession(spec));
      w.kn == Some(KubeNova(ObjectMeta(2, 3, 1, {}, false, map[]), spec, EMPTY_STATUS))
  {
    var w0 := Dying(id, spec, generation, FOREIGN_FINALIZER, false);
    assert FOREIGN_FINALIZER[0] != FINALIZER[0];
    var actions := Succession(spec);
    assert actions[1..] == [CreateInstance(spec, {})] && actions[1..][1..] == [];
    var w1 := Act(id, w0, actions[0]);
    assert w0.kn.value.meta.finalizers - {FOREIGN_FINALIZER} == {};
    assert w1.kn.None?;
    var w2 := Act(id, w1, CreateInstance(spec, {}));
    var nothing: set<string> := {};
    assert nothing - {FINALIZER} == nothing;
    assert w2.kn == Some(KubeNova(ObjectMeta(2, 3, 1, {}, false, map[]), spec, EMPTY_STATUS));
    assert ActAll(id, w2, []) == w2;
    assert ActAll(id, w0, actions) == ActAll(id, w1, actions[1..]) == Act(id, w1, CreateInstance(spec, {}));
  }

  /** The deletion of an instance that never got the finalizer, while a successor takes its place between the
      first read and the status write: the successor is stored as Deleting, at a generation it has not reached. */
  method StrayDeletion(id: Id, spec: Spec, admission: Admission) returns (api: ApiServer, ghost at: nat)
    ensures api.Valid() && api.id == id && api.OnlyFails(0) && Inv(id, NO_LAPSE, api.trace[0])
    ensures forall n: nat, w: World :: n != 1 ==> api.env(n, w) == w
    ensures forall w: World :: api.env(1, w) == ActAll(id, w, Succession(spec))
    ensures at < |api.trace| && !StatusSound(api.trace[at])
    ensures api.trace[at].kn.Some? && var o := api.trace[at].kn.value;
      o.status.phase == Deleting && !o.meta.deleting && o.status.observedGeneration == 7 && o.meta.generation == 1
  {
    hide IsRun, Inv, Evidence, OperatorStep, WellFormed, BindingName, ForeignStep, OnlyOthersWrote, ReleasedFrom,
      NothingLost, NoEdits;
    var w := Dying(id, spec, 7, FOREIGN_FINALIZER, false);
    assert FOREIGN_FINALIZER[0] != FINALIZER[0];
    DyingIsSound(id, spec, 7, FOREIGN_FINALIZER, false);
    StayingPutIsForeign(id);
    forall w: World | WellFormed(w) ensures ForeignStep(id, NO_LAPSE, w, ActAll(id, w, Succession(spec))) {
      SuccessionIsPeaceful(id, w, spec);
    }
    SuccessorOfDying(id, spec, 7);
    api := new ApiServer(id, (n: nat, w: World) => if n == 1 then ActAll(id, w, Succession(spec)) else w,
                         (n: nat) => NoFault, admission, w, NO_LAPSE);
    hide ActAll, Succession;
    var read := api.GetInstance();
    var kn := new Instance(read.value);
    var r;
    ghost var lookup;
    r, at, lookup := ReconcileDelete(api, kn);
  }

  /** A dying instance that somebody else holds too. */
  function Lingering(spec: Spec): World {
    World(Some(KubeNova(ObjectMeta(1, 1, 2, {FINALIZER, FOREIGN_FINALIZER}, true, map[]), spec, EMPTY_STATUS)),
          map[], map[], [], 1, 1)
  }

  lemma LingeringIsSound(id: Id, spec: Spec)
    ensures WellFormed(Lingering(spec)) && Inv(id, NO_LAPSE, Lingering(spec))
  {
    hide BindingName, RequiredKeys;
  }

  lemma EditIsPeaceful(id: Id, w: World, edited: Spec)
    requires WellFormed(w)
    ensures ForeignStep(id, NO_LAPSE, w, Act(id, w, EditSpec(edited)))
  {
    var actions := [EditSpec(edited)];
    assert actions[1..] == [];
    assert ActAll(id, w, actions) == ActAll(id, Act(id, w, actions[0]), []);
    PeacefulActionsAreForeignSteps(id, NO_LAPSE, w, actions);
  }

  lemma EditedLingering(id: Id, spec: Spec, edited: Spec)
    requires spec != edited
    ensures var w := Act(id, Lingering(spec), EditSpec(edited));
      w.kn == Some(KubeNova(ObjectMeta(1, 2, 3, {FINALIZER, FOREIGN_FINALIZER}, true, map[]), edited, EMPTY_STATUS))
  {
  }

  /** The deletion of an instance that outlives it, while somebody edits the specification between the first read
      and the status write. No call fails, the round reports success, and the edit is gone: the version check of
      the last write passes, because the status write has refreshed the version. */
  method LostEdit(id: Id, spec: Spec, edited: Spec, admission: Admission)
    returns (api: ApiServer, r: Result<()>, ghost at: nat)
    requires spec != edited
    ensures api.Valid() && api.id == id && api.lapses == NO_LAPSE && (forall n: nat :: api.fault(n) == NoFault)
    ensures forall n: nat, w: World :: api.env(n, w) == if n == 1 then Act(id, w, EditSpec(edited)) else w
    ensures r.Ok? && at < |api.trace| - 1 && SameInstance(api.trace[at], api.world)
    ensures api.trace[at].kn.value.spec == edited && api.world.kn.value.spec == spec
    ensures !NothingLost(api.trace, at)
  {
    hide IsRun, Inv, Evidence, OperatorStep, WellFormed, BindingName, ForeignStep, OnlyOthersWrote, NoOrphan, NoEdits;
    var w := Lingering(spec);
    assert FOREIGN_FINALIZER[0] != FINALIZER[0];
    LingeringIsSound(id, spec);
    StayingPutIsForeign(id);
    forall w: World | WellFormed(w) ensures ForeignStep(id, NO_LAPSE, w, Act(id, w, EditSpec(edited))) {
      EditIsPeaceful(id, w, edited);
    }
    EditedLingering(id, spec, edited);
    api := new ApiServer(id, (n: nat, w: World) => if n == 1 then Act(id, w, EditSpec(edited)) else w,
                         (n: nat) => NoFault, admission, w, NO_LAPSE);
    hide Act;
    var read := api.GetInstance();
    var kn := new Instance(read.value);
    ghost var lookup;
    r, at, lookup := ReconcileDelete(api, kn);
    assert FOREIGN_FINALIZER in {FINALIZER, FOREIGN_FINALIZER} - {FINALIZER};
  }
}
