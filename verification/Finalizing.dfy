/** The deletion protocol (reconcileDelete in internal/controller/kubenova_controller.go): mark the instance,
    delete its binding, drop the finalizer. */
module Finalizing {
  import opened Types
  import opened Statuses
  import opened Protocol
  import opened Runs
  import opened Cluster
  import opened Ensuring
  import opened StatusRetry

  /** What protects the binding while a deletion is under way: the instance is still there and being deleted,
      or it never had the finalizer, and then there is no binding unless an earlier removal was blind. */
  ghost predicate Doomed(id: Id, l: Lapses, w: World, meta: ObjectMeta, spec: Spec) {
    && meta.deleting
    && (if FINALIZER in meta.finalizers then Held(w, meta, spec) else Binding(id) in w.objects ==> l.blind)
  }

  lemma DoomedIsStable(id: Id, l: Lapses, w: World, w': World, meta: ObjectMeta, spec: Spec)
    requires Doomed(id, l, w, meta, spec) && ForeignStep(id, l, w, w')
    ensures Doomed(id, l, w', meta, spec)
    ensures Binding(id) in w'.objects <==> Binding(id) in w.objects
  {
  }

  lemma DeletingTheBindingIsAStep(id: Id, l: Lapses, f: Fault, w: World, meta: ObjectMeta, spec: Spec)
    requires Doomed(id, l, w, meta, spec)
    ensures var after := Disturbed(f, w, DeleteEffect(w, Binding(id))).after;
      OperatorStep(id, l, w, after) && Doomed(id, l, after, meta, spec)
  {
    var after := Disturbed(f, w, DeleteEffect(w, Binding(id))).after;
    if after != w {
      assert DeletesBinding(id, l, w, after);
    }
  }

  /** The worker's version is the one that was stored at this moment. */
  ghost predicate KnownAt(trace: seq<World>, at: nat, version: nat) {
    at < |trace| && trace[at].kn.Some? && trace[at].kn.value.meta.resourceVersion == version
  }

  /** Between the first read and the refresh of the version only others wrote, and the refresh stored only the
      status. */
  ghost predicate RefreshedAt(id: Id, l: Lapses, trace: seq<World>, read: nat, at: nat, version: nat, status: Status) {
    read < |trace| && at < |trace| &&
    (at == read
     || (read + 1 < at && StatusWritten(trace[at - 1], trace[at], version, status)
         && OnlyOthersWrote(id, l, trace, read + 1, at)))
  }

  /** The stored instance with the status and version of the worker's copy. */
  ghost predicate Refreshed(o: Option<KubeNova>, o': Option<KubeNova>, version: nat, status: Status) {
    o.Some? && o' == Some(o.value.(status := status, meta := o.value.meta.(resourceVersion := version)))
  }

  lemma DeletingIsStorable(id: Id, s: Snapshot, o: KubeNova, status: Status)
    requires WellFormed(s.world) && Inv(id, s.lapses, s.world) && s.world.kn == Some(o) && o.meta.deleting
    requires FINALIZER !in o.meta.finalizers ==> s.lapses.stray
    requires status == SetPhase(o.status, Deleting, o.meta.generation)
    ensures Storable(id, s, o.meta, o.spec, status)
    ensures FINALIZER !in o.meta.finalizers && Binding(id) in s.world.objects ==> s.lapses.blind
  {
    FailedStatusIsPersisted(o.status, o.meta.generation);
  }

  lemma StorableDeletingIsDoomed(id: Id, s: Snapshot, meta: ObjectMeta, spec: Spec, status: Status)
    requires Storable(id, s, meta, spec, status) && status.phase == Deleting
    requires FINALIZER !in meta.finalizers && Binding(id) in s.world.objects ==> s.lapses.blind
    ensures Doomed(id, s.lapses, s.world, meta, spec)
  {
    hide Persisted, RequiredKeys;
  }

  /** The status says Deleting from now on, if it can be stored. Where it is stored is where the retry's read
      found an instance, which need not be the one that is being deleted. */
  method MarkDeleting(api: ApiServer, kn: Instance) returns (ghost stored: bool, ghost refreshed: nat)
    requires api.Valid() && api.world.kn == Some(kn.View()) && kn.meta.deleting
    modifies api, kn
    ensures api.Valid() && Doomed(api.id, api.lapses, api.world, kn.meta, kn.spec)
    ensures Prefix(old(api.trace), api.trace) && api.completed == old(api.completed)
    ensures api.lapses == old(api.lapses).(stray := old(api.lapses.stray) || FINALIZER !in old(kn.meta.finalizers))
    ensures api.writes == old(api.writes) && old(api.calls) < api.calls <= old(api.calls) + 6
    ensures kn.spec == old(kn.spec) && kn.meta == old(kn.meta).(resourceVersion := kn.meta.resourceVersion)
    ensures kn.status == SetPhase(old(kn.status), Deleting, kn.meta.generation)
    ensures KnownAt(api.trace, refreshed, kn.meta.resourceVersion)
    ensures RefreshedAt(api.id, api.lapses, api.trace, |old(api.trace)| - 1, refreshed, kn.meta.resourceVersion,
                        kn.status)
    ensures refreshed == (if stored then |api.trace| - 1 else |old(api.trace)| - 1)
    ensures stored ==> |api.trace| >= |old(api.trace)| + 3
    ensures stored <==> Lands(api, old(api.calls), old(api.world))
    ensures Binding(api.id) in api.world.objects <==> Binding(api.id) in old(api.world.objects)
    ensures old(Smooth(api)) ==>
      stored && api.calls == old(api.calls) + 2 && api.trace[|api.trace| - 2] == old(api.Before())
    ensures old(Smooth(api)) ==>
      api.world == old(api.Before()).(kn := api.world.kn, clock := api.world.clock)
      && Refreshed(old(api.Before()).kn, api.world.kn, kn.meta.resourceVersion, kn.status)
  {
    hide IsRun, Inv, Evidence, ForeignStep, OperatorStep, WellFormed, Storable, Held, OnlyOthersWrote, Lands,
      Decided, AfterOneAttempt;
    ghost var n := |api.trace|;
    if FINALIZER !in kn.meta.finalizers {
      api.Admits(api.lapses.(stray := true));
    }
    api.Now();
    ghost var before := kn.View();
    assert Prefix(api.trace, api.trace);
    kn.status := SetPhase(kn.status, Deleting, kn.meta.generation);
    DeletingIsStorable(api.id, api.Snap(), before, kn.status);
    var r, attempts, slept := UpdateStatusWithRetry(api, kn);
    StorableDeletingIsDoomed(api.id, api.Snap(), kn.meta, kn.spec, kn.status);
    stored := r.Ok?;
    refreshed := if r.Ok? then |api.trace| - 1 else n - 1;
  }

  /** Deletes the binding if it can be looked up. `blind` says that it could not while it was there; then the
      deletion goes on all the same. */
  method DeleteBinding(api: ApiServer, kn: Instance) returns (r: Result<()>, ghost blind: bool)
    requires api.Valid() && Doomed(api.id, api.lapses, api.world, kn.meta, kn.spec)
    modifies api
    ensures api.Valid() && Prefix(old(api.trace), api.trace) && api.completed == old(api.completed)
    ensures api.calls > old(api.calls) && api.lapses == old(api.lapses).(blind := old(api.lapses.blind) || blind)
    ensures blind <==> old(api.Fails()) != NoFault && Binding(api.id) in old(api.world.objects)
    ensures blind ==> r.Ok?
    ensures var found := old(api.Fails()) == NoFault && Binding(api.id) in old(api.world.objects);
      api.calls == old(api.calls) + (if found then 2 else 1)
      && |api.trace| == |old(api.trace)| + (if found then 3 else 1)
      && (r.Err? <==> found && api.fault(old(api.calls) + 1) != NoFault)
    ensures r.Ok? ==> (Binding(api.id) in api.world.objects <==> blind)
    ensures api.StillFrom(old(api.calls)) && api.OnlyFails(old(api.calls)) ==>
      r.Ok? && api.world.kn == old(api.world.kn)
      && api.world.objects == (if blind then old(api.world.objects) else old(api.world.objects) - {Binding(api.id)})
  {
    hide IsRun, Inv, Evidence, ForeignStep, OperatorStep, WellFormed, Doomed, Held;
    blind := false;
    api.Now();
    DoomedIsStable(api.id, api.lapses, api.world, api.Before(), kn.meta, kn.spec);
    var found := api.Get(Binding(api.id));
    api.Now();
    KeysHaveVersions(api.world, Binding(api.id));
    if found.Ok? {
      DoomedIsStable(api.id, api.lapses, api.world, api.Before(), kn.meta, kn.spec);
      DeletingTheBindingIsAStep(api.id, api.lapses, api.Fails(), api.Before(), kn.meta, kn.spec);
      r := api.Delete(Binding(api.id));
      if r.Err? && r.error != NotFound {
        return;
      }
    } else if Binding(api.id) in api.world.objects {
      blind := true;
      api.Admits(api.lapses.(blind := true));
    }
    r := Ok(());
  }

  /** What dropping the finalizer leaves of the stored instance `s`: nothing if nobody else holds it, otherwise
      the instance with the specification and labels the worker had read. */
  ghost predicate Released(s: KubeNova, left: Option<KubeNova>, spec: Spec, labels: map<string, string>) {
    if s.meta.finalizers - {FINALIZER} == {} then left.None?
    else
      left.Some? && var o := left.value;
        && o.meta.uid == s.meta.uid && o.meta.deleting && o.status == s.status
        && o.meta.finalizers == s.meta.finalizers - {FINALIZER}
        && o.spec == spec && o.meta.labels == labels
  }

  lemma ReleasedIsNotHeld(s: KubeNova, w: World, spec: Spec, labels: map<string, string>)
    requires Released(s, w.kn, spec, labels)
    ensures !Holds(w)
  {
  }

  lemma DroppingIsAStep(id: Id, l: Lapses, f: Fault, w0: World, w: World, o: KubeNova)
    requires WellFormed(w0) && WellFormed(w) && Evolves(w0, w) && w0.kn.Some? && w0.kn.value.meta.deleting
    requires o.meta.uid == w0.kn.value.meta.uid && o.meta.finalizers == w0.kn.value.meta.finalizers - {FINALIZER}
    requires Binding(id) in w.objects ==> l.blind
    ensures OperatorStep(id, l, w, Disturbed(f, w, UpdateEffect(w, o)).after)
    ensures Disturbed(f, w, UpdateEffect(w, o)).after.objects == w.objects
    ensures var e := Disturbed(f, w, UpdateEffect(w, o));
      e.reply.Ok? ==> SameInstance(w0, w) && w.kn.value.meta.resourceVersion == o.meta.resourceVersion
                      && Released(w.kn.value, e.after.kn, o.spec, o.meta.labels)
    ensures Disturbed(f, w, UpdateEffect(w, o)).reply.Ok? ==>
      f == NoFault && w.kn.Some? && o.meta.finalizers <= w.kn.value.meta.finalizers
    ensures f == NoFault && SameInstance(w0, w) && w.kn.value.meta.resourceVersion == o.meta.resourceVersion
            && o.meta.finalizers <= w.kn.value.meta.finalizers ==>
      UpdateEffect(w, o).reply.Ok?
  {
    hide BodyFits;
    var e := UpdateEffect(w, o);
    if e.after != w {
      assert SameInstance(w0, w);
      var s := w.kn.value;
      assert o.meta.finalizers == s.meta.finalizers - {FINALIZER};
      assert RemovesFinalizer(id, l, w, e.after);
    } else if e.reply.Ok? {
      assert SameInstance(w0, w);
      assert w.kn.value.meta.finalizers == o.meta.finalizers;
    }
  }

  lemma SameVersionSameInstance(w0: World, w: World)
    requires WellFormed(w0) && Evolves(w0, w) && w0.kn.Some? && w.kn.Some?
    requires w0.kn.value.meta.resourceVersion == w.kn.value.meta.resourceVersion
    ensures w0.kn == w.kn
  {
  }

  /** The others' last moves before a call evolve from every state the worker has seen. */
  lemma BeforeEvolvesFrom(api: ApiServer, i: nat)
    requires api.Valid() && i < |api.trace|
    ensures WellFormed(api.trace[i]) && WellFormed(api.Before()) && Evolves(api.trace[i], api.Before())
  {
    hide IsRun, Inv, Evidence, OperatorStep, WellFormed, Evolves, LeavesOperatorFields, Orderly;
    api.Now();
    HistoryIsLinear(api.id, api.lapses, api.trace, i, |api.trace| - 1);
    EvolvesIsTransitive(api.trace[i], api.world, api.Before());
  }

  /** The instance read is still the one stored, and nobody else's finalizer has been taken off it meanwhile. */
  ghost predicate CanDrop(read: Option<KubeNova>, o: Option<KubeNova>) {
    read.Some? && o.Some? && o.value.meta.uid == read.value.meta.uid
    && read.value.meta.finalizers - {FINALIZER} <= o.value.meta.finalizers
  }

  /** Takes the finalizer off the copy in memory and writes that copy. */
  method DropFinalizer(api: ApiServer, kn: Instance, ghost read: nat, ghost refreshed: nat) returns (r: Result<()>)
    requires api.Valid() && (Binding(api.id) in api.world.objects ==> api.lapses.blind)
    requires read < |api.trace| && api.trace[read].kn.Some? && kn.meta.deleting
    requires api.trace[read].kn.value.meta == kn.meta.(resourceVersion := api.trace[read].kn.value.meta.resourceVersion)
    requires KnownAt(api.trace, refreshed, kn.meta.resourceVersion)
    modifies api, kn
    ensures api.Valid() && api.lapses == old(api.lapses) && api.completed == old(api.completed)
    ensures api.trace == old(api.trace) + [old(api.Before()), api.world] && api.calls == old(api.calls) + 1
    ensures ForeignStep(api.id, api.lapses, old(api.world), old(api.Before()))
    ensures kn.meta.resourceVersion == old(kn.meta.resourceVersion) && kn.status == old(kn.status)
    ensures Binding(api.id) in api.world.objects <==> Binding(api.id) in old(api.world.objects)
    ensures r.Ok? ==> (old(api.Before()).kn == api.trace[refreshed].kn
                       && Released(api.trace[refreshed].kn.value, api.world.kn, old(kn.spec), old(kn.meta.labels)))
    ensures r.Ok? ==> !Holds(api.world) && SameInstance(api.trace[read], api.trace[refreshed])
    ensures r.Ok? <==>
      old(api.Fails()) == NoFault && old(api.Before().kn) == api.trace[refreshed].kn
      && CanDrop(api.trace[read].kn, api.trace[refreshed].kn)
  {
    hide IsRun, Inv, Evidence, ForeignStep, OperatorStep, WellFormed, Evolves, UpdateEffect, Released;
    api.Now();
    BeforeEvolvesFrom(api, read);
    BeforeEvolvesFrom(api, refreshed);
    BindingIsStable(api.id, api.lapses, api.world, api.Before());
    ghost var spec, labels, version := kn.spec, kn.meta.labels, kn.meta.resourceVersion;
    kn.meta := kn.meta.(finalizers := kn.meta.finalizers - {FINALIZER});
    DroppingIsAStep(api.id, api.lapses, api.Fails(), api.trace[read], api.Before(), kn.View());
    if api.Before().kn.Some? && api.Before().kn.value.meta.resourceVersion == version {
      SameVersionSameInstance(api.trace[refreshed], api.Before());
    }
    var written := api.Update(kn.View());
    r := if written.Ok? then Ok(()) else Err(written.error);
    if r.Ok? {
      ReleasedIsNotHeld(api.trace[refreshed].kn.value, api.world, spec, labels);
    }
  }

  lemma BindingIsStable(id: Id, l: Lapses, w: World, w': World)
    requires ForeignStep(id, l, w, w')
    ensures Binding(id) in w'.objects <==> Binding(id) in w.objects
  {
  }

  /** None of these calls fails. */
  ghost predicate NoFaultBetween(api: ApiServer, first: nat, last: nat) {
    forall n :: first <= n < last ==> api.fault(n) == NoFault
  }

  /** The second half of a deletion: the binding, then the finalizer. */
  method Release(api: ApiServer, kn: Instance, ghost read: nat, ghost refreshed: nat) returns (r: Result<()>)
    requires api.Valid() && Doomed(api.id, api.lapses, api.world, kn.meta, kn.spec)
    requires read < |api.trace| && api.trace[read].kn.Some?
    requires api.trace[read].kn.value.meta == kn.meta.(resourceVersion := api.trace[read].kn.value.meta.resourceVersion)
    requires KnownAt(api.trace, refreshed, kn.meta.resourceVersion)
    modifies api, kn
    ensures api.Valid() && Prefix(old(api.trace), api.trace) && api.completed == old(api.completed)
    ensures api.calls > old(api.calls)
    ensures kn.meta.resourceVersion == old(kn.meta.resourceVersion) && kn.status == old(kn.status)
    ensures var blind := old(api.Fails()) != NoFault && Binding(api.id) in old(api.world.objects);
      && api.lapses == old(api.lapses).(blind := old(api.lapses.blind) || blind)
      && (r.Ok? ==> (NoOrphan(api.id, api.world) <==> !blind) && (Binding(api.id) in api.world.objects <==> blind))
    ensures r.Ok? ==>
      !Holds(api.world) && ReleasedFrom(api.trace, refreshed, old(kn.spec), old(kn.meta.labels))
      && SameInstance(api.trace[read], api.trace[refreshed])
    ensures |api.trace| >= |old(api.trace)| + 2
    ensures r.Ok? <==>
      NoFaultBetween(api, old(api.calls) + 1, api.calls) && api.trace[|api.trace| - 2].kn == api.trace[refreshed].kn
      && CanDrop(api.trace[read].kn, api.trace[refreshed].kn)
    ensures api.StillFrom(old(api.calls)) && api.OnlyFails(old(api.calls))
            && old(api.world.kn) == api.trace[refreshed].kn && CanDrop(api.trace[read].kn, api.trace[refreshed].kn) ==>
      r.Ok?
  {
    hide IsRun, Inv, Evidence, ForeignStep, OperatorStep, WellFormed, Held, KnownAt, Released;
    ghost var trace, version := api.trace, kn.meta.resourceVersion;
    assert kn.meta.deleting;
    hide Doomed;
    ghost var blind;
    r, blind := DeleteBinding(api, kn);
    if r.Err? {
      return;
    }
    KnownLater(trace, api.trace, refreshed, version);
    r := DropFinalizer(api, kn, read, refreshed);
  }

  /** The deletion. It orphans the binding exactly when the binding was there and its lookup failed. `refreshed`
      is the moment whose specification and labels the last write must match to lose nothing. */
  method ReconcileDelete(api: ApiServer, kn: Instance) returns (r: Result<()>, ghost refreshed: nat, ghost lookup: nat)
    requires api.Valid() && api.world.kn == Some(kn.View()) && kn.meta.deleting
    modifies api, kn
    ensures api.Valid() && Prefix(old(api.trace), api.trace) && api.completed == old(api.completed)
    ensures old(api.calls) < lookup <= old(api.calls) + 6 && lookup < api.calls
    ensures var blind := api.fault(lookup) != NoFault && Binding(api.id) in old(api.world.objects);
      && api.lapses == Lapses(old(api.lapses.blind) || blind,
                              old(api.lapses.stray) || FINALIZER !in old(kn.meta.finalizers),
                              old(api.lapses.meddled), old(api.lapses.borrowed))
      && (r.Ok? ==> (NoOrphan(api.id, api.world) <==> !blind) && (Binding(api.id) in api.world.objects <==> blind))
    ensures kn.status == SetPhase(old(kn.status), Deleting, old(kn.meta.generation))
    ensures RefreshedAt(api.id, api.lapses, api.trace, |old(api.trace)| - 1, refreshed, kn.meta.resourceVersion,
                        kn.status)
    ensures refreshed < |api.trace|
    ensures old(Smooth(api)) ==> refreshed >= |old(api.trace)| && api.trace[refreshed - 1] == old(api.Before())
    ensures r.Ok? ==> !Holds(api.world) && ReleasedFrom(api.trace, refreshed, old(kn.spec), old(kn.meta.labels))
    ensures r.Ok? && api.world.kn.Some? ==>
      (NothingLost(api.trace, |old(api.trace)| - 1) <==> NoEdits(api.trace, |old(api.trace)| - 1, refreshed))
    // It finishes exactly when no call after the lookup fails and the last write meets the version refreshed, of the
    // very instance that was read, whose foreign finalizers are all still there; whatever happened before.
    ensures |api.trace| >= 2 && (r.Ok? <==>
      NoFaultBetween(api, lookup + 1, api.calls) && api.trace[|api.trace| - 2].kn == api.trace[refreshed].kn
      && CanDrop(Some(old(kn.View())), api.trace[refreshed].kn))
    ensures refreshed >= |old(api.trace)| <==> Lands(api, old(api.calls), old(api.world))
    ensures api.StillFrom(old(api.calls) + 1) && api.OnlyFails(old(api.calls) + 2)
            && old(api.Fails()) == NoFault && CanDrop(Some(old(kn.View())), old(api.Before()).kn) ==>
      r.Ok? && lookup == old(api.calls) + 2
  {
    hide IsRun, Inv, Evidence, ForeignStep, OperatorStep, WellFormed, Doomed, StatusWritten, OnlyOthersWrote, Held,
      KnownAt, RefreshedAt, ReleasedFrom, NoOrphan, NothingLost, NoEdits, Smooth, CanDrop,
      Refreshed, SetPhase, Lands, NoFaultBetween;
    ghost var n := |api.trace|;
    ghost var before := api.Before();
    SmoothIfStill(api);
    ghost var stored;
    stored, refreshed := MarkDeleting(api, kn);
    ghost var t, l, version := api.trace, api.lapses, kn.meta.resourceVersion;
    lookup := api.calls;
    DroppableAfterRefresh(t[n - 1].kn, before.kn, api.world.kn, version, kn.status);
    r := Release(api, kn, n - 1, refreshed);
    RefreshedLater(api.id, l, api.lapses, t, api.trace, n - 1, refreshed, version, kn.status);
    if r.Ok? && api.world.kn.Some? {
      LostIffEditedBeforeTheRefresh(api.id, api.lapses, api.trace, n - 1, refreshed);
    }
  }

  lemma SmoothIfStill(api: ApiServer)
    ensures api.StillFrom(api.calls + 1) && api.OnlyFails(api.calls + 2)
            && api.Fails() == NoFault && api.Before().kn.Some? ==>
      Smooth(api)
  {
  }

  lemma DroppableAfterRefresh(read: Option<KubeNova>, o: Option<KubeNova>, o': Option<KubeNova>, version: nat,
                              status: Status)
    ensures CanDrop(read, o) && Refreshed(o, o', version, status) ==> CanDrop(read, o')
    ensures CanDrop(read, o) ==> o.Some?
  {
  }

  ghost predicate ReleasedFrom(trace: seq<World>, refreshed: nat, spec: Spec, labels: map<string, string>) {
    && refreshed + 1 < |trace| && trace[refreshed].kn.Some? && trace[|trace| - 2].kn == trace[refreshed].kn
    && Released(trace[refreshed].kn.value, trace[|trace| - 1].kn, spec, labels)
  }

  ghost predicate SameContent(o: KubeNova, o': KubeNova) {
    o.spec == o'.spec && o.meta.labels == o'.meta.labels
  }

  /** Every state from `from` until the last but one shows what the last one shows. */
  ghost predicate NothingLost(trace: seq<World>, from: nat) {
    |trace| > 0 && trace[|trace| - 1].kn.Some?
    && forall j :: from <= j < |trace| - 1 ==>
         trace[j].kn.Some? && SameContent(trace[j].kn.value, trace[|trace| - 1].kn.value)
  }

  /** No step in this stretch changes specification or labels. */
  ghost predicate NoEdits(trace: seq<World>, from: nat, to: nat) {
    forall j :: from < j <= to && j < |trace| ==> NoEditAt(trace, j)
  }

  ghost predicate NoEditAt(trace: seq<World>, j: nat) {
    0 < j < |trace| && trace[j - 1].kn.Some? && trace[j].kn.Some?
    && SameContent(trace[j - 1].kn.value, trace[j].kn.value)
  }

  lemma {:induction false} UneditedSinceRead(trace: seq<World>, from: nat, end: nat)
    requires from <= end < |trace| && trace[from].kn.Some? && NoEdits(trace, from, end)
    ensures trace[end].kn.Some? && SameContent(trace[from].kn.value, trace[end].kn.value)
    decreases end
  {
    if from < end {
      UneditedSinceRead(trace, from, end - 1);
      assert NoEditAt(trace, end);
    }
  }

  lemma UnchangedSinceRefresh(id: Id, l: Lapses, trace: seq<World>, refreshed: nat, j: nat)
    requires IsRun(id, l, trace) && refreshed <= j < |trace| - 1 && trace[refreshed].kn.Some?
    requires trace[|trace| - 2].kn == trace[refreshed].kn
    ensures trace[j].kn == trace[refreshed].kn
  {
    hide IsRun, BodyFits;
    HistoryIsLinear(id, l, trace, refreshed, j);
    HistoryIsLinear(id, l, trace, j, |trace| - 2);
  }

  /** A removal loses what others stored after the read exactly when some of it was stored before the last refresh
      of the version: then the old specification and labels are written over it, unnoticed by the version check. */
  lemma LostIffEditedBeforeTheRefresh(id: Id, l: Lapses, trace: seq<World>, read: nat, refreshed: nat)
    requires IsRun(id, l, trace) && read <= refreshed < |trace| && trace[read].kn.Some?
    requires ReleasedFrom(trace, refreshed, trace[read].kn.value.spec, trace[read].kn.value.meta.labels)
    requires trace[|trace| - 1].kn.Some?
    ensures NothingLost(trace, read) <==> NoEdits(trace, read, refreshed)
  {
    hide IsRun;
    var n := |trace| - 1;
    assert SameContent(trace[read].kn.value, trace[n].kn.value);
    if NoEdits(trace, read, refreshed) {
      forall j | read <= j < n ensures trace[j].kn.Some? && SameContent(trace[j].kn.value, trace[n].kn.value) {
        if j <= refreshed {
          assert NoEdits(trace, read, j);
          UneditedSinceRead(trace, read, j);
        } else {
          UneditedSinceRead(trace, read, refreshed);
          UnchangedSinceRefresh(id, l, trace, refreshed, j);
        }
      }
    }
  }

  lemma KnownLater(trace: seq<World>, longer: seq<World>, at: nat, version: nat)
    requires KnownAt(trace, at, version) && Prefix(trace, longer)
    ensures KnownAt(longer, at, version)
  {
  }

  lemma RefreshedLater(id: Id, l: Lapses, l': Lapses, trace: seq<World>, longer: seq<World>, read: nat, at: nat,
                       version: nat, status: Status)
    requires RefreshedAt(id, l, trace, read, at, version, status) && Prefix(trace, longer) && Within(l, l')
    ensures RefreshedAt(id, l', longer, read, at, version, status)
  {
    hide ForeignStep, StatusWritten;
    if at != read {
      forall j | read + 1 <= j < at
        ensures ForeignStep(id, l', longer[j - 1], longer[j]) || longer[j] == longer[j - 1]
      {
        assert longer[j - 1] == trace[j - 1] && longer[j] == trace[j];
        if ForeignStep(id, l, trace[j - 1], trace[j]) {
          ForeignStepAdmitsMore(id, l, l', trace[j - 1], trace[j]);
        }
      }
    }
  }

  lemma AddingIsAStep(id: Id, l: Lapses, f: Fault, w0: World, w: World, o: KubeNova)
    requires WellFormed(w0) && Evolves(w0, w) && w0.kn.Some? && !w0.kn.value.meta.deleting
    requires o == w0.kn.value.(meta := w0.kn.value.meta.(finalizers := w0.kn.value.meta.finalizers + {FINALIZER}))
    ensures var e := Disturbed(f, w, UpdateEffect(w, o));
      OperatorStep(id, l, w, e.after) && (e.reply.Ok? ==> w.kn == w0.kn && e.after.kn.Some?)
      && (e.reply.Ok? ==> f == NoFault)
      && (e.reply.Ok? && FINALIZER !in w.kn.value.meta.finalizers ==> AddsFinalizer(w, e.after))
    ensures f == NoFault && w.kn == w0.kn ==> UpdateEffect(w, o).reply.Ok?
  {
    var e := UpdateEffect(w, o);
    if e.reply.Ok? {
      SameVersionSameInstance(w0, w);
      assert e.after != w ==> AddsFinalizer(w, e.after);
    }
  }

  /** Adding the finalizer: the write takes effect only on exactly the instance that was read. */
  method AddFinalizer(api: ApiServer, kn: Instance) returns (r: Result<()>)
    requires api.Valid() && api.world.kn == Some(kn.View()) && !kn.meta.deleting && FINALIZER !in kn.meta.finalizers
    modifies api, kn
    ensures api.Valid() && api.lapses == old(api.lapses)
    ensures api.completed == old(api.completed) && api.writes == old(api.writes)
    ensures api.trace == old(api.trace) + [old(api.Before()), api.world] && api.calls == old(api.calls) + 1
    ensures r.Ok? ==> old(api.Before().kn) == old(api.world.kn) && AddsFinalizer(old(api.Before()), api.world)
    ensures r.Ok? <==> old(api.Fails()) == NoFault && old(api.Before().kn) == old(api.world.kn)
  {
    hide IsRun, Inv, Evidence, ForeignStep, OperatorStep, WellFormed, Evolves, UpdateEffect, AddsFinalizer;
    api.Now();
    BeforeEvolvesFrom(api, |api.trace| - 1);
    kn.meta := kn.meta.(finalizers := kn.meta.finalizers + {FINALIZER});
    AddingIsAStep(api.id, api.lapses, api.Fails(), api.world, api.Before(), kn.View());
    var written := api.Update(kn.View());
    r := if written.Ok? then Ok(()) else Err(written.error);
  }
}
