/** The status write under optimistic concurrency (updateStatusWithRetry in
    internal/controller/kubenova_controller.go). */
module StatusRetry {
  import opened Types
  import opened Statuses
  import opened Protocol
  import opened Runs
  import opened Cluster
  import opened Ensuring

  /** The KubeNova object the worker holds in memory. */
  class Instance {
    var meta: ObjectMeta
    var spec: Spec
    var status: Status

    constructor (o: KubeNova)
      ensures View() == o
    {
      meta, spec, status := o.meta, o.spec, o.status;
    }

    function View(): KubeNova
      reads this
    {
      KubeNova(meta, spec, status)
    }
  }

  ghost predicate CompletedBefore(completed: set<Completion>, uid: nat, generation: nat, at: nat) {
    exists c :: c in completed && c.uid == uid && c.generation == generation && c.last <= at
  }

  /** A status the worker may store: of its own generation, with evidence if it says Ready, and for the
      instance it has read, which a deletion can lose if it runs without the finalizer. */
  ghost predicate Storable(id: Id, s: Snapshot, meta: ObjectMeta, spec: Spec, status: Status) {
    && Persisted(status) && status.observedGeneration == meta.generation
    && (if status.phase == Deleting
        then meta.deleting && (if FINALIZER in meta.finalizers then Held(s.world, meta, spec) else s.lapses.stray)
        else InCharge(s.lapses, s.world, meta, spec))
    && (status.phase == Ready ==>
          CompletedBefore(s.completed, meta.uid, meta.generation, |s.trace|)
          && (!s.lapses.meddled && !s.lapses.blind ==> RequiredKeys(id, spec) <= s.world.objects.Keys))
  }

  lemma StorableIsStable(id: Id, s: Snapshot, s': Snapshot, meta: ObjectMeta, spec: Spec, status: Status)
    requires Storable(id, s, meta, spec, status) && ForeignStep(id, s.lapses, s.world, s'.world)
    requires s'.lapses == s.lapses && s'.completed == s.completed && |s.trace| <= |s'.trace|
    ensures Storable(id, s', meta, spec, status)
  {
    hide Persisted, RequiredKeys, References;
    if RequiredKeys(id, spec) <= s.world.objects.Keys && !s.lapses.meddled {
      RequiredStays(id, spec, s.world, s'.world);
    }
  }

  lemma StorableIsWritten(id: Id, s: Snapshot, f: Fault, latest: KubeNova, meta: ObjectMeta, spec: Spec, status: Status)
    requires WellFormed(s.world) && Storable(id, s, meta, spec, status) && latest.status == status
    requires Backed(s.world, |s.trace|, s.completed)
    ensures var after := Disturbed(f, s.world, UpdateStatusEffect(s.world, latest)).after;
      OperatorStep(id, s.lapses, s.world, after) && Backed(after, |s.trace|, s.completed)
      && forall trace, calls :: |s.trace| <= |trace| ==>
           Storable(id, s.(world := after, trace := trace, calls := calls), meta, spec, status)
  {
    hide Persisted, RequiredKeys, StatusAllowed;
    var after := UpdateStatusEffect(s.world, latest).after;
    if after != s.world {
      AllowedBecauseStorable(id, s, meta, spec, status);
      assert WritesStatus(id, s.lapses, s.world, after);
    }
  }

  lemma StorableIgnoresVersion(id: Id, s: Snapshot, meta: ObjectMeta, version: nat, spec: Spec, status: Status)
    requires Storable(id, s, meta, spec, status)
    ensures Storable(id, s, meta.(resourceVersion := version), spec, status)
  {
    hide Persisted, RequiredKeys, CompletedBefore;
  }

  lemma AllowedBecauseStorable(id: Id, s: Snapshot, meta: ObjectMeta, spec: Spec, status: Status)
    requires Storable(id, s, meta, spec, status) && s.world.kn.Some?
    ensures StatusAllowed(id, s.lapses, s.world, status)
  {
    hide Persisted;
  }

  /** Between these two moments nobody but the others has written. */
  ghost predicate OnlyOthersWrote(id: Id, l: Lapses, trace: seq<World>, from: nat, to: nat) {
    0 < from && forall j :: from <= j < to && j < |trace| ==>
      ForeignStep(id, l, trace[j - 1], trace[j]) || trace[j] == trace[j - 1]
  }

  lemma NobodyWroteYet(id: Id, l: Lapses, trace: seq<World>)
    requires |trace| > 0
    ensures OnlyOthersWrote(id, l, trace, |trace|, |trace|)
  {
  }

  lemma OthersWroteOnceMore(id: Id, l: Lapses, trace: seq<World>, from: nat, w: World)
    requires OnlyOthersWrote(id, l, trace, from, |trace|) && from <= |trace|
    requires ForeignStep(id, l, trace[|trace| - 1], w) || w == trace[|trace| - 1]
    ensures OnlyOthersWrote(id, l, trace + [w], from, |trace| + 1)
    ensures forall v :: OnlyOthersWrote(id, l, trace + [w, v], from, |trace| + 1)
  {
    hide ForeignStep;
  }

  /** The store before and after the write of exactly this status: nothing else of the instance changes. */
  ghost predicate StatusWritten(w: World, w': World, version: nat, status: Status) {
    && w.kn.Some? && w'.kn.Some?
    && w'.kn.value.status == status && w'.kn.value.meta.resourceVersion == version
    && w' == w.(clock := w'.clock, kn := Some(w.kn.value.(status := status,
                  meta := w.kn.value.meta.(resourceVersion := version))))
  }

  /** The history once the others have acted before the next call. */
  ghost function NextSnap(api: ApiServer): Snapshot
    reads api
  {
    api.Snap().(world := api.Before(), trace := api.trace + [api.Before()], calls := api.calls + 1)
  }

  /** The interference before one call: what holds of the state the call acts on. */
  lemma OthersKeepStorable(api: ApiServer, meta: ObjectMeta, spec: Spec, status: Status)
    requires api.Valid() && Storable(api.id, api.Snap(), meta, spec, status)
    ensures Storable(api.id, NextSnap(api), meta, spec, status)
    ensures Binding(api.id) in api.Before().objects <==> Binding(api.id) in api.world.objects
    ensures !api.lapses.meddled ==> Managed(api.world) <= api.Before().objects.Keys
    ensures WellFormed(api.Before()) && ForeignStep(api.id, api.lapses, api.world, api.Before())
    ensures Backed(api.Before(), |api.trace| + 1, api.completed)
  {
    hide IsRun, Inv, Evidence, Storable, WellFormed, Backed;
    api.Now();
    api.StillBacked(api.Before());
    StorableIsStable(api.id, api.Snap(), NextSnap(api), meta, spec, status);
  }

  method ReadLatest(api: ApiServer, kn: Instance) returns (r: Result<KubeNova>)
    requires api.Valid() && Storable(api.id, api.Snap(), kn.meta, kn.spec, kn.status)
    modifies api
    ensures api.Valid() && Storable(api.id, api.Snap(), kn.meta, kn.spec, kn.status)
    ensures api.lapses == old(api.lapses) && api.completed == old(api.completed) && api.writes == old(api.writes)
    ensures api.world == old(api.Before()) && api.trace == old(api.trace) + [api.world]
    ensures api.calls == old(api.calls) + 1
    ensures ForeignStep(api.id, api.lapses, old(api.world), api.world)
    ensures Binding(api.id) in api.world.objects <==> Binding(api.id) in old(api.world.objects)
    ensures !api.lapses.meddled ==> Managed(old(api.world)) <= api.world.objects.Keys
    ensures r == (if old(api.Fails()) != NoFault then Err(Unavailable)
                  else if api.world.kn.Some? then Ok(api.world.kn.value) else Err(NotFound))
  {
    hide IsRun, Inv, Evidence, Storable, WellFormed, Backed, ForeignStep;
    OthersKeepStorable(api, kn.meta, kn.spec, kn.status);
    r := api.GetInstance();
  }

  method WriteLatest(api: ApiServer, kn: Instance, latest: KubeNova) returns (r: Result<KubeNova>)
    requires api.Valid() && Storable(api.id, api.Snap(), kn.meta, kn.spec, kn.status)
    requires api.world.kn.Some? && latest == api.world.kn.value.(status := kn.status)
    modifies api
    ensures api.Valid() && Storable(api.id, api.Snap(), kn.meta, kn.spec, kn.status)
    ensures api.lapses == old(api.lapses) && api.completed == old(api.completed) && api.writes == old(api.writes)
    ensures api.trace == old(api.trace) + [old(api.Before()), api.world] && api.calls == old(api.calls) + 1
    ensures ForeignStep(api.id, api.lapses, old(api.world), old(api.Before()))
    ensures r.Ok? ==>
      r.value.status == kn.status
      && StatusWritten(old(api.Before()), api.world, r.value.meta.resourceVersion, kn.status)
    ensures r != Err(RetriesExhausted)
    ensures r.Ok? <==> old(api.Fails()) == NoFault && old(api.Before()).kn == old(api.world).kn
    ensures r == Err(Conflict) <==>
      old(api.Fails()) == NoFault && old(api.Before()).kn.Some? && old(api.Before()).kn != old(api.world).kn
    ensures api.world
            == Disturbed(old(api.Fails()), old(api.Before()), UpdateStatusEffect(old(api.Before()), latest)).after
    ensures r == Err(Conflict) ==> api.world == old(api.Before())
    ensures Binding(api.id) in api.world.objects <==> Binding(api.id) in old(api.world.objects)
    ensures !api.lapses.meddled ==> Managed(old(api.world)) <= api.world.objects.Keys
    ensures api.world.objects == old(api.Before()).objects && api.world.nodes == old(api.Before()).nodes
  {
    hide IsRun, Inv, Evidence, Storable, Backed, ForeignStep, OperatorStep;
    api.Now();
    if api.Before().kn.Some? {
      VersionsTell(api.id, api.lapses, api.world, api.Before());
    }
    OthersKeepStorable(api, kn.meta, kn.spec, kn.status);
    StorableIsWritten(api.id, NextSnap(api), api.Fails(), latest, kn.meta, kn.spec, kn.status);
    r := api.UpdateStatus(latest);
  }

  /** Between two states the version tells whether anything about the instance has changed. */
  lemma VersionsTell(id: Id, l: Lapses, w: World, w': World)
    requires WellFormed(w) && ForeignStep(id, l, w, w') && w.kn.Some? && w'.kn.Some?
    ensures w'.kn == w.kn
            <==> w'.kn.value.meta.uid == w.kn.value.meta.uid
                 && w'.kn.value.meta.resourceVersion == w.kn.value.meta.resourceVersion
  {
    hide LeavesOperatorFields, Orderly, BodyFits;
  }

  /** The next two calls do not fail, the first finds an instance, and nobody gets in between them. */
  ghost predicate Smooth(api: ApiServer)
    reads api
  {
    && api.Fails() == NoFault && api.Before().kn.Some?
    && api.fault(api.calls + 1) == NoFault && api.env(api.calls + 1, api.Before()) == api.Before()
  }

  /** An attempt whose first call is the `call`-th, in this state, stores the status: neither call fails, there is an
      instance, and nobody changes it between the two calls. */
  ghost predicate Succeeds(api: ApiServer, call: nat, w: World) {
    var read := api.env(call, w);
    && api.fault(call) == NoFault && read.kn.Some?
    && api.fault(call + 1) == NoFault && api.env(call + 1, read).kn == read.kn
  }

  /** It meets a conflict: neither call fails, but somebody changes or replaces the instance between them. */
  ghost predicate Conflicts(api: ApiServer, call: nat, w: World) {
    var read := api.env(call, w);
    && api.fault(call) == NoFault && read.kn.Some?
    && api.fault(call + 1) == NoFault && api.env(call + 1, read).kn.Some? && api.env(call + 1, read).kn != read.kn
  }

  /** The state before the i-th attempt, if all attempts before it end in a conflict. */
  ghost function BeforeAttempt(api: ApiServer, call: nat, w: World, i: nat): World {
    if i == 0 then w else api.env(call + 2 * i - 1, api.env(call + 2 * i - 2, BeforeAttempt(api, call, w, i - 1)))
  }

  /** One attempt: read the latest version, put the status on it, write it back. */
  method Attempt(api: ApiServer, kn: Instance, ghost from: nat) returns (r: Result<KubeNova>, wrote: bool)
    requires api.Valid() && Storable(api.id, api.Snap(), kn.meta, kn.spec, kn.status)
    requires from <= |api.trace| && OnlyOthersWrote(api.id, api.lapses, api.trace, from, |api.trace|)
    modifies api
    ensures api.Valid() && Storable(api.id, api.Snap(), kn.meta, kn.spec, kn.status)
    ensures Prefix(old(api.trace), api.trace) && api.lapses == old(api.lapses) && api.completed == old(api.completed)
    ensures api.writes == old(api.writes) && api.calls == old(api.calls) + if wrote then 2 else 1
    ensures r != Err(RetriesExhausted) && (!wrote ==> r.Err? && r.error != Conflict)
    ensures r.Ok? <==> Succeeds(api, old(api.calls), old(api.world))
    ensures r == Err(Conflict) <==> Conflicts(api, old(api.calls), old(api.world))
    ensures r == Err(Conflict) ==> api.world == BeforeAttempt(api, old(api.calls), old(api.world), 1)
    ensures r.Ok? ==>
      |api.trace| >= |old(api.trace)| + 3 && r.value.status == kn.status
      && StatusWritten(api.trace[|api.trace| - 2], api.world, r.value.meta.resourceVersion, kn.status)
      && OnlyOthersWrote(api.id, api.lapses, api.trace, from, |api.trace| - 1)
    ensures r == Err(Conflict) ==> OnlyOthersWrote(api.id, api.lapses, api.trace, from, |api.trace|)
    ensures Binding(api.id) in api.world.objects <==> Binding(api.id) in old(api.world.objects)
    ensures !api.lapses.meddled ==> Managed(old(api.world)) <= api.world.objects.Keys
    ensures old(Smooth(api)) ==>
      r.Ok? && api.trace[|api.trace| - 2] == old(api.Before())
      && api.world.objects == old(api.Before()).objects && api.world.nodes == old(api.Before()).nodes
    ensures api.StillFrom(old(api.calls)) && old(api.world.kn).Some? ==>
      api.world == AfterOneAttempt(api, old(api.calls), old(api.world), old(kn.status))
  {
    hide IsRun, Inv, Evidence, ForeignStep, OperatorStep, WellFormed, Storable, Backed, StatusWritten,
      OnlyOthersWrote, UpdateStatusEffect;
    ghost var t0 := api.trace;
    assert BeforeAttempt(api, api.calls, api.world, 0) == api.world;
    var read := ReadLatest(api, kn);
    OthersWroteOnceMore(api.id, api.lapses, t0, from, api.world);
    if read.Err? {
      return Err(read.error), false;
    }
    ghost var t1, before := api.trace, api.Before();
    r := WriteLatest(api, kn, read.value.(status := kn.status));
    OthersWroteOnceMore(api.id, api.lapses, t1, from, before);
    assert api.trace == t1 + [before, api.world];
    if r == Err(Conflict) {
      OthersWroteOnceMore(api.id, api.lapses, t1 + [before], from, api.world);
      assert api.trace == t1 + [before] + [api.world];
    }
    wrote := true;
  }

  /** What an attempt makes of the store if nobody interferes. */
  ghost function AfterOneAttempt(api: ApiServer, call: nat, w: World, status: Status): World
    requires w.kn.Some?
  {
    if api.fault(call) != NoFault then w
    else Disturbed(api.fault(call + 1), w, UpdateStatusEffect(w, w.kn.value.(status := status))).after
  }

  /** This many attempts in a row end in a conflict. */
  ghost predicate AllConflict(api: ApiServer, first: nat, w: World, attempts: nat) {
    forall i :: 0 <= i < attempts ==> Conflicts(api, first + 2 * i, BeforeAttempt(api, first, w, i))
  }

  /** All attempts but the last end in a conflict; the last one decides, and it only ends in one if it is the third. */
  ghost predicate Decided(api: ApiServer, first: nat, w: World, attempts: nat, r: Result<()>) {
    && 1 <= attempts && AllConflict(api, first, w, attempts - 1)
    && var call, before := first + 2 * (attempts - 1), BeforeAttempt(api, first, w, attempts - 1);
       && (r.Ok? <==> Succeeds(api, call, before))
       && (r == Err(Conflict) <==> Conflicts(api, call, before))
       && (r == Err(Conflict) ==> attempts == 3)
  }

  /** One of the first three attempts stores the status, and all before it end in a conflict. */
  ghost predicate Lands(api: ApiServer, first: nat, w: World) {
    exists i :: 0 <= i < 3 && AllConflict(api, first, w, i)
                && Succeeds(api, first + 2 * i, BeforeAttempt(api, first, w, i))
  }

  lemma DecidedIffLands(api: ApiServer, first: nat, w: World, attempts: nat, r: Result<()>)
    requires Decided(api, first, w, attempts, r) && attempts <= 3
    ensures r.Ok? <==> Lands(api, first, w)
  {
    hide BeforeAttempt;
    if i :| 0 <= i < 3 && AllConflict(api, first, w, i)
            && Succeeds(api, first + 2 * i, BeforeAttempt(api, first, w, i)) {
      assert i == attempts - 1;
    }
  }

  lemma NoAttemptYet(api: ApiServer, call: nat, w: World)
    ensures BeforeAttempt(api, call, w, 0) == w && AllConflict(api, call, w, 0)
  {
  }

  lemma AttemptDecides<T>(api: ApiServer, first: nat, w: World, i: nat, written: Result<T>, r: Result<()>)
    requires AllConflict(api, first, w, i) && (r.Ok? <==> written.Ok?) && (r.Err? ==> r.error == written.error)
    requires written.Ok? <==> Succeeds(api, first + 2 * i, BeforeAttempt(api, first, w, i))
    requires written == Err(Conflict) <==> Conflicts(api, first + 2 * i, BeforeAttempt(api, first, w, i))
    ensures written == Err(Conflict) ==> AllConflict(api, first, w, i + 1)
    ensures (written == Err(Conflict) ==> i == 2) ==> Decided(api, first, w, i + 1, r)
  {
    hide Succeeds, Conflicts, BeforeAttempt;
  }

  lemma NoConflictIfStill(api: ApiServer, call: nat, w: World)
    ensures api.StillFrom(call) ==> !Conflicts(api, call, w)
  {
  }

  lemma OneMoreConflict(api: ApiServer, call: nat, w: World, i: nat)
    ensures BeforeAttempt(api, call, w, i + 1) == BeforeAttempt(api, call + 2 * i, BeforeAttempt(api, call, w, i), 1)
  {
    assert BeforeAttempt(api, call + 2 * i, BeforeAttempt(api, call, w, i), 0) == BeforeAttempt(api, call, w, i);
  }

  method UpdateStatusWithRetry(api: ApiServer, kn: Instance) returns (r: Result<()>, attempts: nat, slept: nat)
    requires api.Valid() && Storable(api.id, api.Snap(), kn.meta, kn.spec, kn.status)
    modifies api, kn
    ensures api.Valid() && Storable(api.id, api.Snap(), kn.meta, kn.spec, kn.status)
    ensures Prefix(old(api.trace), api.trace) && api.lapses == old(api.lapses) && api.completed == old(api.completed)
    ensures api.writes == old(api.writes)
    // A conflict is retried, at most twice, and nothing else is: `attempts` is the number of the first attempt that
    // does not end in a conflict, or three, and that attempt decides.
    ensures Decided(api, old(api.calls), old(api.world), attempts, r)
    ensures r.Ok? <==> Lands(api, old(api.calls), old(api.world))
    // Bounded effort: at most three reads and three writes, one read and write per attempt, 100 ms then 200 ms of
    // sleep.
    ensures 1 <= attempts <= 3 && 2 * attempts - 1 <= api.calls - old(api.calls) <= 2 * attempts
    ensures r.Ok? ==> api.calls == old(api.calls) + 2 * attempts
    ensures slept == 50 * attempts * (attempts - 1) <= 300
    ensures r != Err(RetriesExhausted)
    // The instance in memory keeps everything but its resource version, and that only after a success.
    ensures kn.spec == old(kn.spec) && kn.status == old(kn.status)
    ensures kn.meta == if r.Ok? then old(kn.meta).(resourceVersion := kn.meta.resourceVersion) else old(kn.meta)
    // On success the last write stored this status and nothing else, and no earlier attempt stored anything.
    ensures r.Ok? ==> (|api.trace| >= |old(api.trace)| + 3
                       && StatusWritten(api.trace[|api.trace| - 2], api.world, kn.meta.resourceVersion, kn.status)
                       && OnlyOthersWrote(api.id, api.lapses, api.trace, |old(api.trace)|, |api.trace| - 1))
    ensures Binding(api.id) in api.world.objects <==> Binding(api.id) in old(api.world.objects)
    ensures !api.lapses.meddled ==> Managed(old(api.world)) <= api.world.objects.Keys
    ensures old(Smooth(api)) ==>
      r.Ok? && attempts == 1 && api.trace[|api.trace| - 2] == old(api.Before())
      && api.world.objects == old(api.Before()).objects && api.world.nodes == old(api.Before()).nodes
    ensures api.StillFrom(old(api.calls)) && old(api.world.kn).Some? ==>
      attempts == 1 && api.world == AfterOneAttempt(api, old(api.calls), old(api.world), old(kn.status))
  {
    hide IsRun, Inv, Evidence, ForeignStep, OperatorStep, WellFormed, Storable, Backed, StatusWritten,
      OnlyOthersWrote, Succeeds, Conflicts, BeforeAttempt, AfterOneAttempt, Decided, AllConflict, Lands;
    attempts, slept := 0, 0;
    NoAttemptYet(api, api.calls, api.world);
    NoConflictIfStill(api, api.calls, api.world);
    ghost var n := |api.trace|;
    NobodyWroteYet(api.id, api.lapses, api.trace);
    for i := 0 to 3
      invariant api.Valid() && Storable(api.id, api.Snap(), kn.meta, kn.spec, kn.status)
      invariant Prefix(old(api.trace), api.trace) && api.lapses == old(api.lapses)
      invariant api.completed == old(api.completed)
      invariant api.writes == old(api.writes) && kn.View() == old(kn.View())
      invariant attempts == i && slept == 50 * i * (i + 1) && api.calls == old(api.calls) + 2 * i
      invariant OnlyOthersWrote(api.id, api.lapses, api.trace, n, |api.trace|)
      invariant Binding(api.id) in api.world.objects <==> Binding(api.id) in old(api.world.objects)
      invariant !api.lapses.meddled ==> Managed(old(api.world)) <= api.world.objects.Keys
      invariant old(Smooth(api)) ==> i == 0 && api.world == old(api.world)
      invariant api.world == BeforeAttempt(api, old(api.calls), old(api.world), i)
      invariant AllConflict(api, old(api.calls), old(api.world), i)
      invariant api.StillFrom(old(api.calls)) ==> i == 0
      invariant i < 3
    {
      attempts := attempts + 1;
      OneMoreConflict(api, old(api.calls), old(api.world), i);
      var written, wrote := Attempt(api, kn, n);
      ghost var result := if written.Ok? then Ok(()) else Err(written.error);
      AttemptDecides(api, old(api.calls), old(api.world), i, written, result);
      if written.Err? {
        if wrote && written.error == Conflict && i < 2 {
          slept := slept + 100 * (i + 1);
          continue;
        }
        DecidedIffLands(api, old(api.calls), old(api.world), attempts, Err(written.error));
        return Err(written.error), attempts, slept;
      }
      StorableIgnoresVersion(api.id, api.Snap(), kn.meta, written.value.meta.resourceVersion, kn.spec, kn.status);
      kn.meta := kn.meta.(resourceVersion := written.value.meta.resourceVersion);
      kn.status := written.value.status;
      DecidedIffLands(api, old(api.calls), old(api.world), attempts, Ok(()));
      return Ok(()), attempts, slept;
    }
    assert false;
  }
}
