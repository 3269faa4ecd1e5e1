/** Rounds of the worker whose calls never fail, on a store where others at most report, between two rounds, how
    many replicas are ready: they settle. */
module Settling {
  import opened Types
  import opened Builders
  import opened Endpoints
  import opened Validation
  import opened Statuses
  import opened Nodes
  import opened Protocol
  import opened Runs
  import opened Cluster
  import opened Drift
  import opened Deploy
  import opened Ensuring
  import opened Phases
  import opened Readiness
  import opened Reconciling
  import opened Delivery
  import C = Convergence

  ghost predicate DeployedFrom(p: C.Plan, s: Stage, s': Stage) {
    exists order :: Lists(order, EnabledBackends(p.spec)) && s' == C.Run(p, s, order)
  }

  /** Between two rounds replicas may become ready, or cease to be. */
  ghost predicate Reported(s: Stage, s': Stage) {
    s'.writes == s.writes && C.OnlyReadinessDiffers(s.objects, s'.objects)
  }

  ghost predicate RoundOf(p: C.Plan, outcome: Outcome, s: Stage, s': Stage) {
    exists r :: Reported(s, r)
                && if outcome == Skipped then s' == r else outcome == Reconciled && DeployedFrom(p, r, s')
  }

  /** The stages a sequence of rounds goes through. */
  ghost predicate Chain(p: C.Plan, outcomes: seq<Outcome>, stages: seq<Stage>) {
    |stages| == |outcomes| + 1
    && (forall i :: 0 <= i < |outcomes| ==> RoundOf(p, outcomes[i], stages[i], stages[i + 1]))
    && (forall i, j :: 0 <= i < j < |outcomes| && outcomes[i] == Skipped ==> outcomes[j] == Skipped)
  }

  /** A round that deploys writes the backends that drift, in the order of its services, and the web Deployment. */
  ghost predicate WritesWhatDrifts(p: C.Plan, outcome: Outcome, s: Stage, s': Stage) {
    if outcome == Reconciled then
      exists order :: Lists(order, EnabledBackends(p.spec))
                      && s'.writes == s.writes + C.Drifting(p, s.objects, order) + [DeploymentKey(WebFrontend)]
    else s'.writes == s.writes
  }

  lemma FirstRound(p: C.Plan, s: Stage, s': Stage)
    requires RoundOf(p, Reconciled, s, s') && C.Fits(s.objects)
    ensures C.HalfSettled(p, s'.objects)
  {
    hide C.Run, C.HalfSettled, C.Fits, Lists, EnabledBackends, C.OnlyReadinessDiffers;
    var r :| Reported(s, r) && DeployedFrom(p, r, s');
    var order :| Lists(order, EnabledBackends(p.spec)) && s' == C.Run(p, r, order);
    C.SettledWhateverIsReady(p, s.objects, r.objects);
    C.FirstRunHalfSettles(p, r, order);
  }

  lemma SecondRound(p: C.Plan, s: Stage, s': Stage)
    requires RoundOf(p, Reconciled, s, s') && C.HalfSettled(p, s.objects)
    ensures C.Settled(p, s'.objects) && C.Fits(s'.objects)
  {
    hide C.Run, C.Settled, C.Fits, Lists, EnabledBackends, C.OnlyReadinessDiffers, RequiredKeys;
    var r :| Reported(s, r) && DeployedFrom(p, r, s');
    var order :| Lists(order, EnabledBackends(p.spec)) && s' == C.Run(p, r, order);
    C.SettledWhateverIsReady(p, s.objects, r.objects);
    C.HalfSettledRunSettles(p, r, order);
    C.RunFits(p, C.PortSeen(p, r.objects), r.objects);
    C.RunApplies(p, r, order);
  }

  lemma DeployingOnceMore(p: C.Plan, s: Stage, s': Stage)
    requires DeployedFrom(p, s, s') && C.Settled(p, s.objects)
    ensures s'.objects == s.objects && WritesWhatDrifts(p, Reconciled, s, s')
  {
    hide C.Run, C.Settled, Lists, EnabledBackends, C.Drifting;
    var order :| Lists(order, EnabledBackends(p.spec)) && s' == C.Run(p, s, order);
    C.SettledRunRewritesOnlyWhatDrifts(p, s, order);
  }

  lemma {:induction false} DriftWhateverIsReady(p: C.Plan, m: map<Key, Object>, m': map<Key, Object>,
                                                order: seq<Component>)
    requires C.OnlyReadinessDiffers(m, m')
    ensures C.Drifting(p, m, order) == C.Drifting(p, m', order)
    decreases |order|
  {
    hide SpecEqual, ManifestOf;
    if order != [] {
      DriftWhateverIsReady(p, m, m', order[..|order| - 1]);
    }
  }

  lemma LaterRound(p: C.Plan, outcome: Outcome, s: Stage, s': Stage)
    requires RoundOf(p, outcome, s, s') && C.Settled(p, s.objects) && C.Fits(s.objects)
    ensures C.Settled(p, s'.objects) && C.Fits(s'.objects) && C.OnlyReadinessDiffers(s.objects, s'.objects)
    ensures WritesWhatDrifts(p, outcome, s, s')
  {
    hide DeployedFrom, C.Settled, C.HalfSettled, C.Fits, C.OnlyReadinessDiffers, WebServiceOf, C.Drifting, Lists,
      EnabledBackends;
    var r :| Reported(s, r) && if outcome == Skipped then s' == r else outcome == Reconciled && DeployedFrom(p, r, s');
    C.SettledWhateverIsReady(p, s.objects, r.objects);
    if outcome == Reconciled {
      DeployingOnceMore(p, r, s');
      var order :| Lists(order, EnabledBackends(p.spec))
                   && s'.writes == r.writes + C.Drifting(p, r.objects, order) + [DeploymentKey(WebFrontend)];
      DriftWhateverIsReady(p, s.objects, r.objects, order);
    }
  }

  /** Two deploying rounds settle the store; every later one writes the web Deployment and what drifts, to no effect. */
  lemma {:induction false} TwoRoundsSettle(p: C.Plan, outcomes: seq<Outcome>, stages: seq<Stage>, i: nat)
    requires Chain(p, outcomes, stages) && C.Fits(stages[0].objects)
    requires 2 <= i <= |outcomes| && outcomes[0] == outcomes[1] == Reconciled
    ensures C.Settled(p, stages[i].objects) && C.Fits(stages[i].objects)
    ensures C.OnlyReadinessDiffers(stages[2].objects, stages[i].objects)
    ensures i < |outcomes| ==> WritesWhatDrifts(p, outcomes[i], stages[i], stages[i + 1])
    decreases i
  {
    hide C.Settled, C.Fits, RoundOf, C.OnlyReadinessDiffers, C.HalfSettled, WritesWhatDrifts;
    assert RoundOf(p, outcomes[i - 1], stages[i - 1], stages[i]);
    if i == 2 {
      assert RoundOf(p, outcomes[0], stages[0], stages[1]);
      FirstRound(p, stages[0], stages[1]);
      SecondRound(p, stages[1], stages[2]);
      NothingDiffers(stages[2].objects);
    } else {
      TwoRoundsSettle(p, outcomes, stages, i - 1);
      LaterRound(p, outcomes[i - 1], stages[i - 1], stages[i]);
      C.ReadinessIsTransitive(stages[2].objects, stages[i - 1].objects, stages[i].objects);
    }
    if i < |outcomes| {
      assert RoundOf(p, outcomes[i], stages[i], stages[i + 1]);
      LaterRound(p, outcomes[i], stages[i], stages[i + 1]);
    }
  }

  lemma NothingDiffers(m: map<Key, Object>)
    ensures C.OnlyReadinessDiffers(m, m)
  {
  }

  /** A skip freezes everything but the readiness, settled or not. */
  lemma {:induction false} SkipFreezes(p: C.Plan, outcomes: seq<Outcome>, stages: seq<Stage>, i: nat, j: nat)
    requires Chain(p, outcomes, stages) && i < j <= |outcomes| && outcomes[i] == Skipped
    ensures outcomes[j - 1] == Skipped && Reported(stages[i], stages[j])
    decreases j
  {
    hide DeployedFrom, C.OnlyReadinessDiffers;
    assert RoundOf(p, outcomes[j - 1], stages[j - 1], stages[j]);
    if i + 1 < j {
      SkipFreezes(p, outcomes, stages, i, j - 1);
      C.ReadinessIsTransitive(stages[i].objects, stages[j - 1].objects, stages[j].objects);
    }
  }

  ghost predicate FullyReady(w: World, c: Component) {
    exists n :: Counts(w, c, n, n)
  }

  lemma PositionOf(c: Component) returns (i: nat)
    ensures i < |ALL_DEPLOYMENTS| && ALL_DEPLOYMENTS[i] == c
  {
    hide BACKENDS;
    AllBackends(c);
    i := |BACKENDS|;
    if c != WebFrontend {
      i :| 0 <= i < |BACKENDS| && BACKENDS[i] == c;
    }
  }

  lemma DeploymentIsRequired(id: Id, spec: Spec, c: Component)
    requires c in EnabledBackends(spec) + {WebFrontend}
    ensures DeploymentKey(c) in RequiredKeys(id, spec)
  {
    hide ServiceEnabled;
  }

  lemma ReadableIfStored(w: World, c: Component)
    requires WellFormed(w) && DeploymentKey(c) in w.objects
    ensures ReadingOf(w, c).Read? && Counts(w, c, ReadingOf(w, c).desired, ReadingOf(w, c).ready)
  {
  }

  lemma AllDeployedMeansFullyReady(id: Id, w: World, spec: Spec)
    requires AllDeployed(w) && WellFormed(w) && RequiredKeys(id, spec) <= w.objects.Keys
    ensures forall c :: c in EnabledBackends(spec) + {WebFrontend} ==> FullyReady(w, c)
  {
    hide BACKENDS, EnabledBackends, RequiredKeys, WellFormed;
    forall c | c in EnabledBackends(spec) + {WebFrontend} ensures FullyReady(w, c) {
      DeploymentIsRequired(id, spec, c);
      ReadableIfStored(w, c);
      AllBackends(c);
      var i := PositionOf(c);
      assert ReadAll(w, ALL_DEPLOYMENTS)[i] == ReadingOf(w, c);
    }
  }

  /** An instance an undisturbed worker keeps deploying. */
  ghost predicate Deployable(w: World) {
    w.kn.Some? && !w.kn.value.meta.deleting && FINALIZER in w.kn.value.meta.finalizers
    && Accepted(w.kn.value.spec) && NamespaceKey in w.objects
  }

  ghost function PlanOf(api: ApiServer): C.Plan
    requires api.world.kn.Some?
    reads api
  {
    C.Plan(api.admission, api.id, api.world.kn.value.meta.uid, api.world.kn.value.spec, NodeIP(api.world.nodes))
  }

  /** One such round: a skip, or a run of the deployment phases followed by a status that tells the truth. */
  method SettleOnce(api: ApiServer) returns (outcome: Outcome)
    requires api.Valid() && api.Quiet() && Deployable(api.world)
    modifies api
    ensures api.Valid() && Deployable(api.world) && PlanOf(api) == old(PlanOf(api))
    ensures if Skips(old(api.world.kn).value)
            then outcome == Skipped && api.world == old(api.world) && api.writes == old(api.writes)
            else outcome == Reconciled && DeployedFrom(PlanOf(api), old(StageOf(api)), StageOf(api))
    ensures outcome == Reconciled ==>
      Delivered(api.admission.canon, api.world.kn.value.spec, api.world.objects)
    ensures outcome == Reconciled && api.world.kn.value.status.phase == Ready ==>
      forall c :: c in EnabledBackends(api.world.kn.value.spec) + {WebFrontend} ==> FullyReady(api.world, c)
    ensures outcome == Reconciled ==>
      api.world.kn.value.status.access.Some?
      && api.world.kn.value.status.access.value.webURL
         == CurrentURL(api.world, api.world.kn.value.spec, old(api.world.kn).value.status)
  {
    hide IsRun, Inv, Evidence, ForeignStep, OperatorStep, WellFormed, NodeIP, Accepted, CurrentURL, AllDeployed,
      EnabledBackends, Lists, FullyReady, DeployAll, RequiredKeys, Delivered, C.Fits;
    ghost var p, s := PlanOf(api), StageOf(api);
    api.Now();
    StoreFits(api.world);
    ghost var order, lookup;
    outcome, order, lookup := Reconcile(api);
    if outcome == Reconciled {
      assert StageOf(api) == C.Run(p, s, order);
      C.RunAddsWhatIsMissing(p, s, order);
      RunDelivers(p, s, order);
      api.Now();
      if AllDeployed(api.world) {
        AllDeployedMeansFullyReady(api.id, api.world, p.spec);
      }
    }
  }

  lemma StageChain(p: C.Plan, stage: Stage)
    ensures Chain(p, [], [stage])
  {
  }

  lemma ChainExtends(p: C.Plan, outcomes: seq<Outcome>, stages: seq<Stage>, outcome: Outcome, stage: Stage)
    requires Chain(p, outcomes, stages) && |stages| == |outcomes| + 1
    requires RoundOf(p, outcome, stages[|outcomes|], stage)
    requires |outcomes| > 0 && outcomes[|outcomes| - 1] == Skipped ==> outcome == Skipped
    ensures Chain(p, outcomes + [outcome], stages + [stage])
  {
    hide RoundOf;
    var n, outcomes', stages' := |outcomes|, outcomes + [outcome], stages + [stage];
    forall i | 0 <= i < n + 1 ensures RoundOf(p, outcomes'[i], stages'[i], stages'[i + 1]) {
      assert stages'[i] == stages[i];
      if i < n {
        assert outcomes'[i] == outcomes[i] && stages'[i + 1] == stages[i + 1];
      }
    }
    forall i | 0 <= i < n && outcomes'[i] == Skipped ensures outcome == Skipped {
      assert outcomes[i] == Skipped;
      assert i < n - 1 ==> outcomes[n - 1] == Skipped;
    }
  }

  // ---------- the backends that drift ----------

  /** Nothing in the store is in another form than the store gives it. */
  ghost predicate InForm(canon: Canon, m: map<Key, Object>) {
    C.Idempotent(canon) && C.InStoreForm(canon, m)
  }

  lemma RoundKeepsForm(p: C.Plan, outcome: Outcome, s: Stage, s': Stage)
    requires RoundOf(p, outcome, s, s') && InForm(p.admission.canon, s.objects)
    ensures InForm(p.admission.canon, s'.objects)
  {
    hide C.Run, Lists, EnabledBackends, C.OnlyReadinessDiffers, C.InStoreForm, C.Idempotent;
    var r :| Reported(s, r) && if outcome == Skipped then s' == r else outcome == Reconciled && DeployedFrom(p, r, s');
    C.StoreFormWhateverIsReady(p.admission.canon, s.objects, r.objects);
    if outcome == Reconciled {
      var order :| Lists(order, EnabledBackends(p.spec)) && s' == C.Run(p, r, order);
      C.RunKeepsStoreForm(p, r, order);
    }
  }

  /** Exactly the backends whose resources are not canonical drift. */
  ghost predicate OnlyUncanonicalDrift(p: C.Plan, m: map<Key, Object>) {
    forall c :: c in EnabledBackends(p.spec) ==>
      (C.Drifts(p, m, c)
       <==> CanonicalResources(p.admission.canon, C.ResourcesFor(p.spec, c)) != C.ResourcesFor(p.spec, c))
  }

  lemma SettledDrift(p: C.Plan, m: map<Key, Object>)
    requires C.Settled(p, m) && InForm(p.admission.canon, m)
    ensures OnlyUncanonicalDrift(p, m)
  {
    hide C.Settled, C.Drifts, EnabledBackends, CanonicalResources, C.ResourcesFor, Kept;
    forall c | c in EnabledBackends(p.spec)
      ensures C.Drifts(p, m, c)
              <==> CanonicalResources(p.admission.canon, C.ResourcesFor(p.spec, c)) != C.ResourcesFor(p.spec, c)
    {
      C.DriftsIffNotCanonical(p, m, c);
    }
  }

  // ---------- reports between the rounds ----------

  ghost predicate OnlyReports(id: Id, w: World, w': World) {
    ForeignStep(id, NO_LAPSE, w, w') && w'.kn == w.kn && w'.nodes == w.nodes
    && C.OnlyReadinessDiffers(w.objects, w'.objects)
  }

  /** The Deployment controller reports how many replicas are ready. */
  function Report(w: World, c: Component, ready: int): ForeignAction {
    var k := DeploymentKey(c);
    if k in w.objects && w.objects[k].body.DeploymentBody?
    then PutObject(k, w.objects[k].(body := DeploymentBody(w.objects[k].body.deployment, ready)))
    else SetNodes(w.nodes)
  }

  /** Such a report is what may happen between two rounds. */
  lemma ReportsAreAllowed(id: Id, w: World, c: Component, ready: int)
    requires WellFormed(w)
    ensures OnlyReports(id, w, Act(id, w, Report(w, c, ready)))
  {
    hide ForeignStep, Report, Act, Rely, Orderly, WellFormed, C.OnlyReadinessDiffers;
    var a := Report(w, c, ready);
    OneActionIsReliedOn(id, w, a);
    ReportIsPeaceful(w, c, ready);
    OneActionIsOrderly(id, NO_LAPSE, w, a);
    ReliedOnAndOrderly(id, NO_LAPSE, w, Act(id, w, a));
    ReportChangesReadiness(id, w, c, ready);
  }

  lemma ReportChangesReadiness(id: Id, w: World, c: Component, ready: int)
    ensures var w' := Act(id, w, Report(w, c, ready));
      w'.kn == w.kn && w'.nodes == w.nodes && C.OnlyReadinessDiffers(w.objects, w'.objects)
  {
    hide BodyFits, BindingName;
  }

  lemma ReportIsPeaceful(w: World, c: Component, ready: int)
    ensures Peaceful(NO_LAPSE, w, Report(w, c, ready))
  {
  }

  lemma ReliedOnAndOrderly(id: Id, l: Lapses, w: World, w': World)
    requires Rely(id, w, w') && Orderly(l, w, w')
    ensures ForeignStep(id, l, w, w')
  {
  }

  lemma ReportKeepsRunning(id: Id, l: Lapses, w: World, w': World, spec: Spec, status: Status)
    requires OnlyReports(id, w, w')
    ensures ForeignStep(id, l, w, w') && CurrentURL(w, spec, status) == CurrentURL(w', spec, status)
    ensures Deployable(w) ==> Deployable(w')
  {
    hide ForeignStep, WebURL, NodeIP, Accepted;
    ForeignStepAdmitsMore(id, NO_LAPSE, l, w, w');
  }

  lemma RoundAfterReport(p: C.Plan, outcome: Outcome, s: Stage, r: Stage, s': Stage)
    requires Reported(s, r) && if outcome == Skipped then s' == r else outcome == Reconciled && DeployedFrom(p, r, s')
    ensures RoundOf(p, outcome, s, s')
  {
    hide Reported, DeployedFrom;
  }

  /** The whole story of a worker nobody gets in the way of. After two deploying rounds the objects no longer
      change but for the readiness others report. Every later round at most rewrites the web Deployment and the
      backends whose resources are not canonical, as they are, and the address in the status is the one the
      Secret's proxy endpoint is made of. */
  method Settle(api: ApiServer, rounds: nat, reports: (nat, World) -> World)
    returns (outcomes: seq<Outcome>, ghost stages: seq<Stage>)
    requires api.Valid() && api.Quiet() && Deployable(api.world)
    requires forall n: nat, w: World :: WellFormed(w) ==> OnlyReports(api.id, w, reports(n, w))
    modifies api
    ensures api.Valid() && Deployable(api.world) && PlanOf(api) == old(PlanOf(api))
    ensures |outcomes| == rounds && |stages| == rounds + 1
    ensures stages[0] == old(StageOf(api)) && stages[rounds] == StageOf(api)
    ensures Chain(PlanOf(api), outcomes, stages)
    ensures rounds >= 1 && !Skips(old(api.world.kn).value) ==> outcomes[0] == Reconciled
    ensures rounds >= 1 && outcomes[0] == Reconciled ==>
      Delivered(api.admission.canon, api.world.kn.value.spec, api.world.objects)
    ensures rounds >= 2 && outcomes[0] == outcomes[1] == Reconciled ==>
      C.Settled(PlanOf(api), api.world.objects) && AddressesAgree(api.world)
      && (InForm(api.admission.canon, old(api.world.objects)) ==> OnlyUncanonicalDrift(PlanOf(api), api.world.objects))
      && (forall i :: 2 <= i <= rounds ==> C.OnlyReadinessDiffers(stages[2].objects, stages[i].objects))
      && (forall i :: 2 <= i < rounds ==> WritesWhatDrifts(PlanOf(api), outcomes[i], stages[i], stages[i + 1]))
  {
    hide IsRun, Inv, Evidence, ForeignStep, OperatorStep, WellFormed, NodeIP, Accepted, DeployedFrom, C.Settled,
      FullyReady, Agreeable, CurrentURL, AddressesAgree, Chain, C.OnlyReadinessDiffers, RoundOf,
      WritesWhatDrifts, InForm, OnlyUncanonicalDrift, Delivered;
    StageChain(PlanOf(api), StageOf(api));
    outcomes, stages := [], [StageOf(api)];
    ghost var p := PlanOf(api);
    api.Now();
    StoreFits(api.world);
    ghost var previous := EMPTY_STATUS;
    for n := 0 to rounds
      invariant api.Valid() && Deployable(api.world) && PlanOf(api) == p
      invariant |outcomes| == n && |stages| == n + 1 && stages[0] == old(StageOf(api)) && stages[n] == StageOf(api)
      invariant Chain(p, outcomes, stages)
      invariant InForm(api.admission.canon, old(api.world.objects)) ==> InForm(api.admission.canon, api.world.objects)
      invariant n > 0 && outcomes[n - 1] == Skipped ==> Skips(api.world.kn.value)
      invariant n == 0 ==> api.world.kn == old(api.world.kn)
      invariant n > 0 && !Skips(old(api.world.kn).value) ==> outcomes[0] == Reconciled
      invariant n > 0 && outcomes[0] == Reconciled ==>
        Delivered(api.admission.canon, p.spec, api.world.objects)
      invariant n > 0 && outcomes[0] == Reconciled ==>
        api.world.kn.value.status.access.Some?
        && api.world.kn.value.status.access.value.webURL == CurrentURL(api.world, p.spec, previous)
    {
      api.Now();
      var reported := reports(n, api.world);
      ReportKeepsRunning(api.id, api.lapses, api.world, reported, p.spec, previous);
      if n > 0 && outcomes[0] == Reconciled {
        DeliveredWhateverIsReady(api.admission.canon, p.spec, api.world.objects, reported.objects);
      }
      api.OthersAct(reported);
      ghost var r, before := StageOf(api), api.world.kn.value.status;
      var outcome := SettleOnce(api);
      if outcome == Reconciled {
        previous := before;
      }
      RoundAfterReport(p, outcome, stages[n], r, StageOf(api));
      if InForm(p.admission.canon, stages[n].objects) {
        RoundKeepsForm(p, outcome, stages[n], StageOf(api));
      }
      ChainExtends(p, outcomes, stages, outcome, StageOf(api));
      outcomes, stages := outcomes + [outcome], stages + [StageOf(api)];
    }
    if rounds >= 2 && outcomes[0] == outcomes[1] == Reconciled {
      ChainShape(p, outcomes, stages);
      forall i | 2 <= i <= rounds
        ensures C.OnlyReadinessDiffers(stages[2].objects, stages[i].objects)
        ensures i < rounds ==> WritesWhatDrifts(p, outcomes[i], stages[i], stages[i + 1])
      {
        TwoRoundsSettle(p, outcomes, stages, i);
      }
      TwoRoundsSettle(p, outcomes, stages, rounds);
      SettledStatusAgrees(api.world, p, previous);
      if InForm(p.admission.canon, api.world.objects) {
        SettledDrift(p, api.world.objects);
      }
    }
  }

  /** An instance an undisturbed worker adopts, and then keeps deploying. */
  ghost predicate Adoptable(w: World) {
    Unadopted(w) && Accepted(w.kn.value.spec) && NamespaceKey in w.objects && w.kn.value.status.phase != Ready
  }

  /** The same from the creation of the instance: the first round adds the finalizer and nothing else, the second
      delivers everything. */
  method SettleFromCreation(api: ApiServer, rounds: nat, reports: (nat, World) -> World)
    returns (first: Outcome, outcomes: seq<Outcome>, ghost stages: seq<Stage>)
    requires api.Valid() && api.Quiet() && Adoptable(api.world)
    requires forall n: nat, w: World :: WellFormed(w) ==> OnlyReports(api.id, w, reports(n, w))
    modifies api
    ensures api.Valid() && Deployable(api.world) && PlanOf(api) == old(PlanOf(api))
    ensures first == FinalizerAdded && |outcomes| == rounds && |stages| == rounds + 1
    ensures stages[0] == old(StageOf(api)) && stages[rounds] == StageOf(api)
    ensures Chain(PlanOf(api), outcomes, stages)
    ensures rounds >= 1 ==>
      outcomes[0] == Reconciled && Delivered(api.admission.canon, api.world.kn.value.spec, api.world.objects)
    ensures rounds >= 2 && outcomes[1] == Reconciled ==>
      C.Settled(PlanOf(api), api.world.objects) && AddressesAgree(api.world)
  {
    hide IsRun, Inv, Evidence, ForeignStep, OperatorStep, WellFormed, NodeIP, Accepted, DeployedFrom, C.Settled,
      AddressesAgree, Chain, C.OnlyReadinessDiffers, WritesWhatDrifts, InForm, OnlyUncanonicalDrift, Delivered,
      AddsFinalizer, DecidedByRead, NoOrphan, DeployAll, Lists, EnabledBackends;
    ghost var order, lookup;
    first, order, lookup := Reconcile(api);
    outcomes, stages := Settle(api, rounds, reports);
  }

  lemma ChainShape(p: C.Plan, outcomes: seq<Outcome>, stages: seq<Stage>)
    requires Chain(p, outcomes, stages)
    ensures |stages| == |outcomes| + 1
  {
  }

  lemma StoreFits(w: World)
    requires WellFormed(w)
    ensures C.Fits(w.objects)
  {
  }

  /** When the proxy endpoint is derived and the web address can be determined. */
  ghost predicate Agreeable(w: World, spec: Spec) {
    DerivesProxy(spec)
    && if spec.web.exposeType == "nodeport"
       then NodeIP(w.nodes) != "" && WebServiceOf(w.objects).Some? && Published(spec.web, WebServiceOf(w.objects).value)
       else spec.web.exposeType == "ingress" && spec.web.ingress.Some?
  }

  ghost predicate AddressesAgree(w: World) {
    w.kn.Some? && Agreeable(w, w.kn.value.spec) ==>
      SecretKey in w.objects && w.objects[SecretKey].body.SecretBody?
      && MINIO_ENDPOINT_PROXY in w.objects[SecretKey].body.secret
      && w.kn.value.status.access.Some?
      && Agrees(w.objects[SecretKey].body.secret[MINIO_ENDPOINT_PROXY], w.kn.value.status.access.value.webURL,
                w.kn.value.spec)
  }

  lemma SettledStatusAgrees(w: World, p: C.Plan, previous: Status)
    requires w.kn.Some? && p.spec == w.kn.value.spec && p.nodeIP == NodeIP(w.nodes) && C.Settled(p, w.objects)
    requires w.kn.value.status.access.Some?
    requires w.kn.value.status.access.value.webURL == CurrentURL(w, p.spec, previous)
    ensures AddressesAgree(w)
  {
    hide C.Settled, NodeIP, WebURL, Agrees, Published, WebServiceOf, DerivesProxy;
    if Agreeable(w, p.spec) {
      C.SettledAddressesAgree(p, w.objects, PreviousURL(previous));
    }
  }
}
