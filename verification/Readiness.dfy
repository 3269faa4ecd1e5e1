/** The end of a run: how ready the components are and where they can be reached
    (checkComponentStatus and updateAccessInfo in internal/controller/kubenova_controller.go). */
module Readiness {
  import opened Types
  import opened Builders
  import opened Endpoints
  import opened Statuses
  import opened Nodes
  import opened Protocol
  import opened Runs
  import opened Cluster
  import opened Deploy
  import opened Ensuring
  import opened StatusRetry
  import opened Phases
  import opened Intent

  // ---------- access information ----------

  const NO_ACCESS := AccessInfo("", "", "", "", "", map[])

  function ServiceHost(namespace: string, c: Component): string {
    ComponentName(c) + "." + namespace + ".svc.cluster.local"
  }

  function AccessOf(spec: Spec, namespace: string, previous: Option<AccessInfo>, webURL: string): AccessInfo {
    var before := if previous.Some? then previous.value else NO_ACCESS;
    AccessInfo(webURL,
               spec.database.host + ":" + Decimal(spec.database.port),
               spec.cache.host + ":" + Decimal(spec.cache.port),
               Scheme(StorageTLS(spec)) + "://" + spec.storage.endpoint,
               if TelemetryEnabled(spec) then spec.telemetry.value.jaegerEndpoint else before.jaeger,
               before.endpoints + Hosts(namespace, BACKENDS))
  }

  /** The fields of the access information that come from the specification; entries of other services stay, and so
      does the Jaeger address if telemetry is off. */
  ghost predicate TellsAccess(spec: Spec, namespace: string, before: Option<AccessInfo>, after: AccessInfo) {
    && after.database == spec.database.host + ":" + Decimal(spec.database.port)
    && after.cache == spec.cache.host + ":" + Decimal(spec.cache.port)
    && after.storage
       == (if spec.storage.tls.Some? && spec.storage.tls.value.enabled then "https://" else "http://")
          + spec.storage.endpoint
    && after.jaeger
       == (if spec.telemetry.Some? && spec.telemetry.value.enabled then spec.telemetry.value.jaegerEndpoint
           else if before.Some? then before.value.jaeger else "")
    && (forall c: Component :: c != WebFrontend ==>
          c in after.endpoints && after.endpoints[c] == ComponentName(c) + "." + namespace + ".svc.cluster.local")
    && (WebFrontend in after.endpoints <==> before.Some? && WebFrontend in before.value.endpoints)
    && (WebFrontend in after.endpoints ==> after.endpoints[WebFrontend] == before.value.endpoints[WebFrontend])
  }

  lemma AccessIsTold(spec: Spec, namespace: string, before: Option<AccessInfo>, webURL: string)
    ensures TellsAccess(spec, namespace, before, AccessOf(spec, namespace, before, webURL))
  {
    hide Decimal, BACKENDS, ComponentName;
    forall c: Component ensures c in BACKENDS <==> c != WebFrontend {
      AllBackends(c);
    }
    assert "http" + "://" == "http://" && "https" + "://" == "https://";
  }

  function PreviousURL(status: Status): string {
    if status.access.Some? then status.access.value.webURL else ""
  }

  function Hosts(namespace: string, components: seq<Component>): map<Component, string> {
    map c | c in components :: ServiceHost(namespace, c)
  }

  lemma OneMoreHost(endpoints: map<Component, string>, namespace: string, components: seq<Component>, c: Component)
    ensures endpoints + Hosts(namespace, components + [c])
            == (endpoints + Hosts(namespace, components))[c := ServiceHost(namespace, c)]
  {
    hide ServiceHost;
  }

  method PutEndpoints(endpoints: map<Component, string>, namespace: string, components: seq<Component>)
    returns (filled: map<Component, string>)
    ensures filled == endpoints + Hosts(namespace, components)
  {
    hide ServiceHost;
    filled := endpoints;
    for i := 0 to |components|
      invariant filled == endpoints + Hosts(namespace, components[..i])
    {
      OneMoreHost(endpoints, namespace, components[..i], components[i]);
      filled := filled[components[i] := ServiceHost(namespace, components[i])];
      assert components[..i + 1] == components[..i] + [components[i]];
    }
    assert components[..|components|] == components;
  }

  ghost function CurrentURL(w: World, spec: Spec, status: Status): string {
    WebURL(spec.web, WebServiceOf(w.objects), NodeIP(w.nodes), PreviousURL(status))
  }

  lemma NoServiceNeedsNoAddress(ip: string, ip': string)
    ensures NodePortURL(None, ip) == NodePortURL(None, ip')
  {
  }

  /** The Service a read of it gives. */
  function ServiceRead(f: Fault, w: World): Option<ServiceSpec> {
    if f == NoFault then WebServiceOf(w.objects) else None
  }

  /** How many calls it takes to find out the address: in nodeport mode the Service, and if it is there the nodes. */
  ghost function URLCalls(api: ApiServer, first: nat, trace: seq<World>, at: nat, web: WebConfig): nat {
    if web.exposeType != "nodeport" then 0
    else if at < |trace| && ServiceRead(api.fault(first), trace[at]).Some? then 2 else 1
  }

  /** The address is that for the Service read by the first of these calls and the nodes listed by the second. */
  ghost predicate URLRead(api: ApiServer, first: nat, trace: seq<World>, at: nat, web: WebConfig, previous: string,
                          url: string)
  {
    var n := URLCalls(api, first, trace, at, web);
    && at + n <= |trace|
    && var service := if n == 0 then None else ServiceRead(api.fault(first), trace[at]);
       var nodeIP := if n < 2 then "" else AddressRead(api.fault(first + 1), trace[at + 1]);
       url == WebURL(web, service, nodeIP, previous) && WantsURL(web, service, nodeIP, previous, url)
  }

  lemma URLReadLater(api: ApiServer, first: nat, trace: seq<World>, longer: seq<World>, at: nat, web: WebConfig,
                     previous: string, url: string)
    requires URLRead(api, first, trace, at, web, previous, url) && Prefix(trace, longer)
    requires |trace| == at + URLCalls(api, first, trace, at, web)
    ensures URLRead(api, first, longer, at, web, previous, url)
    ensures URLCalls(api, first, longer, at, web) == URLCalls(api, first, trace, at, web)
  {
    hide WebURL, WantsURL, WebServiceOf, NodeIP;
  }

  /** The web address is that of the Service and the nodes as read: either may fail to be read. */
  method UpdateWebURL(api: ApiServer, kn: Instance)
    returns (url: string)
    requires api.Valid() && InCharge(api.lapses, api.world, kn.meta, kn.spec)
    modifies api
    ensures api.Valid() && Progress(api.id, old(api.Snap()), api.Snap(), kn.meta, kn.spec)
    ensures api.writes == old(api.writes)
    ensures URLRead(api, old(api.calls), api.trace, |old(api.trace)|, kn.spec.web, PreviousURL(kn.status), url)
    ensures var n := URLCalls(api, old(api.calls), api.trace, |old(api.trace)|, kn.spec.web);
      |api.trace| == |old(api.trace)| + n && api.calls == old(api.calls) + n
    ensures api.Quiet() ==> api.world == old(api.world) && url == CurrentURL(api.world, kn.spec, kn.status)
  {
    hide InCharge, IsRun, Inv, Evidence, ForeignStep, OperatorStep, NodeIP, NodePortURL, LastNodePort, NodeIPRule,
      WantsURL, WantsNodePortURL, IsLastPort, WellFormed;
    assert |"ingress"| == 7 && |"nodeport"| == 8;
    url := PreviousURL(kn.status);
    if kn.spec.web.exposeType == "nodeport" {
      ghost var s0 := api.Snap();
      var found := Look(api, ServiceKey(WebFrontend), kn.meta, kn.spec);
      ghost var s1 := api.Snap();
      api.Now();
      KeysHaveVersions(api.world, ServiceKey(WebFrontend));
      var read, ip := None, "";
      if found.Ok? {
        FoundService(api.world);
        read := Some(found.value.item.body.service);
        ip := LookUpNodeIP(api, kn.meta, kn.spec);
        ProgressIsTransitive(api.id, s0, s1, api.Snap(), kn.meta, kn.spec);
      }
      url := FormatNodePortURL(read, ip);
      NoServiceNeedsNoAddress("", NodeIP(api.world.nodes));
      WebURLIsWanted(kn.spec.web, read, ip, PreviousURL(kn.status));
      return;
    }
    ProgressFromStart(api.id, api.Snap(), kn.meta, kn.spec);
    if kn.spec.web.exposeType == "ingress" && kn.spec.web.ingress.Some? {
      var protocol := "http";
      if IngressTLSEnabled(kn.spec.web) {
        protocol := "https";
      }
      url := protocol + "://" + kn.spec.web.ingress.value.host;
    }
    WebURLIsWanted(kn.spec.web, None, "", PreviousURL(kn.status));
  }

  lemma FoundService(w: World)
    requires WellFormed(w) && ServiceKey(WebFrontend) in w.objects
    ensures w.objects[ServiceKey(WebFrontend)].body.ServiceBody?
    ensures WebServiceOf(w.objects) == Some(w.objects[ServiceKey(WebFrontend)].body.service)
  {
  }

  method UpdateAccessInfo(api: ApiServer, kn: Instance)
    requires api.Valid() && InCharge(api.lapses, api.world, kn.meta, kn.spec)
    modifies api, kn
    ensures api.Valid() && Progress(api.id, old(api.Snap()), api.Snap(), kn.meta, kn.spec)
    ensures api.writes == old(api.writes)
    ensures kn.meta == old(kn.meta) && kn.spec == old(kn.spec)
    ensures kn.status == old(kn.status).(access := kn.status.access) && kn.status.access.Some?
    ensures TellsAccess(kn.spec, api.id.namespace, old(kn.status.access), kn.status.access.value)
    ensures URLRead(api, old(api.calls), api.trace, |old(api.trace)|, kn.spec.web, PreviousURL(old(kn.status)),
                    kn.status.access.value.webURL)
    ensures var n := URLCalls(api, old(api.calls), api.trace, |old(api.trace)|, kn.spec.web);
      |api.trace| == |old(api.trace)| + n && api.calls == old(api.calls) + n
    ensures api.Quiet() ==>
      api.world == old(api.world) && kn.status.access.value.webURL == CurrentURL(api.world, kn.spec, old(kn.status))
  {
    hide InCharge, Progress, IsRun, Inv, Evidence, ForeignStep, OperatorStep, NodeIP, WebURL, CurrentURL,
      URLRead, URLCalls, TellsAccess;
    var url := UpdateWebURL(api, kn);
    AccessIsTold(kn.spec, api.id.namespace, kn.status.access, url);
    var before := if kn.status.access.Some? then kn.status.access.value else NO_ACCESS;
    var endpoints := PutEndpoints(before.endpoints, api.id.namespace, BACKENDS);
    var jaeger := before.jaeger;
    if TelemetryEnabled(kn.spec) {
      jaeger := kn.spec.telemetry.value.jaegerEndpoint;
    }
    kn.status := kn.status.(access := Some(AccessInfo(url,
      kn.spec.database.host + ":" + Decimal(kn.spec.database.port),
      kn.spec.cache.host + ":" + Decimal(kn.spec.cache.port),
      Scheme(StorageTLS(kn.spec)) + "://" + kn.spec.storage.endpoint, jaeger, endpoints)));
  }

  // ---------- readiness ----------

  /** What a successful read of this Deployment finds in a state. */
  function ReadingOf(w: World, c: Component): Reading {
    var k := DeploymentKey(c);
    if k in w.objects && w.objects[k].body.DeploymentBody? && w.objects[k].body.deployment.replicas.Some?
    then Read(w.objects[k].body.deployment.replicas.value, w.objects[k].body.readyReplicas) else Unread
  }

  /** The stored Deployment wants so many replicas, and so many are ready. */
  predicate Counts(w: World, c: Component, desired: int, ready: int) {
    var k := DeploymentKey(c);
    k in w.objects && w.objects[k].body.DeploymentBody?
    && w.objects[k].body.deployment.replicas == Some(desired) && w.objects[k].body.readyReplicas == ready
  }

  function ReadingAt(f: Fault, w: World, c: Component): Reading {
    if f == NoFault then ReadingOf(w, c) else Unread
  }

  method ReadDeployment(api: ApiServer, c: Component, ghost meta: ObjectMeta, ghost spec: Spec)
    returns (reading: Reading)
    requires api.Valid() && InCharge(api.lapses, api.world, meta, spec)
    modifies api
    ensures api.Valid() && Progress(api.id, old(api.Snap()), api.Snap(), meta, spec) && api.writes == old(api.writes)
    ensures api.trace == old(api.trace) + [api.world]
    ensures reading == ReadingAt(old(api.Fails()), api.world, c) && api.calls == old(api.calls) + 1
    ensures reading.Read? <==> old(api.Fails()) == NoFault && DeploymentKey(c) in api.world.objects
    ensures reading.Read? ==> Counts(api.world, c, reading.desired, reading.ready)
    ensures api.Quiet() ==> api.world == old(api.world) && reading == ReadingOf(api.world, c)
  {
    hide InCharge, Progress, IsRun, Inv, Evidence, ForeignStep, OperatorStep;
    var found := Look(api, DeploymentKey(c), meta, spec);
    api.Now();
    reading := if found.Ok?
      then Read(found.value.item.body.deployment.replicas.value, found.value.item.body.readyReplicas) else Unread;
  }

  /** One reading for each of these components, in this order, each by one call that found the next state. */
  ghost predicate ReadInTurn(api: ApiServer, first: nat, trace: seq<World>, at: nat, components: seq<Component>,
                             readings: seq<Reading>)
  {
    && |readings| == |components| && at + |readings| <= |trace|
    && forall i :: 0 <= i < |readings| ==>
         readings[i] == ReadingAt(api.fault(first + i), trace[at + i], components[i])
  }

  lemma ReadLater(api: ApiServer, first: nat, trace: seq<World>, longer: seq<World>, at: nat,
                  components: seq<Component>, readings: seq<Reading>)
    requires ReadInTurn(api, first, trace, at, components, readings) && Prefix(trace, longer)
    ensures ReadInTurn(api, first, longer, at, components, readings)
  {
    hide ReadingAt;
  }

  lemma ReadNext(api: ApiServer, first: nat, trace: seq<World>, at: nat, components: seq<Component>,
                 readings: seq<Reading>, c: Component, r: Reading)
    requires ReadInTurn(api, first, trace, at, components, readings) && |trace| == at + |readings| + 1
    requires r == ReadingAt(api.fault(first + |readings|), trace[|trace| - 1], c)
    ensures ReadInTurn(api, first, trace, at, components + [c], readings + [r])
  {
    hide ReadingAt;
  }

  function ReadAll(w: World, components: seq<Component>): seq<Reading> {
    seq(|components|, i requires 0 <= i < |components| => ReadingOf(w, components[i]))
  }

  lemma BackendsAreDistinct(n: nat)
    requires n < |BACKENDS|
    ensures BACKENDS[n] !in BACKENDS[..n]
  {
  }

  lemma NoReadingYet(api: ApiServer, first: nat, trace: seq<World>, services: ServiceStates)
    ensures ReadInTurn(api, first, trace, |trace|, [], []) && Recorded(services, BACKENDS, [], services) && AllReady([])
  {
  }

  /** The backends' entries of the status, from one reading each. */
  method CheckBackends(api: ApiServer, kn: Instance) returns (allReady: bool, readings: seq<Reading>)
    requires api.Valid() && InCharge(api.lapses, api.world, kn.meta, kn.spec)
    modifies api, kn
    ensures api.Valid() && Progress(api.id, old(api.Snap()), api.Snap(), kn.meta, kn.spec)
    ensures api.writes == old(api.writes)
    ensures kn.meta == old(kn.meta) && kn.spec == old(kn.spec)
    ensures kn.status == old(kn.status).(services := kn.status.services)
    ensures ReadInTurn(api, old(api.calls), api.trace, |old(api.trace)|, BACKENDS, readings)
    ensures |api.trace| == |old(api.trace)| + |BACKENDS| && api.calls == old(api.calls) + |BACKENDS|
    ensures Recorded(old(kn.status.services), BACKENDS, readings, kn.status.services)
    ensures allReady <==> AllReady(readings)
    ensures api.Quiet() ==> api.world == old(api.world) && readings == ReadAll(api.world, BACKENDS)
  {
    hide InCharge, Progress, IsRun, Inv, Evidence, ForeignStep, OperatorStep, ReadingOf, BACKENDS, ReadInTurn,
      Recorded, AllReady, ReadingAt;
    ghost var s0 := api.Snap();
    NoReadingYet(api, api.calls, api.trace, kn.status.services);
    allReady, readings := true, [];
    ProgressFromStart(api.id, s0, kn.meta, kn.spec);
    assert BACKENDS[..0] == [];
    for i := 0 to |BACKENDS|
      invariant api.Valid() && Progress(api.id, s0, api.Snap(), kn.meta, kn.spec) && api.writes == old(api.writes)
      invariant InCharge(api.lapses, api.world, kn.meta, kn.spec) && Prefix(s0.trace, api.trace)
      invariant kn.meta == old(kn.meta) && kn.spec == old(kn.spec)
      invariant kn.status == old(kn.status).(services := kn.status.services)
      invariant |readings| == i && ReadInTurn(api, s0.calls, api.trace, |s0.trace|, BACKENDS[..i], readings)
      invariant |api.trace| == |s0.trace| + i && api.calls == s0.calls + i
      invariant Recorded(old(kn.status.services), BACKENDS, readings, kn.status.services)
      invariant allReady <==> AllReady(readings)
      invariant api.Quiet() ==> api.world == old(api.world) && readings == ReadAll(api.world, BACKENDS[..i])
    {
      ghost var s1 := api.Snap();
      var c := BACKENDS[i];
      BackendsAreDistinct(i);
      var reading := ReadDeployment(api, c, kn.meta, kn.spec);
      ProgressIsTransitive(api.id, s0, s1, api.Snap(), kn.meta, kn.spec);
      ProgressKeepsCharge(api.id, s1, api.Snap(), kn.meta, kn.spec);
      ProgressKeepsCharge(api.id, s0, api.Snap(), kn.meta, kn.spec);
      ReadLater(api, s0.calls, s1.trace, api.trace, |s0.trace|, BACKENDS[..i], readings);
      ReadNext(api, s0.calls, api.trace, |s0.trace|, BACKENDS[..i], readings, c, reading);
      RecordedOneMore(old(kn.status.services), BACKENDS, readings, kn.status.services, reading);
      assert BACKENDS[..i + 1] == BACKENDS[..i] + [c];
      AllReadyOneMore(readings, reading);
      readings := readings + [reading];
      if reading.Unread? {
        continue;
      }
      if reading.ready != reading.desired {
        allReady := false;
      }
      kn.status := kn.status.(services := kn.status.services[c := StateOf(c, reading)]);
    }
    assert BACKENDS[..|BACKENDS|] == BACKENDS;
  }

  lemma AllReadyOneMore(readings: seq<Reading>, r: Reading)
    ensures AllReady(readings + [r]) <==> AllReady(readings) && (r.Read? ==> r.ready == r.desired)
  {
    assert r in readings + [r];
  }

  lemma ProgressKeepsCharge(id: Id, from: Snapshot, to: Snapshot, meta: ObjectMeta, spec: Spec)
    requires Progress(id, from, to, meta, spec)
    ensures InCharge(to.lapses, to.world, meta, spec) && Prefix(from.trace, to.trace)
    ensures to.lapses == from.lapses && to.completed == from.completed && from.calls <= to.calls
  {
  }

  /** What must be the case before a Ready may be stored. */
  ghost predicate Deployed(id: Id, s: Snapshot, meta: ObjectMeta, spec: Spec) {
    && InCharge(s.lapses, s.world, meta, spec)
    && CompletedBefore(s.completed, meta.uid, meta.generation, |s.trace|)
    && (!s.lapses.meddled && !s.lapses.blind ==> RequiredKeys(id, spec) <= s.world.objects.Keys)
  }

  lemma DeployedStays(id: Id, from: Snapshot, to: Snapshot, meta: ObjectMeta, spec: Spec)
    requires Deployed(id, from, meta, spec) && Progress(id, from, to, meta, spec)
    ensures Deployed(id, to, meta, spec) && Prefix(from.trace, to.trace)
    ensures to.lapses == from.lapses && to.completed == from.completed && from.calls <= to.calls
  {
    hide InCharge, RequiredKeys;
    if RequiredKeys(id, spec) <= from.world.objects.Keys && !to.lapses.meddled {
      RequiredStays(id, spec, from.world, to.world);
    }
  }

  lemma DeployedIsInCharge(id: Id, s: Snapshot, meta: ObjectMeta, spec: Spec)
    requires Deployed(id, s, meta, spec)
    ensures InCharge(s.lapses, s.world, meta, spec) && s.world.kn.Some?
  {
  }

  lemma ConclusionIsStorable(id: Id, s: Snapshot, meta: ObjectMeta, spec: Spec, status: Status, allReady: bool)
    requires Deployed(id, s, meta, spec)
    requires OnePerType(status.conditions) && Condition(ValidatedCondition, true, meta.generation) in status.conditions
    ensures Storable(id, s, meta, spec, Conclude(status, allReady, meta.generation))
  {
    hide InCharge, RequiredKeys, CompletedBefore;
    ConcludedStatusIsPersisted(status, allReady, meta.generation);
  }

  const ALL_DEPLOYMENTS: seq<Component> := BACKENDS + [WebFrontend]

  /** The web front end's entry of the status. */
  method CheckWeb(api: ApiServer, kn: Instance) returns (reading: Reading)
    requires api.Valid() && InCharge(api.lapses, api.world, kn.meta, kn.spec)
    modifies api, kn
    ensures api.Valid() && Progress(api.id, old(api.Snap()), api.Snap(), kn.meta, kn.spec)
    ensures api.writes == old(api.writes)
    ensures kn.meta == old(kn.meta) && kn.spec == old(kn.spec)
    ensures kn.status == old(kn.status).(web :=
      if reading.Read? then Some(StateOf(WebFrontend, reading)) else old(kn.status.web))
    ensures api.trace == old(api.trace) + [api.world]
    ensures reading == ReadingAt(old(api.Fails()), api.world, WebFrontend) && api.calls == old(api.calls) + 1
    ensures api.Quiet() ==> api.world == old(api.world) && reading == ReadingOf(api.world, WebFrontend)
  {
    hide InCharge, Progress, IsRun, Inv, Evidence, ForeignStep, OperatorStep, ReadingOf, StateOf;
    reading := ReadDeployment(api, WebFrontend, kn.meta, kn.spec);
    if reading.Read? {
      kn.status := kn.status.(web := Some(StateOf(WebFrontend, reading)));
    }
  }

  /** All eight readings, and the entries they give. */
  method CheckComponents(api: ApiServer, kn: Instance) returns (allReady: bool, ghost readings: seq<Reading>)
    requires api.Valid() && InCharge(api.lapses, api.world, kn.meta, kn.spec)
    modifies api, kn
    ensures api.Valid() && Progress(api.id, old(api.Snap()), api.Snap(), kn.meta, kn.spec)
    ensures api.writes == old(api.writes)
    ensures kn.meta == old(kn.meta) && kn.spec == old(kn.spec)
    ensures kn.status == old(kn.status).(services := kn.status.services, web := kn.status.web)
    ensures ReadInTurn(api, old(api.calls), api.trace, |old(api.trace)|, ALL_DEPLOYMENTS, readings)
    ensures |readings| == |BACKENDS| + 1
    ensures |api.trace| == |old(api.trace)| + |readings| && api.calls == old(api.calls) + |readings|
    ensures Recorded(old(kn.status.services), BACKENDS, readings[..|BACKENDS|], kn.status.services)
    ensures kn.status.web == (if readings[|BACKENDS|].Read? then Some(StateOf(WebFrontend, readings[|BACKENDS|]))
                              else old(kn.status.web))
    ensures allReady <==> AllReady(readings)
    ensures api.Quiet() ==> api.world == old(api.world) && readings == ReadAll(api.world, ALL_DEPLOYMENTS)
  {
    hide InCharge, IsRun, Inv, Evidence, ForeignStep, OperatorStep, ReadingOf, BACKENDS, Recorded, AllReady,
      ReadingAt, StateOf;
    ghost var s0 := api.Snap();
    var backendsReady, taken := CheckBackends(api, kn);
    ghost var s1 := api.Snap();
    var web := CheckWeb(api, kn);
    ProgressIsTransitive(api.id, s0, s1, api.Snap(), kn.meta, kn.spec);
    ReadLater(api, s0.calls, s1.trace, api.trace, |s0.trace|, BACKENDS, taken);
    ReadNext(api, s0.calls, api.trace, |s0.trace|, BACKENDS, taken, WebFrontend, web);
    AllReadyOneMore(taken, web);
    readings := taken + [web];
    assert readings[..|BACKENDS|] == taken;
    allReady := backendsReady && (web.Read? ==> web.ready == web.desired);
  }

  ghost predicate SameButStatus(o: Option<KubeNova>, o': Option<KubeNova>) {
    o.Some? && o'.Some?
    && o'.value.spec == o.value.spec
    && o'.value.meta == o.value.meta.(resourceVersion := o'.value.meta.resourceVersion)
  }

  /** The overall phase and the Ready condition, and the one status write of a completed round. */
  method StoreConclusion(api: ApiServer, kn: Instance, allReady: bool) returns (r: Result<()>)
    requires api.Valid() && Deployed(api.id, api.Snap(), kn.meta, kn.spec)
    requires OnePerType(kn.status.conditions)
    requires Condition(ValidatedCondition, true, kn.meta.generation) in kn.status.conditions
    modifies api, kn
    ensures api.Valid() && Prefix(old(api.trace), api.trace)
    ensures api.lapses == old(api.lapses) && api.completed == old(api.completed) && api.writes == old(api.writes)
    ensures api.calls > old(api.calls)
    ensures kn.spec == old(kn.spec) && kn.meta == old(kn.meta).(resourceVersion := kn.meta.resourceVersion)
    ensures kn.status == old(kn.status).(phase := if allReady then Ready else Creating,
                                         observedGeneration := kn.meta.generation, conditions := kn.status.conditions)
    ensures Condition(ReadyCondition, allReady, kn.meta.generation) in kn.status.conditions
    ensures forall d :: d in old(kn.status.conditions) && d.kind != ReadyCondition ==> d in kn.status.conditions
    ensures r.Ok? <==> Lands(api, old(api.calls), old(api.world))
    ensures r.Ok? ==> api.world.kn.Some? && api.world.kn.value.status == kn.status
    ensures api.Quiet() ==>
      r.Ok? && api.world.objects == old(api.world.objects) && api.world.nodes == old(api.world.nodes)
      && SameButStatus(old(api.world.kn), api.world.kn)
  {
    hide InCharge, Deployed, IsRun, Inv, Evidence, ForeignStep, OperatorStep, WellFormed, OnlyOthersWrote, OnePerType,
      SetCondition, Lands, Decided, AfterOneAttempt, Storable;
    DeployedIsInCharge(api.id, api.Snap(), kn.meta, kn.spec);
    ConclusionIsStorable(api.id, api.Snap(), kn.meta, kn.spec, kn.status, allReady);
    SetConditionMembers(kn.status.conditions, Condition(ReadyCondition, allReady, kn.meta.generation));
    kn.status := Conclude(kn.status, allReady, kn.meta.generation);
    var attempts, slept;
    r, attempts, slept := UpdateStatusWithRetry(api, kn);
  }

  /** The phase is Ready iff every Deployment that could be read has as many replicas ready as desired. */
  method CheckComponentStatus(api: ApiServer, kn: Instance) returns (r: Result<()>, ghost readings: seq<Reading>)
    requires api.Valid() && Deployed(api.id, api.Snap(), kn.meta, kn.spec)
    requires OnePerType(kn.status.conditions)
    requires Condition(ValidatedCondition, true, kn.meta.generation) in kn.status.conditions
    modifies api, kn
    ensures api.Valid() && Prefix(old(api.trace), api.trace)
    ensures api.lapses == old(api.lapses) && api.completed == old(api.completed) && api.writes == old(api.writes)
    ensures api.calls > old(api.calls)
    ensures kn.spec == old(kn.spec) && kn.meta == old(kn.meta).(resourceVersion := kn.meta.resourceVersion)
    ensures ReadInTurn(api, old(api.calls), api.trace, |old(api.trace)|, ALL_DEPLOYMENTS, readings)
    ensures |readings| == |BACKENDS| + 1 && kn.status.observedGeneration == kn.meta.generation
    ensures kn.status.phase == (if AllReady(readings) then Ready else Creating)
    ensures Condition(ReadyCondition, AllReady(readings), kn.meta.generation) in kn.status.conditions
    ensures Recorded(old(kn.status.services), BACKENDS, readings[..|BACKENDS|], kn.status.services)
    ensures kn.status.web == (if readings[|BACKENDS|].Read? then Some(StateOf(WebFrontend, readings[|BACKENDS|]))
                              else old(kn.status.web))
    ensures forall d :: d in old(kn.status.conditions) && d.kind != ReadyCondition ==> d in kn.status.conditions
    ensures kn.status.access.Some?
      && TellsAccess(kn.spec, api.id.namespace, old(kn.status.access), kn.status.access.value)
      && URLRead(api, old(api.calls) + |readings|, api.trace, |old(api.trace)| + |readings|, kn.spec.web,
                 PreviousURL(old(kn.status)), kn.status.access.value.webURL)
    // It succeeds exactly when the status can be stored, whichever reads failed.
    ensures var n := |readings| + URLCalls(api, old(api.calls) + |readings|, api.trace,
                                           |old(api.trace)| + |readings|, kn.spec.web);
      |old(api.trace)| + n <= |api.trace|
      && (r.Ok? <==> Lands(api, old(api.calls) + n, api.trace[|old(api.trace)| + n - 1]))
    ensures r.Ok? ==> api.world.kn.Some? && api.world.kn.value.status == kn.status
    ensures api.Quiet() ==>
      r.Ok? && api.world.objects == old(api.world.objects) && api.world.nodes == old(api.world.nodes)
      && readings == ReadAll(old(api.world), ALL_DEPLOYMENTS)
      && kn.status.access.Some? && kn.status.access.value.webURL == CurrentURL(old(api.world), kn.spec, old(kn.status))
      && SameButStatus(old(api.world.kn), api.world.kn)
  {
    hide InCharge, Deployed, IsRun, Inv, Evidence, ForeignStep, OperatorStep, WellFormed, ReadingOf, BACKENDS,
      ALL_DEPLOYMENTS, Recorded, AllReady, ReadInTurn, StateOf, Storable, OnlyOthersWrote, OnePerType, WebURL,
      SetCondition, Progress, NodeIP, TellsAccess, URLRead, URLCalls, Lands, Decided, AfterOneAttempt, Conclude;
    ghost var s0 := api.Snap();
    DeployedIsInCharge(api.id, s0, kn.meta, kn.spec);
    var allReady;
    allReady, readings := CheckComponents(api, kn);
    ghost var s1 := api.Snap();
    ProgressKeepsCharge(api.id, s0, s1, kn.meta, kn.spec);
    UpdateAccessInfo(api, kn);
    ghost var s2 := api.Snap();
    ProgressIsTransitive(api.id, s0, s1, s2, kn.meta, kn.spec);
    ProgressKeepsCharge(api.id, s1, s2, kn.meta, kn.spec);
    DeployedStays(api.id, s0, s2, kn.meta, kn.spec);
    r := StoreConclusion(api, kn, allReady);
    ReadLater(api, s0.calls, s1.trace, api.trace, |s0.trace|, ALL_DEPLOYMENTS, readings);
    URLReadLater(api, s1.calls, s2.trace, api.trace, |s1.trace|, kn.spec.web, PreviousURL(old(kn.status)),
                 kn.status.access.value.webURL);
  }
}
