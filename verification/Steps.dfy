/** The deployment phases as one list of steps: which calls a round makes, in which order, and that it stops at the
    first step that fails, whatever the others do between the calls and whichever calls fail. */
module Steps {
  import opened Types
  import opened Builders
  import opened Endpoints
  import opened Protocol
  import opened Cluster
  import opened Deploy
  import opened Ensuring

  /** One step: a read that cannot stop the round, or one of the three ways to bring an object into place. */
  datatype Step =
    | Reading
    | Exists(key: Key, wanted: Object)
    | Data(key: Key, wanted: Object)
    | Deploys(key: Key, owner: nat, desired: DeploymentSpec)

  ghost function Take(api: ApiServer, first: nat, w: World, step: Step): Ending {
    match step
    case Reading => Ending(api.env(first, w), Ok(()), first + 1)
    case Exists(k, o) => CreatingIfMissing(api, first, w, k, o)
    case Data(k, o) => CreatingOrReplacing(api, first, w, k, o)
    case Deploys(k, owner, d) =>
      CreatingOrRewriting(api, first, w, k, Object(Some(owner), map[], DeploymentBody(d, 0)), d)
  }

  /** All steps in their order, as far as the first that fails. */
  ghost function TakeAll(api: ApiServer, first: nat, w: World, steps: seq<Step>): Ending
    decreases |steps|
  {
    if steps == [] then Ending(w, Ok(()), first)
    else
      var n := |steps| - 1;
      var e := TakeAll(api, first, w, steps[..n]);
      if e.reply.Err? then e else Take(api, e.calls, e.after, steps[n])
  }

  lemma TakeNone(api: ApiServer, first: nat, w: World)
    ensures TakeAll(api, first, w, []) == Ending(w, Ok(()), first)
  {
  }

  lemma TakeOne(api: ApiServer, first: nat, w: World, step: Step)
    ensures TakeAll(api, first, w, [step]) == Take(api, first, w, step)
  {
    hide Take;
    TakeNone(api, first, w);
    assert [step][..0] == [];
  }

  lemma OkIsOk(r: Result<()>)
    ensures r.Ok? ==> r == Ok(())
  {
    if r.Ok? {
      assert r.value == ();
    }
  }

  lemma {:induction false} TakeBoth(api: ApiServer, first: nat, w: World, steps: seq<Step>, more: seq<Step>)
    ensures var e := TakeAll(api, first, w, steps);
      TakeAll(api, first, w, steps + more) == if e.reply.Err? then e else TakeAll(api, e.calls, e.after, more)
    decreases |more|
  {
    hide Take;
    if more == [] {
      assert steps + more == steps;
      OkIsOk(TakeAll(api, first, w, steps).reply);
    } else {
      var n := |more| - 1;
      TakeBoth(api, first, w, steps, more[..n]);
      assert (steps + more)[..|steps| + n] == steps + more[..n];
    }
  }

  lemma TakeTwo(api: ApiServer, first: nat, w: World, a: Step, b: Step)
    ensures var e := Take(api, first, w, a);
      TakeAll(api, first, w, [a, b]) == if e.reply.Err? then e else Take(api, e.calls, e.after, b)
  {
    hide Take;
    TakeOne(api, first, w, a);
    assert [a, b][..1] == [a];
  }

  lemma TakeThree(api: ApiServer, first: nat, w: World, a: seq<Step>, b: seq<Step>, c: seq<Step>)
    ensures var e1 := TakeAll(api, first, w, a);
      var e2 := TakeAll(api, e1.calls, e1.after, b);
      TakeAll(api, first, w, a + b + c)
      == if e1.reply.Err? then e1 else if e2.reply.Err? then e2 else TakeAll(api, e2.calls, e2.after, c)
  {
    hide TakeAll;
    TakeBoth(api, first, w, a, b);
    TakeBoth(api, first, w, a + b, c);
  }

  /** Steps that come after a failure are not taken. */
  lemma StopsAtFailure(api: ApiServer, first: nat, w: World, steps: seq<Step>, more: seq<Step>)
    requires TakeAll(api, first, w, steps).reply.Err?
    ensures TakeAll(api, first, w, steps + more) == TakeAll(api, first, w, steps)
  {
    TakeBoth(api, first, w, steps, more);
  }

  // ---------- the steps of each phase ----------

  function RBACSteps(id: Id, uid: nat): seq<Step> {
    [Exists(AccountKey, Own(BuildServiceAccount(), uid)),
     Exists(BindingKey(BindingName(id)), BuildClusterRoleBinding(id))]
  }

  /** The nodes are listed, in nodeport mode the web Service is read, then the Secret is put in place. */
  function SecretSteps(uid: nat, spec: Spec, nodeIP: string, nodePort: int): seq<Step> {
    (if spec.web.exposeType == "nodeport" then [Reading, Reading] else [Reading])
    + [Data(SecretKey, Own(SecretObject(spec, nodeIP, nodePort), uid))]
  }

  lemma SecretStepsTaken(api: ApiServer, first: nat, w: World, uid: nat, spec: Spec, nodeIP: string, nodePort: int)
    ensures var listed := api.env(first, w);
      var read := api.env(first + 1, listed);
      TakeAll(api, first, w, SecretSteps(uid, spec, nodeIP, nodePort))
      == if spec.web.exposeType == "nodeport"
         then CreatingOrReplacing(api, first + 2, read, SecretKey, Own(SecretObject(spec, nodeIP, nodePort), uid))
         else CreatingOrReplacing(api, first + 1, listed, SecretKey, Own(SecretObject(spec, nodeIP, nodePort), uid))
  {
    hide CreatingOrReplacing, SecretObject, TakeAll;
    var data := Data(SecretKey, Own(SecretObject(spec, nodeIP, nodePort), uid));
    if spec.web.exposeType == "nodeport" {
      TakeTwo(api, first, w, Reading, Reading);
      TakeBoth(api, first, w, [Reading, Reading], [data]);
      TakeOne(api, first + 2, api.env(first + 1, api.env(first, w)), data);
    } else {
      assert [Reading] + [data] == [Reading, data];
      TakeTwo(api, first, w, Reading, data);
    }
  }

  function ConfigSteps(uid: nat, components: seq<Component>): seq<Step> {
    seq(|components|, i requires 0 <= i < |components| =>
      Data(ConfigMapKey(components[i]), Own(BuildConfigMap(components[i]), uid)))
  }

  lemma ConfigStepsOneMore(uid: nat, components: seq<Component>, i: nat)
    requires i < |components|
    ensures ConfigSteps(uid, components[..i + 1])
            == ConfigSteps(uid, components[..i])
               + [Data(ConfigMapKey(components[i]), Own(BuildConfigMap(components[i]), uid))]
    ensures ConfigSteps(uid, components) == ConfigSteps(uid, components[..i]) + ConfigSteps(uid, components[i..])
  {
  }

  lemma NoConfigSteps(uid: nat, components: seq<Component>)
    ensures ConfigSteps(uid, components[..0]) == []
  {
  }

  /** Deployment before Service. */
  function BackendSteps(uid: nat, spec: Spec, c: Component): seq<Step> {
    [Deploys(DeploymentKey(c), uid, ResourcesOf(spec, c).deployment),
     Exists(ServiceKey(c), Object(Some(uid), map[], ServiceBody(ResourcesOf(spec, c).service)))]
  }

  function ServiceSteps(uid: nat, spec: Spec, order: seq<Component>): seq<Step>
    decreases |order|
  {
    if order == [] then []
    else ServiceSteps(uid, spec, order[..|order| - 1]) + BackendSteps(uid, spec, order[|order| - 1])
  }

  lemma {:induction false} ServiceStepsSplit(uid: nat, spec: Spec, order: seq<Component>, more: seq<Component>)
    ensures ServiceSteps(uid, spec, order + more) == ServiceSteps(uid, spec, order) + ServiceSteps(uid, spec, more)
    decreases |more|
  {
    hide BackendSteps;
    if more == [] {
      assert order + more == order;
    } else {
      var n := |more| - 1;
      ServiceStepsSplit(uid, spec, order, more[..n]);
      assert (order + more)[..|order| + n] == order + more[..n];
    }
  }

  /** One more service after those in `order`. */
  lemma OneMoreService(api: ApiServer, first: nat, w: World, uid: nat, spec: Spec, order: seq<Component>, c: Component)
    requires TakeAll(api, first, w, ServiceSteps(uid, spec, order)).reply.Ok?
    ensures var e := TakeAll(api, first, w, ServiceSteps(uid, spec, order));
      TakeAll(api, first, w, ServiceSteps(uid, spec, order + [c]))
      == TakeAll(api, e.calls, e.after, BackendSteps(uid, spec, c))
  {
    hide BackendSteps, TakeAll;
    assert (order + [c])[..|order|] == order;
    TakeBoth(api, first, w, ServiceSteps(uid, spec, order), BackendSteps(uid, spec, c));
  }

  function NginxSteps(uid: nat, spec: Spec): seq<Step> {
    if spec.web.customNginxConfigMap == "" then [Data(ConfigMapKey(WebFrontend), Own(BuildNginxConfigMap(spec), uid))]
    else []
  }

  function IngressSteps(uid: nat, spec: Spec): seq<Step> {
    if HasIngress(spec.web) then [Exists(IngressKey, Object(Some(uid), map[], IngressBody(WebIngress(spec.web).value)))]
    else []
  }

  /** nginx ConfigMap, Deployment, Service, Ingress. */
  function WebSteps(uid: nat, spec: Spec): seq<Step> {
    NginxSteps(uid, spec)
    + [Deploys(DeploymentKey(WebFrontend), uid, WebDeployment(spec)),
       Exists(ServiceKey(WebFrontend), Object(Some(uid), map[], ServiceBody(WebService(spec.web))))]
    + IngressSteps(uid, spec)
  }

  lemma WebStepsTaken(api: ApiServer, first: nat, w: World, uid: nat, spec: Spec)
    ensures var d, v := DeploymentKey(WebFrontend), ServiceKey(WebFrontend);
      var e1 := TakeAll(api, first, w, NginxSteps(uid, spec));
      var e2 := CreatingOrRewriting(api, e1.calls, e1.after, d,
                                    Object(Some(uid), map[], DeploymentBody(WebDeployment(spec), 0)),
                                    WebDeployment(spec));
      var e3 := CreatingIfMissing(api, e2.calls, e2.after, v,
                                  Object(Some(uid), map[], ServiceBody(WebService(spec.web))));
      TakeAll(api, first, w, WebSteps(uid, spec))
      == if e1.reply.Err? then e1
         else if e2.reply.Err? then e2
         else if e3.reply.Err? then e3
         else TakeAll(api, e3.calls, e3.after, IngressSteps(uid, spec))
  {
    hide TakeAll, CreatingOrRewriting, CreatingIfMissing, NginxSteps, IngressSteps, WebDeployment, WebService;
    var step := Deploys(DeploymentKey(WebFrontend), uid, WebDeployment(spec));
    var next := Exists(ServiceKey(WebFrontend), Object(Some(uid), map[], ServiceBody(WebService(spec.web))));
    var e1 := TakeAll(api, first, w, NginxSteps(uid, spec));
    TakeTwo(api, e1.calls, e1.after, step, next);
    TakeThree(api, first, w, NginxSteps(uid, spec), [step, next], IngressSteps(uid, spec));
  }

  /** The phases before the services. */
  function FoundationSteps(id: Id, uid: nat, spec: Spec, nodeIP: string, nodePort: int): seq<Step> {
    RBACSteps(id, uid) + SecretSteps(uid, spec, nodeIP, nodePort) + ConfigSteps(uid, BACKENDS)
  }

  /** A whole round; the services in the order they are visited in. */
  function AllSteps(id: Id, uid: nat, spec: Spec, nodeIP: string, nodePort: int, order: seq<Component>): seq<Step> {
    FoundationSteps(id, uid, spec, nodeIP, nodePort) + ServiceSteps(uid, spec, order) + WebSteps(uid, spec)
  }
}
