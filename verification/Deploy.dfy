/** What an undisturbed run writes: the effect of the deployment phases on the stored objects. */
module Deploy {
  import opened Types
  import opened Builders
  import opened Endpoints
  import opened Drift
  import opened Cluster

  /** The stored objects, and the keys written to so far. */
  datatype Stage = Stage(objects: map<Key, Object>, writes: seq<Key>)

  function Own(o: Object, uid: nat): Object {
    o.(owner := Some(uid))
  }

  function Put(s: Stage, k: Key, o: Object): Stage {
    Stage(s.objects[k := o], s.writes + [k])
  }

  /** Accounts, bindings, Services and Ingresses: created when absent, otherwise never touched. */
  function PutIfAbsent(s: Stage, admission: Admission, k: Key, o: Object): Stage {
    if k in s.objects then s else Put(s, k, Admit(admission, o))
  }

  /** Secrets and ConfigMaps: only the data of an existing one is replaced, and only when it differs. */
  function PutData(s: Stage, k: Key, o: Object): Stage {
    if k !in s.objects then Put(s, k, o)
    else if s.objects[k].body == o.body then s
    else Put(s, k, s.objects[k].(body := o.body))
  }

  function Rewrite(k: Key, stored: Object, desired: DeploymentSpec): Object
    requires stored.body.DeploymentBody?
  {
    stored.(body := DeploymentBody(CopyFields(k, stored.body.deployment, desired), stored.body.readyReplicas))
  }

  /** Deployments: rewritten when the comparison finds a difference. */
  function PutDeployment(s: Stage, canon: Canon, k: Key, owner: nat, desired: DeploymentSpec): Stage {
    if k !in s.objects then Put(s, k, Kept(canon, Object(Some(owner), map[], DeploymentBody(desired, 0))))
    else if !s.objects[k].body.DeploymentBody? || SpecEqual(s.objects[k].body.deployment, desired) then s
    else Put(s, k, Kept(canon, Rewrite(k, s.objects[k], desired)))
  }

  function WebServiceOf(objects: map<Key, Object>): Option<ServiceSpec> {
    var k := ServiceKey(WebFrontend);
    if k in objects && objects[k].body.ServiceBody? then Some(objects[k].body.service) else None
  }

  function DeployRBAC(s: Stage, admission: Admission, id: Id, uid: nat): Stage {
    PutIfAbsent(PutIfAbsent(s, admission, AccountKey, Own(BuildServiceAccount(), uid)),
                admission, BindingKey(BindingName(id)), BuildClusterRoleBinding(id))
  }

  function DeploySecret(s: Stage, uid: nat, spec: Spec, nodeIP: string): Stage {
    PutData(s, SecretKey, Own(SecretObject(spec, nodeIP, ProxyNodePort(spec.web, WebServiceOf(s.objects))), uid))
  }

  function DeployConfigMaps(s: Stage, uid: nat, components: seq<Component>): Stage
    decreases |components|
  {
    if components == [] then s
    else
      var n := |components| - 1;
      PutData(DeployConfigMaps(s, uid, components[..n]), ConfigMapKey(components[n]),
              Own(BuildConfigMap(components[n]), uid))
  }

  function DeployBackend(s: Stage, admission: Admission, uid: nat, spec: Spec, c: Component): Stage {
    var r := ResourcesOf(spec, c);
    PutIfAbsent(PutDeployment(s, admission.canon, DeploymentKey(c), uid, r.deployment),
                admission, ServiceKey(c), Object(Some(uid), map[], ServiceBody(r.service)))
  }

  function DeployBackends(s: Stage, admission: Admission, uid: nat, spec: Spec, order: seq<Component>): Stage
    decreases |order|
  {
    if order == [] then s
    else
      var n := |order| - 1;
      DeployBackend(DeployBackends(s, admission, uid, spec, order[..n]), admission, uid, spec, order[n])
  }

  function DeployNginxConfig(s: Stage, uid: nat, spec: Spec): Stage {
    if spec.web.customNginxConfigMap == ""
    then PutData(s, ConfigMapKey(WebFrontend), Own(BuildNginxConfigMap(spec), uid)) else s
  }

  function DeployIngress(s: Stage, admission: Admission, uid: nat, spec: Spec): Stage {
    if HasIngress(spec.web)
    then PutIfAbsent(s, admission, IngressKey, Object(Some(uid), map[], IngressBody(WebIngress(spec.web).value))) else s
  }

  function DeployWeb(s: Stage, admission: Admission, uid: nat, spec: Spec): Stage {
    var s1 := DeployNginxConfig(s, uid, spec);
    var s2 := PutDeployment(s1, admission.canon, DeploymentKey(WebFrontend), uid, WebDeployment(spec));
    var s3 := PutIfAbsent(s2, admission, ServiceKey(WebFrontend),
                          Object(Some(uid), map[], ServiceBody(WebService(spec.web))));
    DeployIngress(s3, admission, uid, spec)
  }

  /** All phases; `order` is the order in which the map of services happens to be iterated. */
  function DeployAll(s: Stage, admission: Admission, id: Id, uid: nat, spec: Spec, nodeIP: string,
                     order: seq<Component>): Stage {
    var s1 := DeployRBAC(s, admission, id, uid);
    var s2 := DeploySecret(s1, uid, spec, nodeIP);
    var s3 := DeployConfigMaps(s2, uid, BACKENDS);
    var s4 := DeployBackends(s3, admission, uid, spec, order);
    DeployWeb(s4, admission, uid, spec)
  }
}
