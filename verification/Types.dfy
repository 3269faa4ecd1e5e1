/** The KubeNova API types (api/v1/kubenova_types.go) and the Kubernetes objects
    the operator writes, cut down to the fields its code reads, writes or compares. */
module Types {

  datatype Option<+T> = None | Some(value: T)

  /** Why an API call failed. `Unavailable` stands for every other error of the server;
      `RetriesExhausted` is the operator's own, at the end of its status retry loop. */
  datatype ApiError = NotFound | Conflict | Invalid | Unavailable | RetriesExhausted

  datatype Result<+T> = Ok(value: T) | Err(error: ApiError)

  // ---------- components ----------

  /** The seven backend services and the web front end. */
  datatype Component =
    PortalAPI | PortalRPC | ManagerAPI | ManagerRPC | WorkloadAPI | ConsoleAPI | ConsoleRPC | WebFrontend

  const BACKENDS: seq<Component> :=
    [PortalAPI, PortalRPC, ManagerAPI, ManagerRPC, WorkloadAPI, ConsoleAPI, ConsoleRPC]

  function ComponentName(c: Component): string {
    match c
    case PortalAPI => "portal-api"
    case PortalRPC => "portal-rpc"
    case ManagerAPI => "manager-api"
    case ManagerRPC => "manager-rpc"
    case WorkloadAPI => "workload-api"
    case ConsoleAPI => "console-api"
    case ConsoleRPC => "console-rpc"
    case WebFrontend => "kube-nova-web"
  }

  function ConfigMapName(c: Component): string {
    if c == WebFrontend then "frontend-nginx-config" else ComponentName(c) + "-config"
  }

  // ---------- specification ----------

  datatype EnvVar = EnvVar(name: string, value: string, valueFrom: Option<string>)
  /** The form in which a store writes a quantity. */
  type Canon = string -> string

  /** Quantities are their text; a list that is absent differs from an empty one. */
  datatype Resources = Resources(requests: Option<map<string, string>>, limits: Option<map<string, string>>)

  datatype ImageRegistry = ImageRegistry(registry: string, organization: string, tag: string,
                                         pullPolicy: string, pullSecrets: seq<string>)
  datatype Database = Database(host: string, port: int, database: string, user: string, password: string,
                               maxOpenConns: int, maxIdleConns: int, connMaxLifetime: string)
  datatype Cache = Cache(host: string, port: int, kind: string, password: string,
                         tls: bool, nonBlock: bool, pingTimeout: string)
  datatype MinIOTLS = MinIOTLS(enabled: bool, secretName: string)
  datatype Storage = Storage(endpoint: string, endpointProxy: string, accessKey: string, secretKey: string,
                             bucket: string, tls: Option<MinIOTLS>)
  datatype Telemetry = Telemetry(enabled: bool, jaegerEndpoint: string, sampler: string, batcher: string)
  datatype JWT = JWT(accessSecret: string, accessExpire: int, refreshSecret: string, refreshExpire: int,
                     refreshAfter: int)
  datatype Portal = Portal(name: string, url: string, demoMode: bool)

  datatype ServiceConfig = ServiceConfig(enabled: Option<bool>, replicas: int, image: string,
                                         resources: Option<Resources>, env: seq<EnvVar>)
  datatype Services = Services(globalTimeout: int, jwt: JWT, portal: Option<Portal>, webhookToken: string,
                               injectImage: string,
                               portalAPI: Option<ServiceConfig>, portalRPC: Option<ServiceConfig>,
                               managerAPI: Option<ServiceConfig>, managerRPC: Option<ServiceConfig>,
                               workloadAPI: Option<ServiceConfig>, consoleAPI: Option<ServiceConfig>,
                               consoleRPC: Option<ServiceConfig>)

  datatype IngressTLS = IngressTLS(enabled: bool, secretName: string)
  datatype IngressConfig = IngressConfig(className: string, host: string, tls: Option<IngressTLS>,
                                         annotations: map<string, string>)
  datatype NodePortHTTPS = NodePortHTTPS(enabled: bool, port: int, secretName: string)
  datatype NodePortConfig = NodePortConfig(httpPort: int, https: Option<NodePortHTTPS>)
  datatype MinIOProxy = MinIOProxy(enabled: bool, pathPrefix: string, proxyEndpoint: string)
  datatype WebConfig = WebConfig(replicas: int, image: string, resources: Option<Resources>, exposeType: string,
                                 ingress: Option<IngressConfig>, nodePort: Option<NodePortConfig>,
                                 minioProxy: Option<MinIOProxy>, customNginxConfigMap: string)

  datatype Spec = Spec(registry: Option<ImageRegistry>, database: Database, cache: Cache, storage: Storage,
                       telemetry: Option<Telemetry>, services: Services, web: WebConfig)

  function ServiceConfigOf(spec: Spec, c: Component): Option<ServiceConfig> {
    match c
    case PortalAPI => spec.services.portalAPI
    case PortalRPC => spec.services.portalRPC
    case ManagerAPI => spec.services.managerAPI
    case ManagerRPC => spec.services.managerRPC
    case WorkloadAPI => spec.services.workloadAPI
    case ConsoleAPI => spec.services.consoleAPI
    case ConsoleRPC => spec.services.consoleRPC
    case WebFrontend => None
  }

  /** A service nobody configured is enabled, and so is one whose `enabled` is unset. */
  predicate ServiceEnabled(spec: Spec, c: Component) {
    var cfg := ServiceConfigOf(spec, c);
    cfg.None? || cfg.value.enabled.None? || cfg.value.enabled.value
  }

  predicate StorageTLS(spec: Spec) {
    spec.storage.tls.Some? && spec.storage.tls.value.enabled
  }

  predicate TelemetryEnabled(spec: Spec) {
    spec.telemetry.Some? && spec.telemetry.value.enabled
  }

  predicate ProxyEnabled(spec: Spec) {
    spec.web.minioProxy.Some? && spec.web.minioProxy.value.enabled
  }

  predicate HTTPSEnabled(web: WebConfig) {
    web.nodePort.Some? && web.nodePort.value.https.Some? && web.nodePort.value.https.value.enabled
  }

  predicate IngressTLSEnabled(web: WebConfig) {
    web.ingress.Some? && web.ingress.value.tls.Some? && web.ingress.value.tls.value.enabled
  }

  // ---------- status ----------

  /** `Unset` is the empty phase of a status nobody has written yet. */
  datatype Phase = Unset | Validating | Creating | Ready | Failed | Deleting

  datatype ConditionType = ReadyCondition | ValidatedCondition | OtherCondition(name: string)
  datatype Condition = Condition(kind: ConditionType, status: bool, observedGeneration: nat)

  datatype ComponentState = StateReady | StateRunning | StatePending
  datatype ComponentStatus = ComponentStatus(state: ComponentState, ready: int, desired: int)

  datatype AccessInfo = AccessInfo(webURL: string, database: string, cache: string, storage: string,
                                   jaeger: string, endpoints: map<Component, string>)

  datatype Status = Status(phase: Phase, conditions: seq<Condition>,
                           services: map<Component, ComponentStatus>, web: Option<ComponentStatus>,
                           access: Option<AccessInfo>, observedGeneration: nat)

  const EMPTY_STATUS := Status(Unset, [], map[], None, None, 0)

  // ---------- the custom resource ----------

  datatype Id = Id(namespace: string, name: string)

  datatype ObjectMeta = ObjectMeta(uid: nat, resourceVersion: nat, generation: nat,
                                   finalizers: set<string>, deleting: bool, labels: map<string, string>)

  datatype KubeNova = KubeNova(meta: ObjectMeta, spec: Spec, status: Status)

  // ---------- the objects the operator manages ----------

  datatype ContainerPort = ContainerPort(name: string, port: int)
  datatype VolumeMount = VolumeMount(name: string, mountPath: string, subPath: string, readOnly: bool)
  datatype VolumeSource = FromConfigMap(configMap: string) | FromSecret(secret: string) | Scratch
  datatype Volume = Volume(name: string, source: VolumeSource)
  datatype Container = Container(name: string, image: string, pullPolicy: string, ports: seq<ContainerPort>,
                                 env: seq<EnvVar>, envFromSecret: Option<string>, mounts: seq<VolumeMount>,
                                 resources: Resources)
  /** `untouched` stands for the pod fields no update of the operator assigns. */
  datatype PodSpec = PodSpec(containers: seq<Container>, volumes: seq<Volume>, serviceAccountName: string,
                             imagePullSecrets: seq<string>, untouched: string)
  datatype DeploymentSpec = DeploymentSpec(replicas: Option<int>, template: PodSpec)

  datatype ServiceType = ClusterIP | NodePort
  datatype ServicePort = ServicePort(name: string, port: int, targetPort: int, nodePort: int)
  datatype ServiceSpec = ServiceSpec(kind: ServiceType, ports: seq<ServicePort>)
  datatype IngressSpec = IngressSpec(className: string, host: string, tlsSecret: Option<string>,
                                     annotations: map<string, string>)

  /** The keys of the `kube-nova-secret` data map. */
  datatype SecretField =
    DEFAULT_TIMEOUT | MYSQL_HOST | MYSQL_PORT | MYSQL_DATABASE | MYSQL_USER | MYSQL_PASSWORD |
    MYSQL_MAX_OPEN_CONNS | MYSQL_MAX_IDLE_CONNS | MYSQL_CONN_MAX_LIFETIME |
    REDIS_HOST | REDIS_PORT | REDIS_PASSWORD | REDIS_TYPE | REDIS_TLS | REDIS_NONBLOCK | REDIS_PING_TIMEOUT |
    MINIO_ENDPOINT | MINIO_ACCESS_KEY | MINIO_SECRET_KEY | MINIO_BUCKET | MINIO_USE_SSL |
    MINIO_CA_FILE | MINIO_CA_KEY | MINIO_ENDPOINT_PROXY |
    JWT_ACCESS_SECRET | JWT_ACCESS_EXPIRE | JWT_REFRESH_SECRET | JWT_REFRESH_EXPIRE | JWT_REFRESH_AFTER |
    ALERTMANAGER_WEBHOOK_TOKEN | JAEGER_ENDPOINT | TELEMETRY_SAMPLER | TELEMETRY_BATCHER |
    PORTAL_NAME | PORTAL_URL | DEMO_MODE | INJECT_IMAGE

  /** Rendered configuration text, opaque: a backend's text is a constant of its name,
      the nginx text a function of the two specification sections its template reads. */
  datatype ConfigData = BackendConfig(c: Component) | NginxConfig(storage: Storage, web: WebConfig)

  datatype Body =
    | NamespaceBody
    | AccountBody
    | BindingBody(subjectNamespace: string)
    | SecretBody(secret: map<SecretField, string>)
    | ConfigBody(config: ConfigData)
    | DeploymentBody(deployment: DeploymentSpec, readyReplicas: int)
    | ServiceBody(service: ServiceSpec)
    | IngressBody(ingress: IngressSpec)

  /** `owner` is the uid of the controller reference, `labels` all other metadata. */
  datatype Object = Object(owner: Option<nat>, labels: map<string, string>, body: Body)

  /** Where an object is stored. Bindings are cluster-wide, all others are in the instance's namespace. */
  datatype Key =
    | NamespaceKey
    | AccountKey
    | BindingKey(name: string)
    | SecretKey
    | ConfigMapKey(c: Component)
    | DeploymentKey(c: Component)
    | ServiceKey(c: Component)
    | IngressKey

  /** The kind and name an object has in the cluster. */
  function KindAndName(namespace: string, k: Key): (string, string) {
    match k
    case NamespaceKey => ("Namespace", namespace)
    case AccountKey => ("ServiceAccount", "kube-nova-sa")
    case BindingKey(name) => ("ClusterRoleBinding", name)
    case SecretKey => ("Secret", "kube-nova-secret")
    case ConfigMapKey(c) => ("ConfigMap", ConfigMapName(c))
    case DeploymentKey(c) => ("Deployment", ComponentName(c))
    case ServiceKey(c) => ("Service", ComponentName(c))
    case IngressKey => ("Ingress", "kube-nova-web")
  }

  lemma ComponentNamesDiffer(c: Component, d: Component)
    requires c != d
    ensures ComponentName(c) != ComponentName(d)
    ensures ConfigMapName(c) != ConfigMapName(d)
  {
    var m, n := ComponentName(c), ComponentName(d);
    assert |m| == |n| ==> m[0] != n[0] || m[|m| - 3] != n[|n| - 3];
    if c != WebFrontend && d != WebFrontend {
      assert ConfigMapName(c)[..|ConfigMapName(c)| - 7] == m && ConfigMapName(d)[..|ConfigMapName(d)| - 7] == n;
    } else {
      assert ConfigMapName(c)[0] != ConfigMapName(d)[0];
    }
  }

  /** Distinct keys are distinct objects of the cluster: nothing is lost by using keys for kinds and names. */
  lemma KeysNameDistinctObjects(namespace: string, k: Key, l: Key)
    requires k != l
    ensures KindAndName(namespace, k) != KindAndName(namespace, l)
  {
    var (kind, _) := KindAndName(namespace, k);
    var (kind', _) := KindAndName(namespace, l);
    assert |"Namespace"| == 9 && |"ServiceAccount"| == 14 && |"ClusterRoleBinding"| == 18;
    if (k.ConfigMapKey? && l.ConfigMapKey?) || (k.DeploymentKey? && l.DeploymentKey?)
       || (k.ServiceKey? && l.ServiceKey?) {
      ComponentNamesDiffer(k.c, l.c);
    } else if !(k.BindingKey? && l.BindingKey?) {
      assert |kind| == |kind'| ==> kind[0] != kind'[0];
    }
  }
}
