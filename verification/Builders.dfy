/** The manifests of the backend services, the web front end and the RBAC objects
    (internal/builder/service.go, web.go, rbac.go and the constructors of configmap.go and nginx.go). */
module Builders {
  import opened Types
  import opened Validation
  import opened Drift
  import opened Intent

  const ACCOUNT_NAME := "kube-nova-sa"
  const SECRET_NAME := "kube-nova-secret"

  function GetImageRegistry(spec: Spec): ImageRegistry {
    if spec.registry.Some? then spec.registry.value
    else ImageRegistry("registry.cn-hangzhou.aliyuncs.com", "kube-nova", "latest", "Always", [])
  }

  function DefaultImage(r: ImageRegistry, name: string): string {
    r.registry + "/" + r.organization + "/" + name + ":" + r.tag
  }

  // ---------- RBAC ----------

  /** The name under which the binding of an instance is created. */
  function BindingName(id: Id): string {
    "kube-nova-" + id.namespace + "-" + id.name + "-cluster-admin"
  }

  function BuildServiceAccount(): Object {
    Object(None, map[], AccountBody)
  }

  function BuildClusterRoleBinding(id: Id): Object {
    Object(None, map[], BindingBody(id.namespace))
  }

  // ---------- configuration ----------

  function BuildConfigMap(c: Component): Object {
    Object(None, map[], ConfigBody(BackendConfig(c)))
  }

  function BuildNginxConfigMap(spec: Spec): Object {
    Object(None, map[], ConfigBody(NginxConfig(spec.storage, spec.web)))
  }

  // ---------- backend services ----------

  /** What distinguishes one backend from another (the serviceConfig table). */
  datatype Backend = Backend(component: Component, port: int, config: Option<ServiceConfig>, registry: ImageRegistry,
                             needMinIOCerts: bool, minIOCertSecret: string, needCache: bool)

  function Port(c: Component): int {
    match c
    case PortalAPI => 8810
    case PortalRPC => 30010
    case ManagerAPI => 8811
    case ManagerRPC => 30011
    case WorkloadAPI => 8812
    case ConsoleAPI => 8818
    case ConsoleRPC => 30018
    case WebFrontend => 80
  }

  function BackendOf(spec: Spec, c: Component): Backend {
    Backend(c, Port(c), ServiceConfigOf(spec, c), GetImageRegistry(spec),
            c == PortalRPC && StorageTLS(spec),
            if c == PortalRPC && StorageTLS(spec) then spec.storage.tls.value.secretName else "",
            c == ConsoleAPI || c == ConsoleRPC)
  }

  function GetReplicas(cfg: Option<ServiceConfig>): (replicas: int)
    ensures replicas > 0
  {
    if cfg.None? || cfg.value.replicas <= 0 then 2 else cfg.value.replicas
  }

  function DefaultResources(): Resources {
    Resources(Some(map["memory" := "256Mi", "cpu" := "200m"]), Some(map["memory" := "512Mi", "cpu" := "1000m"]))
  }

  function GetServiceResources(cfg: Option<ServiceConfig>): Resources {
    if cfg.Some? && cfg.value.resources.Some? then cfg.value.resources.value else DefaultResources()
  }

  predicate MountsCerts(b: Backend) {
    b.needMinIOCerts && b.minIOCertSecret != ""
  }

  function ServiceMounts(b: Backend): seq<VolumeMount> {
    [VolumeMount("config", "/app/etc", "", true)]
    + (if MountsCerts(b) then [VolumeMount("minio-certs", "/app/etc/minio-certs", "", true)] else [])
    + (if b.needCache then [VolumeMount("cache", "/app/cache", "", false)] else [])
  }

  function ServiceVolumes(b: Backend): seq<Volume> {
    [Volume("config", FromConfigMap(ConfigMapName(b.component)))]
    + (if MountsCerts(b) then [Volume("minio-certs", FromSecret(b.minIOCertSecret))] else [])
    + (if b.needCache then [Volume("cache", Scratch)] else [])
  }

  function ServiceEnv(b: Backend): seq<EnvVar> {
    [EnvVar("TZ", "Asia/Shanghai", None), EnvVar("POD_NAMESPACE", "", Some("metadata.namespace"))]
    + (if b.config.Some? then b.config.value.env else [])
  }

  function ServiceImage(b: Backend): string {
    if b.config.Some? && b.config.value.image != "" then b.config.value.image
    else DefaultImage(b.registry, ComponentName(b.component))
  }

  /** The Deployment specification of a backend. */
  function BackendDeployment(b: Backend): DeploymentSpec {
    DeploymentSpec(Some(GetReplicas(b.config)),
      PodSpec([Container(ComponentName(b.component), ServiceImage(b), b.registry.pullPolicy,
                         [ContainerPort("", b.port), ContainerPort("metrics", 9999)], ServiceEnv(b),
                         Some(SECRET_NAME), ServiceMounts(b), GetServiceResources(b.config))],
              ServiceVolumes(b), ACCOUNT_NAME, b.registry.pullSecrets, ""))
  }

  function BackendService(b: Backend): ServiceSpec {
    ServiceSpec(ClusterIP, [ServicePort("http", b.port, b.port, 0)])
  }

  method GetServiceVolumeMounts(b: Backend) returns (mounts: seq<VolumeMount>)
    ensures mounts == ServiceMounts(b)
  {
    mounts := [VolumeMount("config", "/app/etc", "", true)];
    if b.needMinIOCerts && b.minIOCertSecret != "" {
      mounts := mounts + [VolumeMount("minio-certs", "/app/etc/minio-certs", "", true)];
    }
    if b.needCache {
      mounts := mounts + [VolumeMount("cache", "/app/cache", "", false)];
    }
  }

  method GetServiceVolumes(b: Backend) returns (volumes: seq<Volume>)
    ensures volumes == ServiceVolumes(b)
  {
    volumes := [Volume("config", FromConfigMap(ConfigMapName(b.component)))];
    if b.needMinIOCerts && b.minIOCertSecret != "" {
      volumes := volumes + [Volume("minio-certs", FromSecret(b.minIOCertSecret))];
    }
    if b.needCache {
      volumes := volumes + [Volume("cache", Scratch)];
    }
  }

  method CopyPullSecrets(secrets: seq<string>) returns (references: seq<string>)
    ensures references == secrets
  {
    references := [];
    for i := 0 to |secrets|
      invariant references == secrets[..i]
    {
      references := references + [secrets[i]];
    }
  }

  method BuildDeployment(b: Backend) returns (d: DeploymentSpec)
    ensures d == BackendDeployment(b)
  {
    var image := DefaultImage(b.registry, ComponentName(b.component));
    if b.config.Some? && b.config.value.image != "" {
      image := b.config.value.image;
    }
    var mounts := GetServiceVolumeMounts(b);
    var volumes := GetServiceVolumes(b);
    var env := [EnvVar("TZ", "Asia/Shanghai", None), EnvVar("POD_NAMESPACE", "", Some("metadata.namespace"))];
    if b.config.Some? && |b.config.value.env| > 0 {
      env := env + b.config.value.env;
    }
    var pullSecrets: seq<string> := [];
    if |b.registry.pullSecrets| > 0 {
      pullSecrets := CopyPullSecrets(b.registry.pullSecrets);
    }
    assert env == ServiceEnv(b) && pullSecrets == b.registry.pullSecrets;
    d := DeploymentSpec(Some(GetReplicas(b.config)),
      PodSpec([Container(ComponentName(b.component), image, b.registry.pullPolicy,
                         [ContainerPort("", b.port), ContainerPort("metrics", 9999)], env,
                         Some(SECRET_NAME), mounts, GetServiceResources(b.config))],
              volumes, ACCOUNT_NAME, pullSecrets, ""));
  }

  datatype ServiceResources = ServiceResources(deployment: DeploymentSpec, service: ServiceSpec)

  function EnabledBackends(spec: Spec): set<Component> {
    set c: Component | c != WebFrontend && ServiceEnabled(spec, c)
  }

  function ResourcesOf(spec: Spec, c: Component): ServiceResources {
    ServiceResources(BackendDeployment(BackendOf(spec, c)), BackendService(BackendOf(spec, c)))
  }

  predicate EachItsOwn(services: map<Component, ServiceResources>, spec: Spec) {
    forall c :: c in services ==> services[c] == ResourcesOf(spec, c)
  }

  method AddIfEnabled(services: map<Component, ServiceResources>, spec: Spec, c: Component)
    returns (extended: map<Component, ServiceResources>)
    requires EachItsOwn(services, spec)
    ensures EachItsOwn(extended, spec)
    ensures forall k :: k in extended <==> k in services || (k == c && ServiceEnabled(spec, c))
  {
    extended := services;
    if ServiceEnabled(spec, c) {
      var d := BuildDeployment(BackendOf(spec, c));
      extended := services[c := ServiceResources(d, BackendService(BackendOf(spec, c)))];
    }
  }

  lemma BackendIsWanted(spec: Spec, c: Component)
    requires c != WebFrontend
    ensures WantsBackend(spec, c, ServiceConfigOf(spec, c), ComponentName(c), Port(c),
                         BackendDeployment(BackendOf(spec, c)))
  {
    var b := BackendOf(spec, c);
    MountsAreWanted(spec, c);
    VolumesAreWanted(spec, c);
    ImageIsWanted(spec, c);
    hide ServiceMounts, ServiceVolumes, WantsMount, WantsVolume, WantsBackendImage, ServiceImage;
  }

  lemma MountsAreWanted(spec: Spec, c: Component)
    requires c != WebFrontend
    ensures forall m :: m in ServiceMounts(BackendOf(spec, c)) <==> WantsMount(spec, c, m)
  {
  }

  lemma VolumesAreWanted(spec: Spec, c: Component)
    requires c != WebFrontend
    ensures forall v :: v in ServiceVolumes(BackendOf(spec, c)) <==> WantsVolume(spec, c, ComponentName(c), v)
  {
    hide ComponentName;
  }

  lemma ImageIsWanted(spec: Spec, c: Component)
    ensures WantsBackendImage(spec, ServiceConfigOf(spec, c), ComponentName(c), ServiceImage(BackendOf(spec, c)))
  {
    hide ComponentName;
  }

  /** A backend is left out exactly when its section says so; otherwise it gets what its section asks for. */
  ghost predicate Listed(services: map<Component, ServiceResources>, spec: Spec, c: Component,
                         section: Option<ServiceConfig>, name: string, port: int) {
    && (c !in services <==> SwitchedOff(section))
    && (c in services ==>
          WantsBackend(spec, c, section, name, port, services[c].deployment)
          && services[c].service == ServiceSpec(ClusterIP, [ServicePort("http", port, port, 0)]))
  }

  lemma ItsOwnIsListed(services: map<Component, ServiceResources>, spec: Spec, c: Component)
    requires services.Keys == EnabledBackends(spec) && EachItsOwn(services, spec) && c != WebFrontend
    ensures Listed(services, spec, c, ServiceConfigOf(spec, c), ComponentName(c), Port(c))
  {
    hide WantsBackend, BackendDeployment;
    BackendIsWanted(spec, c);
  }

  /** The map holds exactly the enabled backends, each with its own manifests. */
  method BuildAllServices(spec: Spec) returns (services: map<Component, ServiceResources>)
    ensures services.Keys == EnabledBackends(spec)
    ensures EachItsOwn(services, spec)
    ensures Listed(services, spec, PortalAPI, spec.services.portalAPI, "portal-api", 8810)
    ensures Listed(services, spec, PortalRPC, spec.services.portalRPC, "portal-rpc", 30010)
    ensures Listed(services, spec, ManagerAPI, spec.services.managerAPI, "manager-api", 8811)
    ensures Listed(services, spec, ManagerRPC, spec.services.managerRPC, "manager-rpc", 30011)
    ensures Listed(services, spec, WorkloadAPI, spec.services.workloadAPI, "workload-api", 8812)
    ensures Listed(services, spec, ConsoleAPI, spec.services.consoleAPI, "console-api", 8818)
    ensures Listed(services, spec, ConsoleRPC, spec.services.consoleRPC, "console-rpc", 30018)
    ensures WebFrontend !in services
  {
    hide Listed, ResourcesOf, BackendOf, BackendDeployment, BackendService;
    services := map[];
    services := AddIfEnabled(services, spec, PortalAPI);
    services := AddIfEnabled(services, spec, PortalRPC);
    services := AddIfEnabled(services, spec, ManagerAPI);
    services := AddIfEnabled(services, spec, ManagerRPC);
    services := AddIfEnabled(services, spec, WorkloadAPI);
    services := AddIfEnabled(services, spec, ConsoleAPI);
    services := AddIfEnabled(services, spec, ConsoleRPC);
    forall c: Component ensures c in services <==> c in EnabledBackends(spec) {
      assert c in services <==> c != WebFrontend && ServiceEnabled(spec, c);
    }
    ItsOwnIsListed(services, spec, PortalAPI);
    ItsOwnIsListed(services, spec, PortalRPC);
    ItsOwnIsListed(services, spec, ManagerAPI);
    ItsOwnIsListed(services, spec, ManagerRPC);
    ItsOwnIsListed(services, spec, WorkloadAPI);
    ItsOwnIsListed(services, spec, ConsoleAPI);
    ItsOwnIsListed(services, spec, ConsoleRPC);
  }

  // ---------- web front end ----------

  predicate ServesHTTPS(web: WebConfig) {
    web.exposeType == "nodeport" && HTTPSEnabled(web)
  }

  predicate MountsTLS(web: WebConfig) {
    ServesHTTPS(web) && web.nodePort.value.https.value.secretName != ""
  }

  function GetWebReplicas(web: WebConfig): (replicas: int)
    ensures replicas > 0
  {
    if web.replicas <= 0 then 3 else web.replicas
  }

  function WebPorts(web: WebConfig): seq<ContainerPort> {
    [ContainerPort("http", 80)] + (if ServesHTTPS(web) then [ContainerPort("https", 443)] else [])
  }

  function WebMounts(web: WebConfig): seq<VolumeMount> {
    [VolumeMount("cache", "/var/cache/nginx", "", false),
     VolumeMount("logs", "/var/log/nginx", "", false),
     VolumeMount("run", "/var/run", "", false),
     VolumeMount("nginx-config", "/etc/nginx/nginx.conf", "nginx.conf", false),
     VolumeMount("nginx-config", "/etc/nginx/conf.d/default.conf", "default.conf", false)]
    + (if MountsTLS(web) then [VolumeMount("tls-certs", "/etc/nginx/certs", "", true)] else [])
  }

  function NginxConfigMapName(web: WebConfig): string {
    if web.customNginxConfigMap != "" then web.customNginxConfigMap else ConfigMapName(WebFrontend)
  }

  function WebVolumes(web: WebConfig): seq<Volume> {
    [Volume("nginx-config", FromConfigMap(NginxConfigMapName(web))),
     Volume("cache", Scratch), Volume("logs", Scratch), Volume("run", Scratch)]
    + (if MountsTLS(web) then [Volume("tls-certs", FromSecret(web.nodePort.value.https.value.secretName))] else [])
  }

  function WebResources(web: WebConfig): Resources {
    if web.resources.Some? then web.resources.value
    else Resources(Some(map["memory" := "128Mi", "cpu" := "100m"]), Some(map["memory" := "512Mi", "cpu" := "500m"]))
  }

  function WebDeployment(spec: Spec): DeploymentSpec {
    var registry := GetImageRegistry(spec);
    var image := if spec.web.image != "" then spec.web.image else DefaultImage(registry, ComponentName(WebFrontend));
    DeploymentSpec(Some(GetWebReplicas(spec.web)),
      PodSpec([Container(ComponentName(WebFrontend), image, registry.pullPolicy, WebPorts(spec.web),
                         [EnvVar("TZ", "Asia/Shanghai", None), EnvVar("NGINX_WORKER_PROCESSES", "auto", None),
                          EnvVar("NGINX_WORKER_CONNECTIONS", "4096", None)],
                         None, WebMounts(spec.web), WebResources(spec.web))],
              WebVolumes(spec.web), "", registry.pullSecrets, ""))
  }

  function WebService(web: WebConfig): ServiceSpec {
    if web.exposeType == "nodeport" then
      ServiceSpec(NodePort,
        [ServicePort("http", 80, 80,
           if web.nodePort.Some? && web.nodePort.value.httpPort > 0 then web.nodePort.value.httpPort else 0)]
        + (if HTTPSEnabled(web)
           then [ServicePort("https", 443, 443,
                   if web.nodePort.value.https.value.port > 0 then web.nodePort.value.https.value.port else 0)]
           else []))
    else
      ServiceSpec(ClusterIP, [ServicePort("http", 80, 80, 0)])
  }

  const SSL_REDIRECT := "nginx.ingress.kubernetes.io/ssl-redirect"
  const FORCE_SSL_REDIRECT := "nginx.ingress.kubernetes.io/force-ssl-redirect"

  function DefaultAnnotations(): map<string, string> {
    map["nginx.ingress.kubernetes.io/proxy-body-size" := "1024m",
        "nginx.ingress.kubernetes.io/proxy-connect-timeout" := "600",
        "nginx.ingress.kubernetes.io/proxy-send-timeout" := "600",
        "nginx.ingress.kubernetes.io/proxy-read-timeout" := "600",
        "nginx.ingress.kubernetes.io/proxy-buffer-size" := "8k",
        "nginx.ingress.kubernetes.io/proxy-buffers-number" := "4",
        "nginx.ingress.kubernetes.io/websocket-services" := "kube-nova-web",
        "nginx.ingress.kubernetes.io/proxy-http-version" := "1.1",
        "nginx.ingress.kubernetes.io/enable-cors" := "true",
        "nginx.ingress.kubernetes.io/cors-allow-methods" := "GET, POST, PUT, DELETE, OPTIONS, PATCH",
        "nginx.ingress.kubernetes.io/cors-allow-origin" := "*",
        "nginx.ingress.kubernetes.io/cors-allow-credentials" := "true",
        "nginx.ingress.kubernetes.io/cors-max-age" := "3600",
        "nginx.ingress.kubernetes.io/limit-rps" := "100",
        "nginx.ingress.kubernetes.io/limit-connections" := "50",
        "nginx.ingress.kubernetes.io/affinity" := "cookie",
        "nginx.ingress.kubernetes.io/affinity-mode" := "persistent",
        "nginx.ingress.kubernetes.io/session-cookie-name" := "route",
        "nginx.ingress.kubernetes.io/session-cookie-hash" := "sha1"]
  }

  /** The defaults, the two annotations that depend on the specification, then the user's own, which win. */
  function IngressAnnotations(web: WebConfig): map<string, string> {
    var redirect := if IngressTLSEnabled(web) then "true" else "false";
    DefaultAnnotations() + map[SSL_REDIRECT := redirect, FORCE_SSL_REDIRECT := redirect]
    + (if web.ingress.Some? then web.ingress.value.annotations else map[])
  }

  predicate HasIngress(web: WebConfig) {
    web.exposeType == "ingress" && web.ingress.Some?
  }

  function WebIngress(web: WebConfig): (ingress: Option<IngressSpec>)
    ensures ingress.Some? <==> HasIngress(web)
  {
    if web.exposeType != "ingress" || web.ingress.None? then None
    else
      var i := web.ingress.value;
      Some(IngressSpec(i.className, i.host,
             if IngressTLSEnabled(web) && i.tls.value.secretName != "" then Some(i.tls.value.secretName) else None,
             IngressAnnotations(web)))
  }

  method GetWebPorts(web: WebConfig) returns (ports: seq<ContainerPort>)
    ensures ports == WebPorts(web)
  {
    ports := [ContainerPort("http", 80)];
    if web.exposeType == "nodeport" && HTTPSEnabled(web) {
      ports := ports + [ContainerPort("https", 443)];
    }
  }

  method GetWebVolumeMounts(web: WebConfig) returns (mounts: seq<VolumeMount>)
    ensures mounts == WebMounts(web)
  {
    mounts := [VolumeMount("cache", "/var/cache/nginx", "", false),
               VolumeMount("logs", "/var/log/nginx", "", false),
               VolumeMount("run", "/var/run", "", false)];
    mounts := mounts + [VolumeMount("nginx-config", "/etc/nginx/nginx.conf", "nginx.conf", false),
                        VolumeMount("nginx-config", "/etc/nginx/conf.d/default.conf", "default.conf", false)];
    if web.exposeType == "nodeport" && HTTPSEnabled(web) && web.nodePort.value.https.value.secretName != "" {
      mounts := mounts + [VolumeMount("tls-certs", "/etc/nginx/certs", "", true)];
    }
  }

  method GetWebVolumes(web: WebConfig) returns (volumes: seq<Volume>)
    ensures volumes == WebVolumes(web)
  {
    var configMap := ConfigMapName(WebFrontend);
    if web.customNginxConfigMap != "" {
      configMap := web.customNginxConfigMap;
    }
    volumes := [Volume("nginx-config", FromConfigMap(configMap)),
                Volume("cache", Scratch), Volume("logs", Scratch), Volume("run", Scratch)];
    if web.exposeType == "nodeport" && HTTPSEnabled(web) && web.nodePort.value.https.value.secretName != "" {
      volumes := volumes + [Volume("tls-certs", FromSecret(web.nodePort.value.https.value.secretName))];
    }
  }

  method BuildWebService(web: WebConfig) returns (service: ServiceSpec)
    ensures service == WebService(web)
  {
    var ports := [ServicePort("http", 80, 80, 0)];
    var kind := ClusterIP;
    if web.exposeType == "nodeport" {
      kind := NodePort;
      if web.nodePort.Some? && web.nodePort.value.httpPort > 0 {
        ports := ports[0 := ports[0].(nodePort := web.nodePort.value.httpPort)];
      }
      if HTTPSEnabled(web) {
        var https := ServicePort("https", 443, 443, 0);
        if web.nodePort.value.https.value.port > 0 {
          https := https.(nodePort := web.nodePort.value.https.value.port);
        }
        ports := ports + [https];
      }
    }
    service := ServiceSpec(kind, ports);
  }

  method Overlay(base: map<string, string>, user: map<string, string>) returns (merged: map<string, string>)
    ensures merged == base + user
  {
    merged := base;
    var todo := user.Keys;
    while todo != {}
      invariant todo <= user.Keys
      invariant merged.Keys == base.Keys + (user.Keys - todo)
      invariant forall k :: k in merged ==> merged[k] == if k in user && k !in todo then user[k] else base[k]
      decreases |todo|
    {
      var k :| k in todo;
      merged := merged[k := user[k]];
      todo := todo - {k};
    }
  }

  method GetIngressAnnotations(web: WebConfig) returns (annotations: map<string, string>)
    ensures annotations == IngressAnnotations(web)
  {
    hide DefaultAnnotations;
    annotations := DefaultAnnotations()[SSL_REDIRECT := "false"][FORCE_SSL_REDIRECT := "false"];
    if IngressTLSEnabled(web) {
      annotations := annotations[SSL_REDIRECT := "true"][FORCE_SSL_REDIRECT := "true"];
    }
    if web.ingress.Some? {
      annotations := Overlay(annotations, web.ingress.value.annotations);
    }
  }

  lemma WebIsWanted(spec: Spec)
    ensures WantsWeb(spec, WebDeployment(spec))
    ensures WebDeployment(spec).template.serviceAccountName == ""
    ensures WantsWebResources(spec.web, WebDeployment(spec).template.containers[0].resources)
  {
    var mounts, volumes := WebMounts(spec.web), WebVolumes(spec.web);
    assert forall m :: m in mounts <==> WantsWebMount(spec.web, m);
    assert forall v :: v in volumes <==> WantsWebVolume(spec.web, v);
    hide WebMounts, WebVolumes, WantsWebMount, WantsWebVolume;
  }

  lemma WebServiceIsWanted(web: WebConfig)
    ensures WantsWebService(web, WebService(web))
  {
  }

  lemma IngressIsWanted(web: WebConfig)
    ensures WantsIngress(web, DefaultAnnotations(), WebIngress(web))
  {
    hide DefaultAnnotations;
  }

  datatype WebManifests = WebManifests(nginxConfig: Option<Object>, deployment: DeploymentSpec, service: ServiceSpec,
                                       ingress: Option<IngressSpec>)

  method BuildWebDeployment(spec: Spec) returns (d: DeploymentSpec)
    ensures d == WebDeployment(spec)
  {
    var registry := GetImageRegistry(spec);
    var image := DefaultImage(registry, ComponentName(WebFrontend));
    if spec.web.image != "" {
      image := spec.web.image;
    }
    var ports := GetWebPorts(spec.web);
    var mounts := GetWebVolumeMounts(spec.web);
    var volumes := GetWebVolumes(spec.web);
    var pullSecrets := CopyPullSecrets(registry.pullSecrets);
    d := DeploymentSpec(Some(GetWebReplicas(spec.web)),
      PodSpec([Container(ComponentName(WebFrontend), image, registry.pullPolicy, ports,
                         [EnvVar("TZ", "Asia/Shanghai", None), EnvVar("NGINX_WORKER_PROCESSES", "auto", None),
                          EnvVar("NGINX_WORKER_CONNECTIONS", "4096", None)],
                         None, mounts, WebResources(spec.web))],
              volumes, "", pullSecrets, ""));
  }

  method BuildWebResources(spec: Spec) returns (m: WebManifests)
    ensures m.nginxConfig == if spec.web.customNginxConfigMap == "" then Some(BuildNginxConfigMap(spec)) else None
    ensures m.deployment == WebDeployment(spec) && m.service == WebService(spec.web)
    ensures m.ingress == WebIngress(spec.web)
    ensures m.nginxConfig.Some? <==> spec.web.customNginxConfigMap == ""
    ensures m.nginxConfig.Some? ==> m.nginxConfig.value.body == ConfigBody(NginxConfig(spec.storage, spec.web))
    ensures WantsWeb(spec, m.deployment) && WantsWebService(spec.web, m.service)
    ensures WantsWebResources(spec.web, m.deployment.template.containers[0].resources)
    ensures m.deployment.template.serviceAccountName == ""
    ensures WantsIngress(spec.web, DefaultAnnotations(), m.ingress)
  {
    hide WebDeployment, WebService, IngressAnnotations, WantsWeb, WantsWebService, WantsWebResources, WantsIngress,
      DefaultAnnotations;
    WebIsWanted(spec);
    WebServiceIsWanted(spec.web);
    IngressIsWanted(spec.web);
    var config := None;
    if spec.web.customNginxConfigMap == "" {
      config := Some(BuildNginxConfigMap(spec));
    }
    var deployment := BuildWebDeployment(spec);
    var service := BuildWebService(spec.web);
    var ingress := None;
    if spec.web.exposeType == "ingress" && spec.web.ingress.Some? {
      var i := spec.web.ingress.value;
      var annotations := GetIngressAnnotations(spec.web);
      var tls := None;
      if IngressTLSEnabled(spec.web) && i.tls.value.secretName != "" {
        tls := Some(i.tls.value.secretName);
      }
      ingress := Some(IngressSpec(i.className, i.host, tls, annotations));
    }
    m := WebManifests(config, deployment, service, ingress);
  }

  // ---------- what the manifests guarantee ----------

  /** Volume names are distinct and every mount of the first container names a declared volume. */
  predicate Closed(pod: PodSpec) {
    |pod.containers| > 0
    && Distinct(VolumeNames(pod.volumes))
    && forall m :: m in pod.containers[0].mounts ==> m.name in VolumeNames(pod.volumes)
  }

  lemma VolumeNamesOf(volumes: seq<Volume>, v: Volume)
    requires v in volumes
    ensures v.name in VolumeNames(volumes)
  {
    var i :| 0 <= i < |volumes| && volumes[i] == v;
    assert VolumeNames(volumes)[i] == v.name;
  }

  lemma BackendManifestIsClosed(b: Backend)
    ensures Closed(BackendDeployment(b).template)
  {
    var volumes := ServiceVolumes(b);
    assert "config" != "cache" by { assert "config"[1] != "cache"[1]; }
    assert |"minio-certs"| == 11;
    forall m | m in ServiceMounts(b) ensures m.name in VolumeNames(volumes) {
      var source := if m.name == "config" then volumes[0]
                    else if m.name == "cache" then volumes[|volumes| - 1] else volumes[1];
      VolumeNamesOf(volumes, source);
    }
  }

  /** Backend manifests can be compared and compare equal to themselves, so a deployed one is left alone. */
  lemma BackendManifestIsComparable(b: Backend)
    ensures Comparable(BackendDeployment(b)) && SpecEqual(BackendDeployment(b), BackendDeployment(b))
  {
    BackendManifestIsClosed(b);
    assert "config" != "cache" by { assert "config"[1] != "cache"[1]; }
    assert |"minio-certs"| == 11;
    assert Distinct(MountNames(ServiceMounts(b)));
    SelfEqualIffOnePathPerName(BackendDeployment(b));
  }

  // ---------- what the store makes of quantities ----------

  /** A deployed backend is left alone exactly when its resources are in the form the store gives them. */
  lemma StoredBackendIsAcceptedIffCanonical(canon: Canon, b: Backend)
    ensures SpecEqual(StoredForm(canon, BackendDeployment(b)), BackendDeployment(b))
            <==> CanonicalResources(canon, GetServiceResources(b.config)) == GetServiceResources(b.config)
  {
    hide CanonicalResources, GetServiceResources;
    BackendManifestIsComparable(b);
    var d := BackendDeployment(b);
    assert StoredForm(canon, d).template.containers[0]
        == d.template.containers[0].(resources := CanonicalResources(canon, d.template.containers[0].resources));
  }

  lemma TwoQuantities(canon: Canon, memory: string, cpu: string)
    ensures var list := Some(map["memory" := memory, "cpu" := cpu]);
      Canonical(canon, list) == list <==> canon(memory) == memory && canon(cpu) == cpu
  {
    assert |"memory"| != |"cpu"|;
    var list := map["memory" := memory, "cpu" := cpu];
    var stored := map k | k in list :: canon(list[k]);
    assert "memory" in list && "cpu" in list && list["memory"] == memory && list["cpu"] == cpu;
    assert list != map[] && stored["memory"] == canon(memory) && stored["cpu"] == canon(cpu);
    if canon(memory) == memory && canon(cpu) == cpu {
      assert forall k :: k in list ==> stored[k] == list[k];
      assert stored == list;
    }
  }

  /** With the default resources that is so exactly when the store keeps these four texts. */
  lemma DefaultBackendIsAcceptedIff(canon: Canon, b: Backend)
    requires b.config.None? || b.config.value.resources.None?
    ensures SpecEqual(StoredForm(canon, BackendDeployment(b)), BackendDeployment(b))
            <==> canon("256Mi") == "256Mi" && canon("200m") == "200m"
                 && canon("512Mi") == "512Mi" && canon("1000m") == "1000m"
  {
    hide StoredForm, BackendDeployment, SpecEqual, Canonical;
    StoredBackendIsAcceptedIffCanonical(canon, b);
    TwoQuantities(canon, "256Mi", "200m");
    TwoQuantities(canon, "512Mi", "1000m");
  }

  lemma WebManifestIsClosed(spec: Spec)
    ensures Closed(WebDeployment(spec).template)
  {
    var volumes, mounts := WebVolumes(spec.web), WebMounts(spec.web);
    WebVolumeNamesDiffer(spec.web);
    forall m | m in mounts ensures m.name in VolumeNames(volumes) {
      var i :| 0 <= i < |mounts| && mounts[i] == m;
      var source := if i < 3 then volumes[i + 1] else if i < 5 then volumes[0] else volumes[4];
      assert source.name == m.name;
      VolumeNamesOf(volumes, source);
    }
  }

  lemma WebVolumeNamesDiffer(web: WebConfig)
    ensures Distinct(VolumeNames(WebVolumes(web)))
  {
    assert |"nginx-config"| == 12 && |"cache"| == 5 && |"logs"| == 4 && |"run"| == 3 && |"tls-certs"| == 9;
    var names := VolumeNames(WebVolumes(web));
    assert |names[0]| == 12 && |names[1]| == 5 && |names[2]| == 4 && |names[3]| == 3;
    assert |names| == 5 ==> |names[4]| == 9;
  }

  /** The web manifest mounts nginx-config at two paths, so whatever is stored is found to have drifted. */
  lemma WebManifestAlwaysDrifts(spec: Spec)
    ensures forall existing :: !SpecEqual(existing, WebDeployment(spec))
  {
    var mounts := WebMounts(spec.web);
    assert mounts[3].name == mounts[4].name && |mounts[3].mountPath| != |mounts[4].mountPath|;
    TwoPathsDifferFromEverything(WebDeployment(spec));
  }

  predicate HasContainerPort443(spec: Spec) {
    exists p :: p in WebDeployment(spec).template.containers[0].ports && p.port == 443
  }

  predicate HasHTTPSServicePort(spec: Spec) {
    exists p :: p in WebService(spec.web).ports && p.name == "https"
  }

  predicate HasMount(d: DeploymentSpec, name: string) {
    |d.template.containers| > 0 && name in MountNames(d.template.containers[0].mounts)
  }

  lemma WebMountNames(web: WebConfig)
    ensures "tls-certs" in MountNames(WebMounts(web)) <==> MountsTLS(web)
  {
    var mounts, names := WebMounts(web), MountNames(WebMounts(web));
    assert |"tls-certs"| == 9 && |"nginx-config"| == 12;
    if MountsTLS(web) {
      assert names[5] == "tls-certs";
    } else {
      assert forall i :: 0 <= i < |names| ==> |names[i]| != 9;
    }
  }

  /** Container port, Service port and certificate mount appear together or not at all,
      exactly when HTTPS is not enabled without a certificate. */
  lemma HTTPSIsAllOrNothing(spec: Spec)
    ensures HasContainerPort443(spec) <==> HasHTTPSServicePort(spec)
    ensures HasContainerPort443(spec) <==> ServesHTTPS(spec.web)
    ensures (HasContainerPort443(spec) <==> HasMount(WebDeployment(spec), "tls-certs")) <==>
            !(ServesHTTPS(spec.web) && spec.web.nodePort.value.https.value.secretName == "")
  {
    var ports, service := WebPorts(spec.web), WebService(spec.web).ports;
    assert |"http"| == 4 && |"https"| == 5;
    if ServesHTTPS(spec.web) {
      assert ports[1].port == 443 && service[1].name == "https";
    }
    WebMountNames(spec.web);
  }

  /** What acceptance of a specification adds: no HTTPS without certificate, an Ingress in ingress mode. */
  lemma AcceptedWebIsComplete(spec: Spec)
    requires Accepted(spec)
    ensures HasContainerPort443(spec) <==> HasMount(WebDeployment(spec), "tls-certs")
    ensures spec.web.exposeType == "ingress" <==> WebIngress(spec.web).Some?
    ensures spec.web.exposeType == "ingress" ==>
      (WebIngress(spec.web).value.tlsSecret.Some? <==> IngressTLSEnabled(spec.web))
  {
    HTTPSIsAllOrNothing(spec);
  }
}
