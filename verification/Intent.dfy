/** What a specification asks for, in terms of its own fields: the yardstick for what the builders build and for
    what the rounds of the worker leave in the store. */
module Intent {
  import opened Types
  import opened Drift

  /** An image of one's own, or the one of this name in the registry. */
  predicate WantsImage(spec: Spec, own: string, name: string, image: string) {
    if own != "" then image == own
    else match spec.registry
      case Some(r) => image == r.registry + "/" + r.organization + "/" + name + ":" + r.tag
      case None => image == "registry.cn-hangzhou.aliyuncs.com" + "/" + "kube-nova" + "/" + name + ":" + "latest"
  }

  /** How images are pulled, and with which secrets. */
  predicate WantsPull(spec: Spec, policy: string, secrets: seq<string>) {
    match spec.registry
    case Some(r) => policy == r.pullPolicy && secrets == r.pullSecrets
    case None => policy == "Always" && secrets == []
  }

  // ---------- backends ----------

  /** The only way to leave a backend out is to say so in its section. */
  predicate SwitchedOff(section: Option<ServiceConfig>) {
    section.Some? && section.value.enabled == Some(false)
  }

  predicate WantsReplicas(section: Option<ServiceConfig>, n: int) {
    match section
    case Some(s) => if s.replicas > 0 then n == s.replicas else n == 2
    case None => n == 2
  }

  predicate WantsBackendImage(spec: Spec, section: Option<ServiceConfig>, name: string, image: string) {
    match section
    case Some(s) => WantsImage(spec, s.image, name, image)
    case None => WantsImage(spec, "", name, image)
  }

  /** The section's values, and the time zone unless the section gives another. */
  ghost predicate WantsValue(section: Option<ServiceConfig>, name: string, value: string) {
    (section.Some? && Says(section.value.env, name, value))
    || (name == "TZ" && value == "Asia/Shanghai"
        && (section.Some? ==> forall v :: !Says(section.value.env, "TZ", v)))
  }

  predicate WantsResources(section: Option<ServiceConfig>, r: Resources) {
    if section.Some? && section.value.resources.Some? then r == section.value.resources.value
    else r == Resources(Some(map["memory" := "256Mi", "cpu" := "200m"]),
                        Some(map["memory" := "512Mi", "cpu" := "1000m"]))
  }

  /** Only portal-rpc talks to the object storage itself. */
  predicate WantsCerts(spec: Spec, c: Component) {
    c == PortalRPC && spec.storage.tls.Some? && spec.storage.tls.value.enabled
    && spec.storage.tls.value.secretName != ""
  }

  predicate WantsMount(spec: Spec, c: Component, m: VolumeMount) {
    || m == VolumeMount("config", "/app/etc", "", true)
    || (m == VolumeMount("minio-certs", "/app/etc/minio-certs", "", true) && WantsCerts(spec, c))
    || (m == VolumeMount("cache", "/app/cache", "", false) && c in {ConsoleAPI, ConsoleRPC})
  }

  predicate WantsVolume(spec: Spec, c: Component, name: string, v: Volume) {
    || v == Volume("config", FromConfigMap(name + "-config"))
    || (WantsCerts(spec, c) && v == Volume("minio-certs", FromSecret(spec.storage.tls.value.secretName)))
    || (v == Volume("cache", Scratch) && c in {ConsoleAPI, ConsoleRPC})
  }

  /** This Deployment is what the specification, with this section of it, asks for under this name and port. */
  ghost predicate WantsBackend(spec: Spec, c: Component, section: Option<ServiceConfig>, name: string, port: int,
                               d: DeploymentSpec) {
    && d.replicas.Some? && WantsReplicas(section, d.replicas.value)
    && |d.template.containers| == 1
    && (var x := d.template.containers[0];
        && x.name == name && WantsBackendImage(spec, section, name, x.image)
        && WantsPull(spec, x.pullPolicy, d.template.imagePullSecrets)
        && x.ports == [ContainerPort("", port), ContainerPort("metrics", 9999)]
        && x.env == [EnvVar("TZ", "Asia/Shanghai", None), EnvVar("POD_NAMESPACE", "", Some("metadata.namespace"))]
                    + (if section.Some? then section.value.env else [])
        && x.envFromSecret == Some("kube-nova-secret")
        && (forall m :: m in x.mounts <==> WantsMount(spec, c, m))
        && WantsResources(section, x.resources))
    && (forall v :: v in d.template.volumes <==> WantsVolume(spec, c, name, v))
    && d.template.serviceAccountName == "kube-nova-sa"
  }

  // ---------- web front end ----------

  predicate WantsHTTPS(web: WebConfig) {
    web.nodePort.Some? && web.nodePort.value.https.Some? && web.nodePort.value.https.value.enabled
  }

  predicate WantsWebPorts(web: WebConfig, ports: seq<ContainerPort>) {
    if web.exposeType == "nodeport" && WantsHTTPS(web)
    then ports == [ContainerPort("http", 80), ContainerPort("https", 443)]
    else ports == [ContainerPort("http", 80)]
  }

  predicate WantsWebMount(web: WebConfig, m: VolumeMount) {
    || m == VolumeMount("cache", "/var/cache/nginx", "", false)
    || m == VolumeMount("logs", "/var/log/nginx", "", false)
    || m == VolumeMount("run", "/var/run", "", false)
    || m == VolumeMount("nginx-config", "/etc/nginx/nginx.conf", "nginx.conf", false)
    || m == VolumeMount("nginx-config", "/etc/nginx/conf.d/default.conf", "default.conf", false)
    || (m == VolumeMount("tls-certs", "/etc/nginx/certs", "", true)
        && web.exposeType == "nodeport" && WantsHTTPS(web) && web.nodePort.value.https.value.secretName != "")
  }

  predicate WantsWebVolume(web: WebConfig, v: Volume) {
    || v in {Volume("cache", Scratch), Volume("logs", Scratch), Volume("run", Scratch)}
    || v == Volume("nginx-config", FromConfigMap(
              if web.customNginxConfigMap == "" then "frontend-nginx-config" else web.customNginxConfigMap))
    || (web.exposeType == "nodeport" && WantsHTTPS(web) && web.nodePort.value.https.value.secretName != ""
        && v == Volume("tls-certs", FromSecret(web.nodePort.value.https.value.secretName)))
  }

  predicate WantsWebResources(web: WebConfig, r: Resources) {
    match web.resources
    case Some(own) => r == own
    case None => r == Resources(Some(map["memory" := "128Mi", "cpu" := "100m"]),
                                Some(map["memory" := "512Mi", "cpu" := "500m"]))
  }

  /** Everything about the web Deployment but its resources and its account. */
  ghost predicate WantsWeb(spec: Spec, d: DeploymentSpec) {
    && d.replicas == Some(if spec.web.replicas > 0 then spec.web.replicas else 3)
    && |d.template.containers| == 1
    && (var x := d.template.containers[0];
        && x.name == "kube-nova-web" && WantsImage(spec, spec.web.image, "kube-nova-web", x.image)
        && WantsPull(spec, x.pullPolicy, d.template.imagePullSecrets)
        && WantsWebPorts(spec.web, x.ports)
        && x.env == [EnvVar("TZ", "Asia/Shanghai", None), EnvVar("NGINX_WORKER_PROCESSES", "auto", None),
                     EnvVar("NGINX_WORKER_CONNECTIONS", "4096", None)]
        && x.envFromSecret == None
        && (forall m :: m in x.mounts <==> WantsWebMount(spec.web, m)))
    && (forall v :: v in d.template.volumes <==> WantsWebVolume(spec.web, v))
  }

  /** In nodeport mode with the node ports the user chose, 0 where he did not; otherwise inside the cluster only. */
  predicate WantsWebService(web: WebConfig, s: ServiceSpec) {
    if web.exposeType == "nodeport" then
      && s.kind == NodePort && |s.ports| == (if WantsHTTPS(web) then 2 else 1)
      && s.ports[0].name == "http" && s.ports[0].port == s.ports[0].targetPort == 80
      && (s.ports[0].nodePort > 0 ==> web.nodePort.Some? && web.nodePort.value.httpPort == s.ports[0].nodePort)
      && (web.nodePort.Some? && web.nodePort.value.httpPort > 0 ==> s.ports[0].nodePort == web.nodePort.value.httpPort)
      && s.ports[0].nodePort >= 0
      && (WantsHTTPS(web) ==>
            && s.ports[1].name == "https" && s.ports[1].port == s.ports[1].targetPort == 443
            && var chosen := web.nodePort.value.https.value.port;
               s.ports[1].nodePort == if chosen > 0 then chosen else 0)
    else
      s.kind == ClusterIP && s.ports == [ServicePort("http", 80, 80, 0)]
  }

  /** The user's annotations win over everything, the two redirects follow TLS. */
  ghost predicate WantsAnnotations(own: map<string, string>, tls: bool, defaults: map<string, string>,
                                   annotations: map<string, string>) {
    && (forall k :: k in own ==> k in annotations && annotations[k] == own[k])
    && (forall k :: k !in own
                    && k in {"nginx.ingress.kubernetes.io/ssl-redirect",
                             "nginx.ingress.kubernetes.io/force-ssl-redirect"} ==>
          k in annotations && annotations[k] == if tls then "true" else "false")
    && (forall k :: k in defaults && k !in own
                    && k !in {"nginx.ingress.kubernetes.io/ssl-redirect",
                              "nginx.ingress.kubernetes.io/force-ssl-redirect"} ==>
          k in annotations && annotations[k] == defaults[k])
    && (forall k :: k in annotations ==>
          k in own || k in defaults || k in {"nginx.ingress.kubernetes.io/ssl-redirect",
                                             "nginx.ingress.kubernetes.io/force-ssl-redirect"})
  }

  ghost predicate WantsIngress(web: WebConfig, defaults: map<string, string>, i: Option<IngressSpec>) {
    if web.exposeType != "ingress" || web.ingress.None? then i == None
    else
      var own := web.ingress.value;
      var tls := own.tls.Some? && own.tls.value.enabled;
      && i.Some? && i.value.className == own.className && i.value.host == own.host
      && (i.value.tlsSecret.Some? <==> tls && own.tls.value.secretName != "")
      && (i.value.tlsSecret.Some? ==> i.value.tlsSecret.value == own.tls.value.secretName)
      && WantsAnnotations(own.annotations, tls, defaults, i.value.annotations)
  }

  // ---------- what is stored ----------

  /** The quantities are the wanted ones, or the form the store gives them. */
  predicate AsWantedOrStored(canon: Canon, wanted: Quantities, stored: Quantities) {
    stored == wanted
    || (if wanted == None || wanted == Some(map[]) then stored == None
        else stored.Some? && stored.value.Keys == wanted.value.Keys
             && forall k :: k in stored.value ==> stored.value[k] == canon(wanted.value[k]))
  }

  /** A stored backend Deployment runs what the specification asks for: as many replicas, this image, these values,
      resources, mounts and volume names, this account. */
  ghost predicate RunsBackend(canon: Canon, spec: Spec, c: Component, d: DeploymentSpec) {
    var section := ServiceConfigOf(spec, c);
    && d.replicas.Some? && WantsReplicas(section, d.replicas.value)
    && |d.template.containers| == 1
    && (var x := d.template.containers[0];
        && WantsBackendImage(spec, section, ComponentName(c), x.image)
        && (forall n, v :: Says(x.env, n, v) <==> WantsValue(section, n, v))
        && (exists r :: WantsResources(section, r) && AsWantedOrStored(canon, r.requests, x.resources.requests)
                        && AsWantedOrStored(canon, r.limits, x.resources.limits))
        && (forall n, p :: Mounted(x.mounts, n, p)
                           <==> exists m :: WantsMount(spec, c, m) && m.name == n && m.mountPath == p))
    && (forall n :: n in VolumeNames(d.template.volumes)
                    <==> exists v :: WantsVolume(spec, c, ComponentName(c), v) && v.name == n)
    && d.template.serviceAccountName == "kube-nova-sa"
  }

  /** A stored web Deployment runs what the specification asks for. */
  ghost predicate RunsWeb(canon: Canon, spec: Spec, d: DeploymentSpec) {
    WantsWeb(spec, d)
    && exists r :: WantsWebResources(spec.web, r)
                   && AsWantedOrStored(canon, r.requests, d.template.containers[0].resources.requests)
                   && AsWantedOrStored(canon, r.limits, d.template.containers[0].resources.limits)
  }
}
