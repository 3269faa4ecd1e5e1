/** The Secret and the addresses derived from the web Service: internal/builder/secret.go,
    GetMinIOEndpointForBackendWithNodeInfo of api/v1/kubenova_types.go, and the port scans of
    getWebNodePort and updateAccessInfo in internal/controller/kubenova_controller.go. */
module Endpoints {
  import opened Types
  import opened Validation
  import opened Builders
  import opened Drift
  import opened Intent

  // ---------- decimal numbers ----------

  function Digits(n: nat): (s: string)
    ensures s != [] && forall c :: c in s ==> '0' <= c <= '9'
  {
    if n < 10 then [(n + '0' as int) as char] else Digits(n / 10) + [(n % 10 + '0' as int) as char]
  }

  function Decimal(n: int): string {
    if n < 0 then "-" + Digits(-n) else Digits(n)
  }

  lemma {:induction false} DigitsAreInjective(m: nat, n: nat)
    requires Digits(m) == Digits(n)
    ensures m == n
  {
    var s := Digits(m);
    if m >= 10 && n >= 10 {
      assert s[..|s| - 1] == Digits(m / 10) && s[..|s| - 1] == Digits(n / 10);
      DigitsAreInjective(m / 10, n / 10);
      assert s[|s| - 1] == (m % 10 + '0' as int) as char == (n % 10 + '0' as int) as char;
    }
  }

  /** The number a decimal text stands for. */
  function Number(s: string): int {
    if s == [] then 0 else if s[0] == '-' then -Value(s[1..]) else Value(s)
  }

  function Value(digits: string): int {
    if digits == [] then 0
    else 10 * Value(digits[..|digits| - 1]) + (digits[|digits| - 1] as int - '0' as int)
  }

  lemma {:induction false} DigitsReadBack(n: nat)
    ensures Value(Digits(n)) == n
  {
    if n >= 10 {
      var s := Digits(n);
      assert s[..|s| - 1] == Digits(n / 10);
      DigitsReadBack(n / 10);
    }
  }

  lemma DecimalReadsBack(n: int)
    ensures Number(Decimal(n)) == n
  {
    DigitsReadBack(if n < 0 then -n else n);
    var s := Decimal(n);
    if n < 0 {
      assert s[1..] == Digits(-n);
    } else {
      assert s[0] in Digits(n);
    }
  }

  function Truth(b: bool): string {
    if b then "true" else "false"
  }

  // ---------- port scans ----------

  /** The allocated node port of the first port with this name. */
  function FirstNodePort(ports: seq<ServicePort>, name: string): Option<int> {
    if ports == [] then None
    else if ports[0].name == name && ports[0].nodePort > 0 then Some(ports[0].nodePort)
    else FirstNodePort(ports[1..], name)
  }

  /** The allocated node port of the last port with this name, 0 if there is none. */
  function LastNodePort(ports: seq<ServicePort>, name: string): int {
    if ports == [] then 0
    else
      var last := ports[|ports| - 1];
      if last.name == name && last.nodePort > 0 then last.nodePort else LastNodePort(ports[..|ports| - 1], name)
  }

  /** The first allocated port of this name has this number. */
  ghost predicate IsFirstPort(ports: seq<ServicePort>, name: string, number: int) {
    exists i :: 0 <= i < |ports| && ports[i].name == name && ports[i].nodePort == number && number > 0
                && forall j :: 0 <= j < i ==> !(ports[j].name == name && ports[j].nodePort > 0)
  }

  /** The last allocated port of this name has this number. */
  ghost predicate IsLastPort(ports: seq<ServicePort>, name: string, number: int) {
    exists i :: 0 <= i < |ports| && ports[i].name == name && ports[i].nodePort == number && number > 0
                && forall j :: i < j < |ports| ==> !(ports[j].name == name && ports[j].nodePort > 0)
  }

  predicate Hits(p: ServicePort, name: string) {
    p.name == name && p.nodePort > 0
  }

  lemma FirstPortOfLonger(p: ServicePort, rest: seq<ServicePort>, name: string, number: int)
    ensures IsFirstPort([p] + rest, name, number)
            <==> if Hits(p, name) then number == p.nodePort else IsFirstPort(rest, name, number)
  {
    var longer := [p] + rest;
    if Hits(p, name) {
      assert longer[0] == p;
    } else {
      if i :| 0 <= i < |rest| && rest[i].name == name && rest[i].nodePort == number && number > 0
              && forall j :: 0 <= j < i ==> !(rest[j].name == name && rest[j].nodePort > 0) {
        assert longer[i + 1] == rest[i];
        assert forall j :: 0 < j < i + 1 ==> longer[j] == rest[j - 1];
      }
      if i :| 0 <= i < |longer| && longer[i].name == name && longer[i].nodePort == number && number > 0
              && forall j :: 0 <= j < i ==> !(longer[j].name == name && longer[j].nodePort > 0) {
        assert rest[i - 1] == longer[i];
        assert forall j :: 0 <= j < i - 1 ==> rest[j] == longer[j + 1];
      }
    }
  }

  lemma LastPortOfLonger(rest: seq<ServicePort>, p: ServicePort, name: string, number: int)
    ensures IsLastPort(rest + [p], name, number)
            <==> if Hits(p, name) then number == p.nodePort else IsLastPort(rest, name, number)
  {
    var longer, n := rest + [p], |rest|;
    if Hits(p, name) {
      assert longer[n] == p;
    } else {
      if i :| 0 <= i < n && rest[i].name == name && rest[i].nodePort == number && number > 0
              && forall j :: i < j < n ==> !(rest[j].name == name && rest[j].nodePort > 0) {
        assert longer[i] == rest[i];
        assert forall j :: i < j < n ==> longer[j] == rest[j];
      }
      if i :| 0 <= i < n + 1 && longer[i].name == name && longer[i].nodePort == number && number > 0
              && forall j :: i < j < n + 1 ==> !(longer[j].name == name && longer[j].nodePort > 0) {
        assert forall j :: i <= j < n ==> rest[j] == longer[j];
      }
    }
  }

  lemma NoPortAtAll(name: string, number: int)
    ensures !IsFirstPort([], name, number) && !IsLastPort([], name, number)
  {
  }

  lemma {:induction false} FirstNodePortIsFirst(ports: seq<ServicePort>, name: string, number: int)
    ensures FirstNodePort(ports, name) == Some(number) <==> IsFirstPort(ports, name, number)
  {
    hide IsFirstPort;
    NoPortAtAll(name, number);
    if ports != [] {
      FirstNodePortIsFirst(ports[1..], name, number);
      FirstPortOfLonger(ports[0], ports[1..], name, number);
      assert ports == [ports[0]] + ports[1..];
    }
  }

  lemma {:induction false} LastNodePortIsLast(ports: seq<ServicePort>, name: string, number: int)
    requires number > 0
    ensures LastNodePort(ports, name) == number <==> IsLastPort(ports, name, number)
  {
    hide IsLastPort;
    NoPortAtAll(name, number);
    if ports != [] {
      var n := |ports| - 1;
      LastNodePortIsLast(ports[..n], name, number);
      LastPortOfLonger(ports[..n], ports[n], name, number);
      assert ports == ports[..n] + [ports[n]];
    }
  }

  method FindNodePort(ports: seq<ServicePort>, name: string) returns (port: Option<int>)
    ensures port == FirstNodePort(ports, name)
    ensures forall number :: port == Some(number) <==> IsFirstPort(ports, name, number)
  {
    hide IsFirstPort;
    forall number ensures FirstNodePort(ports, name) == Some(number) <==> IsFirstPort(ports, name, number) {
      FirstNodePortIsFirst(ports, name, number);
    }
    for i := 0 to |ports|
      invariant FirstNodePort(ports, name) == FirstNodePort(ports[i..], name)
    {
      assert ports[i..][1..] == ports[i + 1..];
      if ports[i].name == name && ports[i].nodePort > 0 {
        return Some(ports[i].nodePort);
      }
    }
    return None;
  }

  method ScanNodePorts(ports: seq<ServicePort>) returns (http: int, https: int)
    ensures http == LastNodePort(ports, "http") && https == LastNodePort(ports, "https")
    ensures forall number :: number > 0 ==> (http == number <==> IsLastPort(ports, "http", number))
    ensures forall number :: number > 0 ==> (https == number <==> IsLastPort(ports, "https", number))
    ensures http >= 0 && https >= 0
  {
    hide IsLastPort;
    forall number, name: string | number > 0
      ensures LastNodePort(ports, name) == number <==> IsLastPort(ports, name, number)
    {
      LastNodePortIsLast(ports, name, number);
    }
    http, https := 0, 0;
    for i := 0 to |ports|
      invariant http >= 0 && https >= 0
      invariant http == LastNodePort(ports[..i], "http") && https == LastNodePort(ports[..i], "https")
    {
      assert ports[..i + 1][..i] == ports[..i];
      if ports[i].name == "http" && ports[i].nodePort > 0 {
        http := ports[i].nodePort;
      }
      if ports[i].name == "https" && ports[i].nodePort > 0 {
        https := ports[i].nodePort;
      }
    }
    assert ports[..|ports|] == ports;
  }

  predicate DistinctPorts(ports: seq<ServicePort>) {
    forall i, j :: 0 <= i < j < |ports| ==> ports[i].name != ports[j].name
  }

  predicate AllAllocated(ports: seq<ServicePort>) {
    forall p :: p in ports ==> p.nodePort > 0
  }

  predicate HasPort(ports: seq<ServicePort>, name: string) {
    exists p :: p in ports && p.name == name
  }

  lemma {:induction false} FirstNodePortIs(ports: seq<ServicePort>, i: nat)
    requires DistinctPorts(ports) && i < |ports| && ports[i].nodePort > 0
    ensures FirstNodePort(ports, ports[i].name) == Some(ports[i].nodePort)
  {
    if i > 0 {
      assert ports[1..][i - 1] == ports[i];
      FirstNodePortIs(ports[1..], i - 1);
    }
  }

  lemma {:induction false} LastNodePortIs(ports: seq<ServicePort>, i: nat)
    requires DistinctPorts(ports) && i < |ports| && ports[i].nodePort > 0
    ensures LastNodePort(ports, ports[i].name) == ports[i].nodePort
  {
    if i < |ports| - 1 {
      LastNodePortIs(ports[..|ports| - 1], i);
    }
  }

  lemma {:induction false} NoSuchPort(ports: seq<ServicePort>, name: string)
    requires !HasPort(ports, name)
    ensures FirstNodePort(ports, name) == None && LastNodePort(ports, name) == 0
    decreases |ports|
  {
    if ports != [] {
      assert ports[0] in ports && ports[|ports| - 1] in ports;
      assert forall p :: p in ports[1..] || p in ports[..|ports| - 1] ==> p in ports;
      NoSuchPort(ports[1..], name);
      NoSuchPort(ports[..|ports| - 1], name);
    }
  }

  /** With distinct names and allocated ports the first match and the last match are the same port. */
  lemma FirstAndLastPortCoincide(ports: seq<ServicePort>, name: string)
    requires DistinctPorts(ports) && AllAllocated(ports)
    ensures HasPort(ports, name) <==> FirstNodePort(ports, name).Some?
    ensures HasPort(ports, name) <==> LastNodePort(ports, name) > 0
    ensures HasPort(ports, name) ==> FirstNodePort(ports, name).value == LastNodePort(ports, name)
  {
    if HasPort(ports, name) {
      var p :| p in ports && p.name == name;
      var i :| 0 <= i < |ports| && ports[i] == p;
      FirstNodePortIs(ports, i);
      LastNodePortIs(ports, i);
    } else {
      NoSuchPort(ports, name);
    }
  }

  // ---------- the node port the Secret assumes ----------

  function ConfiguredPort(web: WebConfig): int {
    if web.nodePort.Some? && web.nodePort.value.httpPort > 0 then web.nodePort.value.httpPort else 30080
  }

  /** What getWebNodePort answers when it reads this Service, or none. */
  function ProxyNodePort(web: WebConfig, service: Option<ServiceSpec>): int {
    if web.exposeType != "nodeport" then 0
    else if service.None? then ConfiguredPort(web)
    else
      var https, http := FirstNodePort(service.value.ports, "https"), FirstNodePort(service.value.ports, "http");
      if HTTPSEnabled(web) && https.Some? then https.value
      else if http.Some? then http.value
      else ConfiguredPort(web)
  }

  /** In nodeport mode the first allocated https port if HTTPS is enabled, else the first allocated http port, else
      the configured http port, else 30080. */
  ghost predicate WantsNodePort(web: WebConfig, service: Option<ServiceSpec>, port: int) {
    if web.exposeType != "nodeport" then port == 0
    else if service.Some? && WantsHTTPS(web) && exists n :: IsFirstPort(service.value.ports, "https", n) then
      IsFirstPort(service.value.ports, "https", port)
    else if service.Some? && exists n :: IsFirstPort(service.value.ports, "http", n) then
      IsFirstPort(service.value.ports, "http", port)
    else
      port == if web.nodePort.Some? && web.nodePort.value.httpPort > 0 then web.nodePort.value.httpPort else 30080
  }

  lemma ProxyNodePortIsWanted(web: WebConfig, service: Option<ServiceSpec>)
    ensures WantsNodePort(web, service, ProxyNodePort(web, service))
  {
    hide IsFirstPort, FirstNodePort;
    if service.Some? {
      forall n, name: string
        ensures FirstNodePort(service.value.ports, name) == Some(n) <==> IsFirstPort(service.value.ports, name, n)
      {
        FirstNodePortIsFirst(service.value.ports, name, n);
      }
    }
  }

  method ChooseNodePort(web: WebConfig, service: Option<ServiceSpec>) returns (port: int)
    ensures port == ProxyNodePort(web, service) && WantsNodePort(web, service, port)
  {
    hide IsFirstPort, WantsNodePort;
    ProxyNodePortIsWanted(web, service);
    if web.exposeType != "nodeport" {
      return 0;
    }
    if service.None? {
      return ConfiguredPort(web);
    }
    if HTTPSEnabled(web) {
      var https := FindNodePort(service.value.ports, "https");
      if https.Some? {
        return https.value;
      }
    }
    var http := FindNodePort(service.value.ports, "http");
    if http.Some? {
      return http.value;
    }
    return ConfiguredPort(web);
  }

  // ---------- the proxy endpoint ----------

  function ProxyPath(spec: Spec): string {
    if spec.web.minioProxy.None? || spec.web.minioProxy.value.pathPrefix == "" then "/storage"
    else spec.web.minioProxy.value.pathPrefix
  }

  function WithoutLeadingSlash(path: string): string {
    if |path| > 0 && path[0] == '/' then path[1..] else path
  }

  /** Taking the leading slash off and putting a slash back leaves exactly one in front of the first segment. */
  lemma OneSlash(path: string)
    ensures "/" + WithoutLeadingSlash(path) == if |path| > 0 && path[0] == '/' then path else "/" + path
  {
  }

  function Scheme(secure: bool): string {
    if secure then "https" else "http"
  }

  function ProxyEndpoint(spec: Spec, nodeIP: string, nodePort: int): string {
    if !ProxyEnabled(spec) then spec.storage.endpoint
    else if spec.web.minioProxy.value.proxyEndpoint != "" then spec.web.minioProxy.value.proxyEndpoint
    else if spec.web.exposeType == "ingress" && spec.web.ingress.Some? then
      Scheme(IngressTLSEnabled(spec.web)) + "://" + spec.web.ingress.value.host
      + "/" + WithoutLeadingSlash(ProxyPath(spec))
    else
      var ip := if nodeIP == "" then "<NODE_IP>" else nodeIP;
      var port := if nodePort != 0 then nodePort else if HTTPSEnabled(spec.web) then 30443 else 30080;
      Scheme(HTTPSEnabled(spec.web)) + "://" + ip + ":" + Decimal(port) + "/" + WithoutLeadingSlash(ProxyPath(spec))
  }

  /** The endpoint is the web address, followed by the configured prefix, or "/storage", with one slash between. */
  predicate Agrees(endpoint: string, url: string, spec: Spec) {
    var prefix := if spec.web.minioProxy.Some? then spec.web.minioProxy.value.pathPrefix else "";
    if prefix == "" then endpoint == url + "/storage"
    else if prefix[0] == '/' then endpoint == url + prefix
    else endpoint == url + "/" + prefix
  }

  lemma PathAgrees(url: string, spec: Spec)
    ensures forall e :: Agrees(e, url, spec) <==> e == url + "/" + WithoutLeadingSlash(ProxyPath(spec))
  {
    OneSlash(ProxyPath(spec));
    assert url + "/" + WithoutLeadingSlash(ProxyPath(spec)) == url + ("/" + WithoutLeadingSlash(ProxyPath(spec)));
  }

  function EndpointProxy(spec: Spec, nodeIP: string, nodePort: int): string {
    if spec.storage.endpointProxy != "" then spec.storage.endpointProxy
    else if ProxyEnabled(spec) then ProxyEndpoint(spec, nodeIP, nodePort)
    else Scheme(StorageTLS(spec)) + "://" + spec.storage.endpoint
  }

  /** The user's own endpoint; the storage itself if it is not proxied; the user's proxy; else the web address with
      the path. */
  predicate WantsEndpointProxy(spec: Spec, nodeIP: string, nodePort: int, e: string) {
    var proxy, web := spec.web.minioProxy, spec.web;
    if spec.storage.endpointProxy != "" then e == spec.storage.endpointProxy
    else if proxy.None? || !proxy.value.enabled then
      var tls := spec.storage.tls.Some? && spec.storage.tls.value.enabled;
      e == (if tls then "https://" else "http://") + spec.storage.endpoint
    else if proxy.value.proxyEndpoint != "" then e == proxy.value.proxyEndpoint
    else if web.exposeType == "ingress" && web.ingress.Some? then
      var tls := web.ingress.value.tls.Some? && web.ingress.value.tls.value.enabled;
      Agrees(e, (if tls then "https://" else "http://") + web.ingress.value.host, spec)
    else
      var host := if nodeIP != "" then nodeIP else "<NODE_IP>";
      var port := if nodePort != 0 then nodePort else if WantsHTTPS(web) then 30443 else 30080;
      Agrees(e, (if WantsHTTPS(web) then "https://" else "http://") + host + ":" + Decimal(port), spec)
  }

  lemma EndpointProxyIsWanted(spec: Spec, nodeIP: string, nodePort: int)
    ensures WantsEndpointProxy(spec, nodeIP, nodePort, EndpointProxy(spec, nodeIP, nodePort))
  {
    hide WithoutLeadingSlash, Agrees, ProxyPath, Decimal;
    var http, https := "http" + "://" == "http://", "https" + "://" == "https://";
    assert http && https;
    var web := spec.web;
    if web.ingress.Some? {
      var tls := web.ingress.value.tls.Some? && web.ingress.value.tls.value.enabled;
      PathAgrees((if tls then "https://" else "http://") + web.ingress.value.host, spec);
    }
    var host := if nodeIP != "" then nodeIP else "<NODE_IP>";
    var port := if nodePort != 0 then nodePort else if WantsHTTPS(web) then 30443 else 30080;
    PathAgrees((if WantsHTTPS(web) then "https://" else "http://") + host + ":" + Decimal(port), spec);
  }

  // ---------- the web address in the status ----------

  /** The URL updateAccessInfo reports in nodeport mode for the Service it read. */
  function NodePortURL(service: Option<ServiceSpec>, nodeIP: string): string {
    if service.None? then "Service 创建中..."
    else
      var https, http := LastNodePort(service.value.ports, "https"), LastNodePort(service.value.ports, "http");
      var ip := if nodeIP != "" then nodeIP else "<NODE-IP>";
      if https > 0 then "https://" + ip + ":" + Decimal(https)
      else if http > 0 then "http://" + ip + ":" + Decimal(http)
      else "NodePort (端口分配中...)"
  }

  function WebURL(web: WebConfig, service: Option<ServiceSpec>, nodeIP: string, previous: string): string {
    if web.exposeType == "ingress" && web.ingress.Some? then
      Scheme(IngressTLSEnabled(web)) + "://" + web.ingress.value.host
    else if web.exposeType == "nodeport" then NodePortURL(service, nodeIP)
    else previous
  }

  /** The address of the last allocated https port, else of the last allocated http port, on this node. */
  ghost predicate WantsNodePortURL(service: Option<ServiceSpec>, nodeIP: string, url: string) {
    var host := if nodeIP != "" then nodeIP else "<NODE-IP>";
    match service
    case None => url == "Service 创建中..."
    case Some(s) =>
      if exists n :: IsLastPort(s.ports, "https", n) then
        exists n :: IsLastPort(s.ports, "https", n) && url == "https://" + host + ":" + Decimal(n)
      else if exists n :: IsLastPort(s.ports, "http", n) then
        exists n :: IsLastPort(s.ports, "http", n) && url == "http://" + host + ":" + Decimal(n)
      else
        url == "NodePort (端口分配中...)"
  }

  /** The web address shown for this Service and node; without one of either mode the previous one is kept. */
  ghost predicate WantsURL(web: WebConfig, service: Option<ServiceSpec>, nodeIP: string, previous: string, url: string)
  {
    if web.exposeType == "ingress" && web.ingress.Some? then
      var tls := web.ingress.value.tls.Some? && web.ingress.value.tls.value.enabled;
      url == (if tls then "https://" else "http://") + web.ingress.value.host
    else if web.exposeType == "nodeport" then WantsNodePortURL(service, nodeIP, url)
    else url == previous
  }

  lemma NodePortURLIsWanted(service: Option<ServiceSpec>, nodeIP: string)
    ensures WantsNodePortURL(service, nodeIP, NodePortURL(service, nodeIP))
  {
    hide IsLastPort, LastNodePort, Decimal;
    if service.Some? {
      var ports := service.value.ports;
      forall n, name: string | n > 0
        ensures LastNodePort(ports, name) == n <==> IsLastPort(ports, name, n)
      {
        LastNodePortIsLast(ports, name, n);
      }
      LastPortIsPositive(ports);
      var https, http := LastNodePort(ports, "https"), LastNodePort(ports, "http");
      assert https > 0 ==> IsLastPort(ports, "https", https);
      assert http > 0 ==> IsLastPort(ports, "http", http);
    }
  }

  lemma LastPortIsPositive(ports: seq<ServicePort>)
    ensures forall n, name :: IsLastPort(ports, name, n) ==> n > 0
  {
  }

  lemma WebURLIsWanted(web: WebConfig, service: Option<ServiceSpec>, nodeIP: string, previous: string)
    ensures WantsURL(web, service, nodeIP, previous, WebURL(web, service, nodeIP, previous))
  {
    hide NodePortURL, WantsNodePortURL;
    NodePortURLIsWanted(service, nodeIP);
    assert "http" + "://" == "http://" && "https" + "://" == "https://";
  }

  method FormatNodePortURL(service: Option<ServiceSpec>, nodeIP: string) returns (url: string)
    ensures url == NodePortURL(service, nodeIP) && WantsNodePortURL(service, nodeIP, url)
  {
    hide WantsNodePortURL, IsLastPort;
    NodePortURLIsWanted(service, nodeIP);
    if service.None? {
      return "Service 创建中...";
    }
    var http, https := ScanNodePorts(service.value.ports);
    if https > 0 {
      if nodeIP != "" {
        url := "https://" + nodeIP + ":" + Decimal(https);
      } else {
        url := "https://<NODE-IP>:" + Decimal(https);
        assert url == "https://" + "<NODE-IP>" + ":" + Decimal(https);
      }
    } else if http > 0 {
      if nodeIP != "" {
        url := "http://" + nodeIP + ":" + Decimal(http);
      } else {
        url := "http://<NODE-IP>:" + Decimal(http);
        assert url == "http://" + "<NODE-IP>" + ":" + Decimal(http);
      }
    } else {
      url := "NodePort (端口分配中...)";
    }
  }

  // ---------- agreement ----------

  /** A web Service as the API server keeps it: distinct names, every port allocated, https present iff enabled. */
  predicate Published(web: WebConfig, service: ServiceSpec) {
    DistinctPorts(service.ports) && AllAllocated(service.ports)
    && HasPort(service.ports, "http") && (HasPort(service.ports, "https") <==> HTTPSEnabled(web))
  }

  predicate DerivesProxy(spec: Spec) {
    ProxyEnabled(spec) && spec.web.minioProxy.value.proxyEndpoint == "" && spec.storage.endpointProxy == ""
  }

  lemma IngressEndpointsAgree(spec: Spec, nodeIP: string, nodePort: int, service: Option<ServiceSpec>, previous: string)
    requires DerivesProxy(spec) && spec.web.exposeType == "ingress" && spec.web.ingress.Some?
    ensures Agrees(EndpointProxy(spec, nodeIP, nodePort), WebURL(spec.web, service, nodeIP, previous), spec)
  {
    PathAgrees(WebURL(spec.web, service, nodeIP, previous), spec);
  }

  function URLPort(web: WebConfig, service: ServiceSpec): int {
    LastNodePort(service.ports, if HTTPSEnabled(web) then "https" else "http")
  }

  lemma PublishedURL(web: WebConfig, service: ServiceSpec, nodeIP: string)
    requires Published(web, service) && nodeIP != ""
    ensures URLPort(web, service) > 0
    ensures NodePortURL(Some(service), nodeIP)
            == Scheme(HTTPSEnabled(web)) + "://" + nodeIP + ":" + Decimal(URLPort(web, service))
    ensures web.exposeType == "nodeport" ==> ProxyNodePort(web, Some(service)) == URLPort(web, service)
  {
    FirstAndLastPortCoincide(service.ports, "http");
    FirstAndLastPortCoincide(service.ports, "https");
    assert "https" + "://" == "https://" && "http" + "://" == "http://";
  }

  lemma SamePortIffSameText(head: string, m: nat, n: nat, tail: string)
    ensures head + Decimal(m) + tail == head + Decimal(n) + tail <==> m == n
  {
    var s, t := head + Decimal(m) + tail, head + Decimal(n) + tail;
    if s == t {
      assert s[|head|..|s| - |tail|] == Decimal(m) && t[|head|..|t| - |tail|] == Decimal(n);
      DigitsAreInjective(m, n);
    }
  }

  /** In nodeport mode the Secret, built when the Service was `seen`, names the address the status shows
      for the Service `now` exactly when the port it assumed is the port of that address. */
  lemma NodePortEndpointsAgreeIffSamePort(spec: Spec, seen: Option<ServiceSpec>, now: ServiceSpec, nodeIP: string,
                                          previous: string)
    requires DerivesProxy(spec) && spec.web.exposeType == "nodeport" && nodeIP != ""
    requires Published(spec.web, now)
    ensures Agrees(EndpointProxy(spec, nodeIP, ProxyNodePort(spec.web, seen)),
                   WebURL(spec.web, Some(now), nodeIP, previous), spec)
            <==> ProxyNodePort(spec.web, seen) == URLPort(spec.web, now)
    ensures seen == Some(now) ==> ProxyNodePort(spec.web, seen) == URLPort(spec.web, now)
  {
    hide Agrees, WithoutLeadingSlash, ProxyPath;
    assert |"ingress"| == 7 && |"nodeport"| == 8;
    PathAgrees(WebURL(spec.web, Some(now), nodeIP, previous), spec);
    PublishedURL(spec.web, now, nodeIP);
    ProxyNodePortIsPositive(spec.web, seen);
    var head := Scheme(HTTPSEnabled(spec.web)) + "://" + nodeIP + ":";
    var tail := "/" + WithoutLeadingSlash(ProxyPath(spec));
    var p, q := ProxyNodePort(spec.web, seen), URLPort(spec.web, now);
    SamePortIffSameText(head, p, q, tail);
    assert EndpointProxy(spec, nodeIP, p) == head + Decimal(p) + tail;
    assert WebURL(spec.web, Some(now), nodeIP, previous) + tail == head + Decimal(q) + tail;
    assert WebURL(spec.web, Some(now), nodeIP, previous) + tail
        == WebURL(spec.web, Some(now), nodeIP, previous) + "/" + WithoutLeadingSlash(ProxyPath(spec));
  }

  lemma {:induction false} FirstNodePortIsPositive(ports: seq<ServicePort>, name: string)
    ensures FirstNodePort(ports, name).Some? ==> FirstNodePort(ports, name).value > 0
  {
    if ports != [] {
      FirstNodePortIsPositive(ports[1..], name);
    }
  }

  lemma ProxyNodePortIsPositive(web: WebConfig, service: Option<ServiceSpec>)
    requires web.exposeType == "nodeport"
    ensures ProxyNodePort(web, service) > 0
  {
    if service.Some? {
      FirstNodePortIsPositive(service.value.ports, "http");
      FirstNodePortIsPositive(service.value.ports, "https");
    }
  }

  // ---------- the Secret ----------

  const CA_FILE := "/app/etc/minio-certs/public.crt"
  const CA_KEY := "/app/etc/minio-certs/private.key"

  function Positive(n: int, default: int): int {
    if n <= 0 then default else n
  }

  type SecretMap = map<SecretField, string>

  function ConnectionEntries(spec: Spec): SecretMap {
    var db, cache := spec.database, spec.cache;
    map[DEFAULT_TIMEOUT := Decimal(spec.services.globalTimeout),
        MYSQL_HOST := db.host, MYSQL_PORT := Decimal(db.port), MYSQL_DATABASE := db.database,
        MYSQL_USER := db.user, MYSQL_PASSWORD := db.password,
        MYSQL_MAX_OPEN_CONNS := Decimal(Positive(db.maxOpenConns, 100)),
        MYSQL_MAX_IDLE_CONNS := Decimal(Positive(db.maxIdleConns, 50)),
        MYSQL_CONN_MAX_LIFETIME := if db.connMaxLifetime == "" then "30m" else db.connMaxLifetime,
        REDIS_HOST := cache.host, REDIS_PORT := Decimal(cache.port), REDIS_PASSWORD := cache.password,
        REDIS_TYPE := cache.kind, REDIS_TLS := Truth(cache.tls), REDIS_NONBLOCK := Truth(cache.nonBlock),
        REDIS_PING_TIMEOUT := cache.pingTimeout]
  }

  function StorageEntries(spec: Spec, nodeIP: string, nodePort: int): SecretMap {
    var storage := spec.storage;
    map[MINIO_ENDPOINT := storage.endpoint, MINIO_ACCESS_KEY := storage.accessKey,
        MINIO_SECRET_KEY := storage.secretKey, MINIO_BUCKET := storage.bucket,
        MINIO_USE_SSL := Truth(StorageTLS(spec)),
        MINIO_CA_FILE := if StorageTLS(spec) then CA_FILE else "",
        MINIO_CA_KEY := if StorageTLS(spec) then CA_KEY else "",
        MINIO_ENDPOINT_PROXY := EndpointProxy(spec, nodeIP, nodePort)]
  }

  function ServiceEntries(spec: Spec): SecretMap {
    var services, traced := spec.services, TelemetryEnabled(spec);
    var portal := if services.portal.Some? then services.portal.value else Portal("Kube-Nova 云原生平台", "", false);
    map[JWT_ACCESS_SECRET := services.jwt.accessSecret, JWT_ACCESS_EXPIRE := Decimal(services.jwt.accessExpire),
        JWT_REFRESH_SECRET := services.jwt.refreshSecret, JWT_REFRESH_EXPIRE := Decimal(services.jwt.refreshExpire),
        JWT_REFRESH_AFTER := Decimal(services.jwt.refreshAfter),
        ALERTMANAGER_WEBHOOK_TOKEN := services.webhookToken,
        JAEGER_ENDPOINT := if traced then spec.telemetry.value.jaegerEndpoint else "",
        TELEMETRY_SAMPLER := if traced then spec.telemetry.value.sampler else "0",
        TELEMETRY_BATCHER := if traced then spec.telemetry.value.batcher else "jaeger",
        PORTAL_NAME := portal.name, PORTAL_URL := portal.url, DEMO_MODE := Truth(portal.demoMode),
        INJECT_IMAGE := services.injectImage]
  }

  function SecretData(spec: Spec, nodeIP: string, nodePort: int): SecretMap {
    ConnectionEntries(spec) + StorageEntries(spec, nodeIP, nodePort) + ServiceEntries(spec)
  }

  function SecretObject(spec: Spec, nodeIP: string, nodePort: int): Object {
    Object(None, map[], SecretBody(SecretData(spec, nodeIP, nodePort)))
  }

  predicate Has(data: SecretMap, f: SecretField, text: string) {
    f in data && data[f] == text
  }

  predicate WantsConnections(spec: Spec, data: SecretMap) {
    var db, cache := spec.database, spec.cache;
    && Has(data, DEFAULT_TIMEOUT, Decimal(spec.services.globalTimeout))
    && Has(data, MYSQL_HOST, db.host) && Has(data, MYSQL_PORT, Decimal(db.port))
    && Has(data, MYSQL_DATABASE, db.database) && Has(data, MYSQL_USER, db.user)
    && Has(data, MYSQL_PASSWORD, db.password)
    && Has(data, MYSQL_MAX_OPEN_CONNS, Decimal(if db.maxOpenConns > 0 then db.maxOpenConns else 100))
    && Has(data, MYSQL_MAX_IDLE_CONNS, Decimal(if db.maxIdleConns > 0 then db.maxIdleConns else 50))
    && Has(data, MYSQL_CONN_MAX_LIFETIME, if db.connMaxLifetime != "" then db.connMaxLifetime else "30m")
    && Has(data, REDIS_HOST, cache.host) && Has(data, REDIS_PORT, Decimal(cache.port))
    && Has(data, REDIS_PASSWORD, cache.password) && Has(data, REDIS_TYPE, cache.kind)
    && Has(data, REDIS_TLS, if cache.tls then "true" else "false")
    && Has(data, REDIS_NONBLOCK, if cache.nonBlock then "true" else "false")
    && Has(data, REDIS_PING_TIMEOUT, cache.pingTimeout)
  }

  predicate WantsStorage(spec: Spec, nodeIP: string, nodePort: int, data: SecretMap) {
    var storage := spec.storage;
    var tls := storage.tls.Some? && storage.tls.value.enabled;
    && Has(data, MINIO_ENDPOINT, storage.endpoint) && Has(data, MINIO_ACCESS_KEY, storage.accessKey)
    && Has(data, MINIO_SECRET_KEY, storage.secretKey) && Has(data, MINIO_BUCKET, storage.bucket)
    && Has(data, MINIO_USE_SSL, if tls then "true" else "false")
    && Has(data, MINIO_CA_FILE, if tls then "/app/etc/minio-certs/public.crt" else "")
    && Has(data, MINIO_CA_KEY, if tls then "/app/etc/minio-certs/private.key" else "")
    && MINIO_ENDPOINT_PROXY in data && WantsEndpointProxy(spec, nodeIP, nodePort, data[MINIO_ENDPOINT_PROXY])
  }

  predicate WantsTokens(spec: Spec, data: SecretMap) {
    var jwt := spec.services.jwt;
    && Has(data, JWT_ACCESS_SECRET, jwt.accessSecret) && Has(data, JWT_ACCESS_EXPIRE, Decimal(jwt.accessExpire))
    && Has(data, JWT_REFRESH_SECRET, jwt.refreshSecret) && Has(data, JWT_REFRESH_EXPIRE, Decimal(jwt.refreshExpire))
    && Has(data, JWT_REFRESH_AFTER, Decimal(jwt.refreshAfter))
    && Has(data, ALERTMANAGER_WEBHOOK_TOKEN, spec.services.webhookToken)
    && Has(data, INJECT_IMAGE, spec.services.injectImage)
  }

  predicate WantsTelemetryAndPortal(spec: Spec, data: SecretMap) {
    && (if spec.telemetry.Some? && spec.telemetry.value.enabled then
          var t := spec.telemetry.value;
          Has(data, JAEGER_ENDPOINT, t.jaegerEndpoint) && Has(data, TELEMETRY_SAMPLER, t.sampler)
          && Has(data, TELEMETRY_BATCHER, t.batcher)
        else
          Has(data, JAEGER_ENDPOINT, "") && Has(data, TELEMETRY_SAMPLER, "0") && Has(data, TELEMETRY_BATCHER, "jaeger"))
    && match spec.services.portal
       case Some(p) =>
         Has(data, PORTAL_NAME, p.name) && Has(data, PORTAL_URL, p.url)
         && Has(data, DEMO_MODE, if p.demoMode then "true" else "false")
       case None =>
         Has(data, PORTAL_NAME, "Kube-Nova 云原生平台") && Has(data, PORTAL_URL, "") && Has(data, DEMO_MODE, "false")
  }

  /** The Secret, key by key. */
  predicate WantsSecret(spec: Spec, nodeIP: string, nodePort: int, data: SecretMap) {
    WantsConnections(spec, data) && WantsStorage(spec, nodeIP, nodePort, data) && WantsTokens(spec, data)
    && WantsTelemetryAndPortal(spec, data)
  }

  lemma SecretIsWanted(spec: Spec, nodeIP: string, nodePort: int)
    ensures WantsSecret(spec, nodeIP, nodePort, SecretData(spec, nodeIP, nodePort))
  {
    ConnectionsAreWanted(spec, nodeIP, nodePort);
    StorageIsWanted(spec, nodeIP, nodePort);
    ServicesAreWanted(spec, nodeIP, nodePort);
    hide WantsConnections, WantsStorage, WantsTokens, WantsTelemetryAndPortal, SecretData;
  }

  /** Which of the three groups of entries a key belongs to. */
  function Group(f: SecretField): nat {
    match f
    case DEFAULT_TIMEOUT | MYSQL_HOST | MYSQL_PORT | MYSQL_DATABASE | MYSQL_USER | MYSQL_PASSWORD => 0
    case MYSQL_MAX_OPEN_CONNS | MYSQL_MAX_IDLE_CONNS | MYSQL_CONN_MAX_LIFETIME => 0
    case REDIS_HOST | REDIS_PORT | REDIS_PASSWORD | REDIS_TYPE | REDIS_TLS | REDIS_NONBLOCK | REDIS_PING_TIMEOUT => 0
    case MINIO_ENDPOINT | MINIO_ACCESS_KEY | MINIO_SECRET_KEY | MINIO_BUCKET | MINIO_USE_SSL => 1
    case MINIO_CA_FILE | MINIO_CA_KEY | MINIO_ENDPOINT_PROXY => 1
    case _ => 2
  }

  lemma ConnectionGroup(spec: Spec, f: SecretField)
    ensures f in ConnectionEntries(spec) ==> Group(f) == 0
  {
    hide Decimal;
  }

  lemma StorageGroup(spec: Spec, nodeIP: string, nodePort: int, f: SecretField)
    ensures f in StorageEntries(spec, nodeIP, nodePort) ==> Group(f) == 1
  {
    hide EndpointProxy;
  }

  lemma ServiceGroup(spec: Spec, f: SecretField)
    ensures f in ServiceEntries(spec) ==> Group(f) == 2
  {
    hide Decimal;
  }

  lemma EntrySurvives(spec: Spec, nodeIP: string, nodePort: int, f: SecretField)
    ensures f in ConnectionEntries(spec) ==> Has(SecretData(spec, nodeIP, nodePort), f, ConnectionEntries(spec)[f])
    ensures f in StorageEntries(spec, nodeIP, nodePort) ==>
      Has(SecretData(spec, nodeIP, nodePort), f, StorageEntries(spec, nodeIP, nodePort)[f])
    ensures f in ServiceEntries(spec) ==> Has(SecretData(spec, nodeIP, nodePort), f, ServiceEntries(spec)[f])
  {
    hide ConnectionEntries, StorageEntries, ServiceEntries, Group;
    ConnectionGroup(spec, f);
    StorageGroup(spec, nodeIP, nodePort, f);
    ServiceGroup(spec, f);
  }

  lemma ConnectionEntriesAreWanted(spec: Spec)
    ensures WantsConnections(spec, ConnectionEntries(spec))
  {
    hide Decimal;
  }

  lemma LongerSecretConnects(spec: Spec, data: SecretMap, longer: SecretMap)
    requires WantsConnections(spec, data) && forall f :: f in data ==> Has(longer, f, data[f])
    ensures WantsConnections(spec, longer)
  {
    hide Decimal;
  }

  lemma StorageEntriesAreWanted(spec: Spec, nodeIP: string, nodePort: int)
    ensures WantsStorage(spec, nodeIP, nodePort, StorageEntries(spec, nodeIP, nodePort))
  {
    hide EndpointProxy, WantsEndpointProxy;
    EndpointProxyIsWanted(spec, nodeIP, nodePort);
  }

  lemma LongerSecretStores(spec: Spec, nodeIP: string, nodePort: int, data: SecretMap, longer: SecretMap)
    requires WantsStorage(spec, nodeIP, nodePort, data) && forall f :: f in data ==> Has(longer, f, data[f])
    ensures WantsStorage(spec, nodeIP, nodePort, longer)
  {
    hide WantsEndpointProxy;
  }

  lemma ConnectionsAreWanted(spec: Spec, nodeIP: string, nodePort: int)
    ensures WantsConnections(spec, SecretData(spec, nodeIP, nodePort))
  {
    hide ConnectionEntries, WantsConnections, SecretData;
    ConnectionEntriesAreWanted(spec);
    LongerSecretConnects(spec, ConnectionEntries(spec), SecretData(spec, nodeIP, nodePort)) by {
      forall f ensures f in ConnectionEntries(spec) ==>
          Has(SecretData(spec, nodeIP, nodePort), f, ConnectionEntries(spec)[f])
      {
        EntrySurvives(spec, nodeIP, nodePort, f);
      }
    }
  }

  lemma StorageIsWanted(spec: Spec, nodeIP: string, nodePort: int)
    ensures WantsStorage(spec, nodeIP, nodePort, SecretData(spec, nodeIP, nodePort))
  {
    hide StorageEntries, WantsStorage, SecretData;
    StorageEntriesAreWanted(spec, nodeIP, nodePort);
    LongerSecretStores(spec, nodeIP, nodePort, StorageEntries(spec, nodeIP, nodePort),
                       SecretData(spec, nodeIP, nodePort)) by {
      forall f ensures f in StorageEntries(spec, nodeIP, nodePort) ==>
          Has(SecretData(spec, nodeIP, nodePort), f, StorageEntries(spec, nodeIP, nodePort)[f])
      {
        EntrySurvives(spec, nodeIP, nodePort, f);
      }
    }
  }

  lemma ServicesAreWanted(spec: Spec, nodeIP: string, nodePort: int)
    ensures WantsTokens(spec, SecretData(spec, nodeIP, nodePort))
    ensures WantsTelemetryAndPortal(spec, SecretData(spec, nodeIP, nodePort))
  {
    hide ConnectionEntries, StorageEntries, Decimal;
    var t := ServiceEntries(spec);
    assert WantsTokens(spec, t) && WantsTelemetryAndPortal(spec, t);
    assert forall f :: f in t ==> Has(SecretData(spec, nodeIP, nodePort), f, t[f]);
  }

  method PutConnections(spec: Spec) returns (filled: SecretMap)
    ensures filled == ConnectionEntries(spec)
  {
    hide Decimal;
    var db, cache := spec.database, spec.cache;
    filled := map[DEFAULT_TIMEOUT := Decimal(spec.services.globalTimeout)];
    filled := filled[MYSQL_HOST := db.host][MYSQL_PORT := Decimal(db.port)][MYSQL_DATABASE := db.database];
    filled := filled[MYSQL_USER := db.user][MYSQL_PASSWORD := db.password];
    filled := filled[MYSQL_MAX_OPEN_CONNS := Decimal(Positive(db.maxOpenConns, 100))];
    filled := filled[MYSQL_MAX_IDLE_CONNS := Decimal(Positive(db.maxIdleConns, 50))];
    filled := filled[MYSQL_CONN_MAX_LIFETIME := if db.connMaxLifetime == "" then "30m" else db.connMaxLifetime];
    filled := filled[REDIS_HOST := cache.host][REDIS_PORT := Decimal(cache.port)][REDIS_PASSWORD := cache.password];
    filled := filled[REDIS_TYPE := cache.kind][REDIS_TLS := Truth(cache.tls)];
    filled := filled[REDIS_NONBLOCK := Truth(cache.nonBlock)][REDIS_PING_TIMEOUT := cache.pingTimeout];
  }

  method PutStorage(data: SecretMap, spec: Spec, nodeIP: string, nodePort: int) returns (filled: SecretMap)
    ensures filled == data + StorageEntries(spec, nodeIP, nodePort)
  {
    var storage, useSSL := spec.storage, spec.storage.tls.Some? && spec.storage.tls.value.enabled;
    filled := data[MINIO_ENDPOINT := storage.endpoint][MINIO_ACCESS_KEY := storage.accessKey];
    filled := filled[MINIO_SECRET_KEY := storage.secretKey][MINIO_BUCKET := storage.bucket];
    filled := filled[MINIO_USE_SSL := Truth(useSSL)];
    if useSSL {
      filled := filled[MINIO_CA_FILE := CA_FILE][MINIO_CA_KEY := CA_KEY];
    } else {
      filled := filled[MINIO_CA_FILE := ""][MINIO_CA_KEY := ""];
    }
    var endpointProxy: string;
    if storage.endpointProxy != "" {
      endpointProxy := storage.endpointProxy;
    } else if ProxyEnabled(spec) {
      endpointProxy := ProxyEndpoint(spec, nodeIP, nodePort);
    } else {
      var protocol := "http";
      if useSSL {
        protocol := "https";
      }
      endpointProxy := protocol + "://" + storage.endpoint;
    }
    filled := filled[MINIO_ENDPOINT_PROXY := endpointProxy];
  }

  method PutServices(data: SecretMap, spec: Spec) returns (filled: SecretMap)
    ensures filled == data + ServiceEntries(spec)
  {
    var jwt := spec.services.jwt;
    filled := data[JWT_ACCESS_SECRET := jwt.accessSecret][JWT_ACCESS_EXPIRE := Decimal(jwt.accessExpire)];
    filled := filled[JWT_REFRESH_SECRET := jwt.refreshSecret][JWT_REFRESH_EXPIRE := Decimal(jwt.refreshExpire)];
    filled := filled[JWT_REFRESH_AFTER := Decimal(jwt.refreshAfter)];
    filled := filled[ALERTMANAGER_WEBHOOK_TOKEN := spec.services.webhookToken];
    if TelemetryEnabled(spec) {
      var t := spec.telemetry.value;
      filled := filled[JAEGER_ENDPOINT := t.jaegerEndpoint][TELEMETRY_SAMPLER := t.sampler];
      filled := filled[TELEMETRY_BATCHER := t.batcher];
    } else {
      filled := filled[JAEGER_ENDPOINT := ""][TELEMETRY_SAMPLER := "0"][TELEMETRY_BATCHER := "jaeger"];
    }
    if spec.services.portal.Some? {
      var p := spec.services.portal.value;
      filled := filled[PORTAL_NAME := p.name][PORTAL_URL := p.url][DEMO_MODE := Truth(p.demoMode)];
    } else {
      filled := filled[PORTAL_NAME := "Kube-Nova 云原生平台"][PORTAL_URL := ""][DEMO_MODE := "false"];
    }
    filled := filled[INJECT_IMAGE := spec.services.injectImage];
  }

  method BuildSecret(spec: Spec, nodeIP: string, nodePort: int) returns (secret: Object)
    ensures secret == SecretObject(spec, nodeIP, nodePort)
    ensures secret.body.SecretBody? && WantsSecret(spec, nodeIP, nodePort, secret.body.secret)
  {
    hide ConnectionEntries, StorageEntries, ServiceEntries, WantsSecret;
    SecretIsWanted(spec, nodeIP, nodePort);
    var data := PutConnections(spec);
    data := PutStorage(data, spec, nodeIP, nodePort);
    data := PutServices(data, spec);
    secret := Object(None, map[], SecretBody(data));
  }

  /** The certificate paths in the Secret are set exactly when portal-rpc mounts the directory they lie in,
      unless storage TLS was enabled without a certificate secret, which validation rejects. */
  lemma CertificatePathsAreMounted(spec: Spec, nodeIP: string, nodePort: int)
    ensures MINIO_CA_FILE in SecretData(spec, nodeIP, nodePort) && MINIO_CA_KEY in SecretData(spec, nodeIP, nodePort)
    ensures SecretData(spec, nodeIP, nodePort)[MINIO_CA_FILE] != ""
            <==> SecretData(spec, nodeIP, nodePort)[MINIO_CA_KEY] != ""
    ensures (SecretData(spec, nodeIP, nodePort)[MINIO_CA_FILE] != ""
             <==> HasMount(BackendDeployment(BackendOf(spec, PortalRPC)), "minio-certs"))
            <==> !(StorageTLS(spec) && spec.storage.tls.value.secretName == "")
    ensures Accepted(spec) ==> !(StorageTLS(spec) && spec.storage.tls.value.secretName == "")
  {
    EntrySurvives(spec, nodeIP, nodePort, MINIO_CA_FILE);
    EntrySurvives(spec, nodeIP, nodePort, MINIO_CA_KEY);
    assert |CA_FILE| > 0 && |CA_KEY| > 0;
    assert StorageEntries(spec, nodeIP, nodePort)[MINIO_CA_FILE] == if StorageTLS(spec) then CA_FILE else "";
    assert StorageEntries(spec, nodeIP, nodePort)[MINIO_CA_KEY] == if StorageTLS(spec) then CA_KEY else "";
    BackendMountsCertsIff(BackendOf(spec, PortalRPC));
  }

  lemma BackendMountsCertsIff(b: Backend)
    ensures HasMount(BackendDeployment(b), "minio-certs") <==> MountsCerts(b)
  {
    var names := MountNames(ServiceMounts(b));
    assert |"config"| == 6 && |"minio-certs"| == 11;
    if MountsCerts(b) {
      assert names[1] == "minio-certs";
    } else {
      assert forall i :: 0 <= i < |names| ==> |names[i]| != 11;
    }
  }

  /** Whatever the specification, the Secret's proxy entry is the one the agreement lemmas speak of. */
  lemma SecretHoldsEndpointProxy(spec: Spec, nodeIP: string, nodePort: int)
    ensures MINIO_ENDPOINT_PROXY in SecretData(spec, nodeIP, nodePort)
    ensures SecretData(spec, nodeIP, nodePort)[MINIO_ENDPOINT_PROXY] == EndpointProxy(spec, nodeIP, nodePort)
  {
    EntrySurvives(spec, nodeIP, nodePort, MINIO_ENDPOINT_PROXY);
    assert StorageEntries(spec, nodeIP, nodePort)[MINIO_ENDPOINT_PROXY] == EndpointProxy(spec, nodeIP, nodePort);
  }
}
