/** The Services and Ingresses of each controller, and that they fit each other. */
module Networking {
  import opened Api
  import opened Labels

  datatype Result<+T> = Ok(value: T) | Err

  datatype AppConfig = AppConfig(httpPort: int, httpNodePort: int, grpcPort: int, grpcNodePort: int,
                                 metricsPort: int, profilingPort: int, grpcEnabled: bool)

  // ---- Services ----

  datatype PortConfig = PortConfig(exposeHttp: bool, exposeGrpc: bool, exposeMetrics: bool, exposeProfiling: bool)

  const APPLICATION_PORTS := PortConfig(true, true, true, false)
  const HTTP_WITH_METRICS := PortConfig(true, false, true, false)
  const PROFILING_PORT := PortConfig(false, false, false, true)

  /** The port names web, grpc, metrics and profiling. */
  datatype PortName = Web | GrpcPort | Metrics | Profiling
  datatype ServicePort = ServicePort(name: PortName, port: int, nodePort: int)
  datatype ServiceObject =
    ServiceObject(name: string, labels: Strings, selector: Strings, ports: seq<ServicePort>, nodePortType: bool)

  /** The port a service of this configuration has under a name, if any. */
  function PortNamed(config: AppConfig, ports: PortConfig, name: PortName): Option<ServicePort> {
    match name
    case Web => if ports.exposeHttp then Some(ServicePort(Web, config.httpPort, config.httpNodePort)) else None
    case GrpcPort => if ports.exposeGrpc then Some(ServicePort(GrpcPort, config.grpcPort, config.grpcNodePort)) else None
    case Metrics => if ports.exposeMetrics then Some(ServicePort(Metrics, config.metricsPort, 0)) else None
    case Profiling => if ports.exposeProfiling then Some(ServicePort(Profiling, config.profilingPort, 0)) else None
  }

  /** One port under each name that is exposed, and no other port. */
  ghost predicate HasPorts(service: ServiceObject, config: AppConfig, ports: PortConfig) {
    Lists(service.ports, config, ports)
  }

  ghost predicate Lists(list: seq<ServicePort>, config: AppConfig, ports: PortConfig) {
    && (forall name :: PortNamed(config, ports, name).Some? ==> PortNamed(config, ports, name).value in list)
    && (forall p :: p in list ==> PortNamed(config, ports, p.name) == Some(p))
    && (forall i, j :: 0 <= i < j < |list| ==> list[i].name != list[j].name)
  }

  lemma NoPorts(config: AppConfig)
    ensures Lists([], config, PortConfig(false, false, false, false))
  {
  }

  lemma AppendPort(list: seq<ServicePort>, config: AppConfig, before: PortConfig, after: PortConfig, name: PortName)
    requires Lists(list, config, before) && PortNamed(config, before, name).None? && PortNamed(config, after, name).Some?
    requires forall other :: other != name ==> PortNamed(config, before, other) == PortNamed(config, after, other)
    ensures Lists(list + [PortNamed(config, after, name).value], config, after)
  {
    var longer := list + [PortNamed(config, after, name).value];
    forall other | PortNamed(config, after, other).Some?
      ensures PortNamed(config, after, other).value in longer
    {
      assert other != name ==> PortNamed(config, before, other).value in list;
    }
  }

  method BuildService(name: string, labels: Strings, identity: Strings, config: AppConfig, ports: PortConfig)
    returns (service: ServiceObject)
    ensures service.name == name && service.labels == labels && service.selector == identity
    ensures HasPorts(service, config, ports)
    ensures service.nodePortType <==> config.httpNodePort > 0 || config.grpcNodePort > 0
  {
    hide Lists;
    var list: seq<ServicePort> := [];
    ghost var none := PortConfig(false, false, false, false);
    NoPorts(config);
    if ports.exposeHttp {
      AppendPort(list, config, none, none.(exposeHttp := true), Web);
      list := list + [ServicePort(Web, config.httpPort, config.httpNodePort)];
    }
    ghost var http := none.(exposeHttp := ports.exposeHttp);
    if ports.exposeGrpc {
      AppendPort(list, config, http, http.(exposeGrpc := true), GrpcPort);
      list := list + [ServicePort(GrpcPort, config.grpcPort, config.grpcNodePort)];
    }
    ghost var grpc := http.(exposeGrpc := ports.exposeGrpc);
    if ports.exposeMetrics {
      AppendPort(list, config, grpc, grpc.(exposeMetrics := true), Metrics);
      list := list + [ServicePort(Metrics, config.metricsPort, 0)];
    }
    ghost var metrics := grpc.(exposeMetrics := ports.exposeMetrics);
    if ports.exposeProfiling {
      AppendPort(list, config, metrics, metrics.(exposeProfiling := true), Profiling);
      list := list + [ServicePort(Profiling, config.profilingPort, 0)];
    }
    service := ServiceObject(name, labels, identity, list, false);
    if config.httpNodePort > 0 || config.grpcNodePort > 0 {
      service := service.(nodePortType := true);
    }
  }

  // ---- Ingresses ----

  datatype Rule = Rule(host: string, path: string, serviceName: string, servicePort: int)
  datatype IngressObject =
    IngressObject(name: string, labels: Strings, annotations: Strings, tlsHosts: seq<string>, tlsSecret: string, rules: seq<Rule>)

  /** Rule i is for hostname i, every rule leads to the same port of the same service, and TLS covers the hosts of the rules. */
  ghost predicate Routes(ingress: IngressObject, hostnames: seq<string>, path: string, serviceName: string, port: int) {
    && |ingress.rules| == |hostnames| && ingress.tlsHosts == hostnames
    && forall i :: 0 <= i < |hostnames| ==> ingress.rules[i] == Rule(hostnames[i], path, serviceName, port)
  }

  method BuildIngress(name: string, labels: Strings, annotations: Strings, hostnames: seq<string>,
                      serviceName: string, secret: string, path: string, servicePort: int)
    returns (r: Result<IngressObject>)
    ensures r == Err <==> hostnames == [] || servicePort <= 0
    ensures r.Ok? ==>
              && Routes(r.value, hostnames, path, serviceName, servicePort) && r.value.tlsSecret == secret
              && r.value.name == name && r.value.labels == labels && r.value.annotations == annotations
  {
    if |hostnames| == 0 {
      return Err;
    }
    if servicePort <= 0 {
      return Err;
    }
    var ingress := IngressObject(name, labels, annotations, hostnames, secret, []);
    var rules: seq<Rule> := [];
    for i := 0 to |hostnames|
      invariant |rules| == i
      invariant forall j :: 0 <= j < i ==> rules[j] == Rule(hostnames[j], path, serviceName, servicePort)
    {
      rules := rules + [Rule(hostnames[i], path, serviceName, servicePort)];
    }
    return Ok(ingress.(rules := rules));
  }

  // ---- What the generators make of a spec ----

  /** The part of a spec and of its object that concerns networking; `ingress` is nil when None. */
  datatype NetworkSpec = NetworkSpec(name: string, labels: GoMap, specLabels: GoMap, hostnames: seq<string>,
                                     ingress: Option<IngressSpec>, profilingIngress: Option<IngressSpec>)

  /** An Ingress leads where its Service listens. */
  ghost predicate Agrees(ingress: IngressObject, service: ServiceObject) {
    forall rule :: rule in ingress.rules ==>
      rule.serviceName == service.name && exists p :: p in service.ports && p.port == rule.servicePort
  }

  lemma RoutesAgree(ingress: IngressObject, hostnames: seq<string>, path: string, port: int,
                    service: ServiceObject, config: AppConfig, ports: PortConfig, portName: PortName)
    requires Routes(ingress, hostnames, path, service.name, port) && HasPorts(service, config, ports)
    requires PortNamed(config, ports, portName).Some? && PortNamed(config, ports, portName).value.port == port
    ensures Agrees(ingress, service)
  {
    var p := PortNamed(config, ports, portName).value;
    assert p in service.ports && p.port == port;
  }

  const SSL_REDIRECT := "nginx.ingress.kubernetes.io/ssl-redirect"
  const REWRITE_TARGET := "nginx.ingress.kubernetes.io/rewrite-target"

  /** What the controller itself annotates an Ingress with. */
  ghost function Base(rewrites: bool): Strings {
    if rewrites then map["nginx.ingress.kubernetes.io/ssl-redirect" := "true", "nginx.ingress.kubernetes.io/rewrite-target" := "/$2"]
    else map["nginx.ingress.kubernetes.io/ssl-redirect" := "true"]
  }

  /** Everything about the Ingress a controller generates. */
  ghost predicate IsIngress(ingress: IngressObject, spec: NetworkSpec, suffix: string, rewrites: bool, protocol: Protocol, useTls: bool,
                            path: string, port: int)
    requires spec.ingress.Some?
  {
    && ingress.name == spec.name + suffix && ingress.tlsSecret == spec.name + "-service-tls"
    && ingress.labels == LabelsOf(spec.name, [spec.specLabels, spec.ingress.value.labels])
    && ingress.annotations == MergeAll(Sources(spec.ingress.value, MadeMap(Base(rewrites)), protocol, useTls))
    && Routes(ingress, spec.hostnames, path, spec.name, port)
  }

  /** Everything about the Service a controller generates: its ports are these and no others. */
  ghost predicate Listens(service: ServiceObject, name: string, spec: NetworkSpec, config: AppConfig, ports: set<ServicePort>) {
    && service.name == name && service.labels == LabelsOf(spec.name, [spec.labels]) && service.selector == map["app" := spec.name]
    && (forall p :: p in service.ports <==> p in ports)
    && (forall i, j :: 0 <= i < j < |service.ports| ==> service.ports[i] != service.ports[j])
    && (service.nodePortType <==> config.httpNodePort > 0 || config.grpcNodePort > 0)
  }

  /** The ports, spelled out, of the two configurations of application Services and of profiling Services. */
  lemma PortsListed(service: ServiceObject, config: AppConfig, ports: PortConfig)
    requires HasPorts(service, config, ports)
    ensures forall i, j :: 0 <= i < j < |service.ports| ==> service.ports[i] != service.ports[j]
    ensures ports == HTTP_WITH_METRICS ==> forall p :: p in service.ports <==> p in HttpPorts(config)
    ensures ports == APPLICATION_PORTS ==> forall p :: p in service.ports <==> p in AllPorts(config)
    ensures ports == PROFILING_PORT ==> forall p :: p in service.ports <==> p == ServicePort(Profiling, config.profilingPort, 0)
  {
    forall p
      ensures p in service.ports <==> PortNamed(config, ports, p.name) == Some(p)
    {
    }
  }

  function HttpPorts(config: AppConfig): set<ServicePort> {
    {ServicePort(Web, config.httpPort, config.httpNodePort), ServicePort(Metrics, config.metricsPort, 0)}
  }

  function AllPorts(config: AppConfig): set<ServicePort> {
    HttpPorts(config) + {ServicePort(GrpcPort, config.grpcPort, config.grpcNodePort)}
  }

  /** The ingress of a controller: none without hostnames. */
  method CreateIngress(spec: NetworkSpec, suffix: string, rewrites: bool, protocol: Protocol, path: string, config: AppConfig, port: int)
    returns (r: Result<Option<IngressObject>>)
    requires spec.hostnames != [] ==> spec.ingress.Some?
    ensures r == Err <==> spec.hostnames != [] && port <= 0
    ensures r.Ok? ==> (r.value == None <==> spec.hostnames == [])
    ensures r.Ok? && r.value.Some? ==> IsIngress(r.value.value, spec, suffix, rewrites, protocol, config.grpcEnabled, path, port)
  {
    if |spec.hostnames| == 0 {
      return Ok(None);
    }
    var labels := AllLabels(spec.name, [spec.specLabels, spec.ingress.value.labels]);
    var base := map[SSL_REDIRECT := "true"];
    if rewrites {
      base := base[REWRITE_TARGET := "/$2"];
    }
    assert base == Base(rewrites);
    var annotations := BuildIngressAnnotations(spec.ingress.value, MadeMap(base), protocol, config.grpcEnabled);
    var ingress := BuildIngress(spec.name + suffix, labels, annotations, spec.hostnames, spec.name, spec.name + "-service-tls", path, port);
    match ingress {
      case Err => return Err;
      case Ok(value) => return Ok(Some(value));
    }
  }

  predicate ProfilingFails(spec: NetworkSpec, config: AppConfig) {
    spec.profilingIngress.Some? && (spec.profilingIngress.value.hostnames == [] || config.profilingPort <= 0)
  }

  /** Everything about the profiling Ingress. */
  ghost predicate IsProfilingIngress(ingress: IngressObject, spec: NetworkSpec, config: AppConfig)
    requires spec.profilingIngress.Some?
  {
    && ingress.name == spec.name + "-profiling" && ingress.tlsSecret == spec.name + "-service-tls"
    && ingress.labels == LabelsOf(spec.name, [spec.labels, spec.profilingIngress.value.labels])
    && ingress.annotations == MergeAll(Sources(spec.profilingIngress.value, MadeMap(Base(false)), Http, false))
    && Routes(ingress, spec.profilingIngress.value.hostnames, "/debug/pprof/", spec.name + "-profiling", config.profilingPort)
  }

  /** The profiling Service and its Ingress, for every controller. A profiling ingress without hostnames, or
      without a port, is an error, unlike an ordinary one without hostnames. */
  method NewProfilingComponents(spec: NetworkSpec, config: AppConfig)
    returns (r: Result<(ServiceObject, Option<IngressObject>)>)
    ensures r == Err <==> ProfilingFails(spec, config)
    ensures r.Ok? ==>
              && Listens(r.value.0, spec.name + "-profiling", spec, config, {ServicePort(Profiling, config.profilingPort, 0)})
              && (r.value.1 == None <==> spec.profilingIngress == None)
              && (r.value.1.Some? ==> IsProfilingIngress(r.value.1.value, spec, config))
              && (r.value.1.Some? ==> Serves(r.value.1.value, spec.profilingIngress.value.hostnames, r.value.0))
  {
    var serviceLabels := AllLabels(spec.name, [spec.labels]);
    var service := BuildService(spec.name + "-profiling", serviceLabels, IdentityLabel(spec.name), config, PROFILING_PORT);
    PortsListed(service, config, PROFILING_PORT);
    if spec.profilingIngress == None {
      return Ok((service, None));
    }
    var ingressConfig := spec.profilingIngress.value;
    assert map[SSL_REDIRECT := "true"] == Base(false);
    var annotations := BuildIngressAnnotations(ingressConfig, MadeMap(map[SSL_REDIRECT := "true"]), Http, false);
    var labels := AllLabels(spec.name, [spec.labels, ingressConfig.labels]);
    var ingress := BuildIngress(spec.name + "-profiling", labels, annotations, ingressConfig.hostnames,
                                spec.name + "-profiling", spec.name + "-service-tls", "/debug/pprof/", config.profilingPort);
    match ingress {
      case Err => return Err;
      case Ok(value) =>
        RoutesServe(value, ingressConfig.hostnames, "/debug/pprof/", config.profilingPort, service, config, PROFILING_PORT, Profiling);
        return Ok((service, Some(value)));
    }
  }

  datatype Network = Network(service: ServiceObject, grpc: Option<IngressObject>, http: Option<IngressObject>,
                             profilingService: ServiceObject, profilingIngress: Option<IngressObject>)

  /** Every generated Ingress leads to a generated Service on a port that Service has; the ordinary
      ingresses have one rule for each hostname, in order. */
  ghost predicate Fits(network: Network, spec: NetworkSpec, config: AppConfig) {
    && network.service.name == spec.name
    && (network.grpc.Some? ==> Serves(network.grpc.value, spec.hostnames, network.service))
    && (network.http.Some? ==> Serves(network.http.value, spec.hostnames, network.service))
    && Listens(network.profilingService, spec.name + "-profiling", spec, config, {ServicePort(Profiling, config.profilingPort, 0)})
    && network.profilingIngress.Some? == spec.profilingIngress.Some?
    && (network.profilingIngress.Some? ==>
          && Serves(network.profilingIngress.value, spec.profilingIngress.value.hostnames, network.profilingService)
          && IsProfilingIngress(network.profilingIngress.value, spec, config))
  }

  ghost predicate Serves(ingress: IngressObject, hostnames: seq<string>, service: ServiceObject) {
    && Agrees(ingress, service) && ingress.tlsHosts == hostnames && |ingress.rules| == |hostnames|
    && forall i :: 0 <= i < |hostnames| ==> ingress.rules[i].host == hostnames[i]
  }

  lemma RoutesServe(ingress: IngressObject, hostnames: seq<string>, path: string, port: int,
                    service: ServiceObject, config: AppConfig, ports: PortConfig, portName: PortName)
    requires Routes(ingress, hostnames, path, service.name, port) && HasPorts(service, config, ports)
    requires PortNamed(config, ports, portName).Some? && PortNamed(config, ports, portName).value.port == port
    ensures Serves(ingress, hostnames, service)
  {
    RoutesAgree(ingress, hostnames, path, port, service, config, ports, portName);
  }

  /** The Lookout serves HTTP only. */
  method LookoutNetwork(spec: NetworkSpec, config: AppConfig) returns (r: Result<Network>)
    requires spec.hostnames != [] ==> spec.ingress.Some?
    ensures r == Err <==> ProfilingFails(spec, config) || (spec.hostnames != [] && config.httpPort <= 0)
    ensures r.Ok? ==> Fits(r.value, spec, config) && r.value.grpc == None && (r.value.http == None <==> spec.hostnames == [])
    ensures r.Ok? ==> Listens(r.value.service, spec.name, spec, config,
                              {ServicePort(Web, config.httpPort, config.httpNodePort), ServicePort(Metrics, config.metricsPort, 0)})
    ensures r.Ok? && spec.hostnames != [] ==>
              IsIngress(r.value.http.value, spec, "-rest", false, Http, config.grpcEnabled, "/", config.httpPort)
  {
    var labels := AllLabels(spec.name, [spec.labels]);
    var service := BuildService(spec.name, labels, IdentityLabel(spec.name), config, HTTP_WITH_METRICS);
    PortsListed(service, config, HTTP_WITH_METRICS);
    var profiling := NewProfilingComponents(spec, config);
    if profiling == Err {
      return Err;
    }
    var http := CreateIngress(spec, "-rest", false, Http, "/", config, config.httpPort);
    if http == Err {
      return Err;
    }
    if http.value.Some? {
      RoutesServe(http.value.value, spec.hostnames, "/", config.httpPort, service, config, HTTP_WITH_METRICS, Web);
    }
    return Ok(Network(service, None, http.value, profiling.value.0, profiling.value.1));
  }

  /** The ArmadaServer leads gRPC hosts to its gRPC port and REST hosts to its HTTP port. */
  method ArmadaServerNetwork(spec: NetworkSpec, config: AppConfig) returns (r: Result<Network>)
    requires spec.hostnames != [] ==> spec.ingress.Some?
    ensures r == Err <==> ProfilingFails(spec, config) || (spec.hostnames != [] && (config.grpcPort <= 0 || config.httpPort <= 0))
    ensures r.Ok? ==> Fits(r.value, spec, config)
                      && (r.value.grpc == None <==> spec.hostnames == []) && (r.value.http == None <==> spec.hostnames == [])
    ensures r.Ok? ==> Listens(r.value.service, spec.name, spec, config,
                              {ServicePort(Web, config.httpPort, config.httpNodePort), ServicePort(Metrics, config.metricsPort, 0),
                               ServicePort(GrpcPort, config.grpcPort, config.grpcNodePort)})
    ensures r.Ok? && spec.hostnames != [] ==>
              && IsIngress(r.value.grpc.value, spec, "-grpc", false, Grpc, config.grpcEnabled, "/", config.grpcPort)
              && IsIngress(r.value.http.value, spec, "-rest", true, Http,
                           config.grpcEnabled, "/api(/|$)(.*)", config.httpPort)
  {
    var grpc := CreateIngress(spec, "-grpc", false, Grpc, "/", config, config.grpcPort);
    if grpc == Err {
      return Err;
    }
    var http := CreateIngress(spec, "-rest", true, Http,
                             "/api(/|$)(.*)", config, config.httpPort);
    if http == Err {
      return Err;
    }
    var labels := AllLabels(spec.name, [spec.labels]);
    var service := BuildService(spec.name, labels, IdentityLabel(spec.name), config, APPLICATION_PORTS);
    PortsListed(service, config, APPLICATION_PORTS);
    var profiling := NewProfilingComponents(spec, config);
    if profiling == Err {
      return Err;
    }
    if spec.hostnames != [] {
      RoutesServe(grpc.value.value, spec.hostnames, "/", config.grpcPort, service, config, APPLICATION_PORTS, GrpcPort);
      RoutesServe(http.value.value, spec.hostnames, "/api(/|$)(.*)", config.httpPort, service, config, APPLICATION_PORTS, Web);
    }
    return Ok(Network(service, grpc.value, http.value, profiling.value.0, profiling.value.1));
  }

  /** The Scheduler serves gRPC only. */
  method SchedulerNetwork(spec: NetworkSpec, config: AppConfig) returns (r: Result<Network>)
    requires spec.hostnames != [] ==> spec.ingress.Some?
    ensures r == Err <==> ProfilingFails(spec, config) || (spec.hostnames != [] && config.grpcPort <= 0)
    ensures r.Ok? ==> Fits(r.value, spec, config) && r.value.http == None && (r.value.grpc == None <==> spec.hostnames == [])
    ensures r.Ok? ==> Listens(r.value.service, spec.name, spec, config,
                              {ServicePort(Web, config.httpPort, config.httpNodePort), ServicePort(Metrics, config.metricsPort, 0),
                               ServicePort(GrpcPort, config.grpcPort, config.grpcNodePort)})
    ensures r.Ok? && spec.hostnames != [] ==>
              IsIngress(r.value.grpc.value, spec, "-grpc", false, Grpc, config.grpcEnabled, "/", config.grpcPort)
  {
    var labels := AllLabels(spec.name, [spec.labels]);
    var service := BuildService(spec.name, labels, IdentityLabel(spec.name), config, APPLICATION_PORTS);
    PortsListed(service, config, APPLICATION_PORTS);
    var profiling := NewProfilingComponents(spec, config);
    if profiling == Err {
      return Err;
    }
    var grpc := CreateIngress(spec, "-grpc", false, Grpc, "/", config, config.grpcPort);
    if grpc == Err {
      return Err;
    }
    if grpc.value.Some? {
      RoutesServe(grpc.value.value, spec.hostnames, "/", config.grpcPort, service, config, APPLICATION_PORTS, GrpcPort);
    }
    return Ok(Network(service, grpc.value, None, profiling.value.0, profiling.value.1));
  }

  /** Binoculars needs hostnames, and leads its gRPC hosts to its HTTP port too. */
  method BinocularsNetwork(spec: NetworkSpec, config: AppConfig) returns (r: Result<Network>)
    requires spec.hostnames != [] && spec.ingress.Some?
    ensures r == Err <==> ProfilingFails(spec, config) || config.httpPort <= 0
    ensures r.Ok? ==> Fits(r.value, spec, config) && r.value.grpc.Some? && r.value.http.Some?
    ensures r.Ok? ==> Listens(r.value.service, spec.name, spec, config,
                              {ServicePort(Web, config.httpPort, config.httpNodePort), ServicePort(Metrics, config.metricsPort, 0),
                               ServicePort(GrpcPort, config.grpcPort, config.grpcNodePort)})
    ensures r.Ok? ==>
              && IsIngress(r.value.grpc.value, spec, "-grpc", false, Grpc, config.grpcEnabled, "/", config.httpPort)
              && IsIngress(r.value.http.value, spec, "-rest", true, Http,
                           config.grpcEnabled, "/api(/|$)(.*)", config.httpPort)
  {
    var labels := AllLabels(spec.name, [spec.labels]);
    var service := BuildService(spec.name, labels, IdentityLabel(spec.name), config, APPLICATION_PORTS);
    PortsListed(service, config, APPLICATION_PORTS);
    var profiling := NewProfilingComponents(spec, config);
    if profiling == Err {
      return Err;
    }
    var http := CreateIngress(spec, "-rest", true, Http,
                             "/api(/|$)(.*)", config, config.httpPort);
    if http == Err {
      return Err;
    }
    var grpc := CreateIngress(spec, "-grpc", false, Grpc, "/", config, config.httpPort);
    if grpc == Err {
      return Err;
    }
    RoutesServe(http.value.value, spec.hostnames, "/api(/|$)(.*)", config.httpPort, service, config, APPLICATION_PORTS, Web);
    RoutesServe(grpc.value.value, spec.hostnames, "/", config.httpPort, service, config, APPLICATION_PORTS, Web);
    return Ok(Network(service, grpc.value, http.value, profiling.value.0, profiling.value.1));
  }
}
