/** The service template catalog: the service types and a base service
    configuration for each, plus the service configuration record, its shallow
    merge and its port translation. */
module ServiceTemplates {
  import opened Wrappers
  import opened Objects
  import opened Python

  datatype ServicePortConfig = ServicePortConfig(
    port: Option<int>,
    targetPort: Option<int>,
    nodePort: Option<int>,
    protocol: Option<string>,
    name: Option<string>)

  /** The keys a service configuration may hold; `None` is an absent key. */
  datatype ServiceConfig = ServiceConfig(
    serviceType: Option<string>,
    ports: Option<seq<ServicePortConfig>>,
    selector: Option<Labels>,
    externalIPs: Option<seq<string>>,
    loadBalancerIP: Option<string>,
    sessionAffinity: Option<string>,
    externalTrafficPolicy: Option<string>,
    externalName: Option<string>)

  const NoKeys := ServiceConfig(None, None, None, None, None, None, None, None)

  datatype ServiceType = CLUSTER_IP | NODE_PORT | LOAD_BALANCER | EXTERNAL_NAME

  function Name(t: ServiceType): string {
    match t
    case CLUSTER_IP => "CLUSTER_IP"
    case NODE_PORT => "NODE_PORT"
    case LOAD_BALANCER => "LOAD_BALANCER"
    case EXTERNAL_NAME => "EXTERNAL_NAME"
  }

  function Value(t: ServiceType): string {
    match t
    case CLUSTER_IP => "ClusterIP"
    case NODE_PORT => "NodePort"
    case LOAD_BALANCER => "LoadBalancer"
    case EXTERNAL_NAME => "ExternalName"
  }

  /** `ServiceType(s)`: lookup by value. */
  function Parse(s: string): (r: Option<ServiceType>)
    ensures r.Some? ==> Value(r.value) == s
    ensures r.None? ==> forall t :: Value(t) != s
  {
    if s == "ClusterIP" then Some(CLUSTER_IP)
    else if s == "NodePort" then Some(NODE_PORT)
    else if s == "LoadBalancer" then Some(LOAD_BALANCER)
    else if s == "ExternalName" then Some(EXTERNAL_NAME)
    else None
  }

  /** Parsing a type's value gives the type back; no type's name parses. */
  lemma ValuesParseNamesDoNot(t: ServiceType)
    ensures Parse(Value(t)) == Some(t)
    ensures Parse(Name(t)) == None
  {
  }

  function InvalidTypeMessage(): string {
    "Invalid service type. Must be one of: "
      + Join([Name(CLUSTER_IP), Name(NODE_PORT), Name(LOAD_BALANCER), Name(EXTERNAL_NAME)], ", ")
  }

  /** The message lists the member names, which `Parse` does not accept. */
  lemma InvalidTypeMessageText()
    ensures InvalidTypeMessage() == "Invalid service type. Must be one of: "
      + "CLUSTER_IP" + ", " + "NODE_PORT" + ", " + "LOAD_BALANCER" + ", " + "EXTERNAL_NAME"
  {
    JoinFour(Name(CLUSTER_IP), Name(NODE_PORT), Name(LOAD_BALANCER), Name(EXTERNAL_NAME), ", ");
  }

  const HttpPort := ServicePortConfig(Some(80), Some(80), None, Some("TCP"), Some("http"))

  function Template(t: ServiceType): (c: ServiceConfig)
    ensures c.serviceType == Some(Value(t))
    ensures c.ports.Some? && |c.ports.value| == 1
    ensures c.ports.value[0].port == Some(80) && c.ports.value[0].protocol == Some("TCP") && c.ports.value[0].name == Some("http")
  {
    match t
    case CLUSTER_IP =>
      ServiceConfig(Some("ClusterIP"), Some([HttpPort]), Some(map[]), None, None, Some("None"), None, None)
    case NODE_PORT =>
      ServiceConfig(Some("NodePort"), Some([HttpPort.(nodePort := Some(30000))]), Some(map[]), None, None, Some("None"), None, None)
    case LOAD_BALANCER =>
      ServiceConfig(Some("LoadBalancer"), Some([HttpPort]), Some(map[]), None, None, Some("None"), Some("Cluster"), None)
    case EXTERNAL_NAME =>
      ServiceConfig(Some("ExternalName"), Some([ServicePortConfig(Some(80), None, None, Some("TCP"), Some("http"))]), None, None, None, None, None, Some(""))
  }

  /** The three routed types select nothing and have session affinity "None"; only
      NODE_PORT fixes a node port (30000) and only LOAD_BALANCER a traffic policy
      ("Cluster"); EXTERNAL_NAME has no selector and its port no target port. */
  lemma TemplateDifferences(t: ServiceType)
    ensures t != EXTERNAL_NAME <==> Template(t).selector.Some?
    ensures t != EXTERNAL_NAME ==> Template(t).selector == Some(map[]) && Template(t).sessionAffinity == Some("None")
    ensures Template(t).ports.value[0].nodePort.Some? <==> t == NODE_PORT
    ensures t == NODE_PORT ==> Template(t).ports.value[0].nodePort == Some(30000)
    ensures Template(t).externalTrafficPolicy.Some? <==> t == LOAD_BALANCER
    ensures t == LOAD_BALANCER ==> Template(t).externalTrafficPolicy == Some("Cluster")
    ensures Template(t).ports.value[0].targetPort.None? <==> t == EXTERNAL_NAME
  {
  }

  function Override<T>(base: Option<T>, over: Option<T>): Option<T> {
    if over.Some? then over else base
  }

  /** A value stored under one key of the dictionary view. */
  datatype Setting =
    | Text(text: string)
    | PortList(ports: seq<ServicePortConfig>)
    | LabelMap(labels: Labels)
    | Words(words: seq<string>)

  /** The keys a service configuration dictionary can hold. */
  const SettingKeys: set<string> :=
    {"type", "ports", "selector", "externalIPs", "loadBalancerIP", "sessionAffinity", "externalTrafficPolicy", "externalName"}

  /** `d.get(key)` on the dictionary the record stands for. */
  function Lookup(c: ServiceConfig, key: string): Option<Setting> {
    if key == "type" then (if c.serviceType.Some? then Some(Text(c.serviceType.value)) else None)
    else if key == "ports" then (if c.ports.Some? then Some(PortList(c.ports.value)) else None)
    else if key == "selector" then (if c.selector.Some? then Some(LabelMap(c.selector.value)) else None)
    else if key == "externalIPs" then (if c.externalIPs.Some? then Some(Words(c.externalIPs.value)) else None)
    else if key == "loadBalancerIP" then (if c.loadBalancerIP.Some? then Some(Text(c.loadBalancerIP.value)) else None)
    else if key == "sessionAffinity" then (if c.sessionAffinity.Some? then Some(Text(c.sessionAffinity.value)) else None)
    else if key == "externalTrafficPolicy" then
      (if c.externalTrafficPolicy.Some? then Some(Text(c.externalTrafficPolicy.value)) else None)
    else if key == "externalName" then (if c.externalName.Some? then Some(Text(c.externalName.value)) else None)
    else None
  }

  /** The configuration as the dictionary the source manipulates. */
  function AsDict(c: ServiceConfig): (d: map<string, Setting>)
    ensures d.Keys <= SettingKeys
  {
    map k | k in SettingKeys && Lookup(c, k).Some? :: Lookup(c, k).value
  }

  /** Only `NoKeys` is the empty dictionary, so `if custom_config:` on the
      dictionary is `custom != NoKeys` on the record. */
  lemma AsDictEmpty(c: ServiceConfig)
    ensures AsDict(c) == map[] <==> c == NoKeys
  {
    if c != NoKeys {
      if c.serviceType.Some? { assert "type" in AsDict(c); }
      else if c.ports.Some? { assert "ports" in AsDict(c); }
      else if c.selector.Some? { assert "selector" in AsDict(c); }
      else if c.externalIPs.Some? { assert "externalIPs" in AsDict(c); }
      else if c.loadBalancerIP.Some? { assert "loadBalancerIP" in AsDict(c); }
      else if c.sessionAffinity.Some? { assert "sessionAffinity" in AsDict(c); }
      else if c.externalTrafficPolicy.Some? { assert "externalTrafficPolicy" in AsDict(c); }
      else { assert "externalName" in AsDict(c); }
    } else {
      assert forall k :: Lookup(c, k).None?;
    }
  }

  /** `{**template, **custom}`. */
  function Merge(template: ServiceConfig, custom: ServiceConfig): (r: ServiceConfig)
  {
    ServiceConfig(
      Override(template.serviceType, custom.serviceType),
      Override(template.ports, custom.ports),
      Override(template.selector, custom.selector),
      Override(template.externalIPs, custom.externalIPs),
      Override(template.loadBalancerIP, custom.loadBalancerIP),
      Override(template.sessionAffinity, custom.sessionAffinity),
      Override(template.externalTrafficPolicy, custom.externalTrafficPolicy),
      Override(template.externalName, custom.externalName))
  }

  /** The record merge is the dictionary merge: every key of the override takes
      the override's value (a port list or selector is replaced, never combined),
      every other key keeps the template's. */
  lemma MergeIsDictUnion(template: ServiceConfig, custom: ServiceConfig)
    ensures AsDict(Merge(template, custom)) == AsDict(template) + AsDict(custom)
  {
    var m, union := AsDict(Merge(template, custom)), AsDict(template) + AsDict(custom);
    forall k | k in SettingKeys
      ensures (k in m <==> k in union) && (k in m ==> m[k] == union[k])
    {
      MergeLookup(template, custom, k);
    }
    assert m == union;
  }

  /** The union one key at a time. */
  lemma MergeLookup(template: ServiceConfig, custom: ServiceConfig, k: string)
    ensures Lookup(Merge(template, custom), k)
         == (if Lookup(custom, k).Some? then Lookup(custom, k) else Lookup(template, k))
  {
  }

  /** `port["port"]`, `port["targetPort"]`, then `.get` for the optional keys, with
      "TCP" as the default protocol. */
  function ToServicePort(p: ServicePortConfig): (r: Result<ServicePort, Exception>)
    ensures r.Ok? <==> p.port.Some? && p.targetPort.Some?
    ensures p.port.None? ==> r == Err(KeyError("port"))
    ensures p.port.Some? && p.targetPort.None? ==> r == Err(KeyError("targetPort"))
    ensures r.Ok? ==> r.value.port == p.port.value && r.value.targetPort == p.targetPort.value
    ensures r.Ok? ==> r.value.nodePort == p.nodePort && r.value.name == p.name && r.value.protocol == p.protocol.GetOr("TCP")
  {
    if p.port.None? then Err(KeyError("port"))
    else if p.targetPort.None? then Err(KeyError("targetPort"))
    else Ok(ServicePort(p.port.value, p.targetPort.value, p.nodePort, p.protocol.GetOr("TCP"), p.name))
  }
}
