/** The service tools: `create_service`, with its two ways of combining the
    template with the caller's arguments, and the `update_service` patch. */
module ServiceTools {
  import opened Wrappers
  import opened Python
  import opened Objects
  import opened Remote
  import opened ServiceTemplates
  import opened Registry

  /** `config[key]` on an optional value: absent raises `KeyError(key)`. */
  function Index<T>(o: Option<T>, key: string): (r: Result<T, Exception>)
    ensures r.Ok? <==> o.Some?
    ensures r.Ok? ==> r.value == o.value
    ensures r.Err? ==> r.error == KeyError(key)
  {
    if o.Some? then Ok(o.value) else Err(KeyError(key))
  }

  /** `custom_config` is truthy: a dictionary with at least one key. */
  predicate HasCustom(custom: Option<ServiceConfig>) {
    custom.Some? && custom.value != NoKeys
  }

  /** The configuration `create_service` builds from: the shallow merge when there
      is an override, otherwise the template with `ports` and `selector` replaced
      by the arguments when those are truthy. Building the second dictionary reads
      `template["selector"]`, which EXTERNAL_NAME lacks. */
  function ServiceSettings(t: ServiceType, ports: Option<seq<ServicePortConfig>>, selector: Option<Labels>,
                           custom: Option<ServiceConfig>): (r: Result<ServiceConfig, Exception>)
    ensures HasCustom(custom) ==> r == Ok(Merge(Template(t), custom.value))
    ensures !HasCustom(custom) && r.Ok? ==>
      && r.value.ports == (if Truthy(ports) then ports else Template(t).ports)
      && r.value.selector == (if TruthyMap(selector) then selector else Template(t).selector)
    ensures !HasCustom(custom) && r.Ok? ==>
      r.value == Template(t).(ports := r.value.ports, selector := r.value.selector)
    ensures r.Err? <==> !HasCustom(custom) && !TruthyMap(selector) && t == EXTERNAL_NAME
  {
    var template := Template(t);
    if HasCustom(custom) then Ok(Merge(template, custom.value))
    else
      var ports' := if Truthy(ports) then ports.value else template.ports.value;
      var selector' :- if TruthyMap(selector) then Ok(selector.value) else Index(template.selector, "selector");
      Ok(template.(ports := Some(ports'), selector := Some(selector')))
  }

  /** Everything `create_service` does before its API call. */
  function ServiceRequest(name: string, namespace: string, serviceType: string,
                          ports: Option<seq<ServicePortConfig>> := None, selector: Option<Labels> := None,
                          custom: Option<ServiceConfig> := None): (r: Result<Service, Reply>)
    ensures Parse(serviceType).None? <==> r == Err(Refused(InvalidTypeMessage()))
    ensures r.Ok? ==> Parse(serviceType).Some? && ServiceSettings(Parse(serviceType).value, ports, selector, custom).Ok?
    ensures r.Ok? ==>
      var c := ServiceSettings(Parse(serviceType).value, ports, selector, custom).value;
      && r.value.metadata == ObjectMeta(name, namespace, ManagedLabels(name), None)
      && Some(r.value.spec.serviceType) == c.serviceType
      && Some(r.value.spec.selector) == c.selector
      && Traverse(c.ports.value, ToServicePort) == Ok(r.value.spec.ports)
      && r.value.spec.externalIPs == c.externalIPs
      && r.value.spec.loadBalancerIP == c.loadBalancerIP
      && r.value.spec.sessionAffinity == c.sessionAffinity
      && r.value.spec.externalTrafficPolicy == c.externalTrafficPolicy
    ensures Parse(serviceType).Some? ==>
      var b := Build(name, namespace, Parse(serviceType).value, ports, selector, custom);
      && (r.Ok? <==> b.Ok?)
      && (r.Err? ==> r.error == Raised(b.error))
  {
    match Parse(serviceType)
    case None => Err(Refused(InvalidTypeMessage()))
    case Some(t) =>
      match Build(name, namespace, t, ports, selector, custom)
      case Err(e) => Err(Raised(e))
      case Ok(service) => Ok(service)
  }

  /** The steps after validation, in the source's order: the settings, the port
      comprehension, then `type` and `selector` read with hard indexing. */
  function Build(name: string, namespace: string, t: ServiceType, ports: Option<seq<ServicePortConfig>>,
                 selector: Option<Labels>, custom: Option<ServiceConfig>): (r: Result<Service, Exception>)
    ensures r.Ok? ==> ServiceSettings(t, ports, selector, custom).Ok?
    ensures r.Ok? ==>
      var c := ServiceSettings(t, ports, selector, custom).value;
      && c.ports.Some? && c.serviceType.Some? && c.selector.Some?
      && r.value.metadata == ObjectMeta(name, namespace, ManagedLabels(name), None)
      && r.value.spec == ServiceSpec(c.serviceType.value, r.value.spec.ports, c.selector.value,
                                     c.externalIPs, c.loadBalancerIP, c.sessionAffinity, c.externalTrafficPolicy)
      && Traverse(c.ports.value, ToServicePort) == Ok(r.value.spec.ports)
    ensures r.Ok? <==>
      var s := ServiceSettings(t, ports, selector, custom);
      && s.Ok? && s.value.ports.Some? && Traverse(s.value.ports.value, ToServicePort).Ok?
      && s.value.serviceType.Some? && s.value.selector.Some?
    ensures r.Err? ==>
      r.error in {KeyError("selector"), KeyError("ports"), KeyError("port"), KeyError("targetPort"), KeyError("type")}
  {
    var c :- ServiceSettings(t, ports, selector, custom);
    var portConfigs :- Index(c.ports, "ports");
    var servicePorts :- Traverse(portConfigs, ToServicePort);
    var serviceType :- Index(c.serviceType, "type");
    var selector' :- Index(c.selector, "selector");
    Ok(Service(ObjectMeta(name, namespace, ManagedLabels(name), None),
               ServiceSpec(serviceType, servicePorts, selector', c.externalIPs, c.loadBalancerIP,
                           c.sessionAffinity, c.externalTrafficPolicy)))
  }

  /** With an override, the `ports` and `selector` arguments are ignored; without
      one, an empty selector or port list counts as not given. */
  lemma ArgumentsIgnoredOrFalsy(name: string, namespace: string, serviceType: string,
                                ports: Option<seq<ServicePortConfig>>, selector: Option<Labels>, custom: ServiceConfig)
    requires custom != NoKeys
    ensures ServiceRequest(name, namespace, serviceType, ports, selector, Some(custom))
         == ServiceRequest(name, namespace, serviceType, None, None, Some(custom))
    ensures ServiceRequest(name, namespace, serviceType, Some([]), Some(map[]), None)
         == ServiceRequest(name, namespace, serviceType, None, None, None)
  {
  }

  /** EXTERNAL_NAME cannot be created without an override: with no selector the
      settings step raises `KeyError("selector")`, and with one the template's
      port has no `targetPort`. */
  lemma ExternalNameNeedsCustom(name: string, namespace: string, selector: Labels)
    requires selector != map[]
    ensures ServiceRequest(name, namespace, "ExternalName") == Err(Raised(KeyError("selector")))
    ensures ServiceRequest(name, namespace, "ExternalName", selector := Some(selector)) == Err(Raised(KeyError("targetPort")))
  {
    var ports := Template(EXTERNAL_NAME).ports.value;
    assert ToServicePort(ports[0]) == Err(KeyError("targetPort"));
    Python.TraverseFirstError(ports, ToServicePort, 0);
  }

  /** The service's type comes from the merged configuration: an override's
      `type` wins over the `service_type` argument, which only picks the template. */
  lemma TypeFromConfig(name: string, namespace: string, other: string)
    ensures var custom := NoKeys.(serviceType := Some(other));
      var r := ServiceRequest(name, namespace, "ClusterIP", custom := Some(custom));
      r.Ok? && r.value.spec.serviceType == other
  {
    var ports := Template(CLUSTER_IP).ports.value;
    assert ToServicePort(ports[0]).Ok?;
  }

  /** The plain ClusterIP service: one port 80 to 80 over TCP named "http", an
      empty selector and session affinity "None". */
  lemma ClusterIPDefaults(name: string, namespace: string)
    ensures var r := ServiceRequest(name, namespace, "ClusterIP");
      && r.Ok?
      && r.value.spec.serviceType == "ClusterIP"
      && r.value.spec.ports == [ServicePort(80, 80, None, "TCP", Some("http"))]
      && r.value.spec.selector == map[]
      && r.value.spec.sessionAffinity == Some("None")
      && r.value.spec.externalTrafficPolicy == None
  {
    var ports := Template(CLUSTER_IP).ports.value;
    assert ToServicePort(ports[0]) == Ok(ServicePort(80, 80, None, "TCP", Some("http")));
  }

  /** `create_service(...)` against a registry, where the create call answers
      `response`. */
  method CreateService(mgr: KubernetesManager, name: string, namespace: string, serviceType: string,
                       ports: Option<seq<ServicePortConfig>>, selector: Option<Labels>,
                       custom: Option<ServiceConfig>, response: Response) returns (reply: Reply)
    requires mgr.Valid()
    modifies mgr
    ensures mgr.Valid()
    ensures var request := ServiceRequest(name, namespace, serviceType, ports, selector, custom);
      && (request.Err? ==> reply == request.error && mgr.Contents() == old(mgr.Contents()))
      && (request.Ok? ==> reply == ReplyTo(response))
      && (request.Ok? && response.Done? ==> mgr.Contents() == Record(old(mgr.Contents()), "Service", name, namespace))
      && (!response.Done? ==> mgr.Contents() == old(mgr.Contents()))
  {
    var request := ServiceRequest(name, namespace, serviceType, ports, selector, custom);
    if request.Err? {
      return request.error;
    }
    reply := ReplyTo(response);
    if response.Done? {
      mgr.TrackResource("Service", name, namespace);
    }
  }

  /* ---------- update_service ---------- */

  /** One entry of the ports patch: `port` and `targetPort` required, `nodePort`
      and `name` sent as None when absent, protocol defaulting to "TCP". */
  function PortPatch(p: ServicePortConfig): (r: Result<Json, Exception>)
    ensures r.Ok? <==> p.port.Some? && p.targetPort.Some?
    ensures p.port.None? ==> r == Err(KeyError("port"))
    ensures p.port.Some? && p.targetPort.None? ==> r == Err(KeyError("targetPort"))
    ensures r.Ok? ==> r.value.JObj? && r.value.fields.Keys == {"port", "targetPort", "nodePort", "protocol", "name"}
    ensures r.Ok? ==>
      && r.value.fields["port"] == JInt(p.port.value) && r.value.fields["targetPort"] == JInt(p.targetPort.value)
      && r.value.fields["nodePort"] == JOptInt(p.nodePort) && r.value.fields["name"] == JOptStr(p.name)
      && r.value.fields["protocol"] == JStr(p.protocol.GetOr("TCP"))
  {
    if p.port.None? then Err(KeyError("port"))
    else if p.targetPort.None? then Err(KeyError("targetPort"))
    else Ok(JObj(map["port" := JInt(p.port.value), "targetPort" := JInt(p.targetPort.value),
                     "nodePort" := JOptInt(p.nodePort), "protocol" := JStr(p.protocol.GetOr("TCP")),
                     "name" := JOptStr(p.name)]))
  }

  function SelectorJson(selector: Labels): Json {
    JObj(map k | k in selector :: JStr(selector[k]))
  }

  /** The patch as a priority list: selector, else ports, else type, else nothing.
      The port list is translated whenever it is given, so a bad port raises even
      when a selector would have won. */
  function ServicePatch(serviceType: Option<string>, ports: Option<seq<ServicePortConfig>>,
                        selector: Option<Labels>): (r: Result<map<string, Json>, Exception>)
    ensures r.Err? <==> Truthy(ports) && Traverse(ports.value, PortPatch).Err?
    ensures r.Ok? ==> r.value.Keys <= {"spec"}
    ensures r.Ok? ==> (r.value == map[] <==> !Truthy(serviceType) && !Truthy(ports) && !TruthyMap(selector))
    ensures r.Ok? && TruthyMap(selector) ==> r.value == map["spec" := JObj(map["selector" := SelectorJson(selector.value)])]
    ensures r.Ok? && !TruthyMap(selector) && Truthy(ports) ==>
      r.value == map["spec" := JObj(map["ports" := JList(Traverse(ports.value, PortPatch).value)])]
    ensures r.Ok? && !TruthyMap(selector) && !Truthy(ports) && Truthy(serviceType) ==>
      r.value == map["spec" := JObj(map["type" := JStr(serviceType.value)])]
  {
    var portEntries :- if Truthy(ports) then Traverse(ports.value, PortPatch) else Ok([]);
    if TruthyMap(selector) then
      var patch := map["spec" := JObj(map["selector" := SelectorJson(selector.value)])];
      assert "spec" in patch;
      Ok(patch)
    else if Truthy(ports) then
      var patch := map["spec" := JObj(map["ports" := JList(portEntries)])];
      assert "spec" in patch;
      Ok(patch)
    else if Truthy(serviceType) then
      var patch := map["spec" := JObj(map["type" := JStr(serviceType.value)])];
      assert "spec" in patch;
      Ok(patch)
    else Ok(map[])
  }

  /** A bad port entry makes `update_service` raise before any call, even with a
      selector that replaces the ports in the patch. */
  lemma BadPortRaisesEvenWhenOverridden(p: ServicePortConfig, selector: Labels)
    requires p.port.None? && selector != map[]
    ensures ServicePatch(None, Some([p]), Some(selector)) == Err(KeyError("port"))
  {
    Python.TraverseFirstError([p], PortPatch, 0);
  }

  /** `update_service`'s patch as the source builds it: three tests in a row, each
      overwriting `patch["spec"]`. */
  method UpdateServicePatch(serviceType: Option<string>, ports: Option<seq<ServicePortConfig>>,
                            selector: Option<Labels>) returns (r: Result<map<string, Json>, Exception>)
    ensures r == ServicePatch(serviceType, ports, selector)
  {
    var patch: map<string, Json> := map[];
    if Truthy(serviceType) {
      patch := patch["spec" := JObj(map["type" := JStr(serviceType.value)])];
    }
    if Truthy(ports) {
      var entries := Traverse(ports.value, PortPatch);
      if entries.Err? {
        return Err(entries.error);
      }
      patch := patch["spec" := JObj(map["ports" := JList(entries.value)])];
      assert patch == map["spec" := JObj(map["ports" := JList(entries.value)])];
    }
    if TruthyMap(selector) {
      patch := patch["spec" := JObj(map["selector" := SelectorJson(selector.value)])];
      assert patch == map["spec" := JObj(map["selector" := SelectorJson(selector.value)])];
    }
    return Ok(patch);
  }
}
