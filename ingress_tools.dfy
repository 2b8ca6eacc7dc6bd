/** The ingress tools: `create_ingress`, whose nested loops turn rule and path
    dictionaries into ingress rules, and the `update_ingress` patch. */
module IngressTools {
  import opened Wrappers
  import opened Python
  import opened Objects
  import opened Remote
  import opened Registry

  /** `path["service"]`: the backend's `name` and `port`. */
  datatype BackendConfig = BackendConfig(name: Option<string>, port: Option<int>)

  datatype PathConfig = PathConfig(path: Option<string>, pathType: Option<string>, service: Option<BackendConfig>)

  datatype RuleConfig = RuleConfig(host: Option<string>, paths: Option<seq<PathConfig>>)

  datatype TlsConfig = TlsConfig(hosts: Option<seq<string>>, secretName: Option<string>)

  /** One path: "/" and "Prefix" by default, the backend's name and port read with
      hard indexing. */
  function ToPath(p: PathConfig): (r: Result<IngressPath, Exception>)
    ensures r.Ok? <==> p.service.Some? && p.service.value.name.Some? && p.service.value.port.Some?
    ensures r.Ok? ==>
      && r.value.path == p.path.GetOr("/")
      && r.value.pathType == p.pathType.GetOr("Prefix")
      && Some(r.value.serviceName) == p.service.value.name
      && Some(r.value.servicePort) == p.service.value.port
    ensures r.Err? ==> r.error in {KeyError("service"), KeyError("name"), KeyError("port")}
  {
    if p.service.None? then Err(KeyError("service"))
    else if p.service.value.name.None? then Err(KeyError("name"))
    else if p.service.value.port.None? then Err(KeyError("port"))
    else Ok(IngressPath(p.path.GetOr("/"), p.pathType.GetOr("Prefix"), p.service.value.name.value, p.service.value.port.value))
  }

  /** `ToPath` as the code is written: the backend is built as
      `V1IngressBackend(name=..., port=V1IngressBackend(number=...))`, and that
      class takes only `service` and `resource` keywords. The two hard reads of the
      backend keys come first; a path that passes them raises `TypeError` from the
      constructor. */
  function ToPathAsWritten(p: PathConfig): (r: Result<IngressPath, Exception>)
    ensures r.Err?
    ensures ToPath(p).Err? ==> r == ToPath(p)
    ensures ToPath(p).Ok? ==> r == Err(TypeError)
  {
    if p.service.None? then Err(KeyError("service"))
    else if p.service.value.name.None? then Err(KeyError("name"))
    else if p.service.value.port.None? then Err(KeyError("port"))
    else Err(TypeError)
  }

  /** As written, no rule that has a path can be built: `create_ingress` raises
      before its API call whenever any rule lists a path, and a well-formed path
      that `ToPath` builds shows the discrepancy. */
  lemma {:induction false} BackendAsWrittenRaises(paths: seq<PathConfig>)
    ensures |paths| > 0 ==> Traverse(paths, ToPathAsWritten).Err?
    ensures var p := PathConfig(None, None, Some(BackendConfig(Some("web"), Some(80))));
      ToPath(p) == Ok(IngressPath("/", "Prefix", "web", 80)) && ToPathAsWritten(p) == Err(TypeError)
  {
    if |paths| > 0 {
      TraverseFirstError(paths, ToPathAsWritten, 0);
    }
  }

  /** One rule: its host (None when absent) and its paths, in order, defaulting to
      none. */
  function ToRule(rule: RuleConfig): (r: Result<IngressRule, Exception>)
    ensures r.Ok? <==> Traverse(rule.paths.GetOr([]), ToPath).Ok?
    ensures r.Ok? ==> r.value == IngressRule(rule.host, Traverse(rule.paths.GetOr([]), ToPath).value)
    ensures r.Err? ==> r.error == Traverse(rule.paths.GetOr([]), ToPath).error
  {
    var paths :- Traverse(rule.paths.GetOr([]), ToPath);
    Ok(IngressRule(rule.host, paths))
  }

  /** The TLS list: None when `tls` is falsy, else one entry per item with `hosts`
      defaulting to the empty list. */
  function ToTls(tls: Option<seq<TlsConfig>>): (r: Option<seq<IngressTls>>)
    ensures r.Some? <==> Truthy(tls)
    ensures r.Some? ==> |r.value| == |tls.value|
    ensures r.Some? ==> forall i :: 0 <= i < |tls.value| ==>
      r.value[i] == IngressTls(tls.value[i].hosts.GetOr([]), tls.value[i].secretName)
  {
    if Truthy(tls) then
      Some(seq(|tls.value|, i requires 0 <= i < |tls.value| =>
        IngressTls(tls.value[i].hosts.GetOr([]), tls.value[i].secretName)))
    else None
  }

  /** Everything `create_ingress` does before its API call, as one expression. */
  function IngressRequest(name: string, namespace: string, rules: seq<RuleConfig>,
                          tls: Option<seq<TlsConfig>> := None, annotations: Option<map<string, string>> := None)
    : (r: Result<Ingress, Exception>)
    ensures r.Ok? <==> Traverse(rules, ToRule).Ok?
    ensures r.Ok? ==>
      && r.value.metadata.name == name && r.value.metadata.namespace == namespace
      && r.value.metadata.labels == ManagedLabels(name)
      && r.value.metadata.annotations == Some(if TruthyMap(annotations) then annotations.value else map[])
      && r.value.rules == Traverse(rules, ToRule).value
      && r.value.tls == ToTls(tls)
  {
    var ingressRules :- Traverse(rules, ToRule);
    Ok(Ingress(ObjectMeta(name, namespace, ManagedLabels(name), Some(if TruthyMap(annotations) then annotations.value else map[])),
               ingressRules, ToTls(tls)))
  }

  /** The inner loop of `create_ingress`: the paths of one rule. */
  method BuildPaths(paths: seq<PathConfig>) returns (r: Result<seq<IngressPath>, Exception>)
    ensures r == Traverse(paths, ToPath)
  {
    var built: seq<IngressPath> := [];
    for j := 0 to |paths|
      invariant Traverse(paths[..j], ToPath) == Ok(built)
    {
      assert paths[..j + 1] == paths[..j] + [paths[j]];
      var p := ToPath(paths[j]);
      if p.Err? {
        TraverseFirstError(paths, ToPath, j);
        return Err(p.error);
      }
      TraverseSnoc(paths[..j], paths[j], ToPath);
      built := built + [p.value];
    }
    assert paths[..|paths|] == paths;
    return Ok(built);
  }

  /** The outer loop of `create_ingress`: one ingress rule per input rule, in
      order; the first path missing a backend key raises `KeyError`. */
  method BuildRules(rules: seq<RuleConfig>) returns (r: Result<seq<IngressRule>, Exception>)
    ensures r == Traverse(rules, ToRule)
  {
    var built: seq<IngressRule> := [];
    for i := 0 to |rules|
      invariant Traverse(rules[..i], ToRule) == Ok(built)
    {
      assert rules[..i + 1] == rules[..i] + [rules[i]];
      var paths := BuildPaths(rules[i].paths.GetOr([]));
      if paths.Err? {
        TraverseFirstError(rules, ToRule, i);
        return Err(paths.error);
      }
      var rule := IngressRule(rules[i].host, paths.value);
      TraverseSnoc(rules[..i], rules[i], ToRule);
      built := built + [rule];
    }
    assert rules[..|rules|] == rules;
    return Ok(built);
  }

  /** Rules map one to one onto ingress rules and paths onto ingress paths, with
      each rule keeping its host. */
  lemma RulesOneToOne(rules: seq<RuleConfig>)
    requires Traverse(rules, ToRule).Ok?
    ensures var built := Traverse(rules, ToRule).value;
      |built| == |rules| &&
      forall i :: 0 <= i < |rules| ==>
        && built[i].host == rules[i].host
        && |built[i].paths| == |rules[i].paths.GetOr([])|
  {
  }

  /** `create_ingress(...)` against a registry, where the create call answers
      `response`. */
  method CreateIngress(mgr: KubernetesManager, name: string, namespace: string, rules: seq<RuleConfig>,
                       tls: Option<seq<TlsConfig>>, annotations: Option<map<string, string>>, response: Response)
    returns (reply: Reply)
    requires mgr.Valid()
    modifies mgr
    ensures mgr.Valid()
    ensures var request := IngressRequest(name, namespace, rules, tls, annotations);
      && (request.Err? ==> reply == Raised(request.error) && mgr.Contents() == old(mgr.Contents()))
      && (request.Ok? ==> reply == ReplyTo(response))
      && (request.Ok? && response.Done? ==> mgr.Contents() == Record(old(mgr.Contents()), "Ingress", name, namespace))
      && (!response.Done? ==> mgr.Contents() == old(mgr.Contents()))
  {
    var ingressRules := BuildRules(rules);
    if ingressRules.Err? {
      return Raised(ingressRules.error);
    }
    reply := ReplyTo(response);
    if response.Done? {
      mgr.TrackResource("Ingress", name, namespace);
    }
  }

  /* ---------- update_ingress ---------- */

  /** The patch: `tls` replaces `rules` in the spec, annotations go into the
      metadata on their own. Rules and TLS entries are passed through as given. */
  function IngressPatch(rules: Option<seq<Json>>, tls: Option<seq<Json>>, annotations: Option<map<string, string>>)
    : (r: map<string, Json>)
    ensures "spec" in r <==> Truthy(rules) || Truthy(tls)
    ensures Truthy(tls) ==> r["spec"] == JObj(map["tls" := JList(tls.value)])
    ensures Truthy(rules) && !Truthy(tls) ==> r["spec"] == JObj(map["rules" := JList(rules.value)])
    ensures "metadata" in r <==> TruthyMap(annotations)
    ensures TruthyMap(annotations) ==> r["metadata"] == JObj(map["annotations" := JObj(map k | k in annotations.value :: JStr(annotations.value[k]))])
    ensures r.Keys <= {"spec", "metadata"}
  {
    var spec: map<string, Json> :=
      if Truthy(tls) then map["spec" := JObj(map["tls" := JList(tls.value)])]
      else if Truthy(rules) then map["spec" := JObj(map["rules" := JList(rules.value)])]
      else map[];
    if TruthyMap(annotations) then
      spec["metadata" := JObj(map["annotations" := JObj(map k | k in annotations.value :: JStr(annotations.value[k]))])]
    else spec
  }

  /** `update_ingress`'s patch as the source builds it. */
  method UpdateIngressPatch(rules: Option<seq<Json>>, tls: Option<seq<Json>>, annotations: Option<map<string, string>>)
    returns (patch: map<string, Json>)
    ensures patch == IngressPatch(rules, tls, annotations)
  {
    patch := map[];
    if Truthy(rules) {
      patch := patch["spec" := JObj(map["rules" := JList(rules.value)])];
    }
    if Truthy(tls) {
      patch := patch["spec" := JObj(map["tls" := JList(tls.value)])];
      assert patch == map["spec" := JObj(map["tls" := JList(tls.value)])];
    }
    if TruthyMap(annotations) {
      patch := patch["metadata" := JObj(map["annotations" := JObj(map k | k in annotations.value :: JStr(annotations.value[k]))])];
    }
  }
}
