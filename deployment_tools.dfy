/** The deployment tools: `create_deployment`, the `format_deployment_info` text,
    `rollout_deployment`'s action check, the `update_deployment` patch and
    `expose_deployment`'s service. */
module DeploymentTools {
  import opened Wrappers
  import opened Python
  import opened Objects
  import opened Remote
  import opened ContainerConfig
  import opened Registry

  /* ---------- create_deployment ---------- */

  /** The arguments of `create_deployment` seen as a container configuration: the
      image is always given, command and args never are. */
  function DeploymentConfig(image: string, ports: Option<seq<PortConfig>>, env: Option<seq<EnvConfig>>,
                            resources: Option<ResourcesConfig>): Config {
    Config(Some(image), ports, env, resources, None, None, None)
  }

  /** Everything `create_deployment` does before its API call. */
  function DeploymentRequest(name: string, namespace: string, image: string, replicas: int := 1,
                             ports: Option<seq<PortConfig>> := None, env: Option<seq<EnvConfig>> := None,
                             resources: Option<ResourcesConfig> := None): (r: Result<Deployment, Reply>)
    ensures r.Ok? <==> BuildPorts(ports.GetOr([])).Ok? && BuildEnv(env.GetOr([])).Ok?
    ensures r.Ok? ==>
      && r.value.metadata == ObjectMeta(name, namespace, ManagedLabels(name), None)
      && r.value.replicas == replicas
      && r.value.matchLabels == map["app" := name]
      && r.value.template.labels == r.value.matchLabels
      && r.value.template.spec.restartPolicy == "Always"
      && |r.value.template.spec.containers| == 1
      && BuildContainer(name, DeploymentConfig(image, ports, env, resources), WhenTruthy) == Ok(r.value.template.spec.containers[0])
      && r.value.template.spec.containers[0].image == image
    ensures r.Err? ==> r.error == Raised(KeyError("containerPort")) || r.error == Raised(KeyError("name"))
  {
    match BuildContainer(name, DeploymentConfig(image, ports, env, resources), WhenTruthy)
    case Err(e) => Err(Raised(e))
    case Ok(container) =>
      Ok(Deployment(ObjectMeta(name, namespace, ManagedLabels(name), None), replicas, AppLabels(name),
                    PodTemplateSpec(AppLabels(name), PodSpec([container], "Always"))))
  }

  /** With no ports, env or resources the deployment has one bare container and a
      single replica. */
  lemma MinimalDeployment(name: string, namespace: string, image: string)
    ensures var r := DeploymentRequest(name, namespace, image);
      && r.Ok?
      && r.value.replicas == 1
      && r.value.template.spec.containers == [Container(name, image, [], [], None, None, None)]
  {
  }

  /** `create_deployment(...)` against a registry, where the create call answers
      `response`. */
  method CreateDeployment(mgr: KubernetesManager, name: string, namespace: string, image: string, replicas: int,
                          ports: Option<seq<PortConfig>>, env: Option<seq<EnvConfig>>,
                          resources: Option<ResourcesConfig>, response: Response) returns (reply: Reply)
    requires mgr.Valid()
    modifies mgr
    ensures mgr.Valid()
    ensures var request := DeploymentRequest(name, namespace, image, replicas, ports, env, resources);
      && (request.Err? ==> reply == request.error && mgr.Contents() == old(mgr.Contents()))
      && (request.Ok? ==> reply == ReplyTo(response))
      && (request.Ok? && response.Done? ==> mgr.Contents() == Record(old(mgr.Contents()), "Deployment", name, namespace))
      && (!response.Done? ==> mgr.Contents() == old(mgr.Contents()))
  {
    var request := DeploymentRequest(name, namespace, image, replicas, ports, env, resources);
    if request.Err? {
      return request.error;
    }
    reply := ReplyTo(response);
    if response.Done? {
      mgr.TrackResource("Deployment", name, namespace);
    }
  }

  /* ---------- format_deployment_info ---------- */

  /** The parts of a deployment read back from the API that the text shows. */
  datatype DeploymentStatus = DeploymentStatus(
    name: string,
    namespace: string,
    replicas: int,
    availableReplicas: Option<int>,
    strategy: string,
    containers: seq<Container>)

  function HeaderLines(d: DeploymentStatus): (r: seq<string>)
    ensures |r| == 5
  {
    [ "Deployment: " + d.name,
      "Namespace: " + d.namespace,
      "Replicas: " + Str(d.replicas) + " (Desired) / " + StrOptInt(d.availableReplicas) + " (Available)",
      "Strategy: " + d.strategy,
      "\nContainers:" ]
  }

  function PortLine(p: ContainerPort): string {
    "      - " + Str(p.containerPort) + "/" + p.protocol
  }

  function EnvLine(e: EnvVar): string {
    "      - " + e.name + "=" + StrOpt(e.value)
  }

  /** One line per element, in order. */
  function Lines<T>(xs: seq<T>, line: T -> string): (r: seq<string>)
    ensures |r| == |xs|
    ensures forall i :: 0 <= i < |xs| ==> r[i] == line(xs[i])
  {
    seq(|xs|, i requires 0 <= i < |xs| => line(xs[i]))
  }

  function NameLine(c: Container): string {
    "  - " + c.name
  }

  function ImageLine(c: Container): string {
    "    Image: " + c.image
  }

  const PortsHeading := "    Ports:"
  const EnvHeading := "    Environment:"

  /** The block for one container: its name and image, then a "Ports:" heading and
      one line per port when it has ports, then an "Environment:" heading and one
      line per variable when it has any. */
  function ContainerLines(c: Container): seq<string> {
    [NameLine(c), ImageLine(c)] + PortBlock(c.ports) + EnvBlock(c.env)
  }

  function PortBlock(ps: seq<ContainerPort>): seq<string> {
    if |ps| > 0 then [PortsHeading] + Lines(ps, PortLine) else []
  }

  function EnvBlock(es: seq<EnvVar>): seq<string> {
    if |es| > 0 then [EnvHeading] + Lines(es, EnvLine) else []
  }

  function AllContainerLines(cs: seq<Container>): seq<string> {
    if |cs| == 0 then [] else AllContainerLines(cs[..|cs| - 1]) + ContainerLines(cs[|cs| - 1])
  }

  /** The lines `format_deployment_info` joins. */
  function InfoLines(d: DeploymentStatus): seq<string> {
    HeaderLines(d) + AllContainerLines(d.containers)
  }

  /** How many lines a container contributes, counted from its shape alone. */
  function BlockSize(c: Container): nat {
    2 + (if |c.ports| > 0 then 1 + |c.ports| else 0) + (if |c.env| > 0 then 1 + |c.env| else 0)
  }

  function TotalBlockSize(cs: seq<Container>): nat {
    if |cs| == 0 then 0 else TotalBlockSize(cs[..|cs| - 1]) + BlockSize(cs[|cs| - 1])
  }

  /** The text has five header lines and then, per container, two lines plus a
      heading and a line per entry for each non-empty port or env list; the block
      of every container starts with that container's name, right after the blocks
      of the containers before it. */
  lemma {:induction false} InfoLinesShape(cs: seq<Container>)
    ensures |AllContainerLines(cs)| == TotalBlockSize(cs)
    ensures forall k :: 0 <= k < |cs| ==>
      TotalBlockSize(cs[..k]) < |AllContainerLines(cs)| && AllContainerLines(cs)[TotalBlockSize(cs[..k])] == NameLine(cs[k])
    decreases |cs|
  {
    if |cs| > 0 {
      InfoLinesShape(cs[..|cs| - 1]);
    }
    forall k | 0 <= k < |cs|
      ensures TotalBlockSize(cs[..k]) < |AllContainerLines(cs)| && AllContainerLines(cs)[TotalBlockSize(cs[..k])] == NameLine(cs[k])
    {
      InfoLinesShape(cs[..k]);
      BlockStartsWithName(cs, k);
    }
  }

  /** Once the lines of the first `k` containers are known to number
      `TotalBlockSize(cs[..k])`, the next line is the name of container `k`. */
  lemma BlockStartsWithName(cs: seq<Container>, k: nat)
    requires k < |cs| && |AllContainerLines(cs[..k])| == TotalBlockSize(cs[..k])
    ensures TotalBlockSize(cs[..k]) < |AllContainerLines(cs)|
    ensures AllContainerLines(cs)[TotalBlockSize(cs[..k])] == NameLine(cs[k])
  {
    var before, block := AllContainerLines(cs[..k]), ContainerLines(cs[k]);
    AllContainerLinesSnoc(cs, k);
    AllContainerLinesPrefix(cs, k + 1);
    assert block[0] == NameLine(cs[k]);
    assert (before + block)[|before|] == block[0];
  }

  /** The lines of the first `k` containers begin the lines of all of them. */
  lemma {:induction false} AllContainerLinesPrefix(cs: seq<Container>, k: nat)
    requires k <= |cs|
    ensures AllContainerLines(cs[..k]) <= AllContainerLines(cs)
    decreases |cs| - k
  {
    if k < |cs| {
      AllContainerLinesPrefix(cs, k + 1);
      AllContainerLinesSnoc(cs, k);
    } else {
      assert cs[..k] == cs;
    }
  }

  lemma LinesSnoc<T>(xs: seq<T>, line: T -> string, j: nat)
    requires j < |xs|
    ensures Lines(xs[..j + 1], line) == Lines(xs[..j], line) + [line(xs[j])]
  {
    assert xs[..j + 1][..j] == xs[..j];
  }

  lemma AllContainerLinesSnoc(cs: seq<Container>, i: nat)
    requires i < |cs|
    ensures AllContainerLines(cs[..i + 1]) == AllContainerLines(cs[..i]) + ContainerLines(cs[i])
  {
    assert cs[..i + 1][..i] == cs[..i];
  }

  /** Associativity of concatenation, named so that a call site states which
      grouping it needs. */
  lemma AppendAssoc(a: seq<string>, b: seq<string>, c: seq<string>)
    ensures a + (b + c) == (a + b) + c
  {
  }

  /** The inner loops of `format_deployment_info`: one appended line per port or
      per environment variable. */
  method AppendLines<T>(info: seq<string>, xs: seq<T>, line: T -> string) returns (r: seq<string>)
    ensures r == info + Lines(xs, line)
  {
    r := info;
    for j := 0 to |xs|
      invariant r == info + Lines(xs[..j], line)
    {
      LinesSnoc(xs, line, j);
      AppendAssoc(info, Lines(xs[..j], line), [line(xs[j])]);
      r := r + [line(xs[j])];
    }
    assert xs[..|xs|] == xs;
  }

  /** The ports part of a container's block: a heading and the inner loop over
      the ports, when there are any. */
  method AppendPortBlock(info: seq<string>, ps: seq<ContainerPort>) returns (r: seq<string>)
    ensures r == info + PortBlock(ps)
  {
    r := info;
    if |ps| > 0 {
      r := AppendLines(r + [PortsHeading], ps, PortLine);
      AppendAssoc(info, [PortsHeading], Lines(ps, PortLine));
    }
  }

  /** The env part of a container's block. */
  method AppendEnvBlock(info: seq<string>, es: seq<EnvVar>) returns (r: seq<string>)
    ensures r == info + EnvBlock(es)
  {
    r := info;
    if |es| > 0 {
      r := AppendLines(r + [EnvHeading], es, EnvLine);
      AppendAssoc(info, [EnvHeading], Lines(es, EnvLine));
    }
  }

  /** The body of the outer loop of `format_deployment_info`: one container's
      lines. */
  method AppendContainer(info: seq<string>, c: Container) returns (r: seq<string>)
    ensures r == info + ContainerLines(c)
  {
    r := info + [NameLine(c), ImageLine(c)];
    r := AppendPortBlock(r, c.ports);
    r := AppendEnvBlock(r, c.env);
    AppendAssoc(info, [NameLine(c), ImageLine(c)], PortBlock(c.ports));
    AppendAssoc(info, [NameLine(c), ImageLine(c)] + PortBlock(c.ports), EnvBlock(c.env));
  }

  /** `format_deployment_info`: the header, then the loop over containers,
      appending to one list that is joined with "\n". */
  method FormatDeploymentInfo(d: DeploymentStatus) returns (text: string)
    ensures text == Join(InfoLines(d), "\n")
  {
    var header := HeaderLines(d);
    var info := header;
    for i := 0 to |d.containers|
      invariant info == header + AllContainerLines(d.containers[..i])
    {
      AllContainerLinesSnoc(d.containers, i);
      AppendAssoc(header, AllContainerLines(d.containers[..i]), ContainerLines(d.containers[i]));
      info := AppendContainer(info, d.containers[i]);
    }
    assert d.containers[..|d.containers|] == d.containers;
    text := Join(info, "\n");
  }

  /* ---------- rollout_deployment ---------- */

  const ValidActions: seq<string> := ["status", "history", "restart", "undo"]

  function InvalidActionMessage(): string {
    "Invalid action. Must be one of: " + Join(ValidActions, ", ")
  }

  lemma InvalidActionMessageText()
    ensures InvalidActionMessage() == "Invalid action. Must be one of: status, history, restart, undo"
  {
    JoinFour("status", "history", "restart", "undo", ", ");
  }

  /** The patch that stamps the pod template with a restart annotation. */
  const RestartPatch: Json :=
    JObj(map["spec" := JObj(map["template" := JObj(map["metadata" := JObj(map["annotations" :=
      JObj(map["kubectl.kubernetes.io/restartedAt" := JStr("now")])])])])])

  /** The single API call a rollout action makes. */
  datatype RolloutCall = PatchDeployment(patch: Json) | ReadDeployment

  function RolloutRequest(action: string): (r: Result<RolloutCall, Reply>)
    ensures r.Err? <==> action !in ValidActions
    ensures r.Err? ==> r.error == Refused(InvalidActionMessage())
    ensures r.Ok? ==> (r.value.ReadDeployment? <==> action == "status" || action == "history")
  {
    if action !in ValidActions then Err(Refused(InvalidActionMessage()))
    else if action == "restart" then Ok(PatchDeployment(RestartPatch))
    else if action == "undo" then Ok(PatchDeployment(RestartPatch))
    else Ok(ReadDeployment)
  }

  /** "undo" does not roll anything back: it sends exactly the restart patch. */
  lemma UndoIsRestart()
    ensures RolloutRequest("undo") == RolloutRequest("restart") == Ok(PatchDeployment(RestartPatch))
  {
  }

  /** `rollout_deployment(name, namespace, action)` where its one call answers
      `response`: no call at all for an unknown action. */
  function Rollout(action: string, response: Response): (reply: Reply)
    ensures action !in ValidActions ==> reply == Refused(InvalidActionMessage())
    ensures action in ValidActions ==> reply == ReplyTo(response)
  {
    match RolloutRequest(action)
    case Err(refusal) => refusal
    case Ok(_) => ReplyTo(response)
  }

  /* ---------- update_deployment ---------- */

  /** `{"name": e["name"], "value": e["value"]}`: both keys are required. */
  function EnvEntryPatch(e: map<string, string>): (r: Result<Json, Exception>)
    ensures r.Ok? <==> "name" in e && "value" in e
    ensures r.Ok? ==> r.value == JObj(map["name" := JStr(e["name"]), "value" := JStr(e["value"])])
    ensures "name" !in e ==> r == Err(KeyError("name"))
    ensures "name" in e && "value" !in e ==> r == Err(KeyError("value"))
  {
    if "name" !in e then Err(KeyError("name"))
    else if "value" !in e then Err(KeyError("value"))
    else Ok(JObj(map["name" := JStr(e["name"]), "value" := JStr(e["value"])]))
  }

  /** `{"template": {"spec": {"containers": [container]}}}`. */
  function ContainersSpec(container: map<string, Json>): Json {
    JObj(map["template" := JObj(map["spec" := JObj(map["containers" := JList([JObj(container)])])])])
  }

  /** The patch as a priority list: env when given, else replicas, else image, else
      nothing. */
  function DeploymentPatch(name: string, image: Option<string>, replicas: Option<int>,
                           env: Option<seq<map<string, string>>>): (r: Result<map<string, Json>, Exception>)
    ensures r.Err? <==> Truthy(env) && Traverse(env.value, EnvEntryPatch).Err?
    ensures r.Err? ==> r.error == Traverse(env.value, EnvEntryPatch).error
    ensures r.Ok? ==> r.value.Keys <= {"spec"}
    ensures r.Ok? ==> (r.value == map[] <==> !Truthy(image) && replicas.None? && !Truthy(env))
    ensures r.Ok? && Truthy(env) ==>
      r.value == map["spec" := ContainersSpec(map["name" := JStr(name), "env" := JList(Traverse(env.value, EnvEntryPatch).value)])]
    ensures r.Ok? && !Truthy(env) && replicas.Some? ==> r.value == map["spec" := JObj(map["replicas" := JInt(replicas.value)])]
    ensures r.Ok? && !Truthy(env) && replicas.None? && Truthy(image) ==>
      r.value == map["spec" := ContainersSpec(map["name" := JStr(name), "image" := JStr(image.value)])]
  {
    if Truthy(env) then
      match Traverse(env.value, EnvEntryPatch)
      case Err(e) => Err(e)
      case Ok(entries) =>
        var patch := map["spec" := ContainersSpec(map["name" := JStr(name), "env" := JList(entries)])];
        assert "spec" in patch;
        Ok(patch)
    else if replicas.Some? then
      var patch := map["spec" := JObj(map["replicas" := JInt(replicas.value)])];
      assert "spec" in patch;
      Ok(patch)
    else if Truthy(image) then
      var patch := map["spec" := ContainersSpec(map["name" := JStr(name), "image" := JStr(image.value)])];
      assert "spec" in patch;
      Ok(patch)
    else Ok(map[])
  }

  /** Later options overwrite the whole `spec`: env wins over replicas and image,
      replicas over image; a replica count of 0 still counts (it is tested against
      None), an empty image does not. */
  lemma PatchPrecedence(name: string, image: string, n: int, env: seq<map<string, string>>)
    requires |env| > 0 && forall i :: 0 <= i < |env| ==> "name" in env[i] && "value" in env[i]
    ensures DeploymentPatch(name, Some(image), Some(n), Some(env)) == DeploymentPatch(name, None, None, Some(env))
    ensures DeploymentPatch(name, Some(image), Some(n), None) == Ok(map["spec" := JObj(map["replicas" := JInt(n)])])
    ensures DeploymentPatch(name, Some(""), Some(0), None) == Ok(map["spec" := JObj(map["replicas" := JInt(0)])])
    ensures DeploymentPatch(name, Some(""), None, Some([])) == Ok(map[])
  {
  }

  /** `update_deployment`'s patch, built as the source does: three tests in a row,
      each overwriting `patch["spec"]`; a missing env key escapes as `KeyError`. */
  method UpdateDeploymentPatch(name: string, image: Option<string>, replicas: Option<int>,
                               env: Option<seq<map<string, string>>>) returns (r: Result<map<string, Json>, Exception>)
    ensures r == DeploymentPatch(name, image, replicas, env)
  {
    var patch: map<string, Json> := map[];
    if Truthy(image) {
      patch := patch["spec" := ContainersSpec(map["name" := JStr(name), "image" := JStr(image.value)])];
    }
    if replicas.Some? {
      patch := patch["spec" := JObj(map["replicas" := JInt(replicas.value)])];
      assert patch == map["spec" := JObj(map["replicas" := JInt(replicas.value)])];
    }
    if Truthy(env) {
      var entries := Traverse(env.value, EnvEntryPatch);
      if entries.Err? {
        return Err(entries.error);
      }
      patch := patch["spec" := ContainersSpec(map["name" := JStr(name), "env" := JList(entries.value)])];
      assert patch == map["spec" := ContainersSpec(map["name" := JStr(name), "env" := JList(entries.value)])];
    }
    return Ok(patch);
  }

  /* ---------- expose_deployment ---------- */

  /** The service `expose_deployment` creates. */
  function ExposeRequest(deploymentName: string, namespace: string, port: int,
                         targetPort: Option<int> := None, serviceType: string := "ClusterIP"): (s: Service)
    ensures s.metadata == ObjectMeta(deploymentName, namespace, ManagedLabels(deploymentName), None)
    ensures s.spec.selector == map["app" := deploymentName]
    ensures s.spec.serviceType == serviceType
    ensures |s.spec.ports| == 1 && s.spec.ports[0].port == port && s.spec.ports[0].protocol == "TCP"
    ensures s.spec.ports[0].targetPort == (if targetPort.Some? && targetPort.value != 0 then targetPort.value else port)
  {
    var target := if targetPort.Some? && targetPort.value != 0 then targetPort.value else port;
    Service(ObjectMeta(deploymentName, namespace, ManagedLabels(deploymentName), None),
            ServiceSpec(serviceType, [ServicePort(port, target, None, "TCP", None)], AppLabels(deploymentName),
                        None, None, None, None))
  }

  /** `expose_deployment(...)` against a registry, where the create call answers
      `response`; the service is tracked under the deployment's own name. */
  method ExposeDeployment(mgr: KubernetesManager, deploymentName: string, namespace: string, port: int,
                          targetPort: Option<int>, serviceType: string, response: Response)
    returns (service: Service, reply: Reply)
    requires mgr.Valid()
    modifies mgr
    ensures mgr.Valid()
    ensures service == ExposeRequest(deploymentName, namespace, port, targetPort, serviceType)
    ensures reply == ReplyTo(response)
    ensures response.Done? ==> mgr.Contents() == Record(old(mgr.Contents()), "Service", deploymentName, namespace)
    ensures !response.Done? ==> mgr.Contents() == old(mgr.Contents())
  {
    service := ExposeRequest(deploymentName, namespace, port, targetPort, serviceType);
    reply := ReplyTo(response);
    if response.Done? {
      mgr.TrackResource("Service", deploymentName, namespace);
    }
  }

  /** Exposing a deployment replaces its registry entry: afterwards the registry
      holds the Service under that key and no longer holds the Deployment anywhere,
      so the cleanup sweep deletes the service and never the deployment. */
  lemma ExposeForgetsDeployment(l: Ledger, name: string, namespace: string)
    requires l.Valid()
    ensures var after := Record(Record(l, "Deployment", name, namespace), "Service", name, namespace);
      var values := Values(after.order, after.tracked);
      && after.tracked[Key(namespace, name)] == Entry("Service", name, namespace)
      && Entry("Deployment", name, namespace) !in Deletable(values)
      && Entry("Service", name, namespace) in Deletable(values)
  {
    var after := Record(Record(l, "Deployment", name, namespace), "Service", name, namespace);
    var key := Key(namespace, name);
    assert after.Valid();
    var values := Values(after.order, after.tracked);
    forall i | 0 <= i < |values| ensures values[i] != Entry("Deployment", name, namespace) {
      var k := after.order[i];
      assert k in after.tracked;
    }
    var j :| 0 <= j < |after.order| && after.order[j] == key;
    assert values[j] == Entry("Service", name, namespace);
  }
}
