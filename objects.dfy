/** The typed cluster objects the tools build before submitting them: metadata,
    containers, pod specs and the workload, service and ingress kinds. Only the
    fields the tools set are modelled. */
module Objects {
  import opened Wrappers

  type Labels = map<string, string>

  /** The provenance labels every created object carries. */
  function ManagedLabels(name: string): (r: Labels)
    ensures r.Keys == {"mcp-managed", "app"}
    ensures r["mcp-managed"] == "true" && r["app"] == name
  {
    map["mcp-managed" := "true", "app" := name]
  }

  /** The labels on a pod template and in a workload's selector. */
  function AppLabels(name: string): Labels {
    map["app" := name]
  }

  datatype ObjectMeta = ObjectMeta(
    name: string,
    namespace: string,
    labels: Labels,
    annotations: Option<map<string, string>>)

  datatype ContainerPort = ContainerPort(containerPort: int, protocol: string, name: Option<string>)

  /** The `valueFrom` reference of an environment variable, passed through untouched. */
  type EnvSource = map<string, string>

  datatype EnvVar = EnvVar(name: string, value: Option<string>, valueFrom: Option<EnvSource>)

  /** Resource quantities such as {"cpu": "100m", "memory": "128Mi"}. */
  type Quantities = map<string, string>

  datatype ResourceRequirements = ResourceRequirements(requests: Option<Quantities>, limits: Option<Quantities>)

  datatype Container = Container(
    name: string,
    image: string,
    ports: seq<ContainerPort>,
    env: seq<EnvVar>,
    resources: Option<ResourceRequirements>,
    command: Option<seq<string>>,
    args: Option<seq<string>>)

  datatype PodSpec = PodSpec(containers: seq<Container>, restartPolicy: string)

  datatype PodTemplateSpec = PodTemplateSpec(labels: Labels, spec: PodSpec)

  datatype Pod = Pod(metadata: ObjectMeta, spec: PodSpec)

  datatype JobSpec = JobSpec(completions: int, parallelism: int, backoffLimit: int, template: PodTemplateSpec)

  datatype Job = Job(metadata: ObjectMeta, spec: JobSpec)

  datatype CronJob = CronJob(metadata: ObjectMeta, schedule: string, jobTemplate: JobSpec)

  datatype Deployment = Deployment(metadata: ObjectMeta, replicas: int, matchLabels: Labels, template: PodTemplateSpec)

  datatype ServicePort = ServicePort(port: int, targetPort: int, nodePort: Option<int>, protocol: string, name: Option<string>)

  datatype ServiceSpec = ServiceSpec(
    serviceType: string,
    ports: seq<ServicePort>,
    selector: Labels,
    externalIPs: Option<seq<string>>,
    loadBalancerIP: Option<string>,
    sessionAffinity: Option<string>,
    externalTrafficPolicy: Option<string>)

  datatype Service = Service(metadata: ObjectMeta, spec: ServiceSpec)

  datatype IngressPath = IngressPath(path: string, pathType: string, serviceName: string, servicePort: int)

  datatype IngressRule = IngressRule(host: Option<string>, paths: seq<IngressPath>)

  datatype IngressTls = IngressTls(hosts: seq<string>, secretName: Option<string>)

  datatype Ingress = Ingress(metadata: ObjectMeta, rules: seq<IngressRule>, tls: Option<seq<IngressTls>>)

  /** A patch body as sent to the API: nested dictionaries, lists, strings and
      integers, with `JNone` for a Python `None` that is sent as a value. */
  datatype Json =
    | JNone
    | JStr(s: string)
    | JInt(i: int)
    | JList(items: seq<Json>)
    | JObj(fields: map<string, Json>)

  function JOptStr(o: Option<string>): Json {
    if o.Some? then JStr(o.value) else JNone
  }

  function JOptInt(o: Option<int>): Json {
    if o.Some? then JInt(o.value) else JNone
  }
}
