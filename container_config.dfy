/** The configuration dictionary shared by the pod, job and cron-job tools, held as
    a record of optional fields so that "key absent" and "key present but empty"
    stay apart; the shallow merge `{**template, **custom}`; and the translation of
    a merged configuration into a container. */
module ContainerConfig {
  import opened Wrappers
  import opened Python
  import opened Objects

  datatype PortConfig = PortConfig(containerPort: Option<int>, protocol: Option<string>, name: Option<string>)

  datatype EnvConfig = EnvConfig(name: Option<string>, value: Option<string>, valueFrom: Option<EnvSource>)

  /** The `resources` dictionary: "requests" and "limits" tables of quantities. */
  type ResourcesConfig = map<string, Quantities>

  /** The keys a container or pod configuration may hold; `None` is an absent key. */
  datatype Config = Config(
    image: Option<string>,
    ports: Option<seq<PortConfig>>,
    env: Option<seq<EnvConfig>>,
    resources: Option<ResourcesConfig>,
    command: Option<seq<string>>,
    args: Option<seq<string>>,
    restartPolicy: Option<string>)

  /** The empty dictionary `{}`. */
  const NoKeys := Config(None, None, None, None, None, None, None)

  /** A value stored under one key of the dictionary view. */
  datatype Value =
    | Text(text: string)
    | PortList(ports: seq<PortConfig>)
    | EnvList(env: seq<EnvConfig>)
    | ResourceTable(table: ResourcesConfig)
    | Words(words: seq<string>)

  /** The keys a configuration dictionary can hold. */
  const Keys: set<string> := {"image", "ports", "env", "resources", "command", "args", "restartPolicy"}

  /** `d.get(key)` on the dictionary the record stands for. */
  function Lookup(c: Config, key: string): Option<Value> {
    if key == "image" then (if c.image.Some? then Some(Text(c.image.value)) else None)
    else if key == "ports" then (if c.ports.Some? then Some(PortList(c.ports.value)) else None)
    else if key == "env" then (if c.env.Some? then Some(EnvList(c.env.value)) else None)
    else if key == "resources" then (if c.resources.Some? then Some(ResourceTable(c.resources.value)) else None)
    else if key == "command" then (if c.command.Some? then Some(Words(c.command.value)) else None)
    else if key == "args" then (if c.args.Some? then Some(Words(c.args.value)) else None)
    else if key == "restartPolicy" then (if c.restartPolicy.Some? then Some(Text(c.restartPolicy.value)) else None)
    else None
  }

  /** The configuration as the dictionary the source manipulates. */
  function AsDict(c: Config): (d: map<string, Value>)
    ensures d.Keys <= Keys
  {
    map k | k in Keys && Lookup(c, k).Some? :: Lookup(c, k).value
  }

  /** Only `NoKeys` is the empty dictionary, so `if custom_config:` on the
      dictionary is `custom != NoKeys` on the record. */
  lemma AsDictEmpty(c: Config)
    ensures AsDict(c) == map[] <==> c == NoKeys
  {
    if c != NoKeys {
      if c.image.Some? { assert "image" in AsDict(c); }
      else if c.ports.Some? { assert "ports" in AsDict(c); }
      else if c.env.Some? { assert "env" in AsDict(c); }
      else if c.resources.Some? { assert "resources" in AsDict(c); }
      else if c.command.Some? { assert "command" in AsDict(c); }
      else if c.args.Some? { assert "args" in AsDict(c); }
      else { assert "restartPolicy" in AsDict(c); }
    } else {
      assert forall k :: Lookup(c, k).None?;
    }
  }

  function Override<T>(base: Option<T>, over: Option<T>): Option<T> {
    if over.Some? then over else base
  }

  /** `{**template, **custom}` when `custom` is truthy, else the template itself. */
  function Merge(template: Config, custom: Option<Config>): (r: Config)
    ensures custom.None? || custom.value == NoKeys ==> r == template
  {
    match custom
    case Some(c) =>
      if c != NoKeys then
        Config(
          Override(template.image, c.image),
          Override(template.ports, c.ports),
          Override(template.env, c.env),
          Override(template.resources, c.resources),
          Override(template.command, c.command),
          Override(template.args, c.args),
          Override(template.restartPolicy, c.restartPolicy))
      else template
    case None => template
  }

  /** The record merge is the dictionary merge: every key of the override takes the
      override's value (lists are replaced, never appended), every other key keeps
      the template's. */
  lemma MergeIsDictUnion(template: Config, custom: Config)
    ensures AsDict(Merge(template, Some(custom))) == AsDict(template) + AsDict(custom)
  {
    var m := Merge(template, Some(custom));
    if custom == NoKeys {
      AsDictEmpty(custom);
    } else {
      forall k ensures Lookup(m, k) == (if Lookup(custom, k).Some? then Lookup(custom, k) else Lookup(template, k)) {
      }
    }
    assert AsDict(m) == AsDict(template) + AsDict(custom);
  }

  /** `port["containerPort"]`, `port.get("protocol", "TCP")`, `port.get("name")`. */
  function ToContainerPort(p: PortConfig): Result<ContainerPort, Exception> {
    if p.containerPort.None? then Err(KeyError("containerPort"))
    else Ok(ContainerPort(p.containerPort.value, p.protocol.GetOr("TCP"), p.name))
  }

  /** `env["name"]`, `env.get("value")`, `env.get("valueFrom")`. */
  function ToEnvVar(e: EnvConfig): Result<EnvVar, Exception> {
    if e.name.None? then Err(KeyError("name"))
    else Ok(EnvVar(e.name.value, e.value, e.valueFrom))
  }

  function BuildPorts(ports: seq<PortConfig>): Result<seq<ContainerPort>, Exception> {
    Traverse(ports, ToContainerPort)
  }

  function BuildEnv(env: seq<EnvConfig>): Result<seq<EnvVar>, Exception> {
    Traverse(env, ToEnvVar)
  }

  /** Ports and env entries keep their order one for one; a port without a protocol
      gets "TCP", a missing name or value stays absent; the first entry missing a
      required key raises `KeyError`. */
  lemma BuildListsOneToOne(ports: seq<PortConfig>, env: seq<EnvConfig>)
    ensures BuildPorts(ports).Ok? <==> forall i :: 0 <= i < |ports| ==> ports[i].containerPort.Some?
    ensures BuildPorts(ports).Ok? ==>
      var r := BuildPorts(ports).value;
      |r| == |ports| &&
      forall i :: 0 <= i < |ports| ==>
        && Some(r[i].containerPort) == ports[i].containerPort
        && r[i].protocol == (if ports[i].protocol.Some? then ports[i].protocol.value else "TCP")
        && r[i].name == ports[i].name
    ensures BuildPorts(ports).Err? ==> BuildPorts(ports).error == KeyError("containerPort")
    ensures BuildEnv(env).Ok? <==> forall i :: 0 <= i < |env| ==> env[i].name.Some?
    ensures BuildEnv(env).Ok? ==>
      var r := BuildEnv(env).value;
      |r| == |env| &&
      forall i :: 0 <= i < |env| ==>
        Some(r[i].name) == env[i].name && r[i].value == env[i].value && r[i].valueFrom == env[i].valueFrom
    ensures BuildEnv(env).Err? ==> BuildEnv(env).error == KeyError("name")
  {
    if BuildPorts(ports).Err? {
      var i :| 0 <= i < |ports| && ToContainerPort(ports[i]) == Err(BuildPorts(ports).error);
    }
    if BuildEnv(env).Err? {
      var i :| 0 <= i < |env| && ToEnvVar(env[i]) == Err(BuildEnv(env).error);
    }
  }

  /** How a tool decides whether to build a resource block: pods and deployments
      test the dictionary's truthiness, jobs and cron jobs only the key's presence. */
  datatype ResourceTest = WhenTruthy | WhenPresent

  function ToResources(resources: Option<ResourcesConfig>, test: ResourceTest): (r: Option<ResourceRequirements>)
    ensures r.Some? <==> resources.Some? && (test.WhenPresent? || resources.value != map[])
    ensures r.Some? ==> r.value.requests == Get(resources.value, "requests") && r.value.limits == Get(resources.value, "limits")
  {
    if resources.Some? && (test.WhenPresent? || |resources.value| > 0) then
      Some(ResourceRequirements(Get(resources.value, "requests"), Get(resources.value, "limits")))
    else None
  }

  /** The single container built from a merged configuration: ports, then env, then
      resources, then the hard `config["image"]` lookup, in the source's order. */
  function BuildContainer(name: string, c: Config, test: ResourceTest): (r: Result<Container, Exception>)
    ensures r.Ok? <==>
      && BuildPorts(c.ports.GetOr([])).Ok?
      && BuildEnv(c.env.GetOr([])).Ok?
      && c.image.Some?
    ensures r.Ok? ==>
      && r.value.name == name
      && Some(r.value.image) == c.image
      && r.value.ports == BuildPorts(c.ports.GetOr([])).value
      && r.value.env == BuildEnv(c.env.GetOr([])).value
      && r.value.resources == ToResources(c.resources, test)
      && r.value.command == c.command
      && r.value.args == c.args
    ensures r.Err? ==> r.error in {KeyError("containerPort"), KeyError("name"), KeyError("image")}
  {
    BuildListsOneToOne(c.ports.GetOr([]), c.env.GetOr([]));
    var ports :- BuildPorts(c.ports.GetOr([]));
    var env :- BuildEnv(c.env.GetOr([]));
    var resources := ToResources(c.resources, test);
    if c.image.None? then Err(KeyError("image"))
    else Ok(Container(name, c.image.value, ports, env, resources, c.command, c.args))
  }
}
