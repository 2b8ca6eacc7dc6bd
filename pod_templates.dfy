/** The pod template catalog: an enumeration whose values equal its member names,
    and a base configuration for every member. */
module PodTemplates {
  import opened Wrappers
  import opened Objects
  import opened ContainerConfig
  import Python

  datatype ContainerTemplate = NGINX | REDIS | POSTGRES | MYSQL | CUSTOM

  /** The members in declaration order, as iterating over the enumeration yields them. */
  const Members: seq<ContainerTemplate> := [NGINX, REDIS, POSTGRES, MYSQL, CUSTOM]

  function Name(t: ContainerTemplate): string {
    match t
    case NGINX => "NGINX"
    case REDIS => "REDIS"
    case POSTGRES => "POSTGRES"
    case MYSQL => "MYSQL"
    case CUSTOM => "CUSTOM"
  }

  function Value(t: ContainerTemplate): string {
    match t
    case NGINX => "NGINX"
    case REDIS => "REDIS"
    case POSTGRES => "POSTGRES"
    case MYSQL => "MYSQL"
    case CUSTOM => "CUSTOM"
  }

  /** The enumeration has exactly five members, each listed once, and each
      member's value is its name. */
  lemma MembersAreNamedByValue()
    ensures |Members| == 5
    ensures forall t :: t in Members
    ensures forall i, j :: 0 <= i < j < |Members| ==> Members[i] != Members[j]
    ensures forall t :: Value(t) == Name(t)
  {
    forall t ensures t in Members {
      match t
      case NGINX => assert Members[0] == t;
      case REDIS => assert Members[1] == t;
      case POSTGRES => assert Members[2] == t;
      case MYSQL => assert Members[3] == t;
      case CUSTOM => assert Members[4] == t;
    }
  }

  /** `ContainerTemplate(s)`: the member whose value is `s`, if any. */
  function Parse(s: string): (r: Option<ContainerTemplate>)
    ensures r.Some? ==> Value(r.value) == s
    ensures r.None? ==> forall t :: Value(t) != s
  {
    if s == "NGINX" then Some(NGINX)
    else if s == "REDIS" then Some(REDIS)
    else if s == "POSTGRES" then Some(POSTGRES)
    else if s == "MYSQL" then Some(MYSQL)
    else if s == "CUSTOM" then Some(CUSTOM)
    else None
  }

  /** Parsing a member's value gives the member back. */
  lemma ParseValue(t: ContainerTemplate)
    ensures Parse(Value(t)) == Some(t)
  {
  }

  /** The error returned for a string that is not a template value. */
  function InvalidTemplateMessage(): string {
    "Invalid template. Must be one of: " + Python.Join([Name(NGINX), Name(REDIS), Name(POSTGRES), Name(MYSQL), Name(CUSTOM)], ", ")
  }

  lemma InvalidTemplateMessageText()
    ensures InvalidTemplateMessage() == "Invalid template. Must be one of: NGINX, REDIS, POSTGRES, MYSQL, CUSTOM"
  {
    Python.JoinFive("NGINX", "REDIS", "POSTGRES", "MYSQL", "CUSTOM", ", ");
  }

  const SmallRequests: Quantities := map["cpu" := "100m", "memory" := "128Mi"]
  const SmallLimits: Quantities := map["cpu" := "500m", "memory" := "512Mi"]
  const LargeRequests: Quantities := map["cpu" := "200m", "memory" := "256Mi"]
  const LargeLimits: Quantities := map["cpu" := "1000m", "memory" := "1Gi"]

  function Template(t: ContainerTemplate): (c: Config)
    ensures c.restartPolicy == Some("Always")
    ensures c.image.Some? && c.ports.Some?
    ensures c.resources.Some? && c.resources.value.Keys == {"requests", "limits"}
    ensures c.command.None? && c.args.None?
  {
    match t
    case NGINX =>
      Config(Some("nginx:latest"), Some([PortConfig(Some(80), Some("TCP"), Some("http"))]), None,
             Some(map["requests" := SmallRequests, "limits" := SmallLimits]), None, None, Some("Always"))
    case REDIS =>
      Config(Some("redis:latest"), Some([PortConfig(Some(6379), Some("TCP"), Some("redis"))]), None,
             Some(map["requests" := SmallRequests, "limits" := SmallLimits]), None, None, Some("Always"))
    case POSTGRES =>
      Config(Some("postgres:latest"), Some([PortConfig(Some(5432), Some("TCP"), Some("postgres"))]),
             Some([EnvConfig(Some("POSTGRES_PASSWORD"), Some("postgres"), None)]),
             Some(map["requests" := LargeRequests, "limits" := LargeLimits]), None, None, Some("Always"))
    case MYSQL =>
      Config(Some("mysql:latest"), Some([PortConfig(Some(3306), Some("TCP"), Some("mysql"))]),
             Some([EnvConfig(Some("MYSQL_ROOT_PASSWORD"), Some("mysql"), None)]),
             Some(map["requests" := LargeRequests, "limits" := LargeLimits]), None, None, Some("Always"))
    case CUSTOM =>
      Config(Some(""), Some([]), Some([]),
             Some(map["requests" := SmallRequests, "limits" := SmallLimits]), None, None, Some("Always"))
  }

  /** NGINX runs `nginx:latest` with exactly one port: 80, TCP, named "http". */
  lemma NginxTemplate()
    ensures Template(NGINX).image == Some("nginx:latest")
    ensures Template(NGINX).ports == Some([PortConfig(Some(80), Some("TCP"), Some("http"))])
  {
  }

  /** Only POSTGRES and MYSQL carry an `env` key, with one variable each; CUSTOM has
      an empty image, no ports and an empty env list. */
  lemma EnvOnlyForDatabases(t: ContainerTemplate)
    ensures Template(t).env.Some? <==> t in {POSTGRES, MYSQL, CUSTOM}
    ensures t in {POSTGRES, MYSQL} ==> |Template(t).env.value| == 1
    ensures t == CUSTOM ==> Template(t).image == Some("") && Template(t).ports == Some([]) && Template(t).env == Some([])
  {
  }
}
