/** The container template catalog used by the job and cron-job tools: members
    named in upper case whose values are lower case, and a base configuration for
    every member. */
module ContainerTemplates {
  import opened Wrappers
  import opened Objects
  import opened ContainerConfig
  import Python

  datatype ContainerTemplate = NGINX | NODEJS | PYTHON | CUSTOM

  const Members: seq<ContainerTemplate> := [NGINX, NODEJS, PYTHON, CUSTOM]

  function Name(t: ContainerTemplate): string {
    match t
    case NGINX => "NGINX"
    case NODEJS => "NODEJS"
    case PYTHON => "PYTHON"
    case CUSTOM => "CUSTOM"
  }

  function Value(t: ContainerTemplate): string {
    match t
    case NGINX => "nginx"
    case NODEJS => "nodejs"
    case PYTHON => "python"
    case CUSTOM => "custom"
  }

  /** `ContainerTemplate(s)`: lookup by value, not by name. */
  function Parse(s: string): (r: Option<ContainerTemplate>)
    ensures r.Some? ==> Value(r.value) == s
    ensures r.None? ==> forall t :: Value(t) != s
  {
    if s == "nginx" then Some(NGINX)
    else if s == "nodejs" then Some(NODEJS)
    else if s == "python" then Some(PYTHON)
    else if s == "custom" then Some(CUSTOM)
    else None
  }

  /** Four members, each listed once; parsing a member's value gives the member
      back, while no member's name parses. */
  lemma ValuesParseNamesDoNot(t: ContainerTemplate)
    ensures |Members| == 4 && t in Members
    ensures Parse(Value(t)) == Some(t)
    ensures Parse(Name(t)) == None
    ensures Name(t) != Value(t)
  {
    match t
    case NGINX => assert Members[0] == t;
    case NODEJS => assert Members[1] == t;
    case PYTHON => assert Members[2] == t;
    case CUSTOM => assert Members[3] == t;
  }

  /** The error for an unknown template lists the member names. */
  function InvalidTemplateMessage(): string {
    "Invalid template. Must be one of: " + Python.Join([Name(NGINX), Name(NODEJS), Name(PYTHON), Name(CUSTOM)], ", ")
  }

  /** The message names "NGINX, NODEJS, PYTHON, CUSTOM". */
  lemma InvalidTemplateMessageText()
    ensures InvalidTemplateMessage() == "Invalid template. Must be one of: NGINX, NODEJS, PYTHON, CUSTOM"
  {
    Python.JoinFour("NGINX", "NODEJS", "PYTHON", "CUSTOM", ", ");
  }

  /** None of the words the message offers is accepted: a caller who follows its
      advice is refused again. */
  lemma AdvisedNamesRefused()
    ensures Parse("NGINX") == None && Parse("NODEJS") == None && Parse("PYTHON") == None && Parse("CUSTOM") == None
  {
    ValuesParseNamesDoNot(NGINX);
    ValuesParseNamesDoNot(NODEJS);
    ValuesParseNamesDoNot(PYTHON);
    ValuesParseNamesDoNot(CUSTOM);
  }

  function Template(t: ContainerTemplate): (c: Config)
    ensures c.resources.Some? && c.resources.value.Keys == {"requests", "limits"}
    ensures c.env.None? && c.command.None? && c.args.None? && c.restartPolicy.None?
  {
    match t
    case NGINX =>
      Config(Some("nginx:latest"), Some([PortConfig(Some(80), Some("TCP"), Some("http"))]), None,
             Some(map["requests" := map["cpu" := "100m", "memory" := "128Mi"],
                      "limits" := map["cpu" := "500m", "memory" := "512Mi"]]), None, None, None)
    case NODEJS =>
      Config(Some("node:18"), Some([PortConfig(Some(3000), Some("TCP"), Some("http"))]), None,
             Some(map["requests" := map["cpu" := "200m", "memory" := "256Mi"],
                      "limits" := map["cpu" := "1000m", "memory" := "1Gi"]]), None, None, None)
    case PYTHON =>
      Config(Some("python:3.9"), Some([PortConfig(Some(8000), Some("TCP"), Some("http"))]), None,
             Some(map["requests" := map["cpu" := "200m", "memory" := "256Mi"],
                      "limits" := map["cpu" := "1000m", "memory" := "1Gi"]]), None, None, None)
    case CUSTOM =>
      Config(None, None, None,
             Some(map["requests" := map["cpu" := "100m", "memory" := "128Mi"],
                      "limits" := map["cpu" := "500m", "memory" := "512Mi"]]), None, None, None)
  }

  /** Every member but CUSTOM has an image and exactly one TCP port named "http"
      (nginx:latest on 80, node:18 on 3000, python:3.9 on 8000); CUSTOM holds only
      the `resources` key. */
  lemma OneHttpPortExceptCustom(t: ContainerTemplate)
    ensures t != CUSTOM ==>
      && Template(t).image.Some?
      && Template(t).ports.Some? && |Template(t).ports.value| == 1
      && Template(t).ports.value[0].protocol == Some("TCP")
      && Template(t).ports.value[0].name == Some("http")
    ensures t == NGINX ==> Template(t).image == Some("nginx:latest") && Template(t).ports.value[0].containerPort == Some(80)
    ensures t == NODEJS ==> Template(t).image == Some("node:18") && Template(t).ports.value[0].containerPort == Some(3000)
    ensures t == PYTHON ==> Template(t).image == Some("python:3.9") && Template(t).ports.value[0].containerPort == Some(8000)
    ensures t == CUSTOM ==> AsDict(Template(t)).Keys == {"resources"}
  {
    if t == CUSTOM {
      var d := AsDict(Template(t));
      assert "resources" in d;
      forall k | k in d ensures k == "resources" {
      }
    }
  }
}
