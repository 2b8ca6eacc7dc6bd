/** `create_job`: validate the template against the container catalog, merge the
    override, build the Job, submit it and track it once accepted. */
module JobTools {
  import opened Wrappers
  import opened Python
  import opened Objects
  import opened Remote
  import opened ContainerConfig
  import ContainerTemplates
  import opened Registry

  function JobConfig(t: ContainerTemplates.ContainerTemplate, custom: Option<Config>): Config {
    Merge(ContainerTemplates.Template(t), custom)
  }

  /** The job spec shared by jobs and cron jobs: the counts as given and a pod
      template labelled with the app name, holding the one container and restart
      policy "OnFailure" whatever the configuration says. */
  function JobBody(name: string, c: Config, completions: int, parallelism: int, backoffLimit: int): (r: Result<JobSpec, Exception>)
    ensures r.Ok? <==> BuildContainer(name, c, WhenPresent).Ok?
    ensures r.Ok? ==>
      && r.value.completions == completions && r.value.parallelism == parallelism && r.value.backoffLimit == backoffLimit
      && r.value.template.labels == map["app" := name]
      && r.value.template.spec.restartPolicy == "OnFailure"
      && r.value.template.spec.containers == [BuildContainer(name, c, WhenPresent).value]
    ensures r.Err? ==> r == Err(BuildContainer(name, c, WhenPresent).error)
  {
    var container :- BuildContainer(name, c, WhenPresent);
    Ok(JobSpec(completions, parallelism, backoffLimit,
               PodTemplateSpec(AppLabels(name), PodSpec([container], "OnFailure"))))
  }

  /** Everything `create_job` does before its API call. */
  function JobRequest(name: string, namespace: string, template: string,
                      completions: int := 1, parallelism: int := 1, backoffLimit: int := 6,
                      custom: Option<Config> := None): (r: Result<Job, Reply>)
    ensures ContainerTemplates.Parse(template).None? <==> r == Err(Refused(ContainerTemplates.InvalidTemplateMessage()))
    ensures ContainerTemplates.Parse(template).Some? ==>
      var body := JobBody(name, JobConfig(ContainerTemplates.Parse(template).value, custom), completions, parallelism, backoffLimit);
      && (r.Ok? <==> body.Ok?)
      && (r.Ok? ==> r.value == Job(ObjectMeta(name, namespace, ManagedLabels(name), None), body.value))
      && (r.Err? ==> r.error == Raised(body.error))
  {
    match ContainerTemplates.Parse(template)
    case None => Err(Refused(ContainerTemplates.InvalidTemplateMessage()))
    case Some(t) =>
      match JobBody(name, JobConfig(t, custom), completions, parallelism, backoffLimit)
      case Err(e) => Err(Raised(e))
      case Ok(spec) => Ok(Job(ObjectMeta(name, namespace, ManagedLabels(name), None), spec))
  }

  /** The message names "NGINX", ..., yet only the lower-case values are accepted:
      asking for "NGINX" is refused and "nginx" builds a Job with the defaults 1, 1
      and 6, a resource block and restart policy "OnFailure". */
  lemma NamesRefusedValuesAccepted(name: string, namespace: string)
    ensures JobRequest(name, namespace, "NGINX") == Err(Refused(ContainerTemplates.InvalidTemplateMessage()))
    ensures var r := JobRequest(name, namespace, "nginx");
      && r.Ok?
      && r.value.spec.completions == 1 && r.value.spec.parallelism == 1 && r.value.spec.backoffLimit == 6
      && r.value.spec.template.spec.restartPolicy == "OnFailure"
      && r.value.spec.template.spec.containers[0].image == "nginx:latest"
      && r.value.spec.template.spec.containers[0].resources.Some?
  {
    ContainerTemplates.InvalidTemplateMessageText();
    BuildListsOneToOne(ContainerTemplates.Template(ContainerTemplates.NGINX).ports.value, []);
  }

  /** CUSTOM has no image, so without an image override `config["image"]` raises a
      `KeyError` that the tool does not catch; with one, the Job builds. */
  lemma CustomNeedsImage(name: string, namespace: string, custom: Option<Config>)
    requires custom.None? || custom.value.image.None?
    requires custom.None? || (custom.value.ports.None? && custom.value.env.None?)
    ensures JobRequest(name, namespace, "custom", custom := custom) == Err(Raised(KeyError("image")))
  {
    var c := JobConfig(ContainerTemplates.CUSTOM, custom);
    assert c.image.None? && c.ports.None? && c.env.None?;
  }

  /** Resources are built whenever the key is present: an empty override still
      yields an (empty) resource block, unlike in `create_pod`. */
  lemma EmptyResourcesKept(name: string, namespace: string, image: string)
    ensures var custom := NoKeys.(image := Some(image), resources := Some(map[]));
      var r := JobRequest(name, namespace, "custom", custom := Some(custom));
      && r.Ok?
      && r.value.spec.template.spec.containers[0].resources == Some(ResourceRequirements(None, None))
  {
  }

  /** `create_job(...)` against a registry, where the create call answers
      `response`. */
  method CreateJob(mgr: KubernetesManager, name: string, namespace: string, template: string,
                   completions: int, parallelism: int, backoffLimit: int,
                   custom: Option<Config>, response: Response) returns (reply: Reply)
    requires mgr.Valid()
    modifies mgr
    ensures mgr.Valid()
    ensures var request := JobRequest(name, namespace, template, completions, parallelism, backoffLimit, custom);
      && (request.Err? ==> reply == request.error && mgr.Contents() == old(mgr.Contents()))
      && (request.Ok? ==> reply == ReplyTo(response))
      && (request.Ok? && response.Done? ==> mgr.Contents() == Record(old(mgr.Contents()), "Job", name, namespace))
      && (!response.Done? ==> mgr.Contents() == old(mgr.Contents()))
  {
    var request := JobRequest(name, namespace, template, completions, parallelism, backoffLimit, custom);
    if request.Err? {
      return request.error;
    }
    reply := ReplyTo(response);
    if response.Done? {
      mgr.TrackResource("Job", name, namespace);
    }
  }
}
