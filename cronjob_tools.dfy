/** `create_cronjob`: as `create_job`, with the job spec wrapped in a CronJob that
    carries the schedule. */
module CronJobTools {
  import opened Wrappers
  import opened Python
  import opened Objects
  import opened Remote
  import opened ContainerConfig
  import ContainerTemplates
  import opened Registry
  import JobTools

  /** Everything `create_cronjob` does before its API call. */
  function CronJobRequest(name: string, namespace: string, schedule: string, template: string,
                          completions: int := 1, parallelism: int := 1, backoffLimit: int := 6,
                          custom: Option<Config> := None): (r: Result<CronJob, Reply>)
    ensures ContainerTemplates.Parse(template).None? <==> r == Err(Refused(ContainerTemplates.InvalidTemplateMessage()))
    ensures r.Ok? ==>
      && r.value.schedule == schedule
      && r.value.metadata == ObjectMeta(name, namespace, ManagedLabels(name), None)
  {
    match ContainerTemplates.Parse(template)
    case None => Err(Refused(ContainerTemplates.InvalidTemplateMessage()))
    case Some(t) =>
      match JobTools.JobBody(name, JobTools.JobConfig(t, custom), completions, parallelism, backoffLimit)
      case Err(e) => Err(Raised(e))
      case Ok(spec) => Ok(CronJob(ObjectMeta(name, namespace, ManagedLabels(name), None), schedule, spec))
  }

  /** A cron job wraps exactly the Job `create_job` would build from the same
      arguments, and fails in exactly the same way: the schedule is copied
      verbatim and nothing else differs. */
  lemma WrapsTheJob(name: string, namespace: string, schedule: string, template: string,
                    completions: int, parallelism: int, backoffLimit: int, custom: Option<Config>)
    ensures var job := JobTools.JobRequest(name, namespace, template, completions, parallelism, backoffLimit, custom);
      var cron := CronJobRequest(name, namespace, schedule, template, completions, parallelism, backoffLimit, custom);
      && (cron.Ok? <==> job.Ok?)
      && (cron.Err? ==> cron.error == job.error)
      && (cron.Ok? ==> cron.value == CronJob(job.value.metadata, schedule, job.value.spec))
  {
  }

  /** `create_cronjob(...)` against a registry, where the create call answers
      `response`. */
  method CreateCronJob(mgr: KubernetesManager, name: string, namespace: string, schedule: string, template: string,
                       completions: int, parallelism: int, backoffLimit: int,
                       custom: Option<Config>, response: Response) returns (reply: Reply)
    requires mgr.Valid()
    modifies mgr
    ensures mgr.Valid()
    ensures var request := CronJobRequest(name, namespace, schedule, template, completions, parallelism, backoffLimit, custom);
      && (request.Err? ==> reply == request.error && mgr.Contents() == old(mgr.Contents()))
      && (request.Ok? ==> reply == ReplyTo(response))
      && (request.Ok? && response.Done? ==> mgr.Contents() == Record(old(mgr.Contents()), "CronJob", name, namespace))
      && (!response.Done? ==> mgr.Contents() == old(mgr.Contents()))
  {
    var request := CronJobRequest(name, namespace, schedule, template, completions, parallelism, backoffLimit, custom);
    if request.Err? {
      return request.error;
    }
    reply := ReplyTo(response);
    if response.Done? {
      mgr.TrackResource("CronJob", name, namespace);
    }
  }
}
