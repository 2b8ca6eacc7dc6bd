/** `create_pod`: validate the template, merge the override, build the Pod, submit
    it and track it once the API has accepted it. */
module PodTools {
  import opened Wrappers
  import opened Python
  import opened Objects
  import opened Remote
  import opened ContainerConfig
  import PodTemplates
  import opened Registry

  /** The merged configuration `create_pod` builds from, once the template is valid. */
  function PodConfig(t: PodTemplates.ContainerTemplate, custom: Option<Config>): Config {
    Merge(PodTemplates.Template(t), custom)
  }

  /** Everything `create_pod` does before its API call: the Pod to submit, or the
      reply given without calling the API. */
  function PodRequest(name: string, namespace: string, template: string, custom: Option<Config>): (r: Result<Pod, Reply>)
    ensures PodTemplates.Parse(template).None? <==> r == Err(Refused(PodTemplates.InvalidTemplateMessage()))
    ensures r.Err? ==> r.error.Refused? || r.error.Raised?
    ensures r.Ok? ==>
      var t := PodTemplates.Parse(template).value;
      var c := PodConfig(t, custom);
      && r.value.metadata == ObjectMeta(name, namespace, ManagedLabels(name), None)
      && |r.value.spec.containers| == 1
      && BuildContainer(name, c, WhenTruthy) == Ok(r.value.spec.containers[0])
      && r.value.spec.restartPolicy == c.restartPolicy.GetOr("Always")
    ensures PodTemplates.Parse(template).Some? ==>
      (r.Ok? <==> BuildContainer(name, PodConfig(PodTemplates.Parse(template).value, custom), WhenTruthy).Ok?)
  {
    match PodTemplates.Parse(template)
    case None => Err(Refused(PodTemplates.InvalidTemplateMessage()))
    case Some(t) =>
      var c := PodConfig(t, custom);
      match BuildContainer(name, c, WhenTruthy)
      case Err(e) => Err(Raised(e))
      case Ok(container) =>
        Ok(Pod(ObjectMeta(name, namespace, ManagedLabels(name), None),
               PodSpec([container], c.restartPolicy.GetOr("Always"))))
  }

  /** Without an override every template gives a valid Pod: one container named
      after the pod, with the template's image, its ports one for one (protocol
      "TCP") and restart policy "Always"; the pod carries the managed labels. */
  lemma TemplatesBuildAsIs(name: string, namespace: string, t: PodTemplates.ContainerTemplate)
    ensures var r := PodRequest(name, namespace, PodTemplates.Value(t), None);
      && r.Ok?
      && r.value.metadata.labels == map["mcp-managed" := "true", "app" := name]
      && |r.value.spec.containers| == 1
      && r.value.spec.containers[0].name == name
      && Some(r.value.spec.containers[0].image) == PodTemplates.Template(t).image
      && |r.value.spec.containers[0].ports| == |PodTemplates.Template(t).ports.value|
      && (forall i :: 0 <= i < |r.value.spec.containers[0].ports| ==> r.value.spec.containers[0].ports[i].protocol == "TCP")
      && r.value.spec.containers[0].resources.Some?
      && r.value.spec.restartPolicy == "Always"
  {
    PodTemplates.ParseValue(t);
    var c := PodTemplates.Template(t);
    BuildListsOneToOne(c.ports.value, c.env.GetOr([]));
  }

  /** An override that clears `resources` to an empty dictionary drops the
      resource block (the test is truthiness), and an override of
      `restartPolicy` is used verbatim. */
  lemma OverridesApply(name: string, namespace: string, t: PodTemplates.ContainerTemplate, policy: string)
    ensures var custom := NoKeys.(resources := Some(map[]), restartPolicy := Some(policy));
      var r := PodRequest(name, namespace, PodTemplates.Value(t), Some(custom));
      && r.Ok?
      && r.value.spec.containers[0].resources.None?
      && r.value.spec.restartPolicy == policy
  {
    PodTemplates.ParseValue(t);
    var c := PodTemplates.Template(t);
    BuildListsOneToOne(c.ports.value, c.env.GetOr([]));
  }

  /** `create_pod(name, namespace, template, custom_config)` against a registry,
      where the create call answers `response`. */
  method CreatePod(mgr: KubernetesManager, name: string, namespace: string, template: string,
                   custom: Option<Config>, response: Response) returns (reply: Reply)
    requires mgr.Valid()
    modifies mgr
    ensures mgr.Valid()
    ensures PodRequest(name, namespace, template, custom).Err? ==>
      reply == PodRequest(name, namespace, template, custom).error && mgr.Contents() == old(mgr.Contents())
    ensures PodRequest(name, namespace, template, custom).Ok? ==> reply == ReplyTo(response)
    ensures PodRequest(name, namespace, template, custom).Ok? && response.Done? ==>
      mgr.Contents() == Record(old(mgr.Contents()), "Pod", name, namespace)
    ensures !response.Done? ==> mgr.Contents() == old(mgr.Contents())
  {
    var request := PodRequest(name, namespace, template, custom);
    if request.Err? {
      return request.error;
    }
    reply := ReplyTo(response);
    if response.Done? {
      mgr.TrackResource("Pod", name, namespace);
    }
  }
}
