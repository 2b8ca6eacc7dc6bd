# Kubernetes MCP server: template catalogs, resource builders, registry, apply and Helm

This project models the deterministic core of a Python MCP server that manages a
Kubernetes cluster on behalf of a language model:

- **Template catalogs.** The pod templates (uppercase enum values), the container
  templates used by jobs and cron jobs (lowercase values), and the service types. Each
  is a datatype with a total lookup table (`PodTemplates`, `ContainerTemplates`,
  `ServiceTemplates`).
- **Resource builders.** Each `create_*` tool validates a template or type string,
  shallow-merges `{**template, **custom}`, and maps the result into a typed object:
  `PodTools`, `JobTools`, `CronJobTools`, `DeploymentTools`, `ServiceTools` and
  `IngressTools`. A configuration dictionary is a record of `Option` fields
  (`ContainerConfig.Config`), so "key absent" and "key present but empty" stay
  distinct. The `update_*` patch builders, the rollout action check, the
  `expose_deployment` service and the `format_deployment_info` text are modelled too.
- **Tracked-resource registry.** `Registry.KubernetesManager` is a class with a `seq`
  of keys, in Python's dict insertion order, and a `map` from `"namespace/name"` to
  the entry. The kind is not part of the key. The cleanup sweep is a loop, specified
  by the value-level function `Registry.Sweep`.
- **Multi-document apply.** `YamlTools.ApplyYaml` runs over documents that are
  already decoded. It upserts ConfigMaps (read, then replace, or create on a 404),
  and it aborts the whole batch on any other failure, as the code does.
- **Helm argument assembly.** `HelmTools` builds the `helm` command lines of
  `repo add`, `show values`, `install` and `upgrade` by conditional appends.

The remote API is an oracle. A single call's outcome is a `Remote.Response`:
`Done`, `ApiError(status)` (an `ApiException`) or `ClientError` (any other
exception). Operations that make several calls take `outcome: nat -> Response`, the
outcome of the k-th call. A tool's answer is a `Remote.Reply`:

- `Refused(message)`: the validation message, with no call made;
- `Accepted`: the create call succeeded;
- `Failed(status)`: the call raised an `ApiException`;
- `Raised(exception)`: an exception the tool does not catch.

Each `create_*` tool has two parts. A pure function (`PodRequest`, `JobRequest`, …)
computes the object or the early reply. A method (`CreatePod`, `CreateJob`, …)
submits it and calls `TrackResource` only when the create call returned `Done`.

Where the code and the project's own description disagree, the model follows the
code:

- `apply_yaml` does not continue past a failing document. A missing `kind`, a
  non-404 status or a failing create abandons every earlier line and returns one
  error (`YamlTools.ApplyAfterFailure`, `YamlTools.MissingKindAbortsBatch`,
  `YamlTools.FailingCreateAbortsBatch`, `YamlTools.UpsertBranches`).
- Rollout "undo" sends the same restart patch as "restart" (`DeploymentTools.UndoIsRestart`).
- The registry key is `namespace/name` without the kind. Exposing a deployment
  therefore replaces its `Deployment` entry with a `Service` entry, and the
  deployment is no longer deleted by cleanup (`DeploymentTools.ExposeForgetsDeployment`).
- The job, cron-job and service validation messages list the enum member names, but
  validation accepts only the values (`JobTools.NamesRefusedValuesAccepted`,
  `ContainerTemplates.ValuesParseNamesDoNot`, `ServiceTemplates.ValuesParseNamesDoNot`).
- `create_service` with type ExternalName and no custom configuration raises an
  uncaught `KeyError` (`ServiceTools.ExternalNameNeedsCustom`).

## Model

| member | source | states |
|---|---|---|
| PodTemplates.MembersAreNamedByValue | src/k8s_tools/pod_templates.py:4-10 | the pod template enum has exactly five distinct members, and each member's value equals its name |
| PodTemplates.Parse | src/k8s_tools/pod_templates.py:4-10 | `ContainerTemplate(s)` succeeds exactly on a member's value and returns that member |
| PodTemplates.ParseValue | src/k8s_tools/pod_templates.py:4-10 | every member is found again from its value, so the table lookup after validation is total |
| PodTemplates.InvalidTemplateMessageText | src/k8s_tools/pod_tools.py:127-130 | the rejection text is "Invalid template. Must be one of: NGINX, REDIS, POSTGRES, MYSQL, CUSTOM" |
| PodTemplates.Template | src/k8s_tools/pod_templates.py:44-157 | every pod template has restart policy "Always", an image, a ports list and resources with exactly "requests" and "limits", and no command or args |
| PodTemplates.NginxTemplate | src/k8s_tools/pod_templates.py:45-53 | NGINX is `nginx:latest` with the single port 80/TCP named "http" |
| PodTemplates.EnvOnlyForDatabases | src/k8s_tools/pod_templates.py:96-101 | only POSTGRES, MYSQL and CUSTOM carry `env`; the two databases carry one variable; CUSTOM has image "", no ports and no env entries |
| ContainerTemplates.Parse | src/k8s_tools/container_templates.py:4-8 | validation succeeds exactly on a member's lowercase value |
| ContainerTemplates.ValuesParseNamesDoNot | src/k8s_tools/container_templates.py:4-8 | four members; each value parses to its member, and no uppercase name parses |
| ContainerTemplates.InvalidTemplateMessageText | src/k8s_tools/job_tools.py:74-77 | the job rejection text is "Invalid template. Must be one of: NGINX, NODEJS, PYTHON, CUSTOM" |
| ContainerTemplates.AdvisedNamesRefused | src/k8s_tools/job_tools.py:74-77 | none of the four words the rejection text offers passes template validation |
| ContainerTemplates.Template | src/k8s_tools/container_templates.py:39-70 | every container template has resources with exactly "requests" and "limits", and none defines env, command, args or a restart policy |
| ContainerTemplates.OneHttpPortExceptCustom | src/k8s_tools/container_templates.py:40-69 | NGINX, NODEJS and PYTHON have one TCP port named "http" (80, 3000, 8000) and their images; CUSTOM holds only the `resources` key |
| ServiceTemplates.Parse | src/k8s_tools/service_templates.py:4-8 | validation succeeds exactly on ClusterIP, NodePort, LoadBalancer or ExternalName |
| ServiceTemplates.ValuesParseNamesDoNot | src/k8s_tools/service_templates.py:4-8 | every value parses to its member, and no member name parses |
| ServiceTemplates.InvalidTypeMessageText | src/k8s_tools/service_tools.py:81-84 | the rejection text is "Invalid service type. Must be one of: " followed by CLUSTER_IP, NODE_PORT, LOAD_BALANCER, EXTERNAL_NAME separated by ", " |
| ServiceTemplates.Template | src/k8s_tools/service_templates.py:27-52 | each template's type is its member's value, with one port 80/TCP named "http" |
| ServiceTemplates.TemplateDifferences | src/k8s_tools/service_templates.py:29-51 | all but ExternalName have an empty selector and session affinity "None"; only NodePort sets nodePort 30000; only LoadBalancer sets externalTrafficPolicy "Cluster"; only ExternalName lacks a targetPort |
| ServiceTemplates.AsDictEmpty | src/k8s_tools/service_tools.py:90 | a service configuration is the empty dictionary exactly when no key is present, which is what `if custom_config:` tests |
| ServiceTemplates.MergeIsDictUnion | src/k8s_tools/service_tools.py:90-94 | the dictionary view of the record merge is `AsDict(template) + AsDict(custom)`: the shallow union `{**template_config, **custom_config}` |
| ServiceTemplates.ToServicePort | src/k8s_tools/service_tools.py:103-112 | a service port is built exactly when `port` and `targetPort` are present, a missing one raising `KeyError` naming it; the port carries both numbers, `nodePort` and `name` as given or None, and the protocol defaulting to "TCP" |
| ContainerConfig.AsDictEmpty | src/k8s_tools/pod_tools.py:136-142 | a configuration is the empty dictionary exactly when it holds no key, so `if custom_config:` means "some key present" |
| ContainerConfig.Merge | src/k8s_tools/pod_tools.py:136-142 | an absent or empty override yields the template itself |
| ContainerConfig.MergeIsDictUnion | src/k8s_tools/pod_tools.py:136-142 | the merge equals the dictionary union `{**template, **custom}`: override keys win, lists are replaced, other keys come from the template |
| ContainerConfig.BuildListsOneToOne | src/k8s_tools/pod_tools.py:145-162 | ports and env entries map one to one and in order; protocol defaults to "TCP"; absent names and values stay None; a missing `containerPort` or `name` raises `KeyError` |
| ContainerConfig.ToResources | src/k8s_tools/pod_tools.py:165-170 | a resources object exists iff the key is present and (for pods and deployments) non-empty, and it carries the given requests and limits |
| ContainerConfig.BuildContainer | src/k8s_tools/pod_tools.py:173-181 | the container is built iff ports, env and `image` succeed; it keeps the name, image, built ports and env, resources, command and args; failures are the three `KeyError`s |
| PodTools.PodRequest | src/k8s_tools/pod_tools.py:120-199 | an invalid template gives the rejection message; otherwise the pod has managed labels, one container built from the merged configuration, and restart policy from the configuration defaulting to "Always" |
| PodTools.TemplatesBuildAsIs | src/k8s_tools/pod_tools.py:120-199 | every template without overrides builds a pod with labels `{"mcp-managed":"true","app":name}`, one container named `name`, the template image, TCP ports, resources and policy "Always" |
| PodTools.OverridesApply | src/k8s_tools/pod_tools.py:136-170 | an override with empty resources drops the resources object, and an override policy replaces "Always" |
| PodTools.CreatePod | src/k8s_tools/pod_tools.py:201-210 | the pod is tracked under kind "Pod" only when the create call succeeds; a refusal or a failure leaves the registry unchanged |
| JobTools.JobBody | src/k8s_tools/job_tools.py:112-156 | the job spec carries completions, parallelism and backoff limit, labels `{"app":name}`, restart policy "OnFailure" and the one container, with resources whenever the key is present |
| JobTools.JobRequest | src/k8s_tools/job_tools.py:64-156 | an invalid template is refused; otherwise the job has managed metadata around the job body, and a build error is raised uncaught |
| JobTools.NamesRefusedValuesAccepted | src/k8s_tools/job_tools.py:68-77 | "NGINX" is refused while "nginx" builds a job with defaults 1, 1, 6, policy "OnFailure" and image `nginx:latest` |
| JobTools.CustomNeedsImage | src/k8s_tools/job_tools.py:120-128 | the custom template without an image override raises `KeyError("image")` |
| JobTools.EmptyResourcesKept | src/k8s_tools/job_tools.py:112-117 | an empty `resources` override still builds an (empty) resources object |
| JobTools.CreateJob | src/k8s_tools/job_tools.py:158-166 | the job is tracked under kind "Job" only when the create call succeeds |
| CronJobTools.CronJobRequest | src/k8s_tools/cronjob_tools.py:66-159 | an invalid template is refused; otherwise the schedule is copied verbatim and the metadata is managed |
| CronJobTools.WrapsTheJob | src/k8s_tools/cronjob_tools.py:116-159 | a cron job succeeds or fails exactly as the job with the same arguments, and wraps that job's spec with the schedule |
| CronJobTools.CreateCronJob | src/k8s_tools/cronjob_tools.py:166-171 | the cron job is tracked under kind "CronJob" only when the create call succeeds |
| DeploymentTools.DeploymentRequest | src/k8s_tools/deployment_tools.py:123-205 | the deployment has managed metadata, the given replicas, selector `{"app":name}` equal to the pod labels, policy "Always" and one container with the given image; only a malformed port or env entry raises |
| DeploymentTools.MinimalDeployment | src/k8s_tools/deployment_tools.py:127-205 | with only name and image there is one replica and a bare container with no ports, env or resources |
| DeploymentTools.CreateDeployment | src/k8s_tools/deployment_tools.py:207-216 | the deployment is tracked under kind "Deployment" only when the create call succeeds |
| DeploymentTools.InfoLinesShape | src/k8s_tools/deployment_tools.py:45-71 | the container section has one block per container; for every container k, the line right after the blocks of containers 0..k-1 is k's name line |
| DeploymentTools.AllContainerLinesPrefix | src/k8s_tools/deployment_tools.py:57-68 | the outer loop only appends: the lines of the first k containers begin the lines of all of them |
| DeploymentTools.AppendLines | src/k8s_tools/deployment_tools.py:62-67 | an inner append loop adds one line per port or env entry, in order, after the lines already there |
| DeploymentTools.FormatDeploymentInfo | src/k8s_tools/deployment_tools.py:45-71 | the nested append loops produce the header lines and, per container, name, image, ports and env lines, joined by newlines |
| DeploymentTools.InvalidActionMessageText | src/k8s_tools/deployment_tools.py:260-262 | the rejection text is "Invalid action. Must be one of: status, history, restart, undo" |
| DeploymentTools.RolloutRequest | src/k8s_tools/deployment_tools.py:260-276 | an action outside the four is refused; status and history read the deployment, restart and undo patch it |
| DeploymentTools.UndoIsRestart | src/k8s_tools/deployment_tools.py:264-276 | "undo" sends exactly the restart patch |
| DeploymentTools.Rollout | src/k8s_tools/deployment_tools.py:254-284 | an invalid action is refused with no call; a valid one answers with the call's outcome |
| DeploymentTools.EnvEntryPatch | src/k8s_tools/deployment_tools.py:307 | an env entry becomes `{"name","value"}` exactly when both keys are present; a missing name raises `KeyError("name")`, and a present name with a missing value raises `KeyError("value")` |
| DeploymentTools.DeploymentPatch | src/k8s_tools/deployment_tools.py:296-311 | the patch fails only on a malformed env entry, with that first malformed entry's `KeyError`; it holds at most the "spec" key, and is empty exactly when no option is supplied; the spec is the container `{name, env: entries}` when env is truthy, else `{replicas}` when replicas is given, else the container `{name, image}` |
| DeploymentTools.PatchPrecedence | src/k8s_tools/deployment_tools.py:296-311 | env beats replicas and image; replicas beats image; a replicas of 0 still counts; an empty image and env give `{}` |
| DeploymentTools.UpdateDeploymentPatch | src/k8s_tools/deployment_tools.py:296-311 | the step-by-step overwrites of `patch["spec"]` yield the specified patch |
| DeploymentTools.ExposeRequest | src/k8s_tools/deployment_tools.py:352-376 | the service is named after the deployment, selects `app` = deployment name, has the given type and one TCP port whose target is `target_port or port` |
| DeploymentTools.ExposeDeployment | src/k8s_tools/deployment_tools.py:342-385 | the submitted service is that request, and it is tracked as "Service" under the deployment's name only when the call succeeds |
| DeploymentTools.ExposeForgetsDeployment | src/k8s_tools/deployment_tools.py:213 | after create then expose, the registry holds a Service entry under the shared key, so cleanup no longer deletes the Deployment |
| ServiceTools.ServiceSettings | src/k8s_tools/service_tools.py:90-100 | a truthy custom configuration is merged over the template; otherwise truthy ports and selector replace the template's and every other key is the template's; only ExternalName without custom or selector fails |
| ServiceTools.ServiceRequest | src/k8s_tools/service_tools.py:72-135 | an invalid type is refused; a valid one succeeds exactly when `Build` does and otherwise raises `Build`'s exception; type, selector, ports and the optional fields come from the merged configuration |
| ServiceTools.Build | src/k8s_tools/service_tools.py:96-135 | succeeds exactly when the settings build, hold ports whose every entry translates, and hold a type and a selector; the only exceptions are the `KeyError`s for selector, ports, port, targetPort and type; the spec is exactly the merged configuration's type, built ports, selector and optional fields |
| ServiceTools.ArgumentsIgnoredOrFalsy | src/k8s_tools/service_tools.py:90-100 | with a custom configuration the ports and selector arguments change nothing; empty ports and selector act as absent |
| ServiceTools.ExternalNameNeedsCustom | src/k8s_tools/service_tools.py:95-106 | ExternalName without custom raises `KeyError("selector")`, and with a selector raises `KeyError("targetPort")` |
| ServiceTools.TypeFromConfig | src/k8s_tools/service_tools.py:126-127 | the spec type comes from the merged configuration, not the `service_type` argument |
| ServiceTools.ClusterIPDefaults | src/k8s_tools/service_tools.py:72-135 | a plain ClusterIP service has port 80→80/TCP "http", an empty selector and session affinity "None" |
| ServiceTools.CreateService | src/k8s_tools/service_tools.py:137-145 | the service is tracked under kind "Service" only when the create call succeeds |
| ServiceTools.ServicePatch | src/k8s_tools/service_tools.py:157-174 | a truthy ports list is always translated (and may raise); the patch holds at most "spec" and is empty iff no option is truthy; the spec is the selector when truthy, else the translated ports when truthy, else the type |
| ServiceTools.PortPatch | src/k8s_tools/service_tools.py:163-172 | a port entry needs `port` then `targetPort` (`KeyError` otherwise) and holds exactly the five keys, with nodePort and name as given or None and protocol defaulting to "TCP" |
| ServiceTools.BadPortRaisesEvenWhenOverridden | src/k8s_tools/service_tools.py:160-174 | a malformed port raises even when the selector later overwrites the ports patch |
| ServiceTools.UpdateServicePatch | src/k8s_tools/service_tools.py:157-174 | the sequential overwrites yield the specified patch |
| IngressTools.ToPath | src/k8s_tools/ingress_tools.py:68-79 | a path defaults to "/" and "Prefix", and needs `service`, its `name` and its `port`, raising `KeyError` otherwise; the backend is the named service port |
| IngressTools.ToPathAsWritten | src/k8s_tools/ingress_tools.py:73-79 | the path as written always raises: the `KeyError`s of the backend reads first, then `TypeError` from the backend constructor |
| IngressTools.BackendAsWrittenRaises | src/k8s_tools/ingress_tools.py:66-82 | as written, any non-empty path list fails to build, and a well-formed path shows the difference from `ToPath` |
| IngressTools.ToRule | src/k8s_tools/ingress_tools.py:65-91 | a rule keeps its host and builds its paths (default empty), failing with the first path's error |
| IngressTools.ToTls | src/k8s_tools/ingress_tools.py:94-102 | TLS is None iff `tls` is falsy, otherwise one entry per item with hosts defaulting to empty |
| IngressTools.IngressRequest | src/k8s_tools/ingress_tools.py:56-116 | the ingress succeeds iff every rule builds; its rules are the built rules in order, with managed labels, annotations defaulting to `{}` and the TLS list |
| IngressTools.BuildPaths | src/k8s_tools/ingress_tools.py:67-82 | the inner append loop builds exactly the translated paths, or the first path's error |
| IngressTools.BuildRules | src/k8s_tools/ingress_tools.py:65-91 | the outer append loop builds exactly the translated rules, or the first error |
| IngressTools.RulesOneToOne | src/k8s_tools/ingress_tools.py:65-91 | rules map one to one and in order, keeping hosts and path counts |
| IngressTools.CreateIngress | src/k8s_tools/ingress_tools.py:56-131 | a build error is raised uncaught; otherwise the ingress is tracked under kind "Ingress" only when the create call succeeds |
| IngressTools.IngressPatch | src/k8s_tools/ingress_tools.py:143-149 | `spec` is present iff rules or tls is truthy and tls overwrites rules; `metadata` is present iff annotations are truthy and is then `{"annotations": annotations}` |
| IngressTools.UpdateIngressPatch | src/k8s_tools/ingress_tools.py:143-149 | the in-place patch updates yield the specified patch |
| Objects.ManagedLabels | src/k8s_tools/pod_tools.py:189-192 | created objects carry exactly the labels `mcp-managed: "true"` and `app: name` |
| Remote.ReplyTo | src/k8s_tools/pod_tools.py:201-210 | success answers accepted, an `ApiException` answers its status, any other exception escapes |
| Registry.KeyRoundTrip | src/k8s_tools/k8s_manager.py:40 | a key splits back into its namespace and name when the namespace has no "/" |
| Registry.KeyInjective | src/k8s_tools/k8s_manager.py:40 | distinct (namespace, name) pairs get distinct keys when namespaces have no "/" |
| Registry.Record | src/k8s_tools/k8s_manager.py:38-45 | recording stores the entry under its key, keeps every other entry, keeps the position of an existing key and appends a new one |
| Registry.RecordSameKeyReplaces | src/k8s_tools/k8s_manager.py:38-45 | tracking the same namespace and name again leaves one entry with the latest kind |
| Registry.RecordIdempotent | src/k8s_tools/k8s_manager.py:38-45 | tracking the same resource twice equals tracking it once |
| Registry.Deletable | src/k8s_tools/k8s_manager.py:57-81 | the entries that get a delete call are exactly those of kind Deployment, Service, Pod, Job or Ingress |
| Registry.SweepCallsInOrder | src/k8s_tools/k8s_manager.py:55-83 | the sweep deletes the deletable entries in iteration order; it reaches all of them unless a non-API exception escapes, which stops it at that call |
| Registry.SweepEscapesIff | src/k8s_tools/k8s_manager.py:82-85 | the sweep escapes exactly when one of its delete calls raises something other than an `ApiException` |
| Registry.SweepAfterEscape | src/k8s_tools/k8s_manager.py:55-85 | once an exception escapes, later entries have no effect |
| Registry.LoadConfig | src/k8s_tools/k8s_manager.py:8-16 | in-cluster configuration is tried first; `RuntimeError` only when both loaders fail |
| Registry.KubernetesManager.Connect | src/k8s_tools/k8s_manager.py:8-18 | construction fails with `RuntimeError` exactly when both loaders fail, and otherwise starts with an empty registry |
| Registry.KubernetesManager.TrackResource | src/k8s_tools/k8s_manager.py:38-45 | the registry becomes `Record` of its old contents |
| Registry.KubernetesManager.GetTrackedResources | src/k8s_tools/k8s_manager.py:47-48 | every returned key is the `namespace/name` of its entry, and the keys are the tracked keys |
| Registry.KubernetesManager.ClearTrackedResources | src/k8s_tools/k8s_manager.py:50-51 | the registry is empty afterwards |
| Registry.KubernetesManager.CleanupResources | src/k8s_tools/k8s_manager.py:53-85 | the loop makes the calls of `Sweep` over the entries in insertion order; the registry is empty afterwards unless a non-API exception escaped |
| YamlTools.DocStep | src/k8s_tools/yaml_tools.py:28-62 | an empty document makes no call and no line; a missing kind fails; another kind gives "Unsupported resource kind: K"; a ConfigMap fails on a missing metadata, name or (unless overridden) namespace, and is otherwise upserted under its name and the given namespace when truthy, else its own |
| YamlTools.UpsertBranches | src/k8s_tools/yaml_tools.py:38-60 | for calls numbered from any k: read then replace gives "updated"; a 404 on read or replace leads to the create, which gives "created" or fails; any other failure of read or replace, API error or client error, fails the upsert after that call |
| YamlTools.FailingCreateAbortsBatch | src/k8s_tools/yaml_tools.py:50-66 | a create that fails after a 404 turns the whole reply into that one error |
| YamlTools.Reply | src/k8s_tools/yaml_tools.py:64-66 | the result is an error iff a document failed, otherwise the lines joined by "\n" |
| YamlTools.ApplySummary | src/k8s_tools/yaml_tools.py:27-64 | without failure there is one line per non-empty document; a given namespace is used by every call |
| YamlTools.ApplyAfterFailure | src/k8s_tools/yaml_tools.py:59-66 | once a document fails, later documents make no calls and change nothing |
| YamlTools.MissingKindAbortsBatch | src/k8s_tools/yaml_tools.py:34 | a document without `kind` turns a successful batch into one error and makes no further call |
| YamlTools.ProcessDocument | src/k8s_tools/yaml_tools.py:29-62 | one loop iteration makes the calls and produces the line or failure of `DocStep` |
| YamlTools.ApplyYaml | src/k8s_tools/yaml_tools.py:8-66 | the loop makes exactly the calls of `Apply` and returns its reply |
| HelmTools.HelmCommand | src/k8s_tools/helm_tools.py:9-11 | the command line is `["helm", command]` followed by the arguments |
| HelmTools.FlagsAppend | src/k8s_tools/helm_tools.py:52-59 | the option words of two argument lists appended are those of each, in order |
| HelmTools.RepoAddShape | src/k8s_tools/helm_tools.py:52-59 | arguments start `add name url`; `--username` and `--password` appear once each iff both are truthy; then `--force-update` iff set |
| HelmTools.HelmRepoAdd | src/k8s_tools/helm_tools.py:52-59 | the appends yield `helm repo` followed by those arguments |
| HelmTools.ShowValuesShape | src/k8s_tools/helm_tools.py:78-85 | arguments start with `values` and end with the chart; `--version` then `--repo` appear once each iff truthy |
| HelmTools.HelmShowValues | src/k8s_tools/helm_tools.py:78-85 | the appends yield `helm show` followed by those arguments |
| HelmTools.InstallShape | src/k8s_tools/helm_tools.py:116-139 | arguments start `release chart --namespace ns`; `-f`, `--version`, `--repo`, `--create-namespace`, `--wait`, `--timeout` follow in that order, each once and only when set |
| HelmTools.HelmInstall | src/k8s_tools/helm_tools.py:88-141 | the appends, with create-namespace and wait defaulting to true, yield `helm install` followed by those arguments |
| HelmTools.UpgradeShape | src/k8s_tools/helm_tools.py:174-199 | same start and order as install, then `--force` and `--reset-values` last, each once and only when set |
| HelmTools.UpgradeNeverCreatesNamespace | src/k8s_tools/helm_tools.py:174-199 | an upgrade never passes `--create-namespace` |
| HelmTools.HelmUpgrade | src/k8s_tools/helm_tools.py:144-201 | the appends, with wait defaulting to true and force and reset-values to false, yield `helm upgrade` followed by those arguments |

## Left out

- Kubernetes client transport: every API call is an abstract `Response`, and request and response bodies on the wire are not modelled.
- Rendering of replies: `format_pod_info`, `str(response)`, the text of `str(e)` after "Error applying YAML: " and after each tool's error prefix, and the `service_info` lines of `expose_deployment`. A `Reply` stands for that text.
- Credential discovery: `KubernetesManager.__init__` is modelled only as the in-cluster-then-kubeconfig decision (`LoadConfig`). The API client objects it creates are not modelled.
- The fresh `KubernetesManager()` that `apply_yaml` builds for each ConfigMap is assumed to construct successfully.
- YAML decoding: `apply_yaml` takes a sequence of already-decoded documents. Its `force` argument is unused by the code and is not modelled.
- `YamlTools.Meta`: explicit `None` values inside metadata, and a ConfigMap without `metadata` or `name`, appear only as the `Missing` failure.
- Explicit `None` values inside user dictionaries: a key mapped to `None` is treated as absent.
- Subprocess execution of `helm`, its output and return code: the model builds the command line only. The values temporary file is represented by its path, a parameter, and its YAML content is not modelled.
- HelmTools.InstallShape, HelmTools.UpgradeShape, HelmTools.UpgradeNeverCreatesNamespace, HelmTools.RepoAddShape, HelmTools.ShowValuesShape: the flag-count statements assume that caller values are not themselves option words such as `--wait`.
- The LoadBalancer polling loop in `expose_deployment`: it is an unbounded wait on remote state.
- async/await: the job, cron-job, service, ingress and rollout tools `await` the synchronous client calls (src/k8s_tools/job_tools.py:159, src/k8s_tools/cronjob_tools.py:167, src/k8s_tools/service_tools.py:138, src/k8s_tools/ingress_tools.py:124, src/k8s_tools/deployment_tools.py:266-281). As written, awaiting the returned object raises `TypeError` after the call and before tracking. The model reads each awaited call as the call itself.
- `get_tracked_resources` returns the live dictionary; the model returns its value, so later aliasing through the returned map is not captured.
- Registry.KubernetesManager.CleanupResources: the `logging.error` line for a failed delete is not modelled.
- IngressTools.ToPath, IngressTools.CreateIngress: src/k8s_tools/ingress_tools.py:73-79 constructs the backend with keywords `V1IngressBackend` does not accept, which raises `TypeError` outside the `try` and before the create call. The model builds the intended service backend instead; the as-written behaviour is `IngressTools.ToPathAsWritten` (see Findings).
- ServiceTools.ServiceRequest: the merged `externalName` value is never put into the service spec by the code, so the model does not carry it either.
- Log and metric readers, `describe_*`, `get_*`, `delete_*` and `scale_deployment`: these are remote reads or single calls with no logic of their own.
- `get_pod_metrics`, `port_forward_service`, cluster, namespace and statefulset tools: they pass more arguments than `run_kubectl_command` accepts or call an undefined function, so they have no coherent behaviour to model.
- MCP tool registration, the server entry point and packaging.

## Findings

| source | as written | input that shows it | evidently intended | confidence | as-written member | corrected member |
|---|---|---|---|---|---|---|
| src/k8s_tools/ingress_tools.py:73-79 | the backend is `V1IngressBackend(service=V1IngressBackend(name=..., port=V1IngressBackend(number=...)))`, and the Kubernetes client's `V1IngressBackend` takes only `service` and `resource`, so every path that has `service.name` and `service.port` raises `TypeError` | `rules=[{"paths": [{"service": {"name": "web", "port": 80}}]}]` | a `V1IngressServiceBackend(name, port=V1ServiceBackendPort(number))` backend for path "/" of type "Prefix" | not executed | IngressTools.ToPathAsWritten, IngressTools.BackendAsWrittenRaises | IngressTools.ToPath |
