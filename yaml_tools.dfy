/** `apply_yaml` over documents that have already been decoded: empty documents
    are skipped, ConfigMaps are upserted (read, then replace, or create when the
    API answers 404), any other kind gets an "Unsupported resource kind" line, and
    any other failure aborts the whole batch with a single error. */
module YamlTools {
  import opened Wrappers
  import opened Python
  import opened Remote

  /** The `metadata` mapping of a document. */
  datatype Meta = Meta(name: Option<string>, namespace: Option<string>)

  /** A decoded document: `Empty` is anything falsy (an empty document or mapping);
      a manifest is a non-empty mapping, whose `kind` and `metadata` may be
      missing. */
  datatype Document = Empty | Manifest(kind: Option<string>, metadata: Option<Meta>)

  /** The remote calls the apply path makes. */
  datatype Call =
    | ReadConfigMap(name: string, namespace: string)
    | ReplaceConfigMap(name: string, namespace: string)
    | CreateConfigMap(name: string, namespace: string)

  /** Why a batch was aborted: a missing key, an API error other than the
      tolerated 404, or some other client failure. All become "Error applying
      YAML: ..." once caught. */
  datatype Failure = Missing(key: string) | ApiFailure(status: int) | ClientFailure

  function FailureOf(r: Response): (f: Failure)
    requires !r.Done?
    ensures r.ApiError? <==> f.ApiFailure?
    ensures r.ApiError? ==> f.status == r.status
  {
    if r.ApiError? then ApiFailure(r.status) else ClientFailure
  }

  /** The effect of one document: the calls it made and either the line it adds
      (none for an empty document) or the failure that aborts the batch. */
  datatype Step = Step(calls: seq<Call>, outcome: Result<Option<string>, Failure>)

  function UpdatedLine(name: string): string {
    "ConfigMap " + name + " updated successfully"
  }

  function CreatedLine(name: string): string {
    "ConfigMap " + name + " created successfully"
  }

  function UnsupportedLine(kind: string): string {
    "Unsupported resource kind: " + kind
  }

  /** The create after a 404, as call number `k`. */
  function CreateStep(name: string, namespace: string, before: seq<Call>, outcome: nat -> Response, k: nat): Step {
    var calls := before + [CreateConfigMap(name, namespace)];
    if outcome(k).Done? then Step(calls, Ok(Some(CreatedLine(name))))
    else Step(calls, Err(FailureOf(outcome(k))))
  }

  /** The upsert of one ConfigMap whose calls are numbered from `k`: the read and
      the replace share one handler, so a 404 from either leads to the create. */
  function Upsert(name: string, namespace: string, outcome: nat -> Response, k: nat): Step {
    var read := outcome(k);
    if read.Done? then
      var replace := outcome(k + 1);
      var calls := [ReadConfigMap(name, namespace), ReplaceConfigMap(name, namespace)];
      if replace.Done? then Step(calls, Ok(Some(UpdatedLine(name))))
      else if replace == ApiError(404) then CreateStep(name, namespace, calls, outcome, k + 2)
      else Step(calls, Err(FailureOf(replace)))
    else if read == ApiError(404) then CreateStep(name, namespace, [ReadConfigMap(name, namespace)], outcome, k + 1)
    else Step([ReadConfigMap(name, namespace)], Err(FailureOf(read)))
  }

  /** One iteration of the loop over documents, with calls numbered from `k`. */
  function DocStep(doc: Document, namespace: Option<string>, outcome: nat -> Response, k: nat): (s: Step)
    ensures doc.Empty? ==> s == Step([], Ok(None))
    ensures doc.Manifest? && doc.kind.None? ==> s == Step([], Err(Missing("kind")))
    ensures doc.Manifest? && doc.kind.Some? && doc.kind.value != "ConfigMap" ==>
      s == Step([], Ok(Some(UnsupportedLine(doc.kind.value))))
    ensures s.outcome.Ok? ==> 0 <= |s.calls| <= 3
    ensures doc.Manifest? && doc.kind == Some("ConfigMap") && doc.metadata.None? ==> s == Step([], Err(Missing("metadata")))
    ensures doc.Manifest? && doc.kind == Some("ConfigMap") && doc.metadata.Some? ==>
      var meta := doc.metadata.value;
      var ns := if Truthy(namespace) then namespace else meta.namespace;
      && (meta.name.None? ==> s == Step([], Err(Missing("name"))))
      && (meta.name.Some? && ns.None? ==> s == Step([], Err(Missing("namespace"))))
      && (meta.name.Some? && ns.Some? ==> s == Upsert(meta.name.value, ns.value, outcome, k))
  {
    match doc
    case Empty => Step([], Ok(None))
    case Manifest(kind, metadata) =>
      if kind.None? then Step([], Err(Missing("kind")))
      else if kind.value != "ConfigMap" then Step([], Ok(Some(UnsupportedLine(kind.value))))
      else if metadata.None? then Step([], Err(Missing("metadata")))
      else
        var meta := if Truthy(namespace) then metadata.value.(namespace := namespace) else metadata.value;
        if meta.name.None? then Step([], Err(Missing("name")))
        else if meta.namespace.None? then Step([], Err(Missing("namespace")))
        else Upsert(meta.name.value, meta.namespace.value, outcome, k)
  }

  /** Where the loop stands: the calls made, the lines collected, and the failure
      that stopped it, if any. */
  datatype Progress = Progress(calls: seq<Call>, lines: seq<string>, failure: Option<Failure>)

  /** The loop over `docs`, stopping at the first failure. */
  function Apply(docs: seq<Document>, namespace: Option<string>, outcome: nat -> Response): Progress
    decreases |docs|
  {
    if |docs| == 0 then Progress([], [], None)
    else
      var p := Apply(docs[..|docs| - 1], namespace, outcome);
      if p.failure.Some? then p
      else
        var s := DocStep(docs[|docs| - 1], namespace, outcome, |p.calls|);
        match s.outcome
        case Err(f) => Progress(p.calls + s.calls, p.lines, Some(f))
        case Ok(line) => Progress(p.calls + s.calls, if line.Some? then p.lines + [line.value] else p.lines, None)
  }

  /** What `apply_yaml` returns: the collected lines joined by newlines, or the
      error alone, every earlier line discarded. */
  datatype ApplyResult = Applied(text: string) | ApplyError(failure: Failure)

  function Reply(p: Progress): (r: ApplyResult)
    ensures r.ApplyError? <==> p.failure.Some?
    ensures r.Applied? ==> r.text == Join(p.lines, "\n")
  {
    if p.failure.Some? then ApplyError(p.failure.value) else Applied(Join(p.lines, "\n"))
  }

  function NonEmptyCount(docs: seq<Document>): nat {
    if |docs| == 0 then 0 else NonEmptyCount(docs[..|docs| - 1]) + (if docs[|docs| - 1].Empty? then 0 else 1)
  }

  function CallNamespace(c: Call): string {
    match c
    case ReadConfigMap(_, ns) => ns
    case ReplaceConfigMap(_, ns) => ns
    case CreateConfigMap(_, ns) => ns
  }

  /** On success there is exactly one line per non-empty document; and when a
      namespace is given, every call is made in that namespace, whatever the
      documents say. */
  lemma {:induction false} ApplySummary(docs: seq<Document>, namespace: Option<string>, outcome: nat -> Response)
    ensures var p := Apply(docs, namespace, outcome);
      && (p.failure.None? ==> |p.lines| == NonEmptyCount(docs))
      && (Truthy(namespace) ==> forall c :: c in p.calls ==> CallNamespace(c) == namespace.value)
    decreases |docs|
  {
    if |docs| > 0 {
      ApplySummary(docs[..|docs| - 1], namespace, outcome);
    }
  }

  /** Once a prefix has failed, the remaining documents are not looked at. */
  lemma {:induction false} ApplyAfterFailure(docs: seq<Document>, j: nat, namespace: Option<string>, outcome: nat -> Response)
    requires j <= |docs|
    requires Apply(docs[..j], namespace, outcome).failure.Some?
    ensures Apply(docs, namespace, outcome) == Apply(docs[..j], namespace, outcome)
    decreases |docs| - j
  {
    if j < |docs| {
      assert docs[..j + 1][..j] == docs[..j];
      ApplyAfterFailure(docs, j + 1, namespace, outcome);
    } else {
      assert docs[..j] == docs;
    }
  }

  /** A document without `kind` after any number of good ones turns the whole
      reply into an error: the earlier lines are lost, though their calls were
      made. */
  lemma MissingKindAbortsBatch(docs: seq<Document>, meta: Option<Meta>, namespace: Option<string>, outcome: nat -> Response)
    requires Apply(docs, namespace, outcome).failure.None?
    ensures var all := docs + [Manifest(None, meta)];
      && Reply(Apply(all, namespace, outcome)) == ApplyError(Missing("kind"))
      && Apply(all, namespace, outcome).calls == Apply(docs, namespace, outcome).calls
  {
    var all := docs + [Manifest(None, meta)];
    assert all[..|all| - 1] == docs;
  }

  /** Every way a ConfigMap upsert goes, its calls numbered from `k`: read then
      replace updates; a 404 from the read or the replace leads to the create; any
      other failure of the read, the replace or the create, API error or not,
      is the upsert's failure. */
  lemma UpsertBranches(name: string, namespace: string, outcome: nat -> Response, k: nat)
    ensures var read, replace, create :=
        ReadConfigMap(name, namespace), ReplaceConfigMap(name, namespace), CreateConfigMap(name, namespace);
      var s := Upsert(name, namespace, outcome, k);
      && (outcome(k).Done? && outcome(k + 1).Done? ==> s == Step([read, replace], Ok(Some(UpdatedLine(name)))))
      && (outcome(k).Done? && !outcome(k + 1).Done? && outcome(k + 1) != ApiError(404) ==>
            s == Step([read, replace], Err(FailureOf(outcome(k + 1)))))
      && (outcome(k).Done? && outcome(k + 1) == ApiError(404) ==>
            s.calls == [read, replace, create]
            && s.outcome == (if outcome(k + 2).Done? then Ok(Some(CreatedLine(name))) else Err(FailureOf(outcome(k + 2)))))
      && (outcome(k) == ApiError(404) ==>
            s.calls == [read, create]
            && s.outcome == (if outcome(k + 1).Done? then Ok(Some(CreatedLine(name))) else Err(FailureOf(outcome(k + 1)))))
      && (!outcome(k).Done? && outcome(k) != ApiError(404) ==> s == Step([read], Err(FailureOf(outcome(k)))))
      && (outcome(k) == ClientError ==> s.outcome == Err(ClientFailure))
  {
  }

  /** A create that fails after a 404 aborts the batch like any other failure:
      the reply is that one error, and the lines of the earlier documents are
      lost. */
  lemma FailingCreateAbortsBatch(docs: seq<Document>, name: string, ns: string, namespace: Option<string>,
                                 outcome: nat -> Response)
    requires Apply(docs, namespace, outcome).failure.None?
    requires var k := |Apply(docs, namespace, outcome).calls|;
      outcome(k) == ApiError(404) && !outcome(k + 1).Done?
    ensures var k := |Apply(docs, namespace, outcome).calls|;
      var all := docs + [Manifest(Some("ConfigMap"), Some(Meta(Some(name), Some(ns))))];
      Reply(Apply(all, namespace, outcome)) == ApplyError(FailureOf(outcome(k + 1)))
  {
    var all := docs + [Manifest(Some("ConfigMap"), Some(Meta(Some(name), Some(ns))))];
    assert all[..|all| - 1] == docs;
  }

  /** One pass of the loop body, written as the source's nested try blocks: the
      namespace override is written into the document's metadata first. */
  method ProcessDocument(doc: Document, namespace: Option<string>, outcome: nat -> Response, k: nat)
    returns (calls: seq<Call>, result: Result<Option<string>, Failure>)
    ensures Step(calls, result) == DocStep(doc, namespace, outcome, k)
  {
    calls := [];
    if doc.Empty? {
      return calls, Ok(None);
    }
    if doc.kind.None? {
      return calls, Err(Missing("kind"));
    }
    if doc.kind.value != "ConfigMap" {
      return calls, Ok(Some(UnsupportedLine(doc.kind.value)));
    }
    if doc.metadata.None? {
      return calls, Err(Missing("metadata"));
    }
    var meta := doc.metadata.value;
    if Truthy(namespace) {
      meta := meta.(namespace := namespace);
    }
    if meta.name.None? {
      return calls, Err(Missing("name"));
    }
    if meta.namespace.None? {
      return calls, Err(Missing("namespace"));
    }
    var name, ns := meta.name.value, meta.namespace.value;
    var next := k;
    var response := outcome(next);
    calls := calls + [ReadConfigMap(name, ns)];
    next := next + 1;
    if response.Done? {
      response := outcome(next);
      calls := calls + [ReplaceConfigMap(name, ns)];
      next := next + 1;
      if response.Done? {
        return calls, Ok(Some(UpdatedLine(name)));
      }
    }
    if response == ApiError(404) {
      response := outcome(next);
      calls := calls + [CreateConfigMap(name, ns)];
      if response.Done? {
        return calls, Ok(Some(CreatedLine(name)));
      }
    }
    return calls, Err(FailureOf(response));
  }

  /** `apply_yaml(content, namespace)` for the decoded documents `docs`, where the
      k-th remote call answers `outcome(k)`. */
  method ApplyYaml(docs: seq<Document>, namespace: Option<string>, outcome: nat -> Response)
    returns (calls: seq<Call>, result: ApplyResult)
    ensures calls == Apply(docs, namespace, outcome).calls
    ensures result == Reply(Apply(docs, namespace, outcome))
  {
    var results: seq<string> := [];
    calls := [];
    for i := 0 to |docs|
      invariant Apply(docs[..i], namespace, outcome) == Progress(calls, results, None)
    {
      assert docs[..i + 1][..i] == docs[..i];
      var made, line := ProcessDocument(docs[i], namespace, outcome, |calls|);
      calls := calls + made;
      if line.Err? {
        ApplyAfterFailure(docs, i + 1, namespace, outcome);
        return calls, ApplyError(line.error);
      }
      if line.value.Some? {
        results := results + [line.value.value];
      }
    }
    assert docs[..|docs|] == docs;
    result := Applied(Join(results, "\n"));
  }
}
