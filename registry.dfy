/** The tracked-resource registry of the tools' shared Kubernetes manager: a
    dictionary from "namespace/name" to the kind, name and namespace of every
    object the tools created, and the sweep that deletes them at shutdown. */
module Registry {
  import opened Wrappers
  import opened Python
  import opened Remote

  /** One tracked object: the value stored under its key. */
  datatype Entry = Entry(kind: string, name: string, namespace: string)

  /** The registry key. The kind is not part of it. */
  function Key(namespace: string, name: string): string {
    namespace + "/" + name
  }

  /** The index of the first '/' in `s`, or `|s|` when there is none. */
  function FirstSlash(s: string): (i: nat)
    ensures i <= |s|
    ensures i < |s| ==> s[i] == '/'
    ensures forall j :: 0 <= j < i ==> s[j] != '/'
  {
    if |s| == 0 then 0
    else if s[0] == '/' then 0
    else 1 + FirstSlash(s[1..])
  }

  /** Reads a key back as (namespace, name), splitting at the first '/'. */
  function SplitKey(k: string): (string, string) {
    var i := FirstSlash(k);
    (k[..i], if i < |k| then k[i + 1..] else "")
  }

  /** A key determines the namespace and name it was built from, as long as the
      namespace holds no '/' (Kubernetes namespace names never do); the name may
      hold anything. */
  lemma KeyRoundTrip(namespace: string, name: string)
    requires '/' !in namespace
    ensures SplitKey(Key(namespace, name)) == (namespace, name)
  {
    var k := Key(namespace, name);
    assert k[|namespace|] == '/';
    assert forall j :: 0 <= j < |namespace| ==> k[j] == namespace[j];
    assert FirstSlash(k) == |namespace|;
    assert k[..|namespace|] == namespace;
    assert k[|namespace| + 1..] == name;
  }

  /** Distinct (namespace, name) pairs get distinct keys. */
  lemma KeyInjective(ns1: string, name1: string, ns2: string, name2: string)
    requires '/' !in ns1 && '/' !in ns2
    requires Key(ns1, name1) == Key(ns2, name2)
    ensures ns1 == ns2 && name1 == name2
  {
    KeyRoundTrip(ns1, name1);
    KeyRoundTrip(ns2, name2);
  }

  /** The registry as a value: the keys in dictionary order (insertion order, an
      overwritten key keeping its place) and the dictionary itself. */
  datatype Ledger = Ledger(order: seq<string>, tracked: map<string, Entry>) {
    /** Every key is listed once, the listed keys are the dictionary's keys, and
        every entry is stored under the key of its own namespace and name. */
    ghost predicate Valid() {
      && (forall i, j :: 0 <= i < j < |order| ==> order[i] != order[j])
      && (forall k :: k in tracked <==> k in order)
      && (forall k :: k in tracked ==> k == Key(tracked[k].namespace, tracked[k].name))
    }
  }

  const Empty := Ledger([], map[])

  /** `track_resource(kind, name, namespace)`: store the entry under its key,
      overwriting whatever the key held. */
  function Record(l: Ledger, kind: string, name: string, namespace: string): (r: Ledger)
    ensures l.Valid() ==> r.Valid()
    ensures Key(namespace, name) in r.tracked && r.tracked[Key(namespace, name)] == Entry(kind, name, namespace)
    ensures forall k :: k != Key(namespace, name) ==> (k in r.tracked <==> k in l.tracked)
    ensures forall k :: k != Key(namespace, name) && k in l.tracked ==> r.tracked[k] == l.tracked[k]
    ensures l.Valid() && Key(namespace, name) in l.tracked ==> r.order == l.order
    ensures l.Valid() && Key(namespace, name) !in l.tracked ==> r.order == l.order + [Key(namespace, name)]
  {
    var key := Key(namespace, name);
    Ledger(if key in l.order then l.order else l.order + [key],
           l.tracked[key := Entry(kind, name, namespace)])
  }

  /** Tracking the same namespace and name twice leaves one entry, holding the later
      kind: the first kind is forgotten entirely. */
  lemma RecordSameKeyReplaces(l: Ledger, kind1: string, kind2: string, name: string, namespace: string)
    requires l.Valid()
    ensures Record(Record(l, kind1, name, namespace), kind2, name, namespace) == Record(l, kind2, name, namespace)
    ensures |Record(Record(l, kind1, name, namespace), kind2, name, namespace).order| == |Record(l, kind1, name, namespace).order|
  {
  }

  /** Tracking is idempotent. */
  lemma RecordIdempotent(l: Ledger, kind: string, name: string, namespace: string)
    requires l.Valid()
    ensures Record(Record(l, kind, name, namespace), kind, name, namespace) == Record(l, kind, name, namespace)
  {
    RecordSameKeyReplaces(l, kind, kind, name, namespace);
  }

  /** The dictionary's values in iteration order. */
  function Values(order: seq<string>, tracked: map<string, Entry>): (vs: seq<Entry>)
    requires forall k :: k in order ==> k in tracked
    ensures |vs| == |order|
    ensures forall i :: 0 <= i < |order| ==> vs[i] == tracked[order[i]]
  {
    if |order| == 0 then [] else Values(order[..|order| - 1], tracked) + [tracked[order[|order| - 1]]]
  }

  /** The kinds the sweep knows how to delete; any other kind gets no call. */
  predicate Deletes(kind: string) {
    kind == "Deployment" || kind == "Service" || kind == "Pod" || kind == "Job" || kind == "Ingress"
  }

  /** The entries the sweep would delete, in order. */
  function Deletable(es: seq<Entry>): (r: seq<Entry>)
    ensures |r| <= |es|
    ensures forall e :: e in r <==> e in es && Deletes(e.kind)
  {
    if |es| == 0 then []
    else if Deletes(es[|es| - 1].kind) then Deletable(es[..|es| - 1]) + [es[|es| - 1]]
    else Deletable(es[..|es| - 1])
  }

  /** What a sweep did: the entries it issued a delete call for, in order, and
      whether an exception other than `ApiException` escaped from one of them. */
  datatype SweepResult = SweepResult(calls: seq<Entry>, escaped: bool)

  /** The sweep over the values `es`, where the k-th delete call answers
      `outcome(k)`: an API error is logged and the sweep goes on; any other error
      ends it. */
  function Sweep(es: seq<Entry>, outcome: nat -> Response): SweepResult
    decreases |es|
  {
    if |es| == 0 then SweepResult([], false)
    else
      var p := Sweep(es[..|es| - 1], outcome);
      var e := es[|es| - 1];
      if p.escaped || !Deletes(e.kind) then p
      else SweepResult(p.calls + [e], outcome(|p.calls|).ClientError?)
  }

  /** The sweep issues one delete per deletable entry, in order, and stops exactly
      at the first call that fails with something other than an API error: API
      errors never stop it, and it escapes only if some call within the deletable
      entries failed that way. */
  lemma {:induction false} SweepCallsInOrder(es: seq<Entry>, outcome: nat -> Response)
    ensures var r := Sweep(es, outcome);
      && r.calls <= Deletable(es)
      && (!r.escaped ==> r.calls == Deletable(es))
      && (forall i :: 0 <= i < |r.calls| - 1 ==> !outcome(i).ClientError?)
      && (r.escaped <==> |r.calls| > 0 && outcome(|r.calls| - 1).ClientError?)
    decreases |es|
  {
    if |es| > 0 {
      var prefix := es[..|es| - 1];
      SweepCallsInOrder(prefix, outcome);
    }
  }

  /** Whether the sweep escapes depends only on the calls it is due to make. */
  lemma SweepEscapesIff(es: seq<Entry>, outcome: nat -> Response)
    ensures Sweep(es, outcome).escaped <==> exists i :: 0 <= i < |Deletable(es)| && outcome(i).ClientError?
  {
    var r := Sweep(es, outcome);
    SweepCallsInOrder(es, outcome);
    if r.escaped {
      assert |r.calls| <= |Deletable(es)|;
      assert outcome(|r.calls| - 1).ClientError?;
    } else {
      forall i | 0 <= i < |Deletable(es)| ensures !outcome(i).ClientError? {
        assert i == |r.calls| - 1 || i < |r.calls| - 1;
      }
    }
  }

  /** Once the sweep has escaped on a prefix, the rest of the entries are not
      visited. */
  lemma {:induction false} SweepAfterEscape(es: seq<Entry>, j: nat, outcome: nat -> Response)
    requires j <= |es|
    requires Sweep(es[..j], outcome).escaped
    ensures Sweep(es, outcome) == Sweep(es[..j], outcome)
    decreases |es| - j
  {
    if j < |es| {
      assert es[..j + 1][..j] == es[..j];
      SweepAfterEscape(es, j + 1, outcome);
    } else {
      assert es[..j] == es;
    }
  }

  /** The configuration source found by the constructor. */
  datatype ConfigSource = InCluster | KubeConfig

  /** The constructor's fallback: the in-cluster configuration first, then the
      kubeconfig file; failing both raises `RuntimeError`. */
  function LoadConfig(inClusterLoads: bool, kubeConfigLoads: bool): (r: Result<ConfigSource, Exception>)
    ensures r.Err? <==> !inClusterLoads && !kubeConfigLoads
    ensures r.Err? ==> r.error == RuntimeError
    ensures r == Ok(InCluster) <==> inClusterLoads
  {
    if inClusterLoads then Ok(InCluster)
    else if kubeConfigLoads then Ok(KubeConfig)
    else Err(RuntimeError)
  }

  class KubernetesManager {
    var order: seq<string>
    var tracked: map<string, Entry>

    ghost predicate Valid()
      reads this
    {
      Contents().Valid()
    }

    function Contents(): Ledger
      reads this
    {
      Ledger(order, tracked)
    }

    constructor()
      ensures Valid() && Contents() == Empty
    {
      order := [];
      tracked := map[];
    }

    /** `KubernetesManager()`, where the two configuration loaders succeed or not as
        given. */
    static method Connect(inClusterLoads: bool, kubeConfigLoads: bool) returns (r: Result<KubernetesManager, Exception>)
      ensures r.Err? <==> LoadConfig(inClusterLoads, kubeConfigLoads).Err?
      ensures r.Err? ==> r.error == RuntimeError
      ensures r.Ok? ==> fresh(r.value) && r.value.Valid() && r.value.Contents() == Empty
    {
      var source := LoadConfig(inClusterLoads, kubeConfigLoads);
      if source.Err? {
        return Err(source.error);
      }
      var m := new KubernetesManager();
      return Ok(m);
    }

    method TrackResource(kind: string, name: string, namespace: string)
      requires Valid()
      modifies this
      ensures Valid()
      ensures Contents() == Record(old(Contents()), kind, name, namespace)
    {
      var key := Key(namespace, name);
      if key !in tracked {
        order := order + [key];
      }
      tracked := tracked[key := Entry(kind, name, namespace)];
    }

    /** `get_tracked_resources()`: the dictionary, every entry under its own key. */
    function GetTrackedResources(): (r: map<string, Entry>)
      reads this
      ensures Valid() ==> forall k :: k in r ==> k == Key(r[k].namespace, r[k].name)
      ensures Valid() ==> forall k :: k in r <==> k in order
    {
      tracked
    }

    method ClearTrackedResources()
      modifies this
      ensures Valid() && Contents() == Empty
    {
      order := [];
      tracked := map[];
    }

    /** `cleanup_resources()`, where the k-th delete call answers `outcome(k)`.
        Returns the entries a delete was issued for and whether a non-API exception
        escaped; the registry is cleared exactly when none did. */
    method CleanupResources(outcome: nat -> Response) returns (calls: seq<Entry>, escaped: bool)
      requires Valid()
      modifies this
      ensures Valid()
      ensures Sweep(Values(old(order), old(tracked)), outcome) == SweepResult(calls, escaped)
      ensures !escaped ==> Contents() == Empty
      ensures escaped ==> Contents() == old(Contents())
    {
      var values := Values(order, tracked);
      calls := [];
      escaped := false;
      var i := 0;
      while i < |values|
        invariant 0 <= i <= |values|
        invariant Sweep(values[..i], outcome) == SweepResult(calls, false)
      {
        var e := values[i];
        assert values[..i + 1][..i] == values[..i];
        if e.kind == "Deployment" || e.kind == "Service" || e.kind == "Pod" || e.kind == "Job" || e.kind == "Ingress" {
          var response := outcome(|calls|);
          calls := calls + [e];
          if response.ClientError? {
            escaped := true;
            SweepAfterEscape(values, i + 1, outcome);
            return;
          }
        }
        i := i + 1;
      }
      assert values[..i] == values;
      ClearTrackedResources();
    }
  }
}
