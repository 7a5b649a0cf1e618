/** The resource synchronisation layer of the dashboard (package k8s):
    the normalised `Resource`/`Condition` entities, the "custom resource
    definition missing" classifier, the four per-kind list operations with
    HelmRepository's v1beta2 -> v1 fallback, the get-then-update mutations
    (suspend, resume, reconcile) and the recency/apiVersion event filter.

    The Kubernetes API server is foreign: a list call is represented by the
    outcome it answers with (a `ListOutcome`), and Get/Update go to a
    map-backed `Cluster` whose failures are passed in as faults. */
module K8s {
  import opened Base

  // ---------------------------------------------------------------------------
  // Constants
  // ---------------------------------------------------------------------------

  /** A ResourceType is a Go string; the four kinds the dashboard knows. */
  type ResourceType = string

  const GitRepositoryKind: ResourceType := "GitRepository"
  const HelmRepositoryKind: ResourceType := "HelmRepository"
  const KustomizationKind: ResourceType := "Kustomization"
  const HelmReleaseKind: ResourceType := "HelmRelease"

  predicate IsFluxKind(t: ResourceType)
  {
    t == GitRepositoryKind || t == HelmRepositoryKind || t == KustomizationKind || t == HelmReleaseKind
  }

  const SourceV1: string := "source.toolkit.fluxcd.io/v1"
  const SourceV1beta2: string := "source.toolkit.fluxcd.io/v1beta2"
  const KustomizeV1: string := "kustomize.toolkit.fluxcd.io/v1"
  const HelmV2beta1: string := "helm.toolkit.fluxcd.io/v2beta1"
  const HelmV2: string := "helm.toolkit.fluxcd.io/v2"

  const ConditionTrue: string := "True"
  const ReadyType: string := "Ready"

  const ReconcileAnnotation: string := "reconcile.fluxcd.io/requestedAt"

  /** time.Duration is a count of nanoseconds. */
  const Second: int := 1_000_000_000
  const Minute: int := 60 * Second
  const Hour: int := 60 * Minute

  // ---------------------------------------------------------------------------
  // API objects as the cluster returns them
  // ---------------------------------------------------------------------------

  /** metav1.Condition (times are nanoseconds since the epoch). */
  datatype ApiCondition = ApiCondition(
    condType: string, status: string, reason: string, message: string,
    lastTransitionTime: int, observedGeneration: int)

  datatype ObjectMeta = ObjectMeta(
    name: string, namespace: string, creationTimestamp: int,
    annotations: map<string, string>, resourceVersion: string)

  /** A spec.sourceRef / spec.chart.spec.sourceRef cross-reference. */
  datatype CrossRef = CrossRef(kind: string, name: string)

  datatype Artifact = Artifact(revision: string)

  datatype GitRepository = GitRepository(
    meta: ObjectMeta, suspend: bool, url: string,
    conditions: seq<ApiCondition>, artifact: Option<Artifact>)

  /** The v1beta2 and v1 HelmRepository types carry the same fields used here. */
  datatype HelmRepository = HelmRepository(
    meta: ObjectMeta, suspend: bool, url: string, conditions: seq<ApiCondition>)

  datatype Kustomization = Kustomization(
    meta: ObjectMeta, suspend: bool, path: string, sourceRef: CrossRef,
    conditions: seq<ApiCondition>, lastAppliedRevision: string)

  datatype HelmRelease = HelmRelease(
    meta: ObjectMeta, suspend: bool, chart: string, version: string, sourceRef: CrossRef,
    conditions: seq<ApiCondition>, lastAppliedRevision: string)

  /** An error returned by the client: whether apierrors.IsNotFound holds of
      it, and its Error() text. */
  datatype ApiError = ApiError(isNotFound: bool, text: string)

  /** What the API server answers to one list call. */
  datatype ListOutcome<T> = Listed(items: seq<T>) | ListFailed(err: ApiError)

  /** One list call as issued: which API version, which kind, which scope
      (None lists across all namespaces). */
  datatype ListCall = ListCall(apiVersion: string, kind: ResourceType, scope: Option<string>)

  // ---------------------------------------------------------------------------
  // The normalised entities
  // ---------------------------------------------------------------------------

  datatype Condition = Condition(
    condType: string, status: string, reason: string, message: string, lastTransitionTime: int)

  /** Resource: one monitored custom resource. `age` and `lastUpdate` are
      nanoseconds; the optional Go fields are "" when unset. */
  datatype Resource = Resource(
    kind: ResourceType, name: string, namespace: string,
    ready: bool, status: string, message: string,
    age: int, lastUpdate: int,
    conditions: seq<Condition>, suspended: bool,
    source: string, path: string, revision: string, url: string,
    chart: string, version: string)

  /** The three fields derived from the conditions. */
  datatype Readiness = Readiness(ready: bool, status: string, message: string)

  const NoReadiness := Readiness(false, "", "")

  function ToCondition(c: ApiCondition): Condition
  {
    Condition(c.condType, c.status, c.reason, c.message, c.lastTransitionTime)
  }

  function ToConditions(cs: seq<ApiCondition>): seq<Condition>
  {
    seq(|cs|, i requires 0 <= i < |cs| => ToCondition(cs[i]))
  }

  // ---------------------------------------------------------------------------
  // Namespace scope
  // ---------------------------------------------------------------------------

  /** The list options built from the namespace argument: "" and "<nil>"
      both mean "all namespaces". */
  function ListScope(namespace: string): (scope: Option<string>)
    ensures scope.None? <==> namespace == "" || namespace == "<nil>"
    ensures scope.Some? ==> scope.value == namespace
  {
    if namespace != "" && |namespace| > 0 && namespace != "<nil>" then Some(namespace) else None
  }

  // ---------------------------------------------------------------------------
  // The "CRD missing" classifier
  // ---------------------------------------------------------------------------

  const NoMatchesForKind: string := "no matches for kind"
  const CouldNotFindResource: string := "could not find the requested resource"
  /** "the server could not find the requested resource" */
  const ServerCouldNotFindResource: string := "the server " + CouldNotFindResource

  /** The test the list operations apply to a failed list call: NotFound, or
      one of three phrases of the API server's "unknown kind" answer. */
  function IsCRDMissing(e: ApiError): bool
  {
    e.isNotFound ||
    (e.text != "" &&
      (Contains(e.text, NoMatchesForKind) ||
       Contains(e.text, CouldNotFindResource) ||
       Contains(e.text, ServerCouldNotFindResource)))
  }

  /** The classifier in plain terms: the emptiness guard and the third
      phrase are redundant, since the third phrase ends with the second. */
  lemma CRDMissingCharacterisation(e: ApiError)
    ensures IsCRDMissing(e) <==>
      e.isNotFound || Contains(e.text, NoMatchesForKind) || Contains(e.text, CouldNotFindResource)
  {
    RedundantPhrases(e.text, NoMatchesForKind, "the server ", CouldNotFindResource);
  }

  /** The shape of the classifier's text test, for any two non-empty phrases
      `a` and `b` and a third phrase ending in `b`. */
  lemma RedundantPhrases(s: string, a: string, u: string, b: string)
    requires |a| > 0 && |b| > 0
    ensures (s != "" && (Contains(s, a) || Contains(s, b) || Contains(s, u + b))) <==>
            (Contains(s, a) || Contains(s, b))
  {
    if Contains(s, u + b) {
      ContainsSuffixOfNeedle(s, u, b);
    }
    if Contains(s, a) {
      ContainsNonEmptyNeedle(s, a);
    }
    if Contains(s, b) {
      ContainsNonEmptyNeedle(s, b);
    }
  }

  // ---------------------------------------------------------------------------
  // Readiness rules
  // ---------------------------------------------------------------------------

  /** GitRepository, Kustomization and HelmRelease: the last condition of
      type "Ready" decides; Status is its Reason. */
  function ReadyReadiness(cs: seq<ApiCondition>): Readiness
  {
    if |cs| == 0 then
      NoReadiness
    else
      var c := cs[|cs| - 1];
      if c.condType == ReadyType then Readiness(c.status == ConditionTrue, c.reason, c.message)
      else ReadyReadiness(cs[..|cs| - 1])
  }

  /** `j` is the position of the last "Ready" condition in `cs`. */
  ghost predicate IsLastReady(cs: seq<ApiCondition>, j: int)
  {
    0 <= j < |cs| && cs[j].condType == ReadyType &&
    forall k :: j < k < |cs| ==> cs[k].condType != ReadyType
  }

  lemma {:induction false} ReadyReadinessFromLastReady(cs: seq<ApiCondition>, j: int)
    requires IsLastReady(cs, j)
    ensures ReadyReadiness(cs) == Readiness(cs[j].status == ConditionTrue, cs[j].reason, cs[j].message)
    decreases |cs|
  {
    if j < |cs| - 1 {
      var p := cs[..|cs| - 1];
      assert IsLastReady(p, j) by {
        forall k | j < k < |p| ensures p[k].condType != ReadyType {
          assert p[k] == cs[k];
        }
      }
      ReadyReadinessFromLastReady(p, j);
    }
  }

  lemma {:induction false} ReadyReadinessWithoutReady(cs: seq<ApiCondition>)
    requires forall k :: 0 <= k < |cs| ==> cs[k].condType != ReadyType
    ensures ReadyReadiness(cs) == NoReadiness
    decreases |cs|
  {
    if |cs| > 0 {
      var p := cs[..|cs| - 1];
      assert forall k :: 0 <= k < |p| ==> p[k] == cs[k];
      ReadyReadinessWithoutReady(p);
    }
  }

  /** Ready holds exactly when the last "Ready" condition has status "True";
      a "Ready" condition with any other status, or none at all, gives false. */
  lemma ReadyIffLastReadyIsTrue(cs: seq<ApiCondition>)
    ensures ReadyReadiness(cs).ready <==>
      exists j :: IsLastReady(cs, j) && cs[j].status == ConditionTrue
    ensures (forall k :: 0 <= k < |cs| ==> cs[k].condType != ReadyType) ==>
      ReadyReadiness(cs) == NoReadiness
  {
    if exists j :: IsLastReady(cs, j) {
      var j :| IsLastReady(cs, j);
      ReadyReadinessFromLastReady(cs, j);
      forall j' | IsLastReady(cs, j') ensures j' == j { }
    } else {
      forall k | 0 <= k < |cs| ensures cs[k].condType != ReadyType {
        if cs[k].condType == ReadyType {
          LastReadyExists(cs, k);
        }
      }
      ReadyReadinessWithoutReady(cs);
    }
  }

  lemma {:induction false} LastReadyExists(cs: seq<ApiCondition>, k: int)
    requires 0 <= k < |cs| && cs[k].condType == ReadyType
    ensures exists j :: IsLastReady(cs, j)
    decreases |cs| - k
  {
    if !IsLastReady(cs, k) {
      var k' :| k < k' < |cs| && cs[k'].condType == ReadyType;
      LastReadyExists(cs, k');
    }
  }

  /** HelmRepository (v1beta2 and v1): the last condition of any type
      decides, and Status is its status string. */
  function LastConditionReadiness(cs: seq<ApiCondition>): (r: Readiness)
    ensures |cs| == 0 ==> r == NoReadiness
    ensures |cs| > 0 ==>
      r.ready == (cs[|cs| - 1].status == ConditionTrue) &&
      r.status == cs[|cs| - 1].status &&
      r.message == cs[|cs| - 1].message
  {
    if |cs| > 0 then
      var last := cs[|cs| - 1];
      Readiness(last.status == ConditionTrue, last.status, last.message)
    else
      NoReadiness
  }

  /** Under the HelmRepository rule only the last condition counts, and its
      type does not: whatever precedes it and whatever type it has, the
      readiness is the same. */
  lemma LastConditionDecides(cs: seq<ApiCondition>, c: ApiCondition, t: string)
    ensures LastConditionReadiness(cs + [c]) == LastConditionReadiness([c.(condType := t)])
  {
  }

  /** When the last condition is the "Ready" one, the two rules agree on
      Ready and Message and differ only in Status: its reason under the
      Ready rule, its status string under the HelmRepository rule. */
  lemma RulesAgreeWhenLastIsReady(cs: seq<ApiCondition>)
    requires |cs| > 0 && cs[|cs| - 1].condType == ReadyType
    ensures ReadyReadiness(cs).ready == LastConditionReadiness(cs).ready
    ensures ReadyReadiness(cs).message == LastConditionReadiness(cs).message
    ensures ReadyReadiness(cs).status == cs[|cs| - 1].reason
    ensures LastConditionReadiness(cs).status == cs[|cs| - 1].status
  {
  }

  /** The two rules disagree: a lone Ready/True condition with reason
      "Succeeded" reads as status "Succeeded" under the Ready rule and as
      "True" under the HelmRepository rule; a later non-Ready condition
      decides readiness under the HelmRepository rule only. */
  lemma ReadinessRulesDiffer(ready: ApiCondition, other: ApiCondition)
    requires ready.condType == ReadyType && ready.status == ConditionTrue && ready.reason == "Succeeded"
    requires other.condType == "Reconciling" && other.status == "False"
    ensures ReadyReadiness([ready]).status == "Succeeded"
    ensures LastConditionReadiness([ready]).status == ConditionTrue
    ensures ReadyReadiness([ready, other]).ready
    ensures !LastConditionReadiness([ready, other]).ready
  {
    assert [ready, other][..1] == [ready];
  }

  // ---------------------------------------------------------------------------
  // Item -> Resource mappings
  // ---------------------------------------------------------------------------

  function FromGitRepository(g: GitRepository, now: int): Resource
  {
    var rd := ReadyReadiness(g.conditions);
    Resource(
      GitRepositoryKind, g.meta.name, g.meta.namespace,
      rd.ready, rd.status, rd.message,
      now - g.meta.creationTimestamp, now,
      ToConditions(g.conditions), g.suspend,
      "", "", if g.artifact.Some? then g.artifact.value.revision else "", g.url,
      "", "")
  }

  function FromHelmRepository(h: HelmRepository, now: int): Resource
  {
    var rd := LastConditionReadiness(h.conditions);
    Resource(
      HelmRepositoryKind, h.meta.name, h.meta.namespace,
      rd.ready, rd.status, rd.message,
      now - h.meta.creationTimestamp, now,
      ToConditions(h.conditions), h.suspend,
      "", "", "", h.url,
      "", "")
  }

  function FromKustomization(k: Kustomization, now: int): Resource
  {
    var rd := ReadyReadiness(k.conditions);
    Resource(
      KustomizationKind, k.meta.name, k.meta.namespace,
      rd.ready, rd.status, rd.message,
      now - k.meta.creationTimestamp, now,
      ToConditions(k.conditions), k.suspend,
      if k.sourceRef.kind == GitRepositoryKind then k.sourceRef.name else "",
      k.path, k.lastAppliedRevision, "",
      "", "")
  }

  function FromHelmRelease(h: HelmRelease, now: int): Resource
  {
    var rd := ReadyReadiness(h.conditions);
    Resource(
      HelmReleaseKind, h.meta.name, h.meta.namespace,
      rd.ready, rd.status, rd.message,
      now - h.meta.creationTimestamp, now,
      ToConditions(h.conditions), h.suspend,
      if h.sourceRef.kind == HelmRepositoryKind then h.sourceRef.name else "",
      "", h.lastAppliedRevision, "",
      h.chart, h.version)
  }

  /** The condition loop of GitRepository, Kustomization and HelmRelease:
      copy every condition and let each "Ready" one overwrite the readiness. */
  method ParseReadyConditions(cs: seq<ApiCondition>) returns (conditions: seq<Condition>, rd: Readiness)
    ensures |conditions| == |cs|
    ensures forall i :: 0 <= i < |cs| ==> conditions[i] == ToCondition(cs[i])
    ensures rd == ReadyReadiness(cs)
  {
    conditions, rd := [], NoReadiness;
    var i := 0;
    while i < |cs|
      invariant 0 <= i <= |cs|
      invariant |conditions| == i
      invariant forall k :: 0 <= k < i ==> conditions[k] == ToCondition(cs[k])
      invariant rd == ReadyReadiness(cs[..i])
    {
      var cond := cs[i];
      conditions := conditions + [ToCondition(cond)];
      if cond.condType == ReadyType {
        rd := Readiness(cond.status == ConditionTrue, cond.reason, cond.message);
      }
      assert cs[..i + 1][..i] == cs[..i];
      i := i + 1;
    }
    assert cs[..i] == cs;
  }

  /** The HelmRepository condition handling: copy every condition, then take
      the readiness from the last one. */
  method ParseLastCondition(cs: seq<ApiCondition>) returns (conditions: seq<Condition>, rd: Readiness)
    ensures |conditions| == |cs|
    ensures forall i :: 0 <= i < |cs| ==> conditions[i] == ToCondition(cs[i])
    ensures rd == LastConditionReadiness(cs)
  {
    conditions := [];
    var i := 0;
    while i < |cs|
      invariant 0 <= i <= |cs|
      invariant |conditions| == i
      invariant forall k :: 0 <= k < i ==> conditions[k] == ToCondition(cs[k])
    {
      conditions := conditions + [ToCondition(cs[i])];
      i := i + 1;
    }
    rd := NoReadiness;
    if |cs| > 0 {
      var lastCond := cs[|cs| - 1];
      rd := Readiness(lastCond.status == ConditionTrue, lastCond.status, lastCond.message);
    }
  }

  // ---------------------------------------------------------------------------
  // List operations
  // ---------------------------------------------------------------------------

  method ListGitRepositories(namespace: string, answer: ListOutcome<GitRepository>, now: int)
    returns (r: Result<seq<Resource>>, calls: seq<ListCall>)
    ensures calls == [ListCall(SourceV1, GitRepositoryKind, ListScope(namespace))]
    ensures answer.ListFailed? && IsCRDMissing(answer.err) ==> r == Ok([])
    ensures answer.ListFailed? && !IsCRDMissing(answer.err) ==>
      r == Err("failed to list GitRepositories: " + answer.err.text)
    ensures answer.Listed? ==> r.Ok? && |r.value| == |answer.items|
    ensures answer.Listed? ==> forall i :: 0 <= i < |answer.items| ==>
      r.value[i] == FromGitRepository(answer.items[i], now)
  {
    calls := [ListCall(SourceV1, GitRepositoryKind, ListScope(namespace))];
    if answer.ListFailed? {
      if IsCRDMissing(answer.err) {
        return Ok([]), calls;
      }
      return Err("failed to list GitRepositories: " + answer.err.text), calls;
    }
    var items := answer.items;
    var resources: seq<Resource> := [];
    var i := 0;
    while i < |items|
      invariant 0 <= i <= |items|
      invariant |resources| == i
      invariant forall k :: 0 <= k < i ==> resources[k] == FromGitRepository(items[k], now)
    {
      var repo := items[i];
      var conditions, rd := ParseReadyConditions(repo.conditions);
      assert conditions == ToConditions(repo.conditions);
      var revision := "";
      if repo.artifact.Some? {
        revision := repo.artifact.value.revision;
      }
      var resource := Resource(
        GitRepositoryKind, repo.meta.name, repo.meta.namespace,
        rd.ready, rd.status, rd.message,
        now - repo.meta.creationTimestamp, now,
        conditions, repo.suspend,
        "", "", revision, repo.url, "", "");
      resources := resources + [resource];
      i := i + 1;
    }
    return Ok(resources), calls;
  }

  /** Converts the items of either HelmRepository version (the loop bodies of
      both branches are the same). */
  method ConvertHelmRepositories(items: seq<HelmRepository>, now: int) returns (resources: seq<Resource>)
    ensures |resources| == |items|
    ensures forall i :: 0 <= i < |items| ==> resources[i] == FromHelmRepository(items[i], now)
  {
    resources := [];
    var i := 0;
    while i < |items|
      invariant 0 <= i <= |items|
      invariant |resources| == i
      invariant forall k :: 0 <= k < i ==> resources[k] == FromHelmRepository(items[k], now)
    {
      var repo := items[i];
      var conditions, rd := ParseLastCondition(repo.conditions);
      assert conditions == ToConditions(repo.conditions);
      var resource := Resource(
        HelmRepositoryKind, repo.meta.name, repo.meta.namespace,
        rd.ready, rd.status, rd.message,
        now - repo.meta.creationTimestamp, now,
        conditions, repo.suspend,
        "", "", "", repo.url, "", "");
      resources := resources + [resource];
      i := i + 1;
    }
  }

  /** v1beta2 first; only a "CRD missing" failure of it leads to one v1 list. */
  method ListHelmRepositories(
    namespace: string, v1beta2: ListOutcome<HelmRepository>, v1: ListOutcome<HelmRepository>, now: int)
    returns (r: Result<seq<Resource>>, calls: seq<ListCall>)
    ensures var primary := ListCall(SourceV1beta2, HelmRepositoryKind, ListScope(namespace));
            var fallback := ListCall(SourceV1, HelmRepositoryKind, ListScope(namespace));
            calls == if v1beta2.ListFailed? && IsCRDMissing(v1beta2.err) then [primary, fallback] else [primary]
    ensures v1beta2.Listed? ==> r.Ok? && |r.value| == |v1beta2.items|
    ensures v1beta2.Listed? ==> forall i :: 0 <= i < |v1beta2.items| ==>
      r.value[i] == FromHelmRepository(v1beta2.items[i], now)
    ensures v1beta2.ListFailed? && !IsCRDMissing(v1beta2.err) ==>
      r == Err("failed to list HelmRepositories (v1beta2): " + v1beta2.err.text)
    ensures v1beta2.ListFailed? && IsCRDMissing(v1beta2.err) && v1.ListFailed? && IsCRDMissing(v1.err) ==>
      r == Ok([])
    ensures v1beta2.ListFailed? && IsCRDMissing(v1beta2.err) && v1.ListFailed? && !IsCRDMissing(v1.err) ==>
      r == Err("failed to list HelmRepositories (tried v1beta2 and v1): v1beta2=" + v1beta2.err.text
               + ", v1=" + v1.err.text)
    ensures v1beta2.ListFailed? && IsCRDMissing(v1beta2.err) && v1.Listed? ==>
      r.Ok? && |r.value| == |v1.items| &&
      forall i :: 0 <= i < |v1.items| ==> r.value[i] == FromHelmRepository(v1.items[i], now)
  {
    var scope := ListScope(namespace);
    calls := [ListCall(SourceV1beta2, HelmRepositoryKind, scope)];
    if v1beta2.ListFailed? {
      var listErr := v1beta2.err;
      if IsCRDMissing(listErr) {
        calls := calls + [ListCall(SourceV1, HelmRepositoryKind, scope)];
        if v1.ListFailed? {
          var errV1 := v1.err;
          if IsCRDMissing(errV1) {
            return Ok([]), calls;
          }
          return Err("failed to list HelmRepositories (tried v1beta2 and v1): v1beta2=" + listErr.text
                     + ", v1=" + errV1.text), calls;
        }
        var resources := ConvertHelmRepositories(v1.items, now);
        return Ok(resources), calls;
      }
      return Err("failed to list HelmRepositories (v1beta2): " + listErr.text), calls;
    }
    var resources := ConvertHelmRepositories(v1beta2.items, now);
    return Ok(resources), calls;
  }

  method ListKustomizations(namespace: string, answer: ListOutcome<Kustomization>, now: int)
    returns (r: Result<seq<Resource>>, calls: seq<ListCall>)
    ensures calls == [ListCall(KustomizeV1, KustomizationKind, ListScope(namespace))]
    ensures answer.ListFailed? && IsCRDMissing(answer.err) ==> r == Ok([])
    ensures answer.ListFailed? && !IsCRDMissing(answer.err) ==>
      r == Err("failed to list Kustomizations: " + answer.err.text)
    ensures answer.Listed? ==> r.Ok? && |r.value| == |answer.items|
    ensures answer.Listed? ==> forall i :: 0 <= i < |answer.items| ==>
      r.value[i] == FromKustomization(answer.items[i], now)
  {
    calls := [ListCall(KustomizeV1, KustomizationKind, ListScope(namespace))];
    if answer.ListFailed? {
      if IsCRDMissing(answer.err) {
        return Ok([]), calls;
      }
      return Err("failed to list Kustomizations: " + answer.err.text), calls;
    }
    var items := answer.items;
    var resources: seq<Resource> := [];
    var i := 0;
    while i < |items|
      invariant 0 <= i <= |items|
      invariant |resources| == i
      invariant forall k :: 0 <= k < i ==> resources[k] == FromKustomization(items[k], now)
    {
      var ks := items[i];
      var source := "";
      if ks.sourceRef.kind == GitRepositoryKind {
        source := ks.sourceRef.name;
      }
      var conditions, rd := ParseReadyConditions(ks.conditions);
      assert conditions == ToConditions(ks.conditions);
      var revision := "";
      if ks.lastAppliedRevision != "" {
        revision := ks.lastAppliedRevision;
      }
      var resource := Resource(
        KustomizationKind, ks.meta.name, ks.meta.namespace,
        rd.ready, rd.status, rd.message,
        now - ks.meta.creationTimestamp, now,
        conditions, ks.suspend,
        source, ks.path, revision, "", "", "");
      resources := resources + [resource];
      i := i + 1;
    }
    return Ok(resources), calls;
  }

  method ListHelmReleases(namespace: string, answer: ListOutcome<HelmRelease>, now: int)
    returns (r: Result<seq<Resource>>, calls: seq<ListCall>)
    ensures calls == [ListCall(HelmV2beta1, HelmReleaseKind, ListScope(namespace))]
    ensures answer.ListFailed? && IsCRDMissing(answer.err) ==> r == Ok([])
    ensures answer.ListFailed? && !IsCRDMissing(answer.err) ==>
      r == Err("failed to list HelmReleases: " + answer.err.text)
    ensures answer.Listed? ==> r.Ok? && |r.value| == |answer.items|
    ensures answer.Listed? ==> forall i :: 0 <= i < |answer.items| ==>
      r.value[i] == FromHelmRelease(answer.items[i], now)
  {
    calls := [ListCall(HelmV2beta1, HelmReleaseKind, ListScope(namespace))];
    if answer.ListFailed? {
      if IsCRDMissing(answer.err) {
        return Ok([]), calls;
      }
      return Err("failed to list HelmReleases: " + answer.err.text), calls;
    }
    var items := answer.items;
    var resources: seq<Resource> := [];
    var i := 0;
    while i < |items|
      invariant 0 <= i <= |items|
      invariant |resources| == i
      invariant forall k :: 0 <= k < i ==> resources[k] == FromHelmRelease(items[k], now)
    {
      var hr := items[i];
      var source := "";
      if hr.sourceRef.kind == HelmRepositoryKind {
        source := hr.sourceRef.name;
      }
      var conditions, rd := ParseReadyConditions(hr.conditions);
      assert conditions == ToConditions(hr.conditions);
      var revision := "";
      if hr.lastAppliedRevision != "" {
        revision := hr.lastAppliedRevision;
      }
      var resource := Resource(
        HelmReleaseKind, hr.meta.name, hr.meta.namespace,
        rd.ready, rd.status, rd.message,
        now - hr.meta.creationTimestamp, now,
        conditions, hr.suspend,
        source, "", revision, "", hr.chart, hr.version);
      resources := resources + [resource];
      i := i + 1;
    }
    return Ok(resources), calls;
  }

  // ---------------------------------------------------------------------------
  // The object store behind Get and Update
  // ---------------------------------------------------------------------------

  /** A typed object as Get decodes it (HelmRepository at v1beta2). */
  datatype Object =
    | GitRepositoryObject(git: GitRepository)
    | HelmRepositoryObject(helmRepository: HelmRepository)
    | KustomizationObject(kustomization: Kustomization)
    | HelmReleaseObject(helmRelease: HelmRelease)
  {
    function Kind(): ResourceType
    {
      match this
      case GitRepositoryObject(_) => GitRepositoryKind
      case HelmRepositoryObject(_) => HelmRepositoryKind
      case KustomizationObject(_) => KustomizationKind
      case HelmReleaseObject(_) => HelmReleaseKind
    }

    function Meta(): ObjectMeta
    {
      match this
      case GitRepositoryObject(o) => o.meta
      case HelmRepositoryObject(o) => o.meta
      case KustomizationObject(o) => o.meta
      case HelmReleaseObject(o) => o.meta
    }

    function Suspend(): bool
    {
      match this
      case GitRepositoryObject(o) => o.suspend
      case HelmRepositoryObject(o) => o.suspend
      case KustomizationObject(o) => o.suspend
      case HelmReleaseObject(o) => o.suspend
    }

    /** The per-kind assignment `Spec.Suspend = suspend`. */
    function WithSuspend(suspend: bool): (o': Object)
      ensures o'.Suspend() == suspend && o'.Kind() == Kind() && o'.Meta() == Meta()
    {
      match this
      case GitRepositoryObject(o) => GitRepositoryObject(o.(suspend := suspend))
      case HelmRepositoryObject(o) => HelmRepositoryObject(o.(suspend := suspend))
      case KustomizationObject(o) => KustomizationObject(o.(suspend := suspend))
      case HelmReleaseObject(o) => HelmReleaseObject(o.(suspend := suspend))
    }

    /** obj.SetAnnotations(annotations). */
    function WithAnnotations(annotations: map<string, string>): (o': Object)
      ensures o'.Meta() == Meta().(annotations := annotations)
      ensures o'.Kind() == Kind() && o'.Suspend() == Suspend()
    {
      match this
      case GitRepositoryObject(o) => GitRepositoryObject(o.(meta := o.meta.(annotations := annotations)))
      case HelmRepositoryObject(o) => HelmRepositoryObject(o.(meta := o.meta.(annotations := annotations)))
      case KustomizationObject(o) => KustomizationObject(o.(meta := o.meta.(annotations := annotations)))
      case HelmReleaseObject(o) => HelmReleaseObject(o.(meta := o.meta.(annotations := annotations)))
    }
  }

  datatype ObjectKey = ObjectKey(kind: ResourceType, namespace: string, name: string)

  function KeyOf(o: Object): ObjectKey
  {
    ObjectKey(o.Kind(), o.Meta().namespace, o.Meta().name)
  }

  datatype ClusterCall = GetCall(key: ObjectKey) | UpdateCall(key: ObjectKey)

  /** The error the store answers for a missing object (apierrors NotFound). */
  function NotFoundError(key: ObjectKey): ApiError
  {
    ApiError(true, key.kind + " \"" + key.name + "\" not found")
  }

  /** The cluster as Get and Update see it: objects by kind, namespace and
      name, and a log of the calls made. A fault passed to Get or Update is
      the failure the server answers with (a lost connection, a conflict on
      a stale resource version, ...). */
  class Cluster {
    var objects: map<ObjectKey, Object>
    var calls: seq<ClusterCall>

    /** Every object is stored under its own key. */
    ghost predicate Valid()
      reads this
    {
      forall k :: k in objects ==> KeyOf(objects[k]) == k
    }

    constructor (objects: map<ObjectKey, Object>)
      requires forall k :: k in objects ==> KeyOf(objects[k]) == k
      ensures Valid() && this.objects == objects && calls == []
    {
      this.objects := objects;
      calls := [];
    }

    method Get(key: ObjectKey, fault: Option<ApiError>) returns (r: Result<Object>, err: Option<ApiError>)
      requires Valid()
      modifies this`calls
      ensures calls == old(calls) + [GetCall(key)]
      ensures fault.Some? ==> r.Err? && err == fault
      ensures fault.None? && key !in objects ==> r.Err? && err == Some(NotFoundError(key))
      ensures fault.None? && key in objects ==> r == Ok(objects[key]) && err == None
    {
      calls := calls + [GetCall(key)];
      if fault.Some? {
        return Err(fault.value.text), fault;
      }
      if key !in objects {
        var e := NotFoundError(key);
        return Err(e.text), Some(e);
      }
      return Ok(objects[key]), None;
    }

    method Update(o: Object, fault: Option<ApiError>) returns (err: Option<ApiError>)
      requires Valid()
      modifies this
      ensures Valid()
      ensures calls == old(calls) + [UpdateCall(KeyOf(o))]
      ensures fault.Some? ==> err == fault && objects == old(objects)
      ensures fault.None? && KeyOf(o) !in old(objects) ==>
        err == Some(NotFoundError(KeyOf(o))) && objects == old(objects)
      ensures fault.None? && KeyOf(o) in old(objects) ==>
        err == None && objects == old(objects)[KeyOf(o) := o]
    {
      var key := KeyOf(o);
      calls := calls + [UpdateCall(key)];
      if fault.Some? {
        return fault;
      }
      if key !in objects {
        return Some(NotFoundError(key));
      }
      objects := objects[key := o];
      return None;
    }
  }

  // ---------------------------------------------------------------------------
  // Mutations
  // ---------------------------------------------------------------------------

  /** The error text of a failed Get (None when the Get succeeds). */
  function GetFailure(objects: map<ObjectKey, Object>, key: ObjectKey, fault: Option<ApiError>): Option<ApiError>
  {
    if fault.Some? then fault else if key !in objects then Some(NotFoundError(key)) else None
  }

  /** Sets Spec.Suspend of one object: kind dispatch, Get, set, Update. */
  method UpdateSuspendStatus(
    cluster: Cluster, resourceType: ResourceType, name: string, namespace: string, suspend: bool,
    getFault: Option<ApiError>, updateFault: Option<ApiError>)
    returns (err: Option<string>)
    requires cluster.Valid()
    modifies cluster
    ensures cluster.Valid()
    ensures !IsFluxKind(resourceType) ==>
      err == Some("unsupported resource type: " + resourceType) &&
      cluster.calls == old(cluster.calls) && cluster.objects == old(cluster.objects)
    ensures IsFluxKind(resourceType) ==>
      var key := ObjectKey(resourceType, namespace, name);
      var getErr := GetFailure(old(cluster.objects), key, getFault);
      (getErr.Some? ==>
        err == Some("failed to get " + resourceType + "/" + name + ": " + getErr.value.text) &&
        cluster.calls == old(cluster.calls) + [GetCall(key)] &&
        cluster.objects == old(cluster.objects)) &&
      (getErr.None? ==>
        cluster.calls == old(cluster.calls) + [GetCall(key), UpdateCall(key)]) &&
      (getErr.None? && updateFault.Some? ==>
        err == Some("failed to update " + resourceType + "/" + name + ": " + updateFault.value.text) &&
        cluster.objects == old(cluster.objects)) &&
      (getErr.None? && updateFault.None? ==>
        err == None &&
        cluster.objects == old(cluster.objects)[key := old(cluster.objects)[key].WithSuspend(suspend)])
  {
    if !IsFluxKind(resourceType) {
      return Some("unsupported resource type: " + resourceType);
    }
    var key := ObjectKey(resourceType, namespace, name);
    var got, getErr := cluster.Get(key, getFault);
    if got.Err? {
      return Some("failed to get " + resourceType + "/" + name + ": " + getErr.value.text);
    }
    var obj := got.value.WithSuspend(suspend);
    assert KeyOf(obj) == key;
    var updateErr := cluster.Update(obj, updateFault);
    if updateErr.Some? {
      return Some("failed to update " + resourceType + "/" + name + ": " + updateErr.value.text);
    }
    return None;
  }

  method SuspendResource(
    cluster: Cluster, resourceType: ResourceType, name: string, namespace: string,
    getFault: Option<ApiError>, updateFault: Option<ApiError>)
    returns (err: Option<string>)
    requires cluster.Valid()
    modifies cluster
    ensures cluster.Valid()
    ensures var key := ObjectKey(resourceType, namespace, name);
      err == None <==>
        IsFluxKind(resourceType) && GetFailure(old(cluster.objects), key, getFault).None? && updateFault.None?
    ensures var key := ObjectKey(resourceType, namespace, name);
      err == None ==>
        key in cluster.objects && cluster.objects[key].Suspend() &&
        cluster.objects == old(cluster.objects)[key := old(cluster.objects)[key].WithSuspend(true)]
    ensures err != None ==> cluster.objects == old(cluster.objects)
  {
    err := UpdateSuspendStatus(cluster, resourceType, name, namespace, true, getFault, updateFault);
  }

  method ResumeResource(
    cluster: Cluster, resourceType: ResourceType, name: string, namespace: string,
    getFault: Option<ApiError>, updateFault: Option<ApiError>)
    returns (err: Option<string>)
    requires cluster.Valid()
    modifies cluster
    ensures cluster.Valid()
    ensures var key := ObjectKey(resourceType, namespace, name);
      err == None <==>
        IsFluxKind(resourceType) && GetFailure(old(cluster.objects), key, getFault).None? && updateFault.None?
    ensures var key := ObjectKey(resourceType, namespace, name);
      err == None ==>
        key in cluster.objects && !cluster.objects[key].Suspend() &&
        cluster.objects == old(cluster.objects)[key := old(cluster.objects)[key].WithSuspend(false)]
    ensures err != None ==> cluster.objects == old(cluster.objects)
  {
    err := UpdateSuspendStatus(cluster, resourceType, name, namespace, false, getFault, updateFault);
  }

  /** Requests reconciliation: kind dispatch, Get, set the requestedAt
      annotation to `requestedAt` (the RFC 3339 UTC time of the call),
      Update. */
  method ReconcileResource(
    cluster: Cluster, resourceType: ResourceType, name: string, namespace: string, requestedAt: string,
    getFault: Option<ApiError>, updateFault: Option<ApiError>)
    returns (err: Option<string>)
    requires cluster.Valid()
    modifies cluster
    ensures cluster.Valid()
    ensures !IsFluxKind(resourceType) ==>
      err == Some("unsupported resource type: " + resourceType) &&
      cluster.calls == old(cluster.calls) && cluster.objects == old(cluster.objects)
    ensures IsFluxKind(resourceType) ==>
      var key := ObjectKey(resourceType, namespace, name);
      var getErr := GetFailure(old(cluster.objects), key, getFault);
      (getErr.Some? ==>
        err == Some("failed to get " + resourceType + "/" + name + ": " + getErr.value.text) &&
        cluster.calls == old(cluster.calls) + [GetCall(key)] &&
        cluster.objects == old(cluster.objects)) &&
      (getErr.None? ==>
        cluster.calls == old(cluster.calls) + [GetCall(key), UpdateCall(key)]) &&
      (getErr.None? && updateFault.Some? ==>
        err == Some("failed to update " + resourceType + "/" + name + ": " + updateFault.value.text) &&
        cluster.objects == old(cluster.objects)) &&
      (getErr.None? && updateFault.None? ==>
        var before := old(cluster.objects)[key];
        err == None &&
        cluster.objects ==
          old(cluster.objects)[key := before.WithAnnotations(before.Meta().annotations[ReconcileAnnotation := requestedAt])])
  {
    if !IsFluxKind(resourceType) {
      return Some("unsupported resource type: " + resourceType);
    }
    var key := ObjectKey(resourceType, namespace, name);
    var got, getErr := cluster.Get(key, getFault);
    if got.Err? {
      return Some("failed to get " + resourceType + "/" + name + ": " + getErr.value.text);
    }
    var obj := got.value;
    var annotations := obj.Meta().annotations;
    annotations := annotations[ReconcileAnnotation := requestedAt];
    obj := obj.WithAnnotations(annotations);
    assert KeyOf(obj) == key;
    var updateErr := cluster.Update(obj, updateFault);
    if updateErr.Some? {
      return Some("failed to update " + resourceType + "/" + name + ": " + updateErr.value.text);
    }
    return None;
  }

  /** Setting the flag back to its old value restores the object. */
  lemma WithSuspendRestores(o: Object, suspend: bool)
    ensures o.WithSuspend(suspend).WithSuspend(o.Suspend()) == o
  {
  }

  /** Putting the old annotations back restores the object: replacing the
      annotations touches no spec or status field. */
  lemma WithAnnotationsRestores(o: Object, annotations: map<string, string>)
    ensures o.WithAnnotations(annotations).WithAnnotations(o.Meta().annotations) == o
  {
  }

  /** What a successful reconcile request does to the object: the
      requestedAt annotation holds the new time, every other annotation,
      the suspend flag and the rest of the metadata are kept. */
  lemma ReconcileKeepsOtherAnnotations(o: Object, requestedAt: string, k: string)
    ensures var o' := o.WithAnnotations(o.Meta().annotations[ReconcileAnnotation := requestedAt]);
      o'.Meta().annotations[ReconcileAnnotation] == requestedAt &&
      (k != ReconcileAnnotation ==>
        (k in o'.Meta().annotations <==> k in o.Meta().annotations) &&
        (k in o.Meta().annotations ==> o'.Meta().annotations[k] == o.Meta().annotations[k])) &&
      o'.Suspend() == o.Suspend() && o'.Meta().name == o.Meta().name &&
      o'.Meta().namespace == o.Meta().namespace && KeyOf(o') == KeyOf(o)
  {
  }

  // ---------------------------------------------------------------------------
  // Events
  // ---------------------------------------------------------------------------

  datatype ObjectReference = ObjectReference(kind: string, name: string, namespace: string, apiVersion: string)

  datatype Event = Event(
    involvedObject: ObjectReference, reason: string, message: string, eventType: string,
    firstTimestamp: int, lastTimestamp: int)

  /** The apiVersion whitelist of the event filter. */
  predicate IsFluxApiVersion(v: string)
  {
    v == SourceV1 || v == SourceV1beta2 || v == KustomizeV1 || v == HelmV2beta1 || v == HelmV2
  }

  /** An event is kept when one of its timestamps is not before the cutoff
      and it concerns a Flux object. */
  predicate KeepEvent(e: Event, cutoff: int)
  {
    !(e.firstTimestamp < cutoff && e.lastTimestamp < cutoff) &&
    IsFluxApiVersion(e.involvedObject.apiVersion)
  }

  /** The kept events, in input order. */
  function FluxEvents(es: seq<Event>, cutoff: int): (kept: seq<Event>)
    ensures |kept| <= |es|
    ensures forall e :: e in kept <==> e in es && KeepEvent(e, cutoff)
  {
    if es == [] then []
    else
      var last := es[|es| - 1];
      var front := es[..|es| - 1];
      assert es == front + [last];
      FluxEvents(front, cutoff) + (if KeepEvent(last, cutoff) then [last] else [])
  }

  /** Filtering commutes with concatenation, so kept events keep their
      relative order. */
  lemma {:induction false} FluxEventsAppend(a: seq<Event>, b: seq<Event>, cutoff: int)
    ensures FluxEvents(a + b, cutoff) == FluxEvents(a, cutoff) + FluxEvents(b, cutoff)
    decreases |b|
  {
    if b == [] {
      assert a + b == a;
    } else {
      var b' := b[..|b| - 1];
      assert (a + b)[..|a + b| - 1] == a + b';
      assert (a + b)[|a + b| - 1] == b[|b| - 1];
      FluxEventsAppend(a, b', cutoff);
    }
  }

  /** GetEvents: list the namespace's events (the answer is `answer`) and keep
      those of the last hour that concern Flux objects. */
  method GetEvents(answer: ListOutcome<Event>, now: int) returns (r: Result<seq<Event>>)
    ensures answer.ListFailed? ==> r == Err("failed to list events: " + answer.err.text)
    ensures answer.Listed? ==> r == Ok(FluxEvents(answer.items, now - Hour))
  {
    var oneHourAgo := now - Hour;
    if answer.ListFailed? {
      return Err("failed to list events: " + answer.err.text);
    }
    var items := answer.items;
    var fluxEvents: seq<Event> := [];
    var i := 0;
    while i < |items|
      invariant 0 <= i <= |items|
      invariant fluxEvents == FluxEvents(items[..i], oneHourAgo)
    {
      var event := items[i];
      assert items[..i + 1][..i] == items[..i];
      i := i + 1;
      if event.firstTimestamp < oneHourAgo && event.lastTimestamp < oneHourAgo {
        continue;
      }
      var apiVersion := event.involvedObject.apiVersion;
      if apiVersion == SourceV1 || apiVersion == SourceV1beta2 || apiVersion == KustomizeV1 ||
         apiVersion == HelmV2beta1 || apiVersion == HelmV2 {
        fluxEvents := fluxEvents + [event];
      }
    }
    assert items[..i] == items;
    return Ok(fluxEvents);
  }
}
