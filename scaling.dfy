/** Namespace and quota reconciliation, ConfigMap cleanup and the cluster
    summaries (src/scaling.py), against the abstract API server. */
module Scaling {
  import opened Common
  import opened Cluster
  import opened Auth
  import opened Storage

  // ---------------------------------------------------------------------
  // Object names and desired specs

  function NamespaceKey(ns: string): ObjKey { ObjKey("", ns) }
  function QuotaKey(ns: string): ObjKey { ObjKey(ns, ns + "-quota") }
  function LimitRangeKey(ns: string): ObjKey { ObjKey(ns, ns + "-limits") }
  function ClaimKey(ns: string): ObjKey { ObjKey(ns, ClaimName(ns)) }

  /** The `spec.hard` of a tenant's ResourceQuota. */
  function QuotaHard(t: Tenant): map<string, string> {
    map[
      "requests.cpu" := IntToString(t.maxCpu),
      "requests.memory" := GiText(t.maxMemoryGi),
      "limits.cpu" := IntToString(t.maxCpu),
      "limits.memory" := GiText(t.maxMemoryGi),
      "pods" := IntToString(t.maxConcurrentJobs)]
  }

  /** The one LimitRange item of a tenant: per-container defaults and the tenant's limits as maxima. */
  function TenantLimitItem(t: Tenant): LimitRangeItem {
    LimitRangeItem(
      map["cpu" := "1", "memory" := "2Gi"],
      map["cpu" := "100m", "memory" := "256Mi"],
      map["cpu" := IntToString(t.maxCpu), "memory" := GiText(t.maxMemoryGi)],
      "Container")
  }

  /** `hard.get(key) != value`: an absent entry differs from every value. */
  predicate Differs(m: map<string, string>, key: string, value: string) {
    key !in m || m[key] != value
  }

  /** An existing quota is patched only when its requests differ. */
  predicate QuotaNeedsUpdate(hard: map<string, string>, t: Tenant) {
    Differs(hard, "requests.cpu", IntToString(t.maxCpu)) || Differs(hard, "requests.memory", GiText(t.maxMemoryGi))
  }

  /** An existing LimitRange is patched only when its first item's maxima differ. */
  predicate LimitsNeedUpdate(item: LimitRangeItem, t: Tenant) {
    Differs(item.max, "cpu", IntToString(t.maxCpu)) || Differs(item.max, "memory", GiText(t.maxMemoryGi))
  }

  // ---------------------------------------------------------------------
  // The three stages of ensure_tenant_namespace, as functions of the state
  // each stage reads

  predicate NamespaceStageFails(namespaces: set<string>, refused: set<(Kind, ObjKey)>,
                                unreadable: set<(Kind, ObjKey)>, ns: string) {
    (NamespaceKind, NamespaceKey(ns)) !in unreadable && ns !in namespaces
      && (NamespaceKind, NamespaceKey(ns)) in refused
  }

  predicate QuotaStageFails(quotas: map<ObjKey, map<string, string>>, refused: set<(Kind, ObjKey)>,
                            unreadable: set<(Kind, ObjKey)>, ns: string) {
    (QuotaKind, QuotaKey(ns)) !in unreadable && QuotaKey(ns) !in quotas && (QuotaKind, QuotaKey(ns)) in refused
  }

  predicate LimitStageFails(ranges: map<ObjKey, seq<LimitRangeItem>>, refused: set<(Kind, ObjKey)>,
                            unreadable: set<(Kind, ObjKey)>, ns: string) {
    var key := LimitRangeKey(ns);
    (LimitRangeKind, key) !in unreadable &&
      (if key in ranges then ranges[key] == [] else (LimitRangeKind, key) in refused)
  }

  /** The quotas after the quota stage: created when missing, patched when
      its requests differ, left alone when they match or the read fails. A
      refused create or patch leaves them alone too. */
  function QuotasAfter(quotas: map<ObjKey, map<string, string>>, refused: set<(Kind, ObjKey)>,
                       unreadable: set<(Kind, ObjKey)>, t: Tenant): map<ObjKey, map<string, string>> {
    var key := QuotaKey(t.namespace);
    if (QuotaKind, key) in unreadable then quotas
    else if key in quotas then
      (if QuotaNeedsUpdate(quotas[key], t) && (QuotaKind, key) !in refused
       then quotas[key := quotas[key] + QuotaHard(t)] else quotas)
    else if (QuotaKind, key) in refused then quotas
    else quotas[key := QuotaHard(t)]
  }

  function LimitRangesAfter(ranges: map<ObjKey, seq<LimitRangeItem>>, refused: set<(Kind, ObjKey)>,
                            unreadable: set<(Kind, ObjKey)>, t: Tenant): map<ObjKey, seq<LimitRangeItem>> {
    var key := LimitRangeKey(t.namespace);
    if (LimitRangeKind, key) in unreadable then ranges
    else if key in ranges then
      (if ranges[key] != [] && LimitsNeedUpdate(ranges[key][0], t) && (LimitRangeKind, key) !in refused
       then ranges[key := [TenantLimitItem(t)]] else ranges)
    else if (LimitRangeKind, key) in refused then ranges
    else ranges[key := [TenantLimitItem(t)]]
  }

  /** The namespace, quota, LimitRange and claim of a tenant are in place
      and agree with its limits. */
  predicate Configured(api: ApiServer, t: Tenant)
    reads api
  {
    var ns := t.namespace;
    && ns in api.namespaces
    && QuotaKey(ns) in api.quotas && !QuotaNeedsUpdate(api.quotas[QuotaKey(ns)], t)
    && LimitRangeKey(ns) in api.limitRanges && api.limitRanges[LimitRangeKey(ns)] != []
    && !LimitsNeedUpdate(api.limitRanges[LimitRangeKey(ns)][0], t)
    && ClaimKey(ns) in api.pvcs
  }

  /** None of the tenant's objects is unreadable. */
  predicate Readable(api: ApiServer, ns: string)
    reads api
  {
    && (NamespaceKind, NamespaceKey(ns)) !in api.unreadable
    && (QuotaKind, QuotaKey(ns)) !in api.unreadable
    && (LimitRangeKind, LimitRangeKey(ns)) !in api.unreadable
    && (PvcKind, ClaimKey(ns)) !in api.unreadable
  }

  /** The namespace, quota and LimitRange stages would all complete. */
  predicate StagesComplete(api: ApiServer, ns: string)
    reads api
  {
    && !NamespaceStageFails(api.namespaces, api.refused, api.unreadable, ns)
    && !QuotaStageFails(api.quotas, api.refused, api.unreadable, ns)
    && !LimitStageFails(api.limitRanges, api.refused, api.unreadable, ns)
  }

  /** The cluster accepts writes to the tenant's quota and LimitRange. */
  predicate PatchesAccepted(api: ApiServer, ns: string)
    reads api
  {
    (QuotaKind, QuotaKey(ns)) !in api.refused && (LimitRangeKind, LimitRangeKey(ns)) !in api.refused
  }

  /** `ensure_tenant_namespace`. Nothing happens when the cluster is
      unreachable. Otherwise the namespace is created when its read is a
      404; the quota and the LimitRange are created when missing and patched
      when their cpu or memory differ; then the results claim is ensured.
      `completed` is false when an exception escapes: a failed create, or
      a LimitRange without items. A refused patch is an `ApiException` the
      stage catches: the object keeps its old spec and the stages go on. */
  method EnsureTenantNamespace(api: ApiServer, t: Tenant, k8sAvailable: bool) returns (completed: bool)
    modifies api`namespaces, api`quotas, api`limitRanges, api`pvcs, api`writes
    ensures !k8sAvailable ==> completed && api.writes == old(api.writes)
    ensures !k8sAvailable ==> api.namespaces == old(api.namespaces) && api.quotas == old(api.quotas)
    ensures !k8sAvailable ==> api.limitRanges == old(api.limitRanges) && api.pvcs == old(api.pvcs)
    ensures k8sAvailable ==>
      var ns := t.namespace;
      var nsOk := !NamespaceStageFails(old(api.namespaces), api.refused, api.unreadable, ns);
      var quotaOk := nsOk && !QuotaStageFails(old(api.quotas), api.refused, api.unreadable, ns);
      var limitOk := quotaOk && !LimitStageFails(old(api.limitRanges), api.refused, api.unreadable, ns);
      && completed == limitOk
      && api.namespaces == (if nsOk && (NamespaceKind, NamespaceKey(ns)) !in api.unreadable
                            then old(api.namespaces) + {ns} else old(api.namespaces))
      && api.quotas == (if nsOk then QuotasAfter(old(api.quotas), api.refused, api.unreadable, t) else old(api.quotas))
      && api.limitRanges == (if quotaOk then LimitRangesAfter(old(api.limitRanges), api.refused, api.unreadable, t)
                             else old(api.limitRanges))
      && api.pvcs == (if limitOk && (PvcKind, ClaimKey(ns)) !in api.unreadable && ClaimKey(ns) !in old(api.pvcs)
                         && (PvcKind, ClaimKey(ns)) !in api.refused
                      then old(api.pvcs)[ClaimKey(ns) := DefaultStorageClass(true, api.storageClasses)]
                      else old(api.pvcs))
    ensures old(api.writes) <= api.writes
    ensures k8sAvailable && old(Configured(api, t)) ==> completed && api.writes == old(api.writes)
    ensures (k8sAvailable && Readable(api, t.namespace) && PatchesAccepted(api, t.namespace) && completed
             && ClaimKey(t.namespace) in api.pvcs) ==> Configured(api, t)
    ensures var key := QuotaKey(t.namespace);
      (k8sAvailable && (QuotaKind, key) !in api.unreadable && key in old(api.quotas)
       && QuotaNeedsUpdate(old(api.quotas)[key], t) && (QuotaKind, key) in api.refused) ==> !Configured(api, t)
  {
    if !k8sAvailable {
      return true;
    }
    var ns := t.namespace;
    ghost var settled := Configured(api, t);
    completed := NamespaceStage(api, ns);
    if !completed {
      return;
    }
    completed := QuotaStage(api, t);
    if !completed {
      return;
    }
    completed := LimitStage(api, t);
    if !completed {
      return;
    }
    assert settled ==> api.writes == old(api.writes) && ClaimKey(ns) in api.pvcs;
    var _ := EnsureTenantPvc(api, ns, true);
    QuotaStageIdempotent(old(api.quotas), api.refused, api.unreadable, t);
    LimitStageIdempotent(old(api.limitRanges), api.refused, api.unreadable, t);
  }

  method NamespaceStage(api: ApiServer, ns: string) returns (ok: bool)
    modifies api`namespaces, api`writes
    ensures ok == !NamespaceStageFails(old(api.namespaces), api.refused, api.unreadable, ns)
    ensures api.namespaces == (if ok && (NamespaceKind, NamespaceKey(ns)) !in api.unreadable
                               then old(api.namespaces) + {ns} else old(api.namespaces))
    ensures api.writes == (if (NamespaceKind, NamespaceKey(ns)) !in api.unreadable && ns !in old(api.namespaces)
                           then old(api.writes) + [Create(NamespaceKind, NamespaceKey(ns))] else old(api.writes))
  {
    ok := true;
    if (NamespaceKind, NamespaceKey(ns)) !in api.unreadable && ns !in api.namespaces {
      ok := api.CreateNamespace(ns);
    }
  }

  method QuotaStage(api: ApiServer, t: Tenant) returns (ok: bool)
    modifies api`quotas, api`writes
    ensures ok == !QuotaStageFails(old(api.quotas), api.refused, api.unreadable, t.namespace)
    ensures api.quotas == QuotasAfter(old(api.quotas), api.refused, api.unreadable, t)
    ensures old(api.writes) <= api.writes
    ensures QuotaKey(t.namespace) in old(api.quotas) && !QuotaNeedsUpdate(old(api.quotas)[QuotaKey(t.namespace)], t) ==>
      api.writes == old(api.writes)
  {
    ok := true;
    var key := QuotaKey(t.namespace);
    if (QuotaKind, key) !in api.unreadable {
      if key in api.quotas {
        if QuotaNeedsUpdate(api.quotas[key], t) {
          var _ := api.PatchQuota(key, QuotaHard(t));
        }
      } else {
        ok := api.CreateQuota(key, QuotaHard(t));
      }
    }
  }

  method LimitStage(api: ApiServer, t: Tenant) returns (ok: bool)
    modifies api`limitRanges, api`writes
    ensures ok == !LimitStageFails(old(api.limitRanges), api.refused, api.unreadable, t.namespace)
    ensures api.limitRanges == LimitRangesAfter(old(api.limitRanges), api.refused, api.unreadable, t)
    ensures old(api.writes) <= api.writes
    ensures var key := LimitRangeKey(t.namespace);
      key in old(api.limitRanges) && old(api.limitRanges)[key] != [] && !LimitsNeedUpdate(old(api.limitRanges)[key][0], t) ==>
      api.writes == old(api.writes)
  {
    ok := true;
    var key := LimitRangeKey(t.namespace);
    if (LimitRangeKind, key) !in api.unreadable {
      if key in api.limitRanges {
        var items := api.limitRanges[key];
        if items == [] {
          return false;
        }
        if LimitsNeedUpdate(items[0], t) {
          var _ := api.PatchLimitRange(key, [TenantLimitItem(t)]);
        }
      } else {
        ok := api.CreateLimitRange(key, [TenantLimitItem(t)]);
      }
    }
  }

  /** The desired quota agrees with the tenant, so a quota written by the
      stage is never patched again. */
  lemma QuotaHardSettles(t: Tenant)
    ensures !QuotaNeedsUpdate(QuotaHard(t), t)
    ensures forall hard :: !QuotaNeedsUpdate(hard + QuotaHard(t), t)
  {
  }

  /** The quota stage is idempotent, and afterwards the quota agrees with the tenant. */
  lemma QuotaStageIdempotent(quotas: map<ObjKey, map<string, string>>, refused: set<(Kind, ObjKey)>,
                             unreadable: set<(Kind, ObjKey)>, t: Tenant)
    ensures var once := QuotasAfter(quotas, refused, unreadable, t);
      QuotasAfter(once, refused, unreadable, t) == once
    ensures var key := QuotaKey(t.namespace);
      var once := QuotasAfter(quotas, refused, unreadable, t);
      (QuotaKind, key) !in unreadable ==>
        ((key in once && !QuotaNeedsUpdate(once[key], t)) <==>
         (QuotaKind, key) !in refused || (key in quotas && !QuotaNeedsUpdate(quotas[key], t)))
  {
    QuotaHardSettles(t);
  }

  lemma LimitStageIdempotent(ranges: map<ObjKey, seq<LimitRangeItem>>, refused: set<(Kind, ObjKey)>,
                             unreadable: set<(Kind, ObjKey)>, t: Tenant)
    ensures var once := LimitRangesAfter(ranges, refused, unreadable, t);
      LimitRangesAfter(once, refused, unreadable, t) == once
    ensures var key := LimitRangeKey(t.namespace);
      var once := LimitRangesAfter(ranges, refused, unreadable, t);
      (LimitRangeKind, key) !in unreadable ==>
        ((key in once && once[key] != [] && !LimitsNeedUpdate(once[key][0], t)) <==>
         (key in ranges ==> ranges[key] != []) &&
         ((LimitRangeKind, key) !in refused || (key in ranges && !LimitsNeedUpdate(ranges[key][0], t))))
  {
  }

  /** The patch test reads only cpu and memory: a tenant whose
      max_concurrent_jobs changed keeps the old `pods` entry. */
  lemma PodsChangeNeverPatched(t: Tenant, jobs: int)
    requires jobs != t.maxConcurrentJobs
    ensures var changed := t.(maxConcurrentJobs := jobs);
      !QuotaNeedsUpdate(QuotaHard(t), changed) && QuotaHard(t)["pods"] != QuotaHard(changed)["pods"]
  {
    if IntToString(t.maxConcurrentJobs) == IntToString(jobs) {
      IntToStringInjective(t.maxConcurrentJobs, jobs);
    }
  }

  /** A quota that needs no update states the tenant's cpu and memory
      limits exactly: two tenants it satisfies have the same limits. */
  lemma SettledQuotaDeterminesLimits(hard: map<string, string>, a: Tenant, b: Tenant)
    requires !QuotaNeedsUpdate(hard, a) && !QuotaNeedsUpdate(hard, b)
    ensures a.maxCpu == b.maxCpu && a.maxMemoryGi == b.maxMemoryGi
  {
    IntToStringInjective(a.maxCpu, b.maxCpu);
    GiTextInjective(a.maxMemoryGi, b.maxMemoryGi);
  }

  // ---------------------------------------------------------------------
  // ConfigMap cleanup

  /** The prefix every ConfigMap of a job starts with. */
  function JobConfigMapPrefix(jobId: string): string {
    "sumo-" + Take(jobId, 8)
  }

  /** The ConfigMaps of `namespace` whose name starts with the job's prefix. */
  function CleanupTargets(configMaps: map<ObjKey, ConfigMap>, namespace: string, jobId: string): (targets: set<ObjKey>)
    ensures forall k :: k in targets <==>
      k in configMaps && k.namespace == namespace && StartsWith(k.name, JobConfigMapPrefix(jobId))
  {
    set k | k in configMaps && k.namespace == namespace && StartsWith(k.name, JobConfigMapPrefix(jobId))
  }

  /** `cleanup_configmaps` (without its delay): every target is deleted
      unless the server refuses that one deletion; a refusal does not stop
      the others. `listFails` is the listing of the namespace's ConfigMaps
      failing, which ends the cleanup before any deletion. */
  method CleanupConfigMaps(api: ApiServer, namespace: string, jobId: string, k8sAvailable: bool, listFails: bool)
    modifies api`configMaps, api`writes
    ensures !k8sAvailable || listFails ==> api.configMaps == old(api.configMaps) && api.writes == old(api.writes)
    ensures k8sAvailable && !listFails ==>
      api.configMaps == old(api.configMaps) - (CleanupTargets(old(api.configMaps), namespace, jobId) - api.undeletable)
    ensures old(api.writes) <= api.writes
  {
    if !k8sAvailable || listFails {
      return;
    }
    var targets := CleanupTargets(api.configMaps, namespace, jobId);
    var remaining := targets;
    while remaining != {}
      invariant remaining <= targets
      invariant api.configMaps == old(api.configMaps) - ((targets - remaining) - api.undeletable)
      invariant old(api.writes) <= api.writes
      decreases remaining
    {
      var key :| key in remaining;
      var _ := api.DeleteConfigMap(key);
      remaining := remaining - {key};
    }
  }

  // ---------------------------------------------------------------------
  // Cluster summaries

  /** The result of one list call in `get_cluster_activity`. */
  datatype Listing<T> = Listed(items: seq<T>) | ListFailed

  datatype JobStats = JobStats(total: nat, active: nat, succeeded: nat)

  datatype Activity = Activity(nodes: nat, podsByPhase: multiset<string>, jobs: JobStats)

  function CountActive(jobs: seq<JobStatus>): (n: nat)
    ensures n <= |jobs|
    ensures n == |jobs| <==> forall i :: 0 <= i < |jobs| ==> jobs[i].active > 0
  {
    if jobs == [] then 0
    else (if jobs[0].active > 0 then 1 else 0) + CountActive(jobs[1..])
  }

  function CountSucceeded(jobs: seq<JobStatus>): (n: nat)
    ensures n <= |jobs|
    ensures n == |jobs| <==> forall i :: 0 <= i < |jobs| ==> jobs[i].succeeded > 0
  {
    if jobs == [] then 0
    else (if jobs[0].succeeded > 0 then 1 else 0) + CountSucceeded(jobs[1..])
  }

  function Stats(jobs: seq<JobStatus>): (s: JobStats)
    ensures s.total == |jobs| && s.active <= s.total && s.succeeded <= s.total
  {
    JobStats(|jobs|, CountActive(jobs), CountSucceeded(jobs))
  }

  /** `get_cluster_activity`: pods are tallied by phase, then the jobs are
      counted, then the nodes; a failed list keeps what was gathered
      before it and the defaults after it. The tally holds each phase with
      its number of pods, so the counts add up to the number of pods. */
  method GetClusterActivity(k8sAvailable: bool, pods: Listing<string>, jobs: Listing<JobStatus>, nodes: Listing<string>)
    returns (a: Activity)
    ensures !k8sAvailable || pods.ListFailed? ==> a == Activity(0, multiset{}, JobStats(0, 0, 0))
    ensures k8sAvailable && pods.Listed? ==> a.podsByPhase == multiset(pods.items) && |a.podsByPhase| == |pods.items|
    ensures k8sAvailable && pods.Listed? && jobs.Listed? ==> a.jobs == Stats(jobs.items)
    ensures k8sAvailable && pods.Listed? && jobs.ListFailed? ==> a.jobs == JobStats(0, 0, 0) && a.nodes == 0
    ensures a.nodes == (if k8sAvailable && pods.Listed? && jobs.Listed? && nodes.Listed? then |nodes.items| else 0)
    ensures a.jobs.active <= a.jobs.total && a.jobs.succeeded <= a.jobs.total
  {
    var tally: multiset<string> := multiset{};
    var stats := JobStats(0, 0, 0);
    var nodeCount := 0;
    if k8sAvailable && pods.Listed? {
      var i := 0;
      while i < |pods.items|
        invariant 0 <= i <= |pods.items|
        invariant tally == multiset(pods.items[..i])
      {
        tally := tally + multiset{pods.items[i]};
        assert pods.items[..i + 1] == pods.items[..i] + [pods.items[i]];
        i := i + 1;
      }
      assert pods.items[..i] == pods.items;
      if jobs.Listed? {
        stats := Stats(jobs.items);
        if nodes.Listed? {
          nodeCount := |nodes.items|;
        }
      }
    }
    a := Activity(nodeCount, tally, stats);
  }

  /** The status a node reports: the types of its conditions whose status is "True", in order. */
  function NodeStatus(conditions: seq<Condition>): (types: seq<string>)
    ensures |types| <= |conditions|
    ensures forall x :: x in types <==> exists c :: c in conditions && c.status == "True" && c.condType == x
  {
    if conditions == [] then []
    else
      var rest := NodeStatus(conditions[1..]);
      assert forall c :: c in conditions[1..] ==> c in conditions;
      assert forall c :: c in conditions ==> c == conditions[0] || c in conditions[1..];
      if conditions[0].status == "True" then [conditions[0].condType] + rest else rest
  }

  /** The comprehension keeps order: the status of a concatenation is the
      concatenation of the statuses, and one condition contributes its type
      exactly when its status is "True". */
  lemma {:induction false} NodeStatusAppend(a: seq<Condition>, b: seq<Condition>)
    ensures NodeStatus(a + b) == NodeStatus(a) + NodeStatus(b)
    ensures forall c :: NodeStatus([c]) == if c.status == "True" then [c.condType] else []
  {
    if a != [] {
      assert (a + b)[1..] == a[1..] + b;
      NodeStatusAppend(a[1..], b);
    } else {
      assert a + b == b;
    }
  }
}
