/** An abstract Kubernetes API server: the objects the control plane reads
    and writes, keyed by namespace and name, the write calls issued against
    it, and the objects whose creation the server refuses. Reads of a
    missing object stand for the 404 `ApiException`; a create of an object
    that exists, or one the server refuses, stands for any failed create. */
module Cluster {
  import opened Common

  /** Namespaced objects carry their namespace; a namespace itself has "" there. */
  datatype ObjKey = ObjKey(namespace: string, name: string)

  datatype Kind = NamespaceKind | QuotaKind | LimitRangeKind | PvcKind | ConfigMapKind | JobKind

  /** One write call sent to the API server, whatever its outcome. */
  datatype Write = Create(kind: Kind, key: ObjKey) | Patch(kind: Kind, key: ObjKey) | Delete(kind: Kind, key: ObjKey)

  datatype LimitRangeItem = LimitRangeItem(
    default: map<string, string>,
    defaultRequest: map<string, string>,
    max: map<string, string>,
    itemType: string)

  datatype ConfigMap = ConfigMap(labels: map<string, string>, data: map<string, string>)

  datatype StorageClass = StorageClass(name: string, annotations: map<string, string>)

  /** The parts of a `V1Job` manifest the control plane decides. */
  datatype JobObject = JobObject(
    labels: map<string, string>,
    ttlSecondsAfterFinished: int,
    activeDeadlineSeconds: Option<int>,
    backoffLimit: Option<int>,
    requests: map<string, string>,
    limits: map<string, string>,
    configMapVolumes: seq<string>,
    resultsClaim: string,
    nodeSelector: map<string, string>)

  /** One entry of `status.conditions` of a job. */
  datatype Condition = Condition(condType: string, status: string)

  /** The `status` of a job as read from the cluster; counts that the API
      leaves unset are 0, an unset condition list is empty. */
  datatype JobStatus = JobStatus(
    conditions: seq<Condition>,
    active: nat,
    succeeded: nat,
    failed: nat,
    startTime: Option<int>)

  /** The outcome of `read_namespaced_job`. */
  datatype JobRead = JobFound(status: JobStatus) | JobNotFound | JobReadError

  class ApiServer {
    var namespaces: set<string>
    var quotas: map<ObjKey, map<string, string>>
    var limitRanges: map<ObjKey, seq<LimitRangeItem>>
    /** Each claim with its storage class name, if one was set. */
    var pvcs: map<ObjKey, Option<string>>
    var configMaps: map<ObjKey, ConfigMap>
    var jobs: map<ObjKey, JobObject>
    /** The answer of `list_storage_class`; None when the call fails. */
    var storageClasses: Option<seq<StorageClass>>
    /** Objects the server refuses to create (admission, quota, ...). */
    var refused: set<(Kind, ObjKey)>
    /** Objects whose read fails with an error other than 404. */
    var unreadable: set<(Kind, ObjKey)>
    /** ConfigMaps whose deletion the server refuses. */
    var undeletable: set<ObjKey>
    var writes: seq<Write>

    constructor(classes: Option<seq<StorageClass>>, refused: set<(Kind, ObjKey)>,
                unreadable: set<(Kind, ObjKey)>, undeletable: set<ObjKey>)
      ensures namespaces == {} && quotas == map[] && limitRanges == map[]
      ensures pvcs == map[] && configMaps == map[] && jobs == map[] && writes == []
      ensures storageClasses == classes && this.refused == refused && this.unreadable == unreadable
      ensures this.undeletable == undeletable
    {
      namespaces := {};
      quotas := map[];
      limitRanges := map[];
      pvcs := map[];
      configMaps := map[];
      jobs := map[];
      storageClasses := classes;
      this.refused := refused;
      this.unreadable := unreadable;
      this.undeletable := undeletable;
      writes := [];
    }

    method CreateNamespace(name: string) returns (ok: bool)
      modifies this`namespaces, this`writes
      ensures ok == (name !in old(namespaces) && (NamespaceKind, ObjKey("", name)) !in refused)
      ensures namespaces == if ok then old(namespaces) + {name} else old(namespaces)
      ensures writes == old(writes) + [Create(NamespaceKind, ObjKey("", name))]
    {
      ok := name !in namespaces && (NamespaceKind, ObjKey("", name)) !in refused;
      if ok {
        namespaces := namespaces + {name};
      }
      writes := writes + [Create(NamespaceKind, ObjKey("", name))];
    }

    method CreateQuota(key: ObjKey, hard: map<string, string>) returns (ok: bool)
      modifies this`quotas, this`writes
      ensures ok == (key !in old(quotas) && (QuotaKind, key) !in refused)
      ensures quotas == if ok then old(quotas)[key := hard] else old(quotas)
      ensures writes == old(writes) + [Create(QuotaKind, key)]
    {
      ok := key !in quotas && (QuotaKind, key) !in refused;
      if ok {
        quotas := quotas[key := hard];
      }
      writes := writes + [Create(QuotaKind, key)];
    }

    /** A patch replaces the given entries of `spec.hard` and keeps the rest;
        it fails, changing nothing, on a missing or refused quota. */
    method PatchQuota(key: ObjKey, hard: map<string, string>) returns (ok: bool)
      modifies this`quotas, this`writes
      ensures ok == (key in old(quotas) && (QuotaKind, key) !in refused)
      ensures quotas == if ok then old(quotas)[key := old(quotas)[key] + hard] else old(quotas)
      ensures writes == old(writes) + [Patch(QuotaKind, key)]
    {
      ok := key in quotas && (QuotaKind, key) !in refused;
      if ok {
        quotas := quotas[key := quotas[key] + hard];
      }
      writes := writes + [Patch(QuotaKind, key)];
    }

    method CreateLimitRange(key: ObjKey, items: seq<LimitRangeItem>) returns (ok: bool)
      modifies this`limitRanges, this`writes
      ensures ok == (key !in old(limitRanges) && (LimitRangeKind, key) !in refused)
      ensures limitRanges == if ok then old(limitRanges)[key := items] else old(limitRanges)
      ensures writes == old(writes) + [Create(LimitRangeKind, key)]
    {
      ok := key !in limitRanges && (LimitRangeKind, key) !in refused;
      if ok {
        limitRanges := limitRanges[key := items];
      }
      writes := writes + [Create(LimitRangeKind, key)];
    }

    /** A patch of `spec.limits` replaces the list; it fails, changing
        nothing, on a missing or refused LimitRange. */
    method PatchLimitRange(key: ObjKey, items: seq<LimitRangeItem>) returns (ok: bool)
      modifies this`limitRanges, this`writes
      ensures ok == (key in old(limitRanges) && (LimitRangeKind, key) !in refused)
      ensures limitRanges == if ok then old(limitRanges)[key := items] else old(limitRanges)
      ensures writes == old(writes) + [Patch(LimitRangeKind, key)]
    {
      ok := key in limitRanges && (LimitRangeKind, key) !in refused;
      if ok {
        limitRanges := limitRanges[key := items];
      }
      writes := writes + [Patch(LimitRangeKind, key)];
    }

    method CreatePvc(key: ObjKey, storageClass: Option<string>) returns (ok: bool)
      modifies this`pvcs, this`writes
      ensures ok == (key !in old(pvcs) && (PvcKind, key) !in refused)
      ensures pvcs == if ok then old(pvcs)[key := storageClass] else old(pvcs)
      ensures writes == old(writes) + [Create(PvcKind, key)]
    {
      ok := key !in pvcs && (PvcKind, key) !in refused;
      if ok {
        pvcs := pvcs[key := storageClass];
      }
      writes := writes + [Create(PvcKind, key)];
    }

    method CreateConfigMap(key: ObjKey, cm: ConfigMap) returns (ok: bool)
      modifies this`configMaps, this`writes
      ensures ok == (key !in old(configMaps) && (ConfigMapKind, key) !in refused)
      ensures configMaps == if ok then old(configMaps)[key := cm] else old(configMaps)
      ensures writes == old(writes) + [Create(ConfigMapKind, key)]
    {
      ok := key !in configMaps && (ConfigMapKind, key) !in refused;
      if ok {
        configMaps := configMaps[key := cm];
      }
      writes := writes + [Create(ConfigMapKind, key)];
    }

    method DeleteConfigMap(key: ObjKey) returns (ok: bool)
      modifies this`configMaps, this`writes
      ensures ok == (key in old(configMaps) && key !in undeletable)
      ensures configMaps == if ok then old(configMaps) - {key} else old(configMaps)
      ensures writes == old(writes) + [Delete(ConfigMapKind, key)]
    {
      ok := key in configMaps && key !in undeletable;
      if ok {
        configMaps := configMaps - {key};
      }
      writes := writes + [Delete(ConfigMapKind, key)];
    }

    method CreateJob(key: ObjKey, job: JobObject) returns (ok: bool)
      modifies this`jobs, this`writes
      ensures ok == (key !in old(jobs) && (JobKind, key) !in refused)
      ensures jobs == if ok then old(jobs)[key := job] else old(jobs)
      ensures writes == old(writes) + [Create(JobKind, key)]
    {
      ok := key !in jobs && (JobKind, key) !in refused;
      if ok {
        jobs := jobs[key := job];
      }
      writes := writes + [Create(JobKind, key)];
    }
  }
}
