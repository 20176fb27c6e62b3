/** Job admission and submission (src/jobs.py): resource and payload
    validation, the concurrent-job gate, storing the payload in ConfigMaps
    (split into chunks when large, with rollback), the simulation job
    manifest, the order of the steps of a submission and the status a
    client is shown. The uploaded zip is given by its size and its entry
    names (None when it is not a readable zip), and its base64 text is given
    alongside; the job id and the clock are inputs. */
module Jobs {
  import opened Common
  import opened Cluster
  import opened Auth
  import opened JobTable
  import opened Storage
  import opened Scaling

  // ---------------------------------------------------------------------
  // Validation

  function CpuRangeMessage(cpu: int, maxCpu: int): string {
    "CPU request (" + IntToString(cpu) + ") must be between 1 and " + IntToString(maxCpu)
  }

  function MemoryRangeMessage(memoryGi: int, maxMemoryGi: int): string {
    "Memory request (" + GiText(memoryGi) + ") must be between 1 and " + GiText(maxMemoryGi)
  }

  /** `validate_resource_request`: None when the request is accepted. */
  function ValidateResourceRequest(cpu: int, memoryGi: int, t: Tenant): (r: Option<HttpError>)
    ensures r.None? <==> 1 <= cpu <= t.maxCpu && 1 <= memoryGi <= t.maxMemoryGi
    ensures r.Some? ==> r.value.status == 400
    ensures !(1 <= cpu <= t.maxCpu) ==> r == Some(HttpError(400, CpuRangeMessage(cpu, t.maxCpu)))
  {
    if cpu <= 0 || cpu > t.maxCpu then Some(HttpError(400, CpuRangeMessage(cpu, t.maxCpu)))
    else if memoryGi <= 0 || memoryGi > t.maxMemoryGi then Some(HttpError(400, MemoryRangeMessage(memoryGi, t.maxMemoryGi)))
    else None
  }

  /** An uploaded file: its length in bytes and the entry names of the zip
      archive, None when the bytes are not a zip archive. */
  datatype ZipUpload = ZipUpload(size: nat, entries: Option<seq<string>>)

  const BytesPerMb := 1048576

  predicate IsSumoConfig(name: string) { EndsWith(name, ".sumocfg") }

  function FirstSumoConfig(entries: seq<string>): (r: Option<nat>)
    ensures r.Some? ==> r.value < |entries| && IsSumoConfig(entries[r.value])
    ensures r.Some? ==> forall j :: 0 <= j < r.value ==> !IsSumoConfig(entries[j])
    ensures r.None? <==> forall j :: 0 <= j < |entries| ==> !IsSumoConfig(entries[j])
  {
    if entries == [] then None
    else if IsSumoConfig(entries[0]) then Some(0)
    else match FirstSumoConfig(entries[1..])
      case None => None
      case Some(i) => Some(i + 1)
  }

  /** `validate_and_extract_zip`: an empty file, a file over the size limit,
      a file that is not a zip and a zip without a `.sumocfg` entry are
      refused in that order; otherwise the first `.sumocfg` entry in archive
      order is the configuration file. The size test `len/1024/1024 > max`
      is exact in floating point and is written on integers. */
  function ValidateAndExtractZip(z: ZipUpload, maxFileSizeMb: nat): (r: Result<string>)
    ensures z.size == 0 ==> r == Err(HttpError(400, "Empty file"))
    ensures z.size > 0 && z.size > maxFileSizeMb * BytesPerMb ==> r.Err? && r.error.status == 413
    ensures r.Ok? <==> (0 < z.size <= maxFileSizeMb * BytesPerMb && z.entries.Some? &&
                        exists i :: 0 <= i < |z.entries.value| && IsSumoConfig(z.entries.value[i]))
    ensures r.Ok? ==> (exists i :: 0 <= i < |z.entries.value| && z.entries.value[i] == r.value &&
                        IsSumoConfig(r.value) && forall j :: 0 <= j < i ==> !IsSumoConfig(z.entries.value[j]))
    ensures r.Err? ==> r.error.status == 400 || r.error.status == 413
  {
    if z.size == 0 then Err(HttpError(400, "Empty file"))
    else if z.size > maxFileSizeMb * BytesPerMb then
      Err(HttpError(413, "File too large (max: " + NatToString(maxFileSizeMb) + "MB)"))
    else match z.entries
      case None => Err(HttpError(400, "Invalid zip file"))
      case Some(entries) =>
        match FirstSumoConfig(entries)
        case None => Err(HttpError(400, "No .sumocfg file found in zip"))
        case Some(i) => Ok(entries[i])
  }

  /** `check_concurrent_jobs`: 429 exactly when the tenant already has
      `maxConcurrent` or more PENDING or RUNNING jobs. */
  function CheckConcurrentJobs(rows: map<string, JobRow>, tenantId: string, maxConcurrent: int): (r: Option<HttpError>)
    ensures r.Some? <==> |ActiveJobIds(rows, tenantId)| >= maxConcurrent
    ensures r.Some? ==> r.value.status == 429
  {
    var count := |ActiveJobIds(rows, tenantId)|;
    if count >= maxConcurrent then
      Some(HttpError(429, "Too many concurrent jobs (" + NatToString(count) + "/" + IntToString(maxConcurrent) + ")"))
    else None
  }

  /** The checks a submission passes before anything is written, in order:
      resources, payload, concurrency. The result is the configuration file. */
  function Admit(t: Tenant, cpu: int, memoryGi: int, z: ZipUpload, rows: map<string, JobRow>, config: Config): (r: Result<string>)
    ensures r.Ok? <==> (ValidateResourceRequest(cpu, memoryGi, t).None? && ValidateAndExtractZip(z, config.maxFileSizeMb).Ok?
                        && |ActiveJobIds(rows, t.tenantId)| < t.maxConcurrentJobs)
    ensures ValidateResourceRequest(cpu, memoryGi, t).Some? ==> r == Err(ValidateResourceRequest(cpu, memoryGi, t).value)
    ensures r.Ok? ==> r == ValidateAndExtractZip(z, config.maxFileSizeMb)
  {
    match ValidateResourceRequest(cpu, memoryGi, t)
    case Some(e) => Err(e)
    case None =>
      match ValidateAndExtractZip(z, config.maxFileSizeMb)
      case Err(e) => Err(e)
      case Ok(configFile) =>
        match CheckConcurrentJobs(rows, t.tenantId, t.maxConcurrentJobs)
        case Some(e) => Err(e)
        case None => Ok(configFile)
  }

  // ---------------------------------------------------------------------
  // Payload chunks

  /** Largest ConfigMap payload, a margin under the 1 MiB object limit. */
  const MaxChunkSize := 900000

  function ChunkCount(n: nat): nat {
    (n + MaxChunkSize - 1) / MaxChunkSize
  }

  function Min(a: int, b: int): int { if a <= b then a else b }

  /** Chunk i: characters [i*size, min((i+1)*size, n)). */
  function ChunkData(s: string, i: nat): (c: string)
    requires i < ChunkCount(|s|)
    ensures 0 < |c| <= MaxChunkSize
  {
    s[i * MaxChunkSize .. Min((i + 1) * MaxChunkSize, |s|)]
  }

  function Concat(parts: seq<string>): string {
    if parts == [] then [] else Concat(parts[..|parts| - 1]) + parts[|parts| - 1]
  }

  function ChunksUpTo(s: string, k: nat): (chunks: seq<string>)
    requires k <= ChunkCount(|s|)
    ensures |chunks| == k
    ensures forall i :: 0 <= i < k ==> chunks[i] == ChunkData(s, i)
  {
    if k == 0 then [] else ChunksUpTo(s, k - 1) + [ChunkData(s, k - 1)]
  }

  function Chunks(s: string): seq<string> {
    ChunksUpTo(s, ChunkCount(|s|))
  }

  lemma {:induction false} ConcatChunksUpTo(s: string, k: nat)
    requires k <= ChunkCount(|s|)
    ensures Concat(ChunksUpTo(s, k)) == s[..Min(k * MaxChunkSize, |s|)]
  {
    if k > 0 {
      ConcatChunksUpTo(s, k - 1);
      var parts := ChunksUpTo(s, k);
      assert parts[..k - 1] == ChunksUpTo(s, k - 1);
      assert (k - 1) * MaxChunkSize < |s|;
      assert s[..(k - 1) * MaxChunkSize] + ChunkData(s, k - 1) == s[..Min(k * MaxChunkSize, |s|)];
    }
  }

  /** The chunks are ceil(n / 900000) non-empty pieces of at most 900000
      characters that concatenate, in index order, back to the payload. */
  lemma ChunksRoundTrip(s: string)
    ensures |Chunks(s)| == ChunkCount(|s|)
    ensures forall i :: 0 <= i < |Chunks(s)| ==> 0 < |Chunks(s)[i]| <= MaxChunkSize
    ensures Concat(Chunks(s)) == s
  {
    ConcatChunksUpTo(s, ChunkCount(|s|));
    assert ChunkCount(|s|) * MaxChunkSize >= |s|;
  }

  /** More than one chunk exactly when the payload exceeds one chunk. */
  lemma ChunkCountAboveOne(n: nat)
    ensures n > MaxChunkSize <==> ChunkCount(n) > 1
    ensures n > 0 ==> ChunkCount(n) >= 1
  {
  }

  // ---------------------------------------------------------------------
  // Names

  function Id8(jobId: string): string { Take(jobId, 8) }

  function SimJobName(jobId: string): string { "sim-" + Id8(jobId) }

  function SingleConfigMapName(jobId: string): string { "sumo-" + Id8(jobId) }

  function ChunkName(jobId: string, i: nat): string {
    "sumo-" + Id8(jobId) + "-chunk" + NatToString(i)
  }

  /** Chunk names are pairwise distinct, and every payload ConfigMap name
      starts with the prefix the cleanup selects. */
  lemma PayloadNames(jobId: string, i: nat, j: nat)
    ensures i != j ==> ChunkName(jobId, i) != ChunkName(jobId, j)
    ensures StartsWith(ChunkName(jobId, i), JobConfigMapPrefix(jobId))
    ensures StartsWith(SingleConfigMapName(jobId), JobConfigMapPrefix(jobId))
  {
    var head := "sumo-" + Id8(jobId) + "-chunk";
    assert ChunkName(jobId, i)[|head|..] == NatToString(i);
    assert ChunkName(jobId, j)[|head|..] == NatToString(j);
    if ChunkName(jobId, i) == ChunkName(jobId, j) {
      NatToStringInjective(i, j);
    }
    assert ChunkName(jobId, i)[..|JobConfigMapPrefix(jobId)|] == JobConfigMapPrefix(jobId);
  }

  // ---------------------------------------------------------------------
  // Payload ConfigMaps and the simulation job

  function PayloadLabels(jobId: string): map<string, string> {
    map["job-id" := jobId, "cleanup" := "true"]
  }

  function ChunkKey(ns: string, jobId: string, i: nat): ObjKey {
    ObjKey(ns, ChunkName(jobId, i))
  }

  function ChunkConfigMap(jobId: string, data: string): ConfigMap {
    ConfigMap(PayloadLabels(jobId), map["chunk" := data])
  }

  /** The chunk ConfigMaps 0..k-1 of a payload. */
  function ChunkMaps(ns: string, jobId: string, s: string, k: nat): map<ObjKey, ConfigMap>
    requires k <= ChunkCount(|s|)
  {
    if k == 0 then map[]
    else ChunkMaps(ns, jobId, s, k - 1)[ChunkKey(ns, jobId, k - 1) := ChunkConfigMap(jobId, ChunkData(s, k - 1))]
  }

  /** Chunk i is not among the chunks before it (chunk names are distinct). */
  lemma {:induction false} ChunkKeyFresh(ns: string, jobId: string, s: string, i: nat, k: nat)
    requires k <= i < ChunkCount(|s|)
    ensures ChunkKey(ns, jobId, i) !in ChunkMaps(ns, jobId, s, k)
  {
    if k > 0 {
      ChunkKeyFresh(ns, jobId, s, i, k - 1);
      PayloadNames(jobId, i, k - 1);
    }
  }

  /** The chunk maps hold exactly the chunk keys below k, each with its data. */
  lemma {:induction false} ChunkMapsKeys(ns: string, jobId: string, s: string, k: nat)
    requires k <= ChunkCount(|s|)
    ensures forall key :: key in ChunkMaps(ns, jobId, s, k) <==> key in ChunkKeys(ns, jobId, k)
    ensures forall i :: 0 <= i < k ==>
      ChunkKey(ns, jobId, i) in ChunkMaps(ns, jobId, s, k) &&
      ChunkMaps(ns, jobId, s, k)[ChunkKey(ns, jobId, i)] == ChunkConfigMap(jobId, ChunkData(s, i))
  {
    if k > 0 {
      ChunkMapsKeys(ns, jobId, s, k - 1);
      assert ChunkKeys(ns, jobId, k) == ChunkKeys(ns, jobId, k - 1) + [ChunkKey(ns, jobId, k - 1)];
      forall i | 0 <= i < k - 1
        ensures ChunkKey(ns, jobId, i) != ChunkKey(ns, jobId, k - 1)
      {
        PayloadNames(jobId, i, k - 1);
      }
    }
  }

  function ChunkKeys(ns: string, jobId: string, k: nat): seq<ObjKey> {
    seq(k, i requires 0 <= i => ChunkKey(ns, jobId, i))
  }

  /** The ConfigMaps that carry a payload: one per chunk when it is larger
      than one chunk, else one holding it whole. */
  function PayloadConfigMaps(ns: string, jobId: string, s: string): map<ObjKey, ConfigMap> {
    if |s| > MaxChunkSize then ChunkMaps(ns, jobId, s, ChunkCount(|s|))
    else map[ObjKey(ns, SingleConfigMapName(jobId)) := ConfigMap(PayloadLabels(jobId), map["sumo_files.zip.b64" := s])]
  }

  /** The server would refuse to create this ConfigMap. */
  predicate CreateRefused(configMaps: map<ObjKey, ConfigMap>, refused: set<(Kind, ObjKey)>, key: ObjKey) {
    key in configMaps || (ConfigMapKind, key) in refused
  }

  /** Some payload ConfigMap would be refused. */
  predicate PayloadRejected(configMaps: map<ObjKey, ConfigMap>, refused: set<(Kind, ObjKey)>,
                            ns: string, jobId: string, s: string) {
    if |s| > MaxChunkSize then
      exists i :: 0 <= i < ChunkCount(|s|) && CreateRefused(configMaps, refused, ChunkKey(ns, jobId, i))
    else CreateRefused(configMaps, refused, ObjKey(ns, SingleConfigMapName(jobId)))
  }

  /** The volumes a simulation job mounts its payload from, in order. */
  function PayloadVolumes(jobId: string, s: string): seq<string> {
    if |s| > MaxChunkSize then seq(ChunkCount(|s|), i requires 0 <= i => ChunkName(jobId, i))
    else [SingleConfigMapName(jobId)]
  }

  /** The simulation job: requests equal limits, no retries, a deadline of
      the configured hours, removal 120 s after it finishes. */
  function SimJob(t: Tenant, jobId: string, cpu: int, memoryGi: int, volumes: seq<string>, config: Config): (job: JobObject)
    ensures job.requests == job.limits
    ensures job.requests == map["cpu" := IntToString(cpu), "memory" := GiText(memoryGi)]
    ensures job.backoffLimit == Some(0) && job.activeDeadlineSeconds == Some(config.maxJobDurationHours * 3600)
  {
    var resources := map["cpu" := IntToString(cpu), "memory" := GiText(memoryGi)];
    JobObject(map["job-id" := jobId, "tenant" := t.tenantId], 120, Some(config.maxJobDurationHours * 3600), Some(0),
      resources, resources, volumes, ClaimName(t.namespace), map["node-type" := "simulation"])
  }

  /** A job built from a validated request fits the tenant's quota and
      LimitRange maxima: read as quantities, its cpu and memory are at most
      the quota's `limits.cpu` and `limits.memory` and the LimitRange item's
      `max` entries. */
  lemma SimJobWithinLimits(t: Tenant, jobId: string, cpu: int, memoryGi: int, volumes: seq<string>, config: Config)
    requires ValidateResourceRequest(cpu, memoryGi, t).None?
    ensures var job := SimJob(t, jobId, cpu, memoryGi, volumes, config);
      var hard := QuotaHard(t);
      var max := TenantLimitItem(t).max;
      && DecimalValue(job.limits["cpu"]).Some? && GiValue(job.limits["memory"]).Some?
      && DecimalValue(hard["limits.cpu"]).Some? && GiValue(hard["limits.memory"]).Some?
      && DecimalValue(job.limits["cpu"]).value <= DecimalValue(hard["limits.cpu"]).value
      && GiValue(job.limits["memory"]).value <= GiValue(hard["limits.memory"]).value
      && DecimalValue(max["cpu"]) == DecimalValue(hard["limits.cpu"])
      && GiValue(max["memory"]) == GiValue(hard["limits.memory"])
  {
    QuantityRoundTrip(cpu);
    QuantityRoundTrip(memoryGi);
    QuantityRoundTrip(t.maxCpu);
    QuantityRoundTrip(t.maxMemoryGi);
  }

  /** Deletes the given ConfigMaps in order; a failed delete is ignored. */
  method DeleteConfigMaps(api: ApiServer, keys: seq<ObjKey>)
    modifies api`configMaps, api`writes
    ensures api.configMaps == old(api.configMaps) - (set key | key in keys && key !in api.undeletable)
    ensures old(api.writes) <= api.writes
  {
    var i := 0;
    while i < |keys|
      invariant 0 <= i <= |keys|
      invariant api.configMaps == old(api.configMaps) - (set key | key in keys[..i] && key !in api.undeletable)
      invariant old(api.writes) <= api.writes
    {
      var _ := api.DeleteConfigMap(keys[i]);
      assert keys[..i + 1] == keys[..i] + [keys[i]];
      i := i + 1;
    }
    assert keys[..i] == keys;
  }

  /** Deletes chunks 0..k-1 after they were created on top of `base`: what
      was there before is kept, and only undeletable chunks remain. */
  method RollbackChunks(api: ApiServer, ns: string, jobId: string, s: string, k: nat, ghost base: map<ObjKey, ConfigMap>)
    requires k <= ChunkCount(|s|)
    requires api.configMaps == base + ChunkMaps(ns, jobId, s, k)
    requires forall j :: 0 <= j < k ==> ChunkKey(ns, jobId, j) !in base
    modifies api`configMaps, api`writes
    ensures forall key :: key in base ==> key in api.configMaps && api.configMaps[key] == base[key]
    ensures forall key :: key in api.configMaps ==> key in base || key in api.undeletable
    ensures old(api.writes) <= api.writes
  {
    ChunkMapsKeys(ns, jobId, s, k);
    DeleteConfigMaps(api, ChunkKeys(ns, jobId, k));
  }

  /** Creates the chunk ConfigMaps in index order; on the first refusal the
      ones created so far are deleted and false is returned. */
  method StoreChunks(api: ApiServer, ns: string, jobId: string, s: string) returns (ok: bool)
    requires |s| > MaxChunkSize
    modifies api`configMaps, api`writes
    ensures ok == !PayloadRejected(old(api.configMaps), api.refused, ns, jobId, s)
    ensures ok ==> api.configMaps == old(api.configMaps) + PayloadConfigMaps(ns, jobId, s)
    ensures !ok ==> forall key :: key in old(api.configMaps) ==>
      key in api.configMaps && api.configMaps[key] == old(api.configMaps)[key]
    ensures !ok ==> forall key :: key in api.configMaps ==> key in old(api.configMaps) || key in api.undeletable
    ensures old(api.writes) <= api.writes
  {
    var n := ChunkCount(|s|);
    var i := 0;
    while i < n
      invariant 0 <= i <= n
      invariant api.configMaps == old(api.configMaps) + ChunkMaps(ns, jobId, s, i)
      invariant forall j :: 0 <= j < i ==> !CreateRefused(old(api.configMaps), api.refused, ChunkKey(ns, jobId, j))
      invariant old(api.writes) <= api.writes
    {
      var key := ChunkKey(ns, jobId, i);
      ChunkKeyFresh(ns, jobId, s, i, i);
      var created := api.CreateConfigMap(key, ChunkConfigMap(jobId, ChunkData(s, i)));
      if !created {
        assert CreateRefused(old(api.configMaps), api.refused, key);
        RollbackChunks(api, ns, jobId, s, i, old(api.configMaps));
        return false;
      }
      i := i + 1;
    }
    ok := true;
  }

  /** The payload step of `create_k8s_job`: chunked above 900000
      characters, else one ConfigMap holding it whole. */
  method StorePayload(api: ApiServer, ns: string, jobId: string, b64: string) returns (ok: bool)
    modifies api`configMaps, api`writes
    ensures ok == !PayloadRejected(old(api.configMaps), api.refused, ns, jobId, b64)
    ensures ok ==> api.configMaps == old(api.configMaps) + PayloadConfigMaps(ns, jobId, b64)
    ensures !ok ==> forall key :: key in old(api.configMaps) ==>
      key in api.configMaps && api.configMaps[key] == old(api.configMaps)[key]
    ensures !ok ==> forall key :: key in api.configMaps ==> key in old(api.configMaps) || key in api.undeletable
    ensures old(api.writes) <= api.writes
  {
    if |b64| > MaxChunkSize {
      ok := StoreChunks(api, ns, jobId, b64);
    } else {
      var key := ObjKey(ns, SingleConfigMapName(jobId));
      ok := api.CreateConfigMap(key, ConfigMap(PayloadLabels(jobId), map["sumo_files.zip.b64" := b64]));
    }
  }

  /** `create_k8s_job`. Refused with 503 when the cluster is unreachable.
      The payload goes into ConfigMaps (chunked above 900000 characters,
      with rollback of the chunks when one is refused; 500 either way a
      store fails), then the simulation job `sim-<id8>` is created; when
      that fails the job's ConfigMaps are cleaned up (`cleanupListFails`:
      the cleanup's ConfigMap listing fails) and 500 is returned. */
  method CreateK8sJob(api: ApiServer, t: Tenant, jobId: string, cpu: int, memoryGi: int, b64: string,
                      config: Config, k8sAvailable: bool, cleanupListFails: bool) returns (err: Option<HttpError>)
    modifies api`configMaps, api`jobs, api`writes
    ensures !k8sAvailable ==> (err == Some(HttpError(503, "Kubernetes not available")) &&
      api.configMaps == old(api.configMaps) && api.jobs == old(api.jobs) && api.writes == old(api.writes))
    ensures var ns := t.namespace;
      k8sAvailable && PayloadRejected(old(api.configMaps), api.refused, ns, jobId, b64) ==>
      err == Some(HttpError(500, "Failed to store files")) && api.jobs == old(api.jobs)
    ensures k8sAvailable && PayloadRejected(old(api.configMaps), api.refused, t.namespace, jobId, b64) ==>
      && (forall key :: key in old(api.configMaps) ==> key in api.configMaps && api.configMaps[key] == old(api.configMaps)[key])
      && (forall key :: key in api.configMaps ==> key in old(api.configMaps) || key in api.undeletable)
    ensures var ns := t.namespace;
      var jobKey := ObjKey(ns, SimJobName(jobId));
      var stored := old(api.configMaps) + PayloadConfigMaps(ns, jobId, b64);
      k8sAvailable && !PayloadRejected(old(api.configMaps), api.refused, ns, jobId, b64) ==>
      if jobKey !in old(api.jobs) && (JobKind, jobKey) !in api.refused then
        err.None? && api.configMaps == stored &&
        api.jobs == old(api.jobs)[jobKey := SimJob(t, jobId, cpu, memoryGi, PayloadVolumes(jobId, b64), config)]
      else
        err == Some(HttpError(500, "Failed to create job")) && api.jobs == old(api.jobs) &&
        api.configMaps == if cleanupListFails then stored else stored - (CleanupTargets(stored, ns, jobId) - api.undeletable)
    ensures old(api.writes) <= api.writes
  {
    if !k8sAvailable {
      return Some(HttpError(503, "Kubernetes not available"));
    }
    var ns := t.namespace;
    var stored := StorePayload(api, ns, jobId, b64);
    if !stored {
      return Some(HttpError(500, "Failed to store files"));
    }
    var created := api.CreateJob(ObjKey(ns, SimJobName(jobId)), SimJob(t, jobId, cpu, memoryGi, PayloadVolumes(jobId, b64), config));
    if !created {
      CleanupConfigMaps(api, ns, jobId, true, cleanupListFails);
      return Some(HttpError(500, "Failed to create job"));
    }
    err := None;
  }

  // ---------------------------------------------------------------------
  // Submission

  datatype Submitted = Submitted(jobId: string, status: string, configFile: string)

  function PendingRow(t: Tenant, jobId: string, scenarioId: string, configFile: string, cpu: int, memoryGi: int,
                      now: int): JobRow {
    JobRow(jobId, t.tenantId, SimJobName(jobId), t.namespace, Pending, scenarioId, configFile, cpu, memoryGi,
      now, None, None, None, None)
  }

  /** `submit_job`. The checks run before anything is written; the PENDING
      row is inserted before the cluster is touched and stays PENDING when
      the namespace or the job cannot be created (the quota check and the
      insert are separate steps, not one atomic admission); a submission
      that goes through always answers PENDING. */
  method SubmitJob(table: JobStore, api: ApiServer, t: Tenant, scenarioId: string, cpu: int, memoryGi: int,
                   z: ZipUpload, b64: string, jobId: string, now: int, config: Config, k8sAvailable: bool,
                   cleanupListFails: bool)
    returns (r: Result<Submitted>)
    modifies table, api`namespaces, api`quotas, api`limitRanges, api`pvcs, api`configMaps, api`jobs, api`writes
    ensures var admitted := Admit(t, cpu, memoryGi, z, old(table.rows), config);
      admitted.Err? ==> r == Err(admitted.error) && table.rows == old(table.rows) && api.writes == old(api.writes)
    ensures var admitted := Admit(t, cpu, memoryGi, z, old(table.rows), config);
      admitted.Ok? && jobId in old(table.rows) ==> r.Err? && r.error.status == 500 && table.rows == old(table.rows)
    ensures var admitted := Admit(t, cpu, memoryGi, z, old(table.rows), config);
      admitted.Ok? && jobId !in old(table.rows) ==>
      table.rows == old(table.rows)[jobId := PendingRow(t, jobId, scenarioId, admitted.value, cpu, memoryGi, now)]
    ensures r.Ok? ==> r.value == Submitted(jobId, "PENDING", Admit(t, cpu, memoryGi, z, old(table.rows), config).value)
    ensures !k8sAvailable ==> r.Err?
    ensures var jobKey := ObjKey(t.namespace, SimJobName(jobId));
      r.Ok? <==>
        && Admit(t, cpu, memoryGi, z, old(table.rows), config).Ok? && jobId !in old(table.rows) && k8sAvailable
        && old(StagesComplete(api, t.namespace))
        && !PayloadRejected(old(api.configMaps), api.refused, t.namespace, jobId, b64)
        && jobKey !in old(api.jobs) && (JobKind, jobKey) !in api.refused
    ensures r.Ok? ==>
      && api.configMaps == old(api.configMaps) + PayloadConfigMaps(t.namespace, jobId, b64)
      && api.jobs == old(api.jobs)[ObjKey(t.namespace, SimJobName(jobId)) :=
                                   SimJob(t, jobId, cpu, memoryGi, PayloadVolumes(jobId, b64), config)]
  {
    var admitted := Admit(t, cpu, memoryGi, z, table.rows, config);
    if admitted.Err? {
      return Err(admitted.error);
    }
    var configFile := admitted.value;
    if jobId in table.rows {
      return Err(HttpError(500, "Internal Server Error"));
    }
    table.rows := table.rows[jobId := PendingRow(t, jobId, scenarioId, configFile, cpu, memoryGi, now)];

    var completed := EnsureTenantNamespace(api, t, k8sAvailable);
    if !completed {
      return Err(HttpError(500, "Internal Server Error"));
    }
    var err := CreateK8sJob(api, t, jobId, cpu, memoryGi, b64, config, k8sAvailable, cleanupListFails);
    if err.Some? {
      return Err(err.value);
    }
    r := Ok(Submitted(jobId, "PENDING", configFile));
  }

  // ---------------------------------------------------------------------
  // Status

  datatype JobStatusView = JobStatusView(
    jobId: string,
    status: string,
    submittedAt: Option<int>,
    startedAt: Option<int>,
    finishedAt: Option<int>)

  /** The status shown for a stored row given the live read of its job. */
  function LiveStatus(stored: Status, k8sAvailable: bool, read: JobRead): (s: string)
    ensures !k8sAvailable || !read.JobFound? ==> s == StatusName(stored)
    ensures k8sAvailable && read.JobFound? ==>
      s == (if read.status.succeeded > 0 then "SUCCEEDED"
            else if read.status.failed > 0 then "FAILED"
            else if read.status.active > 0 then "RUNNING"
            else StatusName(stored))
    ensures s in {"PENDING", "RUNNING", "SUCCEEDED", "FAILED"}
  {
    if k8sAvailable && read.JobFound? then
      if read.status.succeeded > 0 then "SUCCEEDED"
      else if read.status.failed > 0 then "FAILED"
      else if read.status.active > 0 then "RUNNING"
      else StatusName(stored)
    else StatusName(stored)
  }

  /** `get_job_status`: 404 unless the job exists and belongs to the tenant;
      otherwise the live status of its K8s job (read by name and namespace
      from the row), falling back to the stored one. */
  function GetJobStatus(rows: map<string, JobRow>, jobId: string, tenantId: string, k8sAvailable: bool,
                        read: ObjKey -> JobRead): (r: Result<JobStatusView>)
    ensures r.Err? <==> !(jobId in rows && rows[jobId].tenantId == tenantId)
    ensures r.Err? ==> r.error == HttpError(404, "Job not found")
    ensures r.Ok? ==> var row := rows[jobId];
      && r.value.jobId == jobId
      && r.value.status == LiveStatus(row.status, k8sAvailable, read(ObjKey(row.k8sNamespace, row.k8sJobName)))
      && r.value.startedAt == row.startedAt && r.value.finishedAt == row.finishedAt
  {
    if jobId !in rows || rows[jobId].tenantId != tenantId then Err(HttpError(404, "Job not found"))
    else
      var row := rows[jobId];
      Ok(JobStatusView(jobId, LiveStatus(row.status, k8sAvailable, read(ObjKey(row.k8sNamespace, row.k8sJobName))),
        Some(row.submittedAt), row.startedAt, row.finishedAt))
  }

  /** A tenant never sees another tenant's job, and the status it sees
      reports success whenever the job has a succeeded pod. */
  lemma StatusIsolatedAndSucceededFirst(rows: map<string, JobRow>, jobId: string, tenantId: string,
                                         read: ObjKey -> JobRead)
    ensures jobId in rows && rows[jobId].tenantId != tenantId ==>
      GetJobStatus(rows, jobId, tenantId, true, read) == Err(HttpError(404, "Job not found"))
    ensures jobId in rows && rows[jobId].tenantId == tenantId ==>
      var observed := read(ObjKey(rows[jobId].k8sNamespace, rows[jobId].k8sJobName));
      observed.JobFound? && observed.status.succeeded > 0 ==>
      GetJobStatus(rows, jobId, tenantId, true, read).Ok? &&
      GetJobStatus(rows, jobId, tenantId, true, read).value.status == "SUCCEEDED"
  {
  }
}
