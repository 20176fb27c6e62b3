# sumo-k8s control plane — a Dafny model

sumo-k8s runs SUMO traffic simulations for several tenants on one
Kubernetes cluster. Each tenant gets:

- an API key;
- a namespace with a ResourceQuota and a LimitRange;
- a results claim (`results-<namespace>`).

A submission is checked against the tenant's limits and recorded as a PENDING
row in the `jobs` table. Its zip payload is stored base64-encoded in one
ConfigMap, or in ConfigMap chunks of at most 900000 characters, and a
Kubernetes Job `sim-<id8>` runs it.

A background reconciler moves each row through PENDING → RUNNING →
SUCCEEDED/FAILED from the Job's observed status. It also:

- backfills missing timestamps;
- records where the results live: a path on the claim, or an object-store
  prefix once an upload job has been started;
- records `result_files` when that upload finishes.

A second loop sweeps orphaned payload ConfigMaps. A log stream follows a
job's pod and emits the lines not shown yet.

The model follows the program's modules:

| file | module | models |
|---|---|---|
| `common.dfy` | `Common` | `Option`/`Result`, HTTP errors, the configuration values, Python string helpers (`str(int)`, `lower`, `strip`, `startswith`, `in`) |
| `cluster.dfy` | `Cluster` | the Kubernetes API server as a class: objects by namespace and name, the write calls issued, and the objects whose create, read or delete the server refuses |
| `auth.dfy` | `Auth` | API keys, namespace derivation, the `tenants` table (`TenantTable`), header parsing, limit updates |
| `storage.dfy` | `Storage` | storage-backend detection, default storage class, result locations, the results claim, upload jobs |
| `scaling.dfy` | `Scaling` | `ensure_tenant_namespace`, ConfigMap cleanup by prefix, cluster-activity tallies, node status |
| `jobtable.dfy` | `JobTable` | the `jobs` table (`JobStore`) and its rows |
| `jobs.dfy` | `Jobs` | validation, admission, payload chunking with rollback, `create_k8s_job`, `submit_job`, `get_job_status` |
| `reconciler.dfy` | `Reconciler` | one cycle of `sync_job_status` as four passes over the table, and the orphan-sweep rule |
| `logs.dfy` | `Logs` | the `log_stream` loop of `stream_job_logs` over a scripted sequence of cluster answers |

The cluster, the database, the clock and randomness are inputs:

- The cluster is the `ApiServer` object. It carries the sets of objects whose
  creation is refused, whose read fails with an error other than 404, and whose
  deletion fails.
- Job reads in the reconciler are a function from object key to
  `JobFound(status) | JobNotFound | JobReadError`.
- Pod answers in the log stream are a scripted sequence of `Outcome`s.
- `NOW()` is the parameter `now`.
- The random key characters are alphabet indices passed in.
- The job id (`uuid4`) is a parameter.
- The environment settings of `src/config.py` are the `Config` value.

Where the system's written description and the code differ, the model
follows the code:

- The concurrency check and the INSERT are separate steps, not one atomic
  admission.
- The PENDING row is inserted before the namespace is ensured and before the
  Job is created. It therefore stays PENDING when either fails.
- `validate_resource_request` checks only the tenant's own limits. There is
  no global ceiling.
- `update_tenant_limits` does not validate the values it stores.
- A job read that returns 404 marks an active row FAILED at once.
- In the status pass, the "active pods and stored PENDING ⇒ RUNNING"
  override is applied after the condition scan. It therefore replaces a
  terminal condition seen in the same read.
- A FAILED row gets no result location, so the location pass selects it
  again on every cycle.

## Model

| member | source | states |
|---|---|---|
| Auth.GenerateApiKey | src/auth.py:13-18 | the key starts with the configured prefix, is exactly `len(prefix) + API_KEY_LENGTH` long, and every character after the prefix is an ASCII letter or digit |
| Auth.AlphabetChar | src/auth.py:16 | every index below 62 names an ASCII letter or digit of `ascii_letters + digits` |
| Auth.AlphabetIndex | src/auth.py:16 | every ASCII letter or digit has an index whose alphabet character is itself (the inverse of `AlphabetChar`) |
| Auth.AlphabetCharInjective | src/auth.py:16 | distinct indices give distinct characters, so the 62 choices are all different |
| Auth.RandomPart | src/auth.py:17 | the random part has one character per choice, the chosen alphabet character at each position |
| Auth.KeyChoices | src/auth.py:16-18 | reads back, from a key, valid alphabet choices, one per character after the prefix |
| Auth.GenerateApiKeyRoundTrip | src/auth.py:13-18 | the choices are recovered from the generated key, so different random draws give different keys |
| Auth.DeriveNamespace | src/auth.py:62 | the namespace has the tenant id's length and contains no `_`, no space and no upper-case ASCII letter; each character is the id's character lower-cased, or `-` for `_` and space |
| Auth.DeriveNamespaceIdempotent | src/auth.py:62 | deriving a namespace from a namespace leaves it unchanged |
| Auth.FillLimit | src/auth.py:56-58 | a missing or zero limit becomes the default; any other value is kept |
| Auth.ClassifyIntegrityError | src/auth.py:77-83 | a message naming `tenant_id` gives 409 "Tenant … already exists"; else one naming `namespace` gives 409 "Namespace … already exists"; anything else gives 400 |
| Auth.ViolationNamesColumn | src/auth.py:77-83 | the database's unique-violation message names the violated column |
| Auth.NamespaceViolationLacksTenantId | src/auth.py:77-83 | a namespace violation on an underscore-free namespace does not mention `tenant_id`, so it is not mistaken for a tenant conflict |
| Auth.IntegrityErrorsClassified | src/auth.py:77-83 | a unique violation on the tenant id is reported as the tenant conflict and one on the namespace as the namespace conflict, for every tenant id |
| Auth.FindByApiKey | src/auth.py:30-31 | the first row holding the key, or None exactly when no row holds it |
| Auth.FindById | src/auth.py:91-95 | the first row with the tenant id, or None exactly when no row has it |
| Auth.FindByApiKeyUnique | src/auth.py:30-31 | with unique keys, the lookup of a row's key finds that row |
| Auth.AuthTenant | src/auth.py:20-36 | an empty key is 401 "Invalid API key format"; a successful result is a row whose key is the stripped key; such a row always authenticates; every error is 401 |
| Auth.RemoveAll | src/auth.py:44 | `str.replace(pat, "")` never lengthens the string |
| Auth.RemoveAllWithoutSpace | src/auth.py:44 | a string with no space has no `"Bearer "` to remove |
| Auth.GetTenantFromHeader | src/auth.py:38-49 | a missing or empty header is 401 "Missing Authorization header"; a header whose cleaned key is empty is 401; a success is the row holding the cleaned key; every error is 401 |
| Auth.GeneratedKeyHasNoSpace | src/auth.py:13-18 | a generated key with a space-free prefix contains no whitespace |
| Auth.BearerHeaderParses | src/auth.py:43-44 | both `"Bearer <key>"` and a bare `<key>` clean to the key itself, for a space-free key |
| Auth.HeaderSelectsRow | src/auth.py:38-49 | both header forms of a row's key authenticate exactly that row |
| Auth.GeneratedKeyAuthenticates | src/auth.py:38-49 | a tenant holding a generated key is authenticated by both header forms of it |
| Auth.LimitUpdates | src/auth.py:124-138 | one SET entry per supplied limit; no entries exactly when none is supplied; applying them replaces the supplied limits and keeps every other field |
| Auth.ApplyLimitUpdates | src/auth.py:144-147 | an update keeps the tenant id, namespace and API key |
| Auth.ApplyLimitUpdatesSnoc | src/auth.py:144-147 | the SET entries apply left to right: one more entry applies after the others |
| Auth.TenantTable.Violation | src/auth.py:67-72 | the unique column a new row would violate, tenant id first; None exactly when it clashes with no row on any unique column |
| Auth.TenantTable.CreateTenant | src/auth.py:51-83 | on success the new row (derived namespace, generated key, default-filled limits) is appended; success exactly when no unique column clashes; an existing tenant id is 409 "Tenant … already exists"; a namespace clash is 409 "Namespace … already exists"; every error is the classification of the violated column's message; a failure leaves the table unchanged |
| Auth.TenantTable.RegenerateApiKey | src/auth.py:85-100 | an unknown tenant is 404 with the table unchanged; for a known tenant, success exactly when no other row holds the generated key, and a clash is 500; a success changes only that tenant's key to the generated one and returns the updated row |
| Auth.TenantTable.UpdateTenantLimits | src/auth.py:120-153 | nothing supplied is 400; otherwise success exactly when the tenant exists, and an unknown tenant is 404 "Tenant … not found"; the row gets the supplied limits and nothing else changes; an error leaves the table unchanged |
| Auth.WithApiKey | src/auth.py:91-94 | the UPDATE changes the key of one row and leaves every other row as it was |
| Auth.OldKeyGone | src/auth.py:91-94 | after regeneration no row holds the old key |
| Auth.NewKeyFound | src/auth.py:91-94 | after regeneration the new key finds the regenerated row |
| Auth.RegenerateRevokesOldKey | src/auth.py:85-100 | after regeneration the old key fails to authenticate and the new key authenticates the same tenant with everything else kept |
| Storage.ProviderStorage | src/storage.py:37-52 | gcs exactly for a GKE node with a bucket, s3 for an EKS node with a bucket, azure for an AKS node with account and container; pvc otherwise |
| Storage.FirstProviderNode | src/storage.py:32-52 | the first node in list order that matches a provider rule, or None exactly when none does |
| Storage.ScanNodes | src/storage.py:32-55 | the scan yields one of pvc, gcs, s3, azure |
| Storage.ScanProvidersFirstMatch | src/storage.py:32-55 | over the per-node answers, the first matched rule decides through its provider, and no match gives pvc |
| Storage.ScanNodesFirstMatch | src/storage.py:32-55 | the first matching node decides through its provider; no matching node gives pvc |
| Storage.DetectStorageType | src/storage.py:17-58 | a setting other than `auto` is returned verbatim; otherwise the result is one of pvc, gcs, s3, azure |
| Storage.DetectDecidedByFirstMatchingNode | src/storage.py:19-58 | with `auto`: no cluster or a failed listing gives pvc; no matching node gives pvc; otherwise the first matching node's provider decides |
| Storage.CloudBackendNeedsConfiguration | src/storage.py:36-52 | gcs only with a bucket and a GKE-looking node, s3 only with a bucket and an EKS-looking node, azure only with account, container and an AKS-looking node |
| Storage.FirstDefaultClass | src/storage.py:67-71 | the first class annotated as default, or None exactly when none is |
| Storage.DefaultStorageClass | src/storage.py:60-79 | None exactly without a cluster; else the first default-annotated class, else the first class, else `ebs-gp3`; `ebs-gp3` also when the listing fails |
| Storage.GetResultStorageInfo | src/storage.py:589-617 | pvc gives the path/claim case, s3/gcs/azure the object-store cases, and any other type the unknown case, each exactly |
| Storage.RecordedLocationShape | src/storage.py:589-617 | pvc: path `/results/<job_id>` and claim `results-<ns>`; s3: prefix `sumo-k8-results/<ns>/<job_id>/`; gcs and azure: prefix `results/<ns>/<job_id>/`; every such location contains `results/` |
| Storage.RecordedLocationsDistinct | src/storage.py:589-617 | two different jobs of one namespace never share a recorded location |
| Storage.EnsureTenantPvc | src/storage.py:81-121 | returns `results-<ns>` exactly when the claim is readable and exists afterwards; creates it with the default class only after a 404; nothing without a cluster (the copy in src/scaling.py:143-182 has the same effect on the cluster and returns nothing) |
| Storage.UploaderPrefix | src/storage.py:589-617 | the corrected prefix: the one an upload writes under equals the prefix recorded for the job, for every configuration |
| Storage.UploaderPrefixMismatch | src/storage.py:303 | the prefix built from the tenant id differs from the recorded one for tenant `Acme_Co` (namespace `acme-co`) |
| Storage.UploaderPrefixMatchesIff | src/storage.py:303 | on a cloud backend the upload's prefix as written equals the recorded prefix exactly when the tenant id equals the namespace |
| Storage.UploadResultsFromPvc | src/storage.py:277-500 | nothing, with no write, for a non-cloud type or without a cluster; else the script ConfigMap `upload-script-<id8>` holding the prefix built from the tenant id, then the job `upload-<id8>`, whose name is returned exactly when both creations succeed |
| Scaling.EnsureTenantNamespace | src/scaling.py:12-123 | no writes without a cluster; the namespace is created only after a 404; the quota and LimitRange are created when missing and patched when cpu or memory differ; then the claim is ensured; a configured tenant causes no write; afterwards a readable tenant whose patches are accepted is configured, and a refused quota patch leaves it unconfigured |
| Scaling.NamespaceStage | src/scaling.py:20-27 | the namespace is created exactly when its read is a 404; a refused create is a failure |
| Scaling.QuotaStage | src/scaling.py:29-68 | the quotas become `QuotasAfter` of the old ones, where a refused patch changes nothing and is a caught failure; a quota that already agrees is not written |
| Scaling.LimitStage | src/scaling.py:70-116 | the LimitRanges become `LimitRangesAfter` of the old ones, where a refused patch changes nothing; one that already agrees is not written; an item-less LimitRange is a failure |
| Scaling.QuotaHardSettles | src/scaling.py:42-48 | the desired quota, alone or merged over an old one, needs no update |
| Scaling.QuotaStageIdempotent | src/scaling.py:29-68 | running the quota stage twice equals running it once; afterwards the quota agrees with the tenant exactly when its patch was not refused or it already agreed |
| Scaling.LimitStageIdempotent | src/scaling.py:70-116 | running the LimitRange stage twice equals running it once; afterwards its first item agrees with the tenant exactly when the range has items and its patch was not refused or it already agreed |
| Scaling.PodsChangeNeverPatched | src/scaling.py:34-37 | a change of max_concurrent_jobs alone is not detected, though the desired `pods` entry differs |
| Scaling.SettledQuotaDeterminesLimits | src/scaling.py:34-37 | a quota that needs no update fixes the tenant's cpu and memory limits |
| Scaling.CleanupTargets | src/scaling.py:191-195 | the targets are exactly the namespace's ConfigMaps whose name starts with `sumo-<id8>` |
| Scaling.CleanupConfigMaps | src/scaling.py:184-204 | every target is deleted except those whose deletion fails; nothing else changes; nothing, with no write, without a cluster or when the listing of the namespace's ConfigMaps fails |
| Scaling.CountActive | src/scaling.py:261 | at most the number of jobs, and equal to it exactly when every job has active pods |
| Scaling.CountSucceeded | src/scaling.py:262 | at most the number of jobs, and equal to it exactly when every job has succeeded pods |
| Scaling.Stats | src/scaling.py:259-263 | total is the number of jobs and both counts are at most the total |
| Scaling.GetClusterActivity | src/scaling.py:245-273 | the per-phase tally is the multiset of pod phases, so the counts add up to the number of pods; job counts are bounded by the total; a failed list keeps the earlier results and the defaults after it |
| Scaling.NodeStatus | src/scaling.py:227 | a node reports exactly the types of its conditions whose status is "True" |
| Scaling.NodeStatusAppend | src/scaling.py:227 | the filter keeps order: the status of a concatenation is the concatenation of the statuses, and one condition gives its type exactly when its status is "True" |
| JobTable.ActiveJobIds | src/jobs.py:60-64 | exactly the tenant's rows in PENDING or RUNNING |
| Jobs.ValidateResourceRequest | src/jobs.py:19-31 | accepted exactly when 1 ≤ cpu ≤ max_cpu and 1 ≤ memory ≤ max_memory_gi; every refusal is 400; cpu is checked first |
| Jobs.FirstSumoConfig | src/jobs.py:47-50 | the first entry in archive order ending in `.sumocfg`, or None exactly when there is none |
| Jobs.ValidateAndExtractZip | src/jobs.py:33-54 | empty is 400; over MAX_FILE_SIZE_MB·1048576 bytes is 413; success exactly for a non-empty, small-enough zip with a `.sumocfg` entry, returning the first such entry; every error is 400 or 413 |
| Jobs.CheckConcurrentJobs | src/jobs.py:56-70 | 429 exactly when the tenant has max_concurrent or more PENDING/RUNNING jobs |
| Jobs.Admit | src/jobs.py:319-331 | admitted exactly when the resource, payload and concurrency checks all pass; the resource error wins; the result is the configuration file |
| Jobs.ChunkData | src/jobs.py:86-90 | every chunk is non-empty and at most 900000 characters |
| Jobs.ChunksUpTo | src/jobs.py:86-90 | the first k chunks, chunk i at index i |
| Jobs.ConcatChunksUpTo | src/jobs.py:86-90 | the first k chunks concatenate to the first min(k·900000, n) characters |
| Jobs.ChunksRoundTrip | src/jobs.py:82-90 | there are ceil(n/900000) chunks, each non-empty and at most 900000 long, and concatenated in index order they give back the payload |
| Jobs.ChunkCountAboveOne | src/jobs.py:82-83 | more than one chunk exactly when the payload exceeds 900000 characters |
| Jobs.PayloadNames | src/jobs.py:86 | chunk names `sumo-<id8>-chunk<i>` are pairwise distinct, and they and `sumo-<id8>` start with the cleanup prefix |
| Jobs.ChunkKeyFresh | src/jobs.py:86-102 | chunk i is not among the chunks created before it |
| Jobs.ChunkMapsKeys | src/jobs.py:86-102 | the chunks created so far are exactly the first k chunk names, each holding its data |
| Jobs.SimJob | src/jobs.py:262-309 | requests equal limits (`str(cpu)`, `"<n>Gi"`), backoff limit 0, deadline MAX_JOB_DURATION_HOURS·3600 |
| Jobs.SimJobWithinLimits | src/jobs.py:289-298 | for a validated request the job's cpu and memory quantities, read back as numbers, are at most those of the tenant's quota, and the quota and LimitRange maxima denote the same amounts |
| Jobs.DeleteConfigMaps | src/jobs.py:107-111 | every listed ConfigMap is deleted unless its deletion fails; a failure does not stop the rest |
| Jobs.RollbackChunks | src/jobs.py:104-112 | after a refused chunk every earlier chunk is deleted: what existed before is kept and only undeletable chunks remain |
| Jobs.StorePayload | src/jobs.py:81-190 | one ConfigMap or the chunks: succeeds exactly when nothing is refused, and then adds exactly the payload's ConfigMaps; on failure what existed before is kept and only undeletable chunks remain |
| Jobs.StoreChunks | src/jobs.py:82-112 | succeeds exactly when no chunk is refused, and then adds exactly the chunk ConfigMaps; on failure what existed before is kept and only undeletable chunks remain |
| Jobs.CreateK8sJob | src/jobs.py:72-317 | 503 without a cluster; 500 "Failed to store files" when the payload is refused, keeping every earlier ConfigMap and leaving only undeletable chunks; then either the job `sim-<id8>` is added with the payload stored, or 500 "Failed to create job" with the job's ConfigMaps cleaned up, or all kept when the cleanup's listing fails |
| Jobs.SubmitJob | src/jobs.py:319-353 | a failed check returns its error with nothing written; otherwise the PENDING row is inserted first and stays when the cluster steps fail; success exactly when the checks pass, the id is new, the cluster is up, the namespace stages complete, the payload and the job are accepted; a success stores the payload ConfigMaps and the job `sim-<id8>` and answers PENDING with the configuration file |
| Jobs.LiveStatus | src/jobs.py:369-383 | succeeded before failed before active before the stored status; the stored status when there is no cluster or the read fails |
| Jobs.GetJobStatus | src/jobs.py:355-391 | 404 exactly unless the job exists and belongs to the tenant; otherwise the live status of its Job and the stored timestamps |
| Jobs.StatusIsolatedAndSucceededFirst | src/jobs.py:357-376 | another tenant's job is 404; a job with a succeeded pod is reported SUCCEEDED |
| Reconciler.PendingRowWellFormed | src/jobs.py:337-345 | a submitted row is PENDING and well formed |
| Reconciler.TimestampUpdates | src/reconciler.py:36-48 | for a terminal row the SET list is empty exactly when the read failed other than 404 or nothing is missing |
| Reconciler.BackfillTimestamps | src/reconciler.py:32-76 | only the timestamps change, and only missing ones: finish becomes now; start becomes the Job's start time, or the submission time when the Job has none or is gone; a failed read changes nothing |
| Reconciler.ApplyTimestampUpdatesBackfills | src/reconciler.py:36-71 | applying the collected SET clauses in order gives the backfilled row |
| Reconciler.BackfillTimestampsPass | src/reconciler.py:24-76 | the table becomes the timestamp pass of the old table, and an UPDATE is issued exactly for selected rows with a non-empty SET list |
| Reconciler.BackfillLocation | src/reconciler.py:86-117 | only the location and result files change, and result files are cleared |
| Reconciler.LocationBackfillOutcome | src/reconciler.py:79-117 | a FAILED row is selected again next cycle; a SUCCEEDED row gets a location and, on the claim or a cloud backend, waits for its upload |
| Reconciler.BackfillLocationsPass | src/reconciler.py:78-119 | the table becomes the location pass of the old table; the returned order lists each selected succeeded row on a cloud backend exactly once, and the ConfigMaps, jobs and write calls become exactly those of `upload_results_from_pvc` for those rows in that order (nothing on another backend) |
| Reconciler.RecordUpload | src/reconciler.py:131-156 | only `result_files` changes; for a row without it, it is set exactly when the upload job reports a succeeded pod |
| Reconciler.RecordUploadsPass | src/reconciler.py:121-166 | the table becomes the upload pass of the old table; exactly the rows whose upload succeeded are updated; claim cleanup is requested for them on a cloud backend |
| Reconciler.ConditionStatus | src/reconciler.py:177-186 | the scan yields the stored status or a terminal one |
| Reconciler.ConditionStatusFirstMatch | src/reconciler.py:179-186 | the first Failed/True or Complete/True condition in list order decides FAILED or SUCCEEDED |
| Reconciler.ConditionStatusNoMatch | src/reconciler.py:177-186 | with no such condition the stored status is kept |
| Reconciler.ScanConditions | src/reconciler.py:177-186 | the loop with its early exit computes the condition scan |
| Reconciler.NewStatus | src/reconciler.py:177-189 | the new status is the stored one, RUNNING or terminal; active pods with a stored PENDING give RUNNING even over a terminal condition |
| Reconciler.NewStatusAdvances | src/reconciler.py:177-191 | from an active status the new status never moves back, and the final `else` of the write branch is unreachable |
| Reconciler.SyncActive | src/reconciler.py:174-263 | a failed read changes nothing; 404 gives FAILED with a finish time; an unchanged status writes nothing; otherwise the status becomes the new status; ids and submission time are kept |
| Reconciler.TerminalTransition | src/reconciler.py:198-240 | a terminal transition sets the finish, keeps an existing start, clears result files, and records: FAILED → none; SUCCEEDED with a started cloud upload → prefix; otherwise → `path` of the storage description, which is "" on a cloud backend whose upload failed (a cloud description has no path) |
| Reconciler.FailedUploadLeavesNoResults | src/reconciler.py:219-222 | a job that succeeds on a cloud backend without a started upload records the location "", is then selected by neither pass 2 nor pass 3, so its results are never recorded |
| Reconciler.SyncActiveRow | src/reconciler.py:174-263 | the row becomes its pass-4 image; an UPDATE is issued exactly on 404 or a status change; cleanup is scheduled exactly on a terminal transition; the upload is attempted exactly when the job succeeds now on a cloud backend, and then the ConfigMaps, jobs and write calls change exactly as `upload_results_from_pvc` changes them, otherwise not at all; the upload counts as started exactly when it is attempted and both its creates are accepted by the cluster as it was |
| Reconciler.SyncActivePass | src/reconciler.py:168-263 | the table becomes the active pass of the old table; the updated and cleanup sets are exactly the rows described above; the returned order lists each row that succeeds now on a cloud backend exactly once; the cluster changes exactly by their uploads in that order, and the started set is exactly the rows whose upload job was created at their turn |
| Reconciler.ReconcileCycle | src/reconciler.py:14-267 | nothing, on the table or the cluster, without a cluster; otherwise the table becomes the four passes in order over the old table, the claim cleanups are the rows whose upload finished (cloud only), the ConfigMap cleanups the rows that finish now; the uploads of pass 2 and then of pass 4, each row once and no row in both, are exactly what changes the ConfigMaps, jobs and write calls; the started uploads are exactly the pass-4 rows whose upload job was created at their turn, and each has its own upload job |
| Reconciler.SameScriptIffSameJob | src/storage.py:406 | two uploads name the same script ConfigMap `upload-script-<id8>` exactly when they name the same upload job `upload-<id8>` (line 287) |
| Reconciler.StartedAlong | src/reconciler.py:207-218 | only rows that made an upload can have started one |
| Reconciler.UploadsAlongKeep | src/storage.py:404-500 | uploads keep every ConfigMap and job already there, with its content, and only add write calls |
| Reconciler.UploadsAlongAdd | src/storage.py:404-500 | every ConfigMap uploads add is the script of one of their rows, holding that row's script; every job they add is the upload job of a row started at its turn; every write call they add creates a row's script or job |
| Reconciler.UploadsAlongEach | src/storage.py:404-500 | each uploading row sent its script create and its script exists unless refused; each row started at its turn has its own upload job with its own content |
| Reconciler.UploadsAlongAppend | src/reconciler.py:78-263 | the uploads of two passes one after the other are the uploads of the joined order, and their started sets add up |
| Reconciler.StartedWhenDistinct | src/reconciler.py:207-218 | with pairwise different 8-character upload names, the started rows do not depend on the order: they are exactly the rows whose two creates the cluster, as it was before all uploads, accepts |
| Reconciler.PassesKeepTargets | src/reconciler.py:24-166 | passes 1 to 3 keep the ids and what each row's upload reads, and passes 2 and 3 keep the status |
| Reconciler.CycleIsRowwise | src/reconciler.py:14-267 | a cycle keeps the ids and reconciles each row from its own reads only |
| Reconciler.CycleRowAdvances | src/reconciler.py:168-191 | a terminal row's status never changes, and no status moves backwards |
| Reconciler.CycleRowKeepsRecords | src/reconciler.py:24-263 | rows stay well formed, and a start time, finish time or result files once set are never overwritten |
| Reconciler.ReadErrorIsolated | src/reconciler.py:260-263 | a read failure other than 404 leaves an active row exactly as it was |
| Reconciler.PayloadSweptIffOrphaned | src/reconciler.py:280-300 | an hour-old payload ConfigMap outside `kube-` namespaces is swept exactly when its job's row is gone |
| Reconciler.SweepOrphanedConfigMaps | src/reconciler.py:269-306 | exactly the orphaned ConfigMaps of the listed namespaces are deleted, except those whose deletion fails |
| Logs.SplitLines | src/logs.py:54 | `split('\n')` always yields at least one piece |
| Logs.SplitAfterLine | src/logs.py:54 | splitting a line, a newline and a rest gives the line followed by the pieces of the rest |
| Logs.SplitJoin | src/logs.py:54 | a log of complete lines splits into its lines plus one empty piece |
| Logs.NonBlankMessages | src/logs.py:57-59 | at most one message per line |
| Logs.NonBlankMessagesShape | src/logs.py:57-59 | every event is a message carrying one of the lines, never a blank one |
| Logs.NonBlankMessagesAppend | src/logs.py:57-59 | the messages of two runs of lines are the messages of each, in order |
| Logs.PollDeltaShape | src/logs.py:55-59 | a read shows only messages, each a non-blank line of that read |
| Logs.EmitNewLines | src/logs.py:55-59 | the loop emits the non-blank lines at index `last_line_count` or later, in order |
| Logs.LineCount | src/logs.py:61 | the count of lines shown excludes the empty piece after a final newline |
| Logs.SplitSamples | src/logs.py:54 | `"a\n"` splits into `["a", ""]` and `"a\nb\n"` into `["a", "b", ""]` |
| Logs.SampleDeltas | src/logs.py:54-61 | `"a\n"` from 0 shows `a`; `"a\nb\n"` shows nothing from 2 and `b` from 1; `"a\n"` counts 2 as written and 1 corrected |
| Logs.TrailingNewlineSkipsLine | src/logs.py:54-61 | with the count as written, reads `"a\n"` then `"a\nb\n"` show only `a`; with the corrected count they show `a` and `b` |
| Logs.StreamSkipsLine | src/logs.py:46-86 | the loop itself, over a running pod whose log reads `"a\n"` then `"a\nb\n"`, shows only `a` as written and `a` then `b` with the corrected count |
| Logs.ReadCompleteLines | src/logs.py:54-61 | one read of complete lines counts them and shows the non-blank ones after `last` |
| Logs.GrowingLogDelivery | src/logs.py:54-61 | with the corrected count, reads of a log that grows by complete lines show every non-blank line exactly once, in order |
| Logs.PollOnce | src/logs.py:47-96 | one turn of the loop body yields exactly the step of the polling specification: its events, and whether the loop stops or goes on with which counters, the line count being `len(lines)` as written or the corrected one |
| Logs.RunPollLoop | src/logs.py:42-96 | the loop yields exactly the events of the polling specification from zeroed counters, under the line count it is given |
| Logs.FindPod | src/logs.py:20-38 | the lookup yields the pod lookup specification: an error for a failed listing, the waiting message and one retry after an empty one, "Pod not found" after two |
| Logs.StreamJobLogs | src/logs.py:11-101 | the whole stream equals the stream specification: availability check, pod lookup with one retry, start event, then the loop |
| Logs.EarlyExits | src/logs.py:13-35 | without a cluster the stream is one error; with no pod after the retry it is the waiting message and "Pod not found" |
| Logs.PollStepShape | src/logs.py:54-96 | a turn that goes on emits only messages; a turn that stops puts its error or final status last |
| Logs.PollLoopStopsAtEnd | src/logs.py:46-96 | only the last event of the loop can be an error or the final status: nothing follows it |
| Logs.PollExits | src/logs.py:69-96 | a non-API failure ends the stream with its error; a vanished pod ends it with "Pod has terminated"; a terminal phase ends it with the rest of the full log, read from the kept line count, and the status event |
| Logs.ApiFailuresAbsorbed | src/logs.py:88-93 | fewer than ten consecutive API failures emit nothing and only raise the error count |
| Logs.TooManyErrors | src/logs.py:88-92 | the API failure that brings the count to ten ends the stream with "Too many errors: …" |
| Logs.SuccessfulPollResets | src/logs.py:54-86 | a successful poll of a running pod shows its new lines and goes on with the read's line count (`len(lines)` as written) and zero errors |
| Logs.RunningPollsDeliver | src/logs.py:46-86 | while every read succeeds and the pod runs, the stream is the delivery of the successive reads under the same line count, so as written it loses lines exactly as `Deliver(AsWritten, …)` does |

## Left out

- I/O and timing are not modelled: HTTP routing, database connections and transactions, `time.sleep`, and the endless `while True` loops of the reconciler and the sweep. Each is modelled as one cycle.
- Threads are not modelled. The delayed cleanup thread of `cleanup_configmaps` is modelled as an immediate cleanup (`Jobs.CreateK8sJob`) or as a returned set of jobs to clean (`Reconciler.SyncActivePass`).
- The quota check and the INSERT can interleave with another submission. A sequential model cannot show that race, and it claims no atomic admission.
- Base64 encoding is left out: the payload is taken as the already-encoded string.
- Zip parsing is left out: a zip is its size and entry list, or "not a zip".
- The job and upload shell scripts, volume mounts and environment variables are left out. The job records its payload volumes and claim.
- The uploads themselves (`upload_to_s3`, `upload_to_gcs`, `upload_to_azure`), `cleanup_pvc_after_upload`, `get_job_logs` and `get_cluster_nodes` beyond its condition filter are cloud SDK or pass-through calls. `cleanup_pvc_after_upload` appears only as the claim-cleanup set that pass 3 returns.
- `get_tenant` and `list_tenants` are plain SELECTs.
- JSON and server-sent-event formatting are left out: log events are a datatype.
- Exception texts inside error details are left out. Details that embed `str(e)` keep only their fixed part.
- Jobs.ValidateAndExtractZip: the 413 detail omits the formatted float size. The size test is the exact integer form of `len/1024/1024 > MAX_FILE_SIZE_MB`.
- Reconciler.ReconcileCycle: `detect_storage_type` is called once per row in the source (src/reconciler.py:88, 139, 201). With the `auto` setting it lists the nodes on every call, and a failed listing answers `pvc` (src/storage.py:27, 56-58). The model takes one answer per cycle, although the source's per-row answers can differ.
- Reconciler.ReconcileCycle: the passes visit their rows in no fixed order (the queries have no ORDER BY), so the model returns the order it used. Which rows' uploads start is then exact for that order; it is the same for every order when the rows' 8-character upload names differ (`Reconciler.StartedWhenDistinct`). When two rows share a name, which one wins depends on the order.
- Reconciler.ReconcileCycle: one `read` function answers all job reads of a cycle. The source's passes could see the cluster change between reads.
- Reconciler.ReconcileCycle: a database error that aborts a whole cycle is not modelled.
- Reconciler.SweepOrphanedConfigMaps: the ConfigMap creation time comes from the input `createdAt`.
- Reconciler.SweepOrphanedConfigMaps: namespaces whose listing fails are given as the input `unlisted`.
- Logs.StreamJobLogs: the `tail_lines=1000` window is not modelled. A log longer than 1000 lines shifts indices in the source.
- Logs.StreamJobLogs: the stream is cut where the script of answers ends.
- Logs.StreamJobLogs: blank lines are whitespace-only lines as `Common.IsSpace` defines whitespace (the ASCII whitespace of `str.strip()`). Python's non-ASCII whitespace (for example U+0085 and U+00A0) is not modelled.
- Auth.DeriveNamespace: `lower()` is modelled on ASCII letters only. Python also lowers non-ASCII letters, and some of them lower to two characters, so the equal-length property holds for ASCII tenant ids only.
- Auth.GetTenantFromHeader: the key is stripped of ASCII whitespace only, as `Common.IsSpace` defines it; Python's non-ASCII whitespace is not modelled.
- Auth.AuthTenant: the key is stripped of ASCII whitespace only, as `Common.IsSpace` defines it; Python's non-ASCII whitespace is not modelled.
- Scaling.QuotaHard: the `pods` default of 10 (`tenant.get(..., 10)`) never applies, because every tenant row has `max_concurrent_jobs`.
- Auth.TenantTable.RegenerateApiKey: a generated key that collides with another tenant's key fails the unique constraint. It is modelled as 500 with the table unchanged.
- Auth.TenantTable.CreateTenant: the table's unique constraints (tenant id, namespace, API key) are an assumption, because the schema is not part of this model.

## Findings

| source | as written | input that shows it | evidently intended | confidence | as-written member | corrected member |
|---|---|---|---|---|---|---|
| src/storage.py:303 | the upload script writes under `sumo-k8-results/<tenant_id>/<job_id>/` (also gcs and azure at lines 338 and 380), but the job records `sumo-k8-results/<namespace>/<job_id>/` (line 601) | tenant id `Acme_Co` (namespace `acme-co`): files go to `sumo-k8-results/Acme_Co/job/`, the row points at `sumo-k8-results/acme-co/job/` | the uploader writes where the recorded location points, i.e. under the namespace | high (not executed) | Storage.UploaderPrefixMismatch | Storage.UploaderPrefix |
| src/logs.py:61 | `last_line_count = len(lines)` counts the empty piece after the log's final newline | reads `"a\n"` then `"a\nb\n"`: the second read starts at index 2 and `b` is never shown | count only real lines, so every new line is shown once | high (not executed) | Logs.TrailingNewlineSkipsLine | Logs.GrowingLogDelivery |

Both halves of each row are in the model:

- The upload script records the prefix as written,
  `Storage.UploaderPrefixAsWritten`, which is built from the tenant id.
  `Storage.UploaderPrefix` is the corrected prefix, the one the row
  records, and `Storage.UploaderPrefixMatchesIff` says the two agree
  exactly when the tenant id is the namespace.
- The log loop and the stream take the line count they keep as a
  parameter (`Logs.Counting`). `AsWritten` is `len(lines)`
  (`Logs.LineCountAsWritten`) and `Corrected` is `Logs.LineCount`.
  `Logs.StreamSkipsLine` runs the loop both ways on the sample reads.
