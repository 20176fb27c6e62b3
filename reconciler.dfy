/** One cycle of the background reconciler (`sync_job_status` in
    src/reconciler.py) and the rule of the orphaned-ConfigMap sweep. A cycle
    runs four passes over the jobs table, each over the rows its query
    selects at the start of the pass:
      1. terminal rows missing a timestamp get it backfilled;
      2. terminal rows without a result location get one;
      3. succeeded rows whose upload job finished get their `result_files`;
      4. PENDING and RUNNING rows follow their Kubernetes job.
    The cluster's answers to job reads are the function `read`, the clock
    is `now`, and the detected storage backend is `storageType`. */
module Reconciler {
  import opened Common
  import opened Cluster
  import opened JobTable
  import opened Storage
  import opened Jobs

  function JobKey(row: JobRow): ObjKey {
    ObjKey(row.k8sNamespace, row.k8sJobName)
  }

  /** Progress of a status: PENDING, then RUNNING, then a terminal status. */
  function Rank(s: Status): nat {
    match s
    case Pending => 0
    case Running => 1
    case Succeeded => 2
    case Failed => 2
  }

  /** What the table keeps consistent: an unstarted job has no timestamps, a
      running one has a start and no finish, and result files are only
      recorded for a succeeded job with a location. */
  predicate WellFormed(row: JobRow) {
    && (row.status == Pending ==> row.startedAt.None? && row.finishedAt.None?)
    && (row.status == Running ==> row.startedAt.Some? && row.finishedAt.None?)
    && (row.resultFiles.Some? ==> row.status == Succeeded && row.resultLocation.Some?)
  }

  predicate AllWellFormed(rows: map<string, JobRow>) {
    forall id :: id in rows ==> WellFormed(rows[id])
  }

  /** A submitted row is well formed. */
  lemma PendingRowWellFormed(t: Auth.Tenant, jobId: string, scenarioId: string, configFile: string,
                             cpu: int, memoryGi: int, now: int)
    ensures WellFormed(PendingRow(t, jobId, scenarioId, configFile, cpu, memoryGi, now))
    ensures PendingRow(t, jobId, scenarioId, configFile, cpu, memoryGi, now).status == Pending
  {
  }

  // ---------------------------------------------------------------------
  // Uploads on the cluster, shared by passes 2 and 4

  /** What `upload_results_from_pvc` reads from a row. */
  datatype UploadTarget = UploadTarget(namespace: string, jobId: string, tenantId: string)

  function Target(row: JobRow): UploadTarget {
    UploadTarget(row.k8sNamespace, row.jobId, row.tenantId)
  }

  function Targets(rows: map<string, JobRow>): map<string, UploadTarget> {
    map id | id in rows :: Target(rows[id])
  }

  /** The script ConfigMap `upload-script-<id8>` of an upload. */
  function ScriptKeyOf(t: UploadTarget): ObjKey {
    ObjKey(t.namespace, "upload-script-" + Take(t.jobId, 8))
  }

  /** The upload job `upload-<id8>`. */
  function JobKeyOf(t: UploadTarget): ObjKey {
    ObjKey(t.namespace, "upload-" + Take(t.jobId, 8))
  }

  function UploadJobKey(row: JobRow): ObjKey {
    JobKeyOf(Target(row))
  }

  /** Two uploads name the same script exactly when they name the same job:
      both names are the same 8-character id prefix after a fixed word. */
  lemma SameScriptIffSameJob(a: UploadTarget, b: UploadTarget)
    ensures ScriptKeyOf(a) == ScriptKeyOf(b) <==> JobKeyOf(a) == JobKeyOf(b)
  {
    if ScriptKeyOf(a) == ScriptKeyOf(b) {
      assert Take(a.jobId, 8) == ScriptKeyOf(a).name[14..];
      assert Take(b.jobId, 8) == ScriptKeyOf(b).name[14..];
    }
    if JobKeyOf(a) == JobKeyOf(b) {
      assert Take(a.jobId, 8) == JobKeyOf(a).name[7..];
      assert Take(b.jobId, 8) == JobKeyOf(b).name[7..];
    }
  }

  /** The part of the cluster an upload touches. */
  datatype ClusterObjects = ClusterObjects(configMaps: map<ObjKey, ConfigMap>, jobs: map<ObjKey, JobObject>,
                                           writes: seq<Write>)

  function ObjectsOf(api: ApiServer): ClusterObjects
    reads api
  {
    ClusterObjects(api.configMaps, api.jobs, api.writes)
  }

  /** The script ConfigMap's create succeeds. */
  predicate ScriptAccepted(t: UploadTarget, s: ClusterObjects, refused: set<(Kind, ObjKey)>) {
    ScriptKeyOf(t) !in s.configMaps && (ConfigMapKind, ScriptKeyOf(t)) !in refused
  }

  /** Both creates succeed: the script, then the job. */
  predicate UploadAccepted(t: UploadTarget, s: ClusterObjects, refused: set<(Kind, ObjKey)>) {
    ScriptAccepted(t, s, refused) && JobKeyOf(t) !in s.jobs && (JobKind, JobKeyOf(t)) !in refused
  }

  /** `upload_results_from_pvc` on a cloud backend with the cluster up: the
      script ConfigMap is created and, only if that succeeds, the job. */
  function Upload(t: UploadTarget, storageType: string, refused: set<(Kind, ObjKey)>, s: ClusterObjects): ClusterObjects {
    var scriptOk := ScriptAccepted(t, s, refused);
    ClusterObjects(
      if scriptOk then s.configMaps[ScriptKeyOf(t) := UploadScript(storageType, t.tenantId, t.jobId)] else s.configMaps,
      if UploadAccepted(t, s, refused) then s.jobs[JobKeyOf(t) := UploadJob(t.jobId, t.namespace)] else s.jobs,
      s.writes + [Create(ConfigMapKind, ScriptKeyOf(t))] + (if scriptOk then [Create(JobKind, JobKeyOf(t))] else []))
  }

  predicate Within(order: seq<string>, targets: map<string, UploadTarget>) {
    forall id :: id in order ==> id in targets
  }

  predicate Distinct(order: seq<string>) {
    forall i, j :: 0 <= i < j < |order| ==> order[i] != order[j]
  }

  /** The uploads of the rows of `order`, one after the other. */
  function UploadsAlong(targets: map<string, UploadTarget>, order: seq<string>, storageType: string,
                        refused: set<(Kind, ObjKey)>, s: ClusterObjects): ClusterObjects
    requires Within(order, targets)
    decreases |order|
  {
    if order == [] then s
    else
      var before := order[..|order| - 1];
      Upload(targets[order[|order| - 1]], storageType, refused, UploadsAlong(targets, before, storageType, refused, s))
  }

  /** The rows of `order` whose upload job was created at their turn. */
  function StartedAlong(targets: map<string, UploadTarget>, order: seq<string>, storageType: string,
                        refused: set<(Kind, ObjKey)>, s: ClusterObjects): (r: set<string>)
    requires Within(order, targets)
    ensures forall id :: id in r ==> id in order
    decreases |order|
  {
    if order == [] then {}
    else
      var before := order[..|order| - 1];
      var last := order[|order| - 1];
      StartedAlong(targets, before, storageType, refused, s) +
        (if UploadAccepted(targets[last], UploadsAlong(targets, before, storageType, refused, s), refused) then {last} else {})
  }

  /** Uploads keep every ConfigMap and job already there, with its content,
      and only add write calls. */
  lemma {:induction false} UploadsAlongKeep(targets: map<string, UploadTarget>, order: seq<string>, storageType: string,
                                            refused: set<(Kind, ObjKey)>, s: ClusterObjects)
    requires Within(order, targets)
    ensures var r := UploadsAlong(targets, order, storageType, refused, s);
      && (forall k :: k in s.configMaps ==> k in r.configMaps && r.configMaps[k] == s.configMaps[k])
      && (forall k :: k in s.jobs ==> k in r.jobs && r.jobs[k] == s.jobs[k])
      && s.writes <= r.writes
  {
    if order != [] {
      UploadsAlongKeep(targets, order[..|order| - 1], storageType, refused, s);
    }
  }

  /** Everything uploads add is theirs: a new ConfigMap is the script of a
      row of `order`, holding that row's script; a new job is the upload job
      of a row started at its turn; a new write call is a create of a row's
      script or job. */
  lemma {:induction false} UploadsAlongAdd(targets: map<string, UploadTarget>, order: seq<string>, storageType: string,
                                           refused: set<(Kind, ObjKey)>, s: ClusterObjects)
    requires Within(order, targets)
    ensures var r := UploadsAlong(targets, order, storageType, refused, s);
      var started := StartedAlong(targets, order, storageType, refused, s);
      && (forall k :: k in r.configMaps && k !in s.configMaps ==>
            exists id :: id in order && k == ScriptKeyOf(targets[id]) &&
              r.configMaps[k] == UploadScript(storageType, targets[id].tenantId, targets[id].jobId))
      && (forall k :: k in r.jobs && k !in s.jobs ==> exists id :: id in started && k == JobKeyOf(targets[id]))
      && (forall i :: |s.writes| <= i < |r.writes| ==>
            exists id :: id in order &&
              (r.writes[i] == Create(ConfigMapKind, ScriptKeyOf(targets[id])) ||
               r.writes[i] == Create(JobKind, JobKeyOf(targets[id]))))
  {
    if order != [] {
      var before := order[..|order| - 1];
      var last := order[|order| - 1];
      UploadsAlongAdd(targets, before, storageType, refused, s);
      UploadsAlongKeep(targets, before, storageType, refused, s);
      var p := UploadsAlong(targets, before, storageType, refused, s);
      var r := UploadsAlong(targets, order, storageType, refused, s);
      forall i | |s.writes| <= i < |r.writes|
        ensures exists id :: (id in order &&
          (r.writes[i] == Create(ConfigMapKind, ScriptKeyOf(targets[id])) ||
           r.writes[i] == Create(JobKind, JobKeyOf(targets[id]))))
      {
        if i < |p.writes| {
          var id :| id in before &&
            (p.writes[i] == Create(ConfigMapKind, ScriptKeyOf(targets[id])) ||
             p.writes[i] == Create(JobKind, JobKeyOf(targets[id])));
          assert r.writes[i] == p.writes[i];
          assert id in order;
        } else {
          assert last in order;
        }
      }
    }
  }

  /** Each row of `order` sent its script create, and the script exists
      unless the cluster refuses it; a row started at its turn has its own
      upload job on the cluster. */
  lemma {:induction false} UploadsAlongEach(targets: map<string, UploadTarget>, order: seq<string>, storageType: string,
                                            refused: set<(Kind, ObjKey)>, s: ClusterObjects)
    requires Within(order, targets)
    ensures var r := UploadsAlong(targets, order, storageType, refused, s);
      && (forall id :: id in order ==>
            && Create(ConfigMapKind, ScriptKeyOf(targets[id])) in r.writes
            && ((ConfigMapKind, ScriptKeyOf(targets[id])) !in refused ==> ScriptKeyOf(targets[id]) in r.configMaps))
      && (forall id :: id in StartedAlong(targets, order, storageType, refused, s) ==>
            JobKeyOf(targets[id]) in r.jobs &&
            r.jobs[JobKeyOf(targets[id])] == UploadJob(targets[id].jobId, targets[id].namespace))
  {
    if order != [] {
      var before := order[..|order| - 1];
      var last := order[|order| - 1];
      UploadsAlongEach(targets, before, storageType, refused, s);
      UploadsAlongAdd(targets, before, storageType, refused, s);
      var p := UploadsAlong(targets, before, storageType, refused, s);
      var r := UploadsAlong(targets, order, storageType, refused, s);
      forall id | id in order
        ensures Create(ConfigMapKind, ScriptKeyOf(targets[id])) in r.writes
      {
        if id != last {
          assert id in before;
          var w := Create(ConfigMapKind, ScriptKeyOf(targets[id]));
          var i :| 0 <= i < |p.writes| && p.writes[i] == w;
          assert r.writes[i] == w;
        } else {
          assert r.writes[|p.writes|] == Create(ConfigMapKind, ScriptKeyOf(targets[id]));
        }
      }
      forall id | id in order && id != last
        ensures id in before
      {
      }
    }
  }

  lemma {:induction false} UploadsAlongAppend(targets: map<string, UploadTarget>, o1: seq<string>, o2: seq<string>,
                                              storageType: string, refused: set<(Kind, ObjKey)>, s: ClusterObjects)
    requires Within(o1, targets) && Within(o2, targets)
    ensures Within(o1 + o2, targets)
    ensures UploadsAlong(targets, o1 + o2, storageType, refused, s) ==
      UploadsAlong(targets, o2, storageType, refused, UploadsAlong(targets, o1, storageType, refused, s))
    ensures StartedAlong(targets, o1 + o2, storageType, refused, s) ==
      StartedAlong(targets, o1, storageType, refused, s) +
      StartedAlong(targets, o2, storageType, refused, UploadsAlong(targets, o1, storageType, refused, s))
  {
    if o2 == [] {
      assert o1 + o2 == o1;
    } else {
      var before := o2[..|o2| - 1];
      assert (o1 + o2)[..|o1 + o2| - 1] == o1 + before;
      assert (o1 + o2)[|o1 + o2| - 1] == o2[|o2| - 1];
      UploadsAlongAppend(targets, o1, before, storageType, refused, s);
    }
  }

  /** The rows of `order` have pairwise different upload names. */
  predicate DistinctUploads(targets: map<string, UploadTarget>, order: seq<string>)
    requires Within(order, targets)
  {
    forall i, j :: 0 <= i < j < |order| ==> JobKeyOf(targets[order[i]]) != JobKeyOf(targets[order[j]])
  }

  /** With pairwise different upload names, the order of the uploads does
      not matter: after the uploads of `before`, the rows of `order` whose
      upload job gets created are exactly those whose two creates the
      cluster, as it was before all of them, accepts. */
  lemma {:induction false} StartedWhenDistinct(targets: map<string, UploadTarget>, before: seq<string>, order: seq<string>,
                                               storageType: string, refused: set<(Kind, ObjKey)>, s: ClusterObjects)
    requires Within(before, targets) && Within(order, targets)
    requires Within(before + order, targets) && DistinctUploads(targets, before + order)
    ensures StartedAlong(targets, order, storageType, refused, UploadsAlong(targets, before, storageType, refused, s)) ==
      set id | id in order && UploadAccepted(targets[id], s, refused)
  {
    if order != [] {
      var prefix := order[..|order| - 1];
      var last := order[|order| - 1];
      var all := before + order;
      assert all[..|all| - 1] == before + prefix;
      forall i, j | 0 <= i < j < |before + prefix|
        ensures JobKeyOf(targets[(before + prefix)[i]]) != JobKeyOf(targets[(before + prefix)[j]])
      {
        assert (before + prefix)[i] == all[i] && (before + prefix)[j] == all[j];
      }
      StartedWhenDistinct(targets, before, prefix, storageType, refused, s);
      UploadsAlongAppend(targets, before, prefix, storageType, refused, s);
      UploadsAlongAdd(targets, before + prefix, storageType, refused, s);
      UploadsAlongKeep(targets, before + prefix, storageType, refused, s);
      var p := UploadsAlong(targets, before + prefix, storageType, refused, s);
      var t := targets[last];
      assert last == all[|all| - 1];
      forall id | id in before + prefix
        ensures ScriptKeyOf(targets[id]) != ScriptKeyOf(t) && JobKeyOf(targets[id]) != JobKeyOf(t)
      {
        var i :| 0 <= i < |before + prefix| && (before + prefix)[i] == id;
        assert all[i] == id;
        SameScriptIffSameJob(targets[id], t);
      }
      assert ScriptKeyOf(t) in p.configMaps <==> ScriptKeyOf(t) in s.configMaps;
      assert JobKeyOf(t) in p.jobs <==> JobKeyOf(t) in s.jobs;
      assert UploadAccepted(t, p, refused) == UploadAccepted(t, s, refused);
      forall id | id in order && id != last
        ensures id in prefix
      {
      }
    }
  }

  /** What a pass has uploaded so far: `uploads` lists each row of `done`
      that uploads exactly once, and the cluster went from `s0` to `s` by
      their uploads in that order. */
  ghost predicate UploadsSoFar(targets: map<string, UploadTarget>, uploaders: set<string>, done: set<string>,
                         uploads: seq<string>, storageType: string, refused: set<(Kind, ObjKey)>,
                         s0: ClusterObjects, s: ClusterObjects) {
    && (forall id :: id in uploads <==> id in done && id in uploaders)
    && Distinct(uploads)
    && Within(uploads, targets)
    && s == UploadsAlong(targets, uploads, storageType, refused, s0)
  }

  /** One more row handled by a pass: it uploads if it is an uploader. */
  lemma UploadsSoFarStep(targets: map<string, UploadTarget>, uploaders: set<string>, done: set<string>, id: string,
                         uploads: seq<string>, storageType: string, refused: set<(Kind, ObjKey)>,
                         s0: ClusterObjects, s: ClusterObjects, s': ClusterObjects)
    requires UploadsSoFar(targets, uploaders, done, uploads, storageType, refused, s0, s)
    requires id !in done && id in targets
    requires s' == if id in uploaders then Upload(targets[id], storageType, refused, s) else s
    ensures var uploads' := if id in uploaders then uploads + [id] else uploads;
      && UploadsSoFar(targets, uploaders, done + {id}, uploads', storageType, refused, s0, s')
      && StartedAlong(targets, uploads', storageType, refused, s0) ==
         StartedAlong(targets, uploads, storageType, refused, s0) +
         (if id in uploaders && UploadAccepted(targets[id], s, refused) then {id} else {})
  {
    if id in uploaders {
      var uploads' := uploads + [id];
      assert uploads'[..|uploads|] == uploads;
      assert uploads'[|uploads|] == id;
      forall i, j | 0 <= i < j < |uploads'|
        ensures uploads'[i] != uploads'[j]
      {
        if j == |uploads| {
          assert uploads'[i] == uploads[i] && uploads[i] in uploads;
        }
      }
    }
  }

  /** A pass loop takes one more row out of `pending`. */
  lemma PendingStep(selected: set<string>, pending: set<string>, id: string)
    requires pending <= selected && id in pending
    ensures selected - pending + {id} == selected - (pending - {id})
  {
  }

  /** Distinctness of a concatenation. */
  lemma DistinctAppend(a: seq<string>, b: seq<string>)
    requires Distinct(a) && Distinct(b) && forall x :: x in a ==> x !in b
    ensures Distinct(a + b)
  {
    forall i, j | 0 <= i < j < |a + b|
      ensures (a + b)[i] != (a + b)[j]
    {
      if j < |a| {
      } else if i >= |a| {
        assert (a + b)[i] == b[i - |a|] && (a + b)[j] == b[j - |a|];
      } else {
        assert (a + b)[i] in a && (a + b)[j] == b[j - |a|];
      }
    }
  }

  // ---------------------------------------------------------------------
  // Pass 1: timestamp backfill

  predicate NeedsTimestamps(row: JobRow) {
    IsTerminal(row.status) && (row.startedAt.None? || row.finishedAt.None?)
  }

  /** One SET clause of a backfill UPDATE. */
  datatype TimestampUpdate = FinishedNow | StartedAt(time: int) | StartedFromSubmitted

  /** The SET clauses collected for a row; none when the read failed with
      anything but 404 or when nothing is missing. */
  function TimestampUpdates(row: JobRow, read: JobRead): (updates: seq<TimestampUpdate>)
    ensures IsTerminal(row.status) ==>
      (updates == [] <==> read.JobReadError? || (row.startedAt.Some? && row.finishedAt.Some?))
  {
    match read
    case JobReadError => []
    case JobNotFound =>
      (if row.finishedAt.None? then [FinishedNow] else []) +
      (if row.startedAt.None? then [StartedFromSubmitted] else [])
    case JobFound(st) =>
      (if IsTerminal(row.status) && row.finishedAt.None? then [FinishedNow] else []) +
      (if row.startedAt.None? then
         (if st.startTime.Some? then [StartedAt(st.startTime.value)] else [StartedFromSubmitted])
       else [])
  }

  function ApplyTimestampUpdate(row: JobRow, update: TimestampUpdate, now: int): JobRow {
    match update
    case FinishedNow => row.(finishedAt := Some(now))
    case StartedAt(t) => row.(startedAt := Some(t))
    case StartedFromSubmitted => row.(startedAt := if row.startedAt.Some? then row.startedAt else Some(row.submittedAt))
  }

  /** The UPDATE statement: its SET clauses applied left to right. */
  function ApplyTimestampUpdates(row: JobRow, updates: seq<TimestampUpdate>, now: int): JobRow
    decreases |updates|
  {
    if updates == [] then row
    else ApplyTimestampUpdates(ApplyTimestampUpdate(row, updates[0], now), updates[1..], now)
  }

  /** The row after its backfill UPDATE: only the missing timestamps are
      set; the finish to now, the start to the job's start time, or to the
      submission time when the job has none or is gone; a failed read
      changes nothing. */
  function BackfillTimestamps(row: JobRow, read: JobRead, now: int): (r: JobRow)
    requires IsTerminal(row.status)
    ensures r == row.(startedAt := r.startedAt, finishedAt := r.finishedAt)
    ensures read.JobReadError? ==> r == row
    ensures row.finishedAt.Some? ==> r.finishedAt == row.finishedAt
    ensures row.startedAt.Some? ==> r.startedAt == row.startedAt
    ensures !read.JobReadError? && row.finishedAt.None? ==> r.finishedAt == Some(now)
    ensures read.JobFound? && row.startedAt.None? && read.status.startTime.Some? ==> r.startedAt == read.status.startTime
    ensures (read.JobNotFound? || (read.JobFound? && read.status.startTime.None?)) && row.startedAt.None? ==>
      r.startedAt == Some(row.submittedAt)
  {
    match read
    case JobReadError => row
    case JobNotFound =>
      row.(finishedAt := if row.finishedAt.Some? then row.finishedAt else Some(now),
           startedAt := if row.startedAt.Some? then row.startedAt else Some(row.submittedAt))
    case JobFound(st) =>
      row.(finishedAt := if row.finishedAt.Some? then row.finishedAt else Some(now),
           startedAt := if row.startedAt.Some? then row.startedAt
                        else if st.startTime.Some? then st.startTime else Some(row.submittedAt))
  }

  /** Applying the collected SET clauses in order yields the backfilled row. */
  lemma ApplyTimestampUpdatesBackfills(row: JobRow, read: JobRead, now: int)
    requires IsTerminal(row.status)
    ensures ApplyTimestampUpdates(row, TimestampUpdates(row, read), now) == BackfillTimestamps(row, read, now)
  {
    var updates := TimestampUpdates(row, read);
    if |updates| > 0 {
      var r1 := ApplyTimestampUpdate(row, updates[0], now);
      assert ApplyTimestampUpdates(row, updates, now) == ApplyTimestampUpdates(r1, updates[1..], now);
      if |updates| > 1 {
        var r2 := ApplyTimestampUpdate(r1, updates[1], now);
        assert updates[1..][0] == updates[1];
        assert updates[1..][1..] == [];
        assert ApplyTimestampUpdates(r1, updates[1..], now) == r2;
      } else {
        assert updates[1..] == [];
      }
    }
  }

  function TimestampPass(rows: map<string, JobRow>, read: ObjKey -> JobRead, now: int): map<string, JobRow> {
    map id | id in rows :: if NeedsTimestamps(rows[id]) then BackfillTimestamps(rows[id], read(JobKey(rows[id])), now) else rows[id]
  }

  /** Pass 1: one UPDATE per selected row that has something to set. */
  method BackfillTimestampsPass(table: JobStore, read: ObjKey -> JobRead, now: int) returns (updated: set<string>)
    modifies table
    ensures table.rows == TimestampPass(old(table.rows), read, now)
    ensures updated == set id | id in old(table.rows) && NeedsTimestamps(old(table.rows)[id]) &&
      TimestampUpdates(old(table.rows)[id], read(JobKey(old(table.rows)[id]))) != []
  {
    ghost var rows0 := table.rows;
    var selected := set id | id in table.rows && NeedsTimestamps(table.rows[id]);
    var pending := selected;
    updated := {};
    while pending != {}
      invariant pending <= selected
      invariant table.rows == map id | id in rows0 ::
        if id in selected - pending then BackfillTimestamps(rows0[id], read(JobKey(rows0[id])), now) else rows0[id]
      invariant updated == set id | id in selected - pending && TimestampUpdates(rows0[id], read(JobKey(rows0[id]))) != []
      decreases pending
    {
      var id :| id in pending;
      var row := table.rows[id];
      var updates := TimestampUpdates(row, read(JobKey(row)));
      ApplyTimestampUpdatesBackfills(row, read(JobKey(row)), now);
      if updates != [] {
        table.rows := table.rows[id := ApplyTimestampUpdates(row, updates, now)];
        updated := updated + {id};
      }
      pending := pending - {id};
    }
  }

  // ---------------------------------------------------------------------
  // Pass 2: result-location backfill

  predicate NeedsLocation(row: JobRow) {
    IsTerminal(row.status) && row.resultLocation.None?
  }

  /** The location a terminal row records: none for a failed job; for a
      succeeded one the object prefix on a cloud backend, the claim path
      otherwise ("" for an unknown backend). */
  function ResultLocation(row: JobRow, status: Status, storageType: string, config: Config, uploadStarted: bool): Option<string> {
    var info := GetResultStorageInfo(row.jobId, row.k8sNamespace, storageType, config);
    if status == Failed then None
    else if IsCloudType(storageType) && uploadStarted then Some(InfoPrefix(info))
    else Some(InfoPath(info))
  }

  /** Pass 2 for one row. The upload it starts on a cloud backend is not
      waited for: the prefix is recorded whatever the upload's fate. */
  function BackfillLocation(row: JobRow, storageType: string, config: Config): (r: JobRow)
    ensures r == row.(resultLocation := r.resultLocation, resultFiles := None)
  {
    row.(resultLocation := if row.status == Succeeded then ResultLocation(row, Succeeded, storageType, config, true) else None,
         resultFiles := None)
  }

  function LocationPass(rows: map<string, JobRow>, storageType: string, config: Config): map<string, JobRow> {
    map id | id in rows :: if NeedsLocation(rows[id]) then BackfillLocation(rows[id], storageType, config) else rows[id]
  }

  /** A failed row keeps no location, so the pass selects it again on every
      cycle; a succeeded row on the claim or a cloud backend leaves the pass
      with a location under "results/" and is then waiting for its upload. */
  lemma LocationBackfillOutcome(row: JobRow, storageType: string, config: Config)
    requires NeedsLocation(row)
    ensures row.status == Failed ==> NeedsLocation(BackfillLocation(row, storageType, config))
    ensures row.status == Succeeded ==> !NeedsLocation(BackfillLocation(row, storageType, config))
    ensures row.status == Succeeded && (storageType == "pvc" || IsCloudType(storageType)) ==>
      AwaitingUpload(BackfillLocation(row, storageType, config))
  {
    RecordedLocationShape(row.jobId, row.k8sNamespace, storageType, config);
  }

  /** Pass 2's upload for one row: one `upload_results_from_pvc` call. */
  method UploadStep(api: ApiServer, row: JobRow, storageType: string)
    requires IsCloudType(storageType)
    modifies api`configMaps, api`jobs, api`writes
    ensures ObjectsOf(api) == Upload(Target(row), storageType, api.refused, old(ObjectsOf(api)))
  {
    var _ := UploadResultsFromPvc(api, row.jobId, row.tenantId, row.k8sNamespace, storageType, true);
  }

  /** A row pass 2 starts an upload for. */
  predicate StartsUpload(row: JobRow, storageType: string) {
    NeedsLocation(row) && row.status == Succeeded && IsCloudType(storageType)
  }

  function Starters(rows: map<string, JobRow>, storageType: string): set<string> {
    set id | id in rows && StartsUpload(rows[id], storageType)
  }

  /** Pass 2's table after one more row is backfilled. */
  lemma LocationStepTable(rows0: map<string, JobRow>, done: set<string>, id: string, storageType: string,
                          config: Config, rows: map<string, JobRow>)
    requires id in rows0 && id !in done
    requires rows == map j | j in rows0 :: if j in done then BackfillLocation(rows0[j], storageType, config) else rows0[j]
    ensures rows[id] == rows0[id]
    ensures rows[id := BackfillLocation(rows[id], storageType, config)] ==
      map j | j in rows0 :: if j in done + {id} then BackfillLocation(rows0[j], storageType, config) else rows0[j]
  {
  }

  /** Pass 2: every selected row is updated; a succeeded row on a cloud
      backend first starts its upload. `uploads` is the order in which the
      uploading rows were handled: each of them exactly once, and the
      cluster changes exactly by their uploads in that order. */
  method BackfillLocationsPass(table: JobStore, api: ApiServer, storageType: string, config: Config)
    returns (ghost uploads: seq<string>)
    modifies table, api`configMaps, api`jobs, api`writes
    ensures table.rows == LocationPass(old(table.rows), storageType, config)
    ensures forall id :: id in uploads <==> id in Starters(old(table.rows), storageType)
    ensures Distinct(uploads)
    ensures Within(uploads, Targets(old(table.rows)))
    ensures ObjectsOf(api) == UploadsAlong(Targets(old(table.rows)), uploads, storageType, api.refused, old(ObjectsOf(api)))
  {
    ghost var rows0 := table.rows;
    ghost var objects0 := ObjectsOf(api);
    var selected := set id | id in table.rows && NeedsLocation(table.rows[id]);
    var pending := selected;
    uploads := [];
    while pending != {}
      invariant pending <= selected
      invariant table.rows == map id | id in rows0 ::
        if id in selected - pending then BackfillLocation(rows0[id], storageType, config) else rows0[id]
      invariant UploadsSoFar(Targets(rows0), Starters(rows0, storageType), selected - pending, uploads, storageType,
                             api.refused, objects0, ObjectsOf(api))
      decreases pending
    {
      var id :| id in pending;
      LocationStepTable(rows0, selected - pending, id, storageType, config, table.rows);
      var row := table.rows[id];
      ghost var before := ObjectsOf(api);
      if row.status == Succeeded && IsCloudType(storageType) {
        UploadStep(api, row, storageType);
      }
      UploadsSoFarStep(Targets(rows0), Starters(rows0, storageType), selected - pending, id, uploads, storageType,
                       api.refused, objects0, before, ObjectsOf(api));
      if row.status == Succeeded && IsCloudType(storageType) {
        uploads := uploads + [id];
      }
      PendingStep(selected, pending, id);
      table.rows := table.rows[id := BackfillLocation(row, storageType, config)];
      pending := pending - {id};
    }
  }

  // ---------------------------------------------------------------------
  // Pass 3: upload completion

  predicate AwaitingUpload(row: JobRow) {
    row.status == Succeeded && row.resultFiles.None? && row.resultLocation.Some? &&
    Contains(row.resultLocation.value, "results/")
  }

  /** Pass 3 for one row: once the upload job reports a succeeded pod the
      row records the backend and prefix; a missing job, an unreadable one
      or one not yet done changes nothing. */
  function RecordUpload(row: JobRow, uploadRead: JobRead, storageType: string, config: Config): (r: JobRow)
    ensures r == row.(resultFiles := r.resultFiles)
    ensures row.resultFiles.None? ==> (r.resultFiles.Some? <==> uploadRead.JobFound? && uploadRead.status.succeeded > 0)
  {
    if uploadRead.JobFound? && uploadRead.status.succeeded > 0 then
      var info := GetResultStorageInfo(row.jobId, row.k8sNamespace, storageType, config);
      row.(resultFiles := Some(ResultFiles(storageType, true, InfoPrefix(info))))
    else row
  }

  function UploadPass(rows: map<string, JobRow>, read: ObjKey -> JobRead, storageType: string, config: Config): map<string, JobRow> {
    map id | id in rows :: if AwaitingUpload(rows[id]) then RecordUpload(rows[id], read(UploadJobKey(rows[id])), storageType, config) else rows[id]
  }

  /** The rows pass 3 records results for: awaiting their upload, whose
      upload job has a succeeded pod. */
  function UploadsFinished(rows: map<string, JobRow>, read: ObjKey -> JobRead): set<string> {
    set id | id in rows && AwaitingUpload(rows[id]) &&
      read(UploadJobKey(rows[id])).JobFound? && read(UploadJobKey(rows[id])).status.succeeded > 0
  }

  /** Pass 3's table after one more row is looked at. */
  lemma UploadStepTable(rows0: map<string, JobRow>, done: set<string>, id: string, read: ObjKey -> JobRead,
                        storageType: string, config: Config, rows: map<string, JobRow>)
    requires id in rows0 && id !in done
    requires rows == map j | j in rows0 ::
      if j in done then RecordUpload(rows0[j], read(UploadJobKey(rows0[j])), storageType, config) else rows0[j]
    ensures rows[id := RecordUpload(rows[id], read(UploadJobKey(rows[id])), storageType, config)] ==
      map j | j in rows0 ::
        if j in done + {id} then RecordUpload(rows0[j], read(UploadJobKey(rows0[j])), storageType, config) else rows0[j]
  {
  }

  /** Pass 3. Returns the rows it updated and the jobs whose claim is to be
      emptied after a cloud upload. */
  method RecordUploadsPass(table: JobStore, read: ObjKey -> JobRead, storageType: string, config: Config)
    returns (updated: set<string>, claimCleanups: set<string>)
    modifies table
    ensures table.rows == UploadPass(old(table.rows), read, storageType, config)
    ensures updated == UploadsFinished(old(table.rows), read)
    ensures claimCleanups == if IsCloudType(storageType) then updated else {}
  {
    ghost var rows0 := table.rows;
    var selected := set id | id in table.rows && AwaitingUpload(table.rows[id]);
    var pending := selected;
    updated := {};
    claimCleanups := {};
    while pending != {}
      invariant pending <= selected
      invariant table.rows == map id | id in rows0 ::
        if id in selected - pending then RecordUpload(rows0[id], read(UploadJobKey(rows0[id])), storageType, config) else rows0[id]
      invariant updated == set id | id in selected - pending &&
        read(UploadJobKey(rows0[id])).JobFound? && read(UploadJobKey(rows0[id])).status.succeeded > 0
      invariant claimCleanups == if IsCloudType(storageType) then updated else {}
      decreases pending
    {
      var id :| id in pending;
      var row := table.rows[id];
      var upload := read(UploadJobKey(row));
      UploadStepTable(rows0, selected - pending, id, read, storageType, config, table.rows);
      PendingStep(selected, pending, id);
      if upload.JobFound? && upload.status.succeeded > 0 {
        table.rows := table.rows[id := RecordUpload(row, upload, storageType, config)];
        updated := updated + {id};
        if IsCloudType(storageType) {
          claimCleanups := claimCleanups + {id};
        }
      } else {
        assert table.rows[id := RecordUpload(row, upload, storageType, config)] == table.rows;
      }
      pending := pending - {id};
    }
  }

  // ---------------------------------------------------------------------
  // Pass 4: active jobs

  predicate TerminalCondition(c: Condition) {
    c.status == "True" && (c.condType == "Failed" || c.condType == "Complete")
  }

  /** The outcome of the condition scan: the first Failed/True or
      Complete/True condition decides; without one the stored status stays. */
  function ConditionStatus(conds: seq<Condition>, stored: Status): (s: Status)
    ensures s == stored || IsTerminal(s)
  {
    if conds == [] then stored
    else if conds[0].condType == "Failed" && conds[0].status == "True" then Failed
    else if conds[0].condType == "Complete" && conds[0].status == "True" then Succeeded
    else ConditionStatus(conds[1..], stored)
  }

  lemma {:induction false} ConditionStatusFirstMatch(conds: seq<Condition>, stored: Status, i: nat)
    requires i < |conds| && TerminalCondition(conds[i])
    requires forall j :: 0 <= j < i ==> !TerminalCondition(conds[j])
    ensures ConditionStatus(conds, stored) == if conds[i].condType == "Failed" then Failed else Succeeded
  {
    if i > 0 {
      assert !TerminalCondition(conds[0]);
      ConditionStatusFirstMatch(conds[1..], stored, i - 1);
    }
  }

  lemma {:induction false} ConditionStatusNoMatch(conds: seq<Condition>, stored: Status)
    requires forall j :: 0 <= j < |conds| ==> !TerminalCondition(conds[j])
    ensures ConditionStatus(conds, stored) == stored
  {
    if conds != [] {
      assert !TerminalCondition(conds[0]);
      ConditionStatusNoMatch(conds[1..], stored);
    }
  }

  /** The condition loop, with its early exit. */
  method ScanConditions(conds: seq<Condition>, stored: Status) returns (s: Status)
    ensures s == ConditionStatus(conds, stored)
  {
    s := stored;
    var i := 0;
    while i < |conds|
      invariant 0 <= i <= |conds|
      invariant ConditionStatus(conds, stored) == ConditionStatus(conds[i..], stored)
    {
      if conds[i].condType == "Failed" && conds[i].status == "True" {
        s := Failed;
        return;
      } else if conds[i].condType == "Complete" && conds[i].status == "True" {
        s := Succeeded;
        return;
      }
      assert conds[i..][1..] == conds[i + 1..];
      i := i + 1;
    }
  }

  /** The status pass 4 settles on: the condition scan, then the override
      of a PENDING row whose job has active pods, which wins even over a
      terminal condition. */
  function NewStatus(stored: Status, st: JobStatus): (s: Status)
    ensures s == stored || s == Running || IsTerminal(s)
    ensures st.active > 0 && stored == Pending ==> s == Running
  {
    if st.active > 0 && stored == Pending then Running else ConditionStatus(st.conditions, stored)
  }

  /** A status never moves backwards: from an active status the pass only
      reaches the same status, RUNNING or a terminal one. */
  lemma NewStatusAdvances(stored: Status, st: JobStatus)
    requires IsActive(stored)
    ensures Rank(NewStatus(stored, st)) >= Rank(stored)
    ensures NewStatus(stored, st) != stored ==> NewStatus(stored, st) == Running || IsTerminal(NewStatus(stored, st))
    ensures NewStatus(stored, st) == Running && stored != Running ==> stored == Pending
  {
  }

  /** Pass 4 for one row. A 404 marks the job FAILED with a finish time;
      another read error changes nothing; otherwise the row is written only
      when the status changes: to RUNNING with a start time, or to a
      terminal status with a finish time, the start time kept or set, the
      result location and no result files. */
  function SyncActive(row: JobRow, read: JobRead, storageType: string, config: Config, uploadStarted: bool,
                      now: int): (r: JobRow)
    ensures r.jobId == row.jobId && r.tenantId == row.tenantId && r.submittedAt == row.submittedAt
    ensures read.JobReadError? ==> r == row
    ensures read.JobNotFound? ==> r == row.(status := Failed, finishedAt := Some(now))
    ensures read.JobFound? && NewStatus(row.status, read.status) == row.status ==> r == row
    ensures read.JobFound? ==> r.status == NewStatus(row.status, read.status)
  {
    match read
    case JobReadError => row
    case JobNotFound => row.(status := Failed, finishedAt := Some(now))
    case JobFound(st) =>
      var next := NewStatus(row.status, st);
      if next == row.status then row
      else if next == Running then row.(status := Running, startedAt := Some(now))
      else
        row.(status := next, finishedAt := Some(now),
             startedAt := if row.startedAt.Some? then row.startedAt else Some(now),
             resultLocation := ResultLocation(row, next, storageType, config, uploadStarted),
             resultFiles := None)
  }

  /** A terminal transition records the finish, keeps a start already set,
      and records the location: none when FAILED, the prefix when the cloud
      upload started, the claim path otherwise. */
  lemma TerminalTransition(row: JobRow, st: JobStatus, storageType: string, config: Config, uploadStarted: bool, now: int)
    requires IsActive(row.status) && IsTerminal(NewStatus(row.status, st))
    ensures var r := SyncActive(row, JobFound(st), storageType, config, uploadStarted, now);
      var info := GetResultStorageInfo(row.jobId, row.k8sNamespace, storageType, config);
      && r.finishedAt == Some(now)
      && r.startedAt == (if row.startedAt.Some? then row.startedAt else Some(now))
      && r.resultFiles.None?
      && (r.status == Failed ==> r.resultLocation.None?)
      && (r.status == Succeeded && IsCloudType(storageType) && uploadStarted ==> r.resultLocation == Some(InfoPrefix(info)))
      && (r.status == Succeeded && !(IsCloudType(storageType) && uploadStarted) ==> r.resultLocation == Some(InfoPath(info)))
      && (r.status == Succeeded && IsCloudType(storageType) && !uploadStarted ==> r.resultLocation == Some(""))
  {
  }

  /** A job that succeeds on a cloud backend while its upload cannot be
      started records the location "": the cloud description has no path.
      Pass 2 no longer selects the row (it has a location) and pass 3 never
      does (no "results/" in it), so its results are never recorded. */
  lemma FailedUploadLeavesNoResults(row: JobRow, st: JobStatus, storageType: string, config: Config, now: int)
    requires IsActive(row.status) && NewStatus(row.status, st) == Succeeded && IsCloudType(storageType)
    ensures var r := SyncActive(row, JobFound(st), storageType, config, false, now);
      && r.status == Succeeded && r.resultLocation == Some("")
      && !NeedsLocation(r) && !AwaitingUpload(r)
  {
    var r := SyncActive(row, JobFound(st), storageType, config, false, now);
    assert !Contains("", "results/");
  }

  /** A row leaves pass 4 in a terminal status exactly by this transition:
      read found, status changed, new status terminal. */
  predicate FinishesNow(row: JobRow, read: JobRead) {
    read.JobFound? && NewStatus(row.status, read.status) != row.status && IsTerminal(NewStatus(row.status, read.status))
  }

  function ActivePass(rows: map<string, JobRow>, read: ObjKey -> JobRead, storageType: string, config: Config,
                      started: set<string>, now: int): map<string, JobRow> {
    map id | id in rows ::
      if IsActive(rows[id].status) then SyncActive(rows[id], read(JobKey(rows[id])), storageType, config, id in started, now)
      else rows[id]
  }

  /** A row whose job succeeds now, on a cloud backend: pass 4 starts its
      upload. */
  predicate UploadsNow(row: JobRow, read: JobRead, storageType: string) {
    FinishesNow(row, read) && NewStatus(row.status, read.status) == Succeeded && IsCloudType(storageType)
  }

  function ActiveUploaders(rows: map<string, JobRow>, read: ObjKey -> JobRead, storageType: string): set<string> {
    set id | id in rows && IsActive(rows[id].status) && UploadsNow(rows[id], read(JobKey(rows[id])), storageType)
  }

  /** Pass 4 for one row, with its side effects: the cloud upload of a
      job that just succeeded, and whether an UPDATE was issued and a
      ConfigMap cleanup scheduled. */
  method SyncActiveRow(api: ApiServer, row: JobRow, observed: JobRead, storageType: string, config: Config, now: int)
    returns (next: JobRow, wrote: bool, uploadStarted: bool, cleanup: bool)
    modifies api`configMaps, api`jobs, api`writes
    ensures next == SyncActive(row, observed, storageType, config, uploadStarted, now)
    ensures wrote == Rewrites(row, observed)
    ensures cleanup == FinishesNow(row, observed)
    ensures uploadStarted ==
      (UploadsNow(row, observed, storageType) && UploadAccepted(Target(row), old(ObjectsOf(api)), api.refused))
    ensures ObjectsOf(api) ==
      if UploadsNow(row, observed, storageType) then Upload(Target(row), storageType, api.refused, old(ObjectsOf(api)))
      else old(ObjectsOf(api))
  {
    next, wrote, uploadStarted, cleanup := row, false, false, false;
    match observed {
      case JobReadError =>
      case JobNotFound =>
        next := row.(status := Failed, finishedAt := Some(now));
        wrote := true;
      case JobFound(st) =>
        var status := ScanConditions(st.conditions, row.status);
        if st.active > 0 && row.status == Pending {
          status := Running;
        }
        if status != row.status {
          if status == Running {
            next := row.(status := Running, startedAt := Some(now));
          } else {
            if status == Succeeded && IsCloudType(storageType) {
              var upload := UploadResultsFromPvc(api, row.jobId, row.tenantId, row.k8sNamespace, storageType, true);
              uploadStarted := upload.Some?;
            }
            next := SyncActive(row, observed, storageType, config, uploadStarted, now);
            cleanup := true;
          }
          wrote := true;
        }
    }
  }

  /** Pass 4's table after one more row is synchronised. */
  lemma ActiveStepTable(rows0: map<string, JobRow>, done: set<string>, id: string, read: ObjKey -> JobRead,
                        storageType: string, config: Config, started: set<string>, started': set<string>, now: int,
                        rows: map<string, JobRow>, next: JobRow)
    requires id in rows0 && id !in done
    requires forall j :: j != id ==> (j in started <==> j in started')
    requires rows == map j | j in rows0 ::
      if j in done then SyncActive(rows0[j], read(JobKey(rows0[j])), storageType, config, j in started, now) else rows0[j]
    requires next == SyncActive(rows0[id], read(JobKey(rows0[id])), storageType, config, id in started', now)
    ensures rows[id := next] == map j | j in rows0 ::
      if j in done + {id} then SyncActive(rows0[j], read(JobKey(rows0[j])), storageType, config, j in started', now)
      else rows0[j]
  {
  }

  /** Pass 4 issues an UPDATE for a row: its job is gone, or its status
      changes. */
  predicate Rewrites(row: JobRow, observed: JobRead) {
    observed.JobNotFound? || (observed.JobFound? && NewStatus(row.status, observed.status) != row.status)
  }

  function RewrittenRows(rows: map<string, JobRow>, read: ObjKey -> JobRead): set<string> {
    set id | id in rows && Rewrites(rows[id], read(JobKey(rows[id])))
  }

  function FinishingRows(rows: map<string, JobRow>, read: ObjKey -> JobRead): set<string> {
    set id | id in rows && FinishesNow(rows[id], read(JobKey(rows[id])))
  }

  /** The sets pass 4 collects, after one more row. */
  lemma ActiveSetsStep(rows0: map<string, JobRow>, read: ObjKey -> JobRead, done: set<string>, id: string,
                       updated: set<string>, started: set<string>, cleanups: set<string>,
                       wrote: bool, uploadStarted: bool, cleanup: bool)
    requires started <= cleanups <= done
    requires updated == done * RewrittenRows(rows0, read) && cleanups == done * FinishingRows(rows0, read)
    requires id in rows0
    requires wrote == Rewrites(rows0[id], read(JobKey(rows0[id])))
    requires cleanup == FinishesNow(rows0[id], read(JobKey(rows0[id])))
    requires uploadStarted ==> cleanup
    ensures (if uploadStarted then started + {id} else started) <= (if cleanup then cleanups + {id} else cleanups) <= done + {id}
    ensures (if wrote then updated + {id} else updated) == (done + {id}) * RewrittenRows(rows0, read)
    ensures (if cleanup then cleanups + {id} else cleanups) == (done + {id}) * FinishingRows(rows0, read)
  {
    assert id in RewrittenRows(rows0, read) <==> wrote;
    assert id in FinishingRows(rows0, read) <==> cleanup;
  }

  /** Pass 4's loop after the rows of `done`. */
  ghost predicate ActiveSoFar(rows0: map<string, JobRow>, read: ObjKey -> JobRead, storageType: string, config: Config,
                              now: int, done: set<string>, rows: map<string, JobRow>, updated: set<string>,
                              started: set<string>, cleanups: set<string>, uploads: seq<string>,
                              refused: set<(Kind, ObjKey)>, s0: ClusterObjects, s: ClusterObjects)
  {
    && started <= cleanups <= done
    && rows == (map id | id in rows0 ::
                  if id in done then SyncActive(rows0[id], read(JobKey(rows0[id])), storageType, config, id in started, now)
                  else rows0[id])
    && updated == done * RewrittenRows(rows0, read)
    && cleanups == done * FinishingRows(rows0, read)
    && UploadsSoFar(Targets(rows0), ActiveUploaders(rows0, read, storageType), done, uploads, storageType, refused, s0, s)
    && started == StartedAlong(Targets(rows0), uploads, storageType, refused, s0)
  }

  /** A row pass 4 has not reached yet is as it was. */
  lemma ActiveSoFarRow(rows0: map<string, JobRow>, read: ObjKey -> JobRead, storageType: string, config: Config,
                       now: int, done: set<string>, rows: map<string, JobRow>, updated: set<string>,
                       started: set<string>, cleanups: set<string>, uploads: seq<string>,
                       refused: set<(Kind, ObjKey)>, s0: ClusterObjects, s: ClusterObjects, id: string)
    requires ActiveSoFar(rows0, read, storageType, config, now, done, rows, updated, started, cleanups, uploads,
                         refused, s0, s)
    requires id in rows0 && id !in done
    ensures id in rows && rows[id] == rows0[id]
  {
  }

  /** One more active row synchronised by pass 4. */
  lemma ActiveSoFarStep(rows0: map<string, JobRow>, read: ObjKey -> JobRead, storageType: string, config: Config,
                        now: int, done: set<string>, rows: map<string, JobRow>, updated: set<string>,
                        started: set<string>, cleanups: set<string>, uploads: seq<string>,
                        refused: set<(Kind, ObjKey)>, s0: ClusterObjects, s: ClusterObjects,
                        id: string, next: JobRow, wrote: bool, uploadsNow: bool, uploadStarted: bool, cleanup: bool,
                        s': ClusterObjects)
    requires ActiveSoFar(rows0, read, storageType, config, now, done, rows, updated, started, cleanups, uploads,
                         refused, s0, s)
    requires id in rows0 && id !in done && IsActive(rows0[id].status)
    requires var row := rows0[id];
      var observed := read(JobKey(row));
      && next == SyncActive(row, observed, storageType, config, uploadStarted, now)
      && wrote == Rewrites(row, observed)
      && cleanup == FinishesNow(row, observed)
      && uploadsNow == UploadsNow(row, observed, storageType)
      && uploadStarted == (uploadsNow && UploadAccepted(Target(row), s, refused))
      && s' == if uploadsNow then Upload(Target(row), storageType, refused, s) else s
    ensures ActiveSoFar(rows0, read, storageType, config, now, done + {id}, rows[id := next],
                        if wrote then updated + {id} else updated,
                        if uploadStarted then started + {id} else started,
                        if cleanup then cleanups + {id} else cleanups,
                        if uploadsNow then uploads + [id] else uploads,
                        refused, s0, s')
  {
    var uploaders := ActiveUploaders(rows0, read, storageType);
    assert id in uploaders <==> UploadsNow(rows0[id], read(JobKey(rows0[id])), storageType);
    ActiveSetsStep(rows0, read, done, id, updated, started, cleanups, wrote, uploadStarted, cleanup);
    UploadsSoFarStep(Targets(rows0), uploaders, done, id, uploads, storageType, refused, s0, s, s');
    ActiveStepTable(rows0, done, id, read, storageType, config, started,
                    if uploadStarted then started + {id} else started, now, rows, next);
  }

  /** Pass 4's loop once every active row is synchronised. */
  lemma ActiveSoFarDone(rows0: map<string, JobRow>, read: ObjKey -> JobRead, storageType: string, config: Config,
                        now: int, active: set<string>, rows: map<string, JobRow>, updated: set<string>,
                        started: set<string>, cleanups: set<string>, uploads: seq<string>,
                        refused: set<(Kind, ObjKey)>, s0: ClusterObjects, s: ClusterObjects)
    requires active == set id | id in rows0 && IsActive(rows0[id].status)
    requires ActiveSoFar(rows0, read, storageType, config, now, active, rows, updated, started, cleanups, uploads,
                         refused, s0, s)
    ensures rows == ActivePass(rows0, read, storageType, config, started, now)
    ensures updated == set id | id in rows0 && IsActive(rows0[id].status) && Rewrites(rows0[id], read(JobKey(rows0[id])))
    ensures cleanups == set id | id in rows0 && IsActive(rows0[id].status) &&
      FinishesNow(rows0[id], read(JobKey(rows0[id])))
    ensures started <= cleanups
    ensures forall id :: id in uploads <==> id in ActiveUploaders(rows0, read, storageType)
    ensures Distinct(uploads) && Within(uploads, Targets(rows0))
    ensures s == UploadsAlong(Targets(rows0), uploads, storageType, refused, s0)
    ensures started == StartedAlong(Targets(rows0), uploads, storageType, refused, s0)
  {
  }

  /** Pass 4. Returns the rows an UPDATE was issued for, the jobs whose
      cloud upload started, and the jobs whose ConfigMap cleanup was
      scheduled. `uploads` is the order in which the rows that succeed now
      on a cloud backend were handled: each exactly once; the cluster
      changes exactly by their uploads in that order, and the started set is
      exactly the rows whose upload job was created at their turn. */
  method SyncActivePass(table: JobStore, api: ApiServer, read: ObjKey -> JobRead, storageType: string,
                        config: Config, now: int)
    returns (updated: set<string>, started: set<string>, cleanups: set<string>, ghost uploads: seq<string>)
    modifies table, api`configMaps, api`jobs, api`writes
    ensures table.rows == ActivePass(old(table.rows), read, storageType, config, started, now)
    ensures updated == set id | id in old(table.rows) && IsActive(old(table.rows)[id].status) &&
      Rewrites(old(table.rows)[id], read(JobKey(old(table.rows)[id])))
    ensures cleanups == set id | id in old(table.rows) && IsActive(old(table.rows)[id].status) &&
      FinishesNow(old(table.rows)[id], read(JobKey(old(table.rows)[id])))
    ensures started <= cleanups
    ensures forall id :: id in uploads <==> id in ActiveUploaders(old(table.rows), read, storageType)
    ensures Distinct(uploads)
    ensures Within(uploads, Targets(old(table.rows)))
    ensures ObjectsOf(api) == UploadsAlong(Targets(old(table.rows)), uploads, storageType, api.refused, old(ObjectsOf(api)))
    ensures started == StartedAlong(Targets(old(table.rows)), uploads, storageType, api.refused, old(ObjectsOf(api)))
  {
    ghost var rows0 := table.rows;
    ghost var objects0 := ObjectsOf(api);
    var selected := set id | id in table.rows && IsActive(table.rows[id].status);
    var pending := selected;
    updated, started, cleanups, uploads := {}, {}, {}, [];
    while pending != {}
      invariant pending <= selected
      invariant ActiveSoFar(rows0, read, storageType, config, now, selected - pending, table.rows, updated, started,
                            cleanups, uploads, api.refused, objects0, ObjectsOf(api))
      decreases pending
    {
      var id :| id in pending;
      ActiveSoFarRow(rows0, read, storageType, config, now, selected - pending, table.rows, updated, started,
                     cleanups, uploads, api.refused, objects0, ObjectsOf(api), id);
      var row := table.rows[id];
      var observed := read(JobKey(row));
      ghost var before := ObjectsOf(api);
      var next, wrote, uploadStarted, cleanup := SyncActiveRow(api, row, observed, storageType, config, now);
      ghost var after := ObjectsOf(api);
      ghost var uploadsNow := UploadsNow(row, observed, storageType);
      ActiveSoFarStep(rows0, read, storageType, config, now, selected - pending, table.rows, updated, started,
                      cleanups, uploads, api.refused, objects0, before,
                      id, next, wrote, uploadsNow, uploadStarted, cleanup, after);
      PendingStep(selected, pending, id);
      table.rows := table.rows[id := next];
      assert ObjectsOf(api) == after;
      updated := if wrote then updated + {id} else updated;
      uploads := if uploadsNow then uploads + [id] else uploads;
      started := if uploadStarted then started + {id} else started;
      cleanups := if cleanup then cleanups + {id} else cleanups;
      pending := pending - {id};
    }
    ActiveSoFarDone(rows0, read, storageType, config, now, selected, table.rows, updated, started,
                    cleanups, uploads, api.refused, objects0, ObjectsOf(api));
  }

  // ---------------------------------------------------------------------
  // One cycle

  /** The table after a full cycle, given which uploads started. */
  function Cycle(rows: map<string, JobRow>, read: ObjKey -> JobRead, storageType: string, config: Config,
                 started: set<string>, now: int): map<string, JobRow> {
    var afterTimestamps := TimestampPass(rows, read, now);
    var afterLocations := LocationPass(afterTimestamps, storageType, config);
    var afterUploads := UploadPass(afterLocations, read, storageType, config);
    ActivePass(afterUploads, read, storageType, config, started, now)
  }

  /** What a cycle produces besides the table. */
  datatype CycleEffects = CycleEffects(startedUploads: set<string>, configMapCleanups: set<string>, claimCleanups: set<string>)

  /** Passes 1 to 3 each keep the ids and what a row's upload reads; passes
      2 and 3 also keep the status. */
  lemma TimestampPassKeepsTargets(rows: map<string, JobRow>, read: ObjKey -> JobRead, now: int)
    ensures Targets(TimestampPass(rows, read, now)) == Targets(rows)
  {
    var a := TimestampPass(rows, read, now);
    assert forall id :: id in rows ==> Target(a[id]) == Target(rows[id]);
  }

  lemma LocationPassKeepsTargets(rows: map<string, JobRow>, storageType: string, config: Config)
    ensures Targets(LocationPass(rows, storageType, config)) == Targets(rows)
    ensures forall id :: id in rows ==> LocationPass(rows, storageType, config)[id].status == rows[id].status
  {
    var b := LocationPass(rows, storageType, config);
    assert forall id :: id in rows ==> Target(b[id]) == Target(rows[id]);
  }

  lemma UploadPassKeepsTargets(rows: map<string, JobRow>, read: ObjKey -> JobRead, storageType: string, config: Config)
    ensures Targets(UploadPass(rows, read, storageType, config)) == Targets(rows)
    ensures forall id :: id in rows ==> UploadPass(rows, read, storageType, config)[id].status == rows[id].status
  {
    var c := UploadPass(rows, read, storageType, config);
    assert forall id :: id in rows ==> Target(c[id]) == Target(rows[id]);
  }

  lemma PassesKeepTargets(rows: map<string, JobRow>, read: ObjKey -> JobRead, storageType: string, config: Config,
                          now: int)
    ensures var a := TimestampPass(rows, read, now);
      var b := LocationPass(a, storageType, config);
      var c := UploadPass(b, read, storageType, config);
      && Targets(a) == Targets(rows) && Targets(b) == Targets(rows) && Targets(c) == Targets(rows)
      && c.Keys == rows.Keys && (forall id :: id in rows ==> c[id].status == a[id].status)
  {
    var a := TimestampPass(rows, read, now);
    var b := LocationPass(a, storageType, config);
    TimestampPassKeepsTargets(rows, read, now);
    LocationPassKeepsTargets(a, storageType, config);
    UploadPassKeepsTargets(b, read, storageType, config);
  }

  /** `sync_job_status`, one iteration of its loop: nothing when the
      cluster is unreachable, else the four passes in order. The uploads
      of pass 2 (`locationUploads`) and of pass 4 (`activeUploads`) are
      returned in the order they were made: the cluster changes exactly by
      them, and the started uploads are exactly the pass-4 rows whose upload
      job was created at their turn. */
  method ReconcileCycle(table: JobStore, api: ApiServer, k8sAvailable: bool, read: ObjKey -> JobRead,
                        storageType: string, config: Config, now: int)
    returns (effects: CycleEffects, ghost locationUploads: seq<string>, ghost activeUploads: seq<string>)
    modifies table, api`configMaps, api`jobs, api`writes
    ensures !k8sAvailable ==>
      && table.rows == old(table.rows) && effects == CycleEffects({}, {}, {})
      && locationUploads == [] && activeUploads == []
      && api.configMaps == old(api.configMaps) && api.jobs == old(api.jobs) && api.writes == old(api.writes)
    ensures k8sAvailable ==> table.rows == Cycle(old(table.rows), read, storageType, config, effects.startedUploads, now)
    ensures k8sAvailable ==>
      var afterTimestamps := TimestampPass(old(table.rows), read, now);
      var afterLocations := LocationPass(afterTimestamps, storageType, config);
      var afterUploads := UploadPass(afterLocations, read, storageType, config);
      && effects.claimCleanups == (if IsCloudType(storageType) then UploadsFinished(afterLocations, read) else {})
      && effects.configMapCleanups == (set id | id in afterUploads && IsActive(afterUploads[id].status) &&
                                         FinishesNow(afterUploads[id], read(JobKey(afterUploads[id]))))
      && effects.startedUploads <= effects.configMapCleanups
      && (forall id :: id in locationUploads <==> id in Starters(afterTimestamps, storageType))
      && (forall id :: id in activeUploads <==> id in ActiveUploaders(afterUploads, read, storageType))
    ensures Distinct(locationUploads + activeUploads)
    ensures Within(locationUploads, Targets(old(table.rows))) && Within(activeUploads, Targets(old(table.rows)))
    ensures Within(locationUploads + activeUploads, Targets(old(table.rows)))
    ensures ObjectsOf(api) == UploadsAlong(Targets(old(table.rows)), locationUploads + activeUploads, storageType,
                                           api.refused, old(ObjectsOf(api)))
    ensures effects.startedUploads ==
      StartedAlong(Targets(old(table.rows)), activeUploads, storageType, api.refused,
                   UploadsAlong(Targets(old(table.rows)), locationUploads, storageType, api.refused, old(ObjectsOf(api))))
    ensures forall id :: id in effects.startedUploads ==>
      var t := Targets(old(table.rows))[id];
      JobKeyOf(t) in api.jobs && api.jobs[JobKeyOf(t)] == UploadJob(t.jobId, t.namespace)
  {
    locationUploads, activeUploads := [], [];
    if !k8sAvailable {
      return CycleEffects({}, {}, {}), [], [];
    }
    ghost var rows0 := table.rows;
    ghost var objects0 := ObjectsOf(api);
    PassesKeepTargets(rows0, read, storageType, config, now);
    var _ := BackfillTimestampsPass(table, read, now);
    locationUploads := BackfillLocationsPass(table, api, storageType, config);
    var _, claims := RecordUploadsPass(table, read, storageType, config);
    var _, started, cleanups, uploads := SyncActivePass(table, api, read, storageType, config, now);
    activeUploads := uploads;
    DistinctAppend(locationUploads, activeUploads);
    UploadsAlongAppend(Targets(rows0), locationUploads, activeUploads, storageType, api.refused, objects0);
    UploadsAlongEach(Targets(rows0), locationUploads + activeUploads, storageType, api.refused, objects0);
    effects := CycleEffects(started, cleanups, claims);
  }

  // ---------------------------------------------------------------------
  // Properties of a cycle, row by row

  /** The same cycle for one row. */
  function CycleRow(row: JobRow, read: ObjKey -> JobRead, storageType: string, config: Config,
                    uploadStarted: bool, now: int): JobRow {
    var r1 := if NeedsTimestamps(row) then BackfillTimestamps(row, read(JobKey(row)), now) else row;
    var r2 := if NeedsLocation(r1) then BackfillLocation(r1, storageType, config) else r1;
    var r3 := if AwaitingUpload(r2) then RecordUpload(r2, read(UploadJobKey(r2)), storageType, config) else r2;
    if IsActive(r3.status) then SyncActive(r3, read(JobKey(r3)), storageType, config, uploadStarted, now) else r3
  }

  /** Every row is reconciled on its own: a cycle keeps the ids and maps each
      row by its own reads only. */
  lemma CycleIsRowwise(rows: map<string, JobRow>, read: ObjKey -> JobRead, storageType: string, config: Config,
                       started: set<string>, now: int)
    ensures Cycle(rows, read, storageType, config, started, now).Keys == rows.Keys
    ensures forall id :: id in rows ==>
      Cycle(rows, read, storageType, config, started, now)[id] == CycleRow(rows[id], read, storageType, config, id in started, now)
  {
  }

  /** A terminal row's status is never changed by a cycle, and no status
      moves backwards. */
  lemma CycleRowAdvances(row: JobRow, read: ObjKey -> JobRead, storageType: string, config: Config,
                         uploadStarted: bool, now: int)
    ensures var r := CycleRow(row, read, storageType, config, uploadStarted, now);
      Rank(r.status) >= Rank(row.status) && (IsTerminal(row.status) ==> r.status == row.status)
  {
    if IsActive(row.status) {
      var obs := read(JobKey(row));
      if obs.JobFound? {
        NewStatusAdvances(row.status, obs.status);
      }
    }
  }

  /** A cycle keeps rows well formed, and timestamps and result files, once
      set, are never overwritten. */
  lemma CycleRowKeepsRecords(row: JobRow, read: ObjKey -> JobRead, storageType: string, config: Config,
                             uploadStarted: bool, now: int)
    requires WellFormed(row)
    ensures var r := CycleRow(row, read, storageType, config, uploadStarted, now);
      && WellFormed(r)
      && (row.startedAt.Some? ==> r.startedAt == row.startedAt)
      && (row.finishedAt.Some? ==> r.finishedAt == row.finishedAt)
      && (row.resultFiles.Some? ==> r.resultFiles == row.resultFiles)
  {
    var r1 := if NeedsTimestamps(row) then BackfillTimestamps(row, read(JobKey(row)), now) else row;
    var r2 := if NeedsLocation(r1) then BackfillLocation(r1, storageType, config) else r1;
    var r3 := if AwaitingUpload(r2) then RecordUpload(r2, read(UploadJobKey(r2)), storageType, config) else r2;
    assert r3.status == row.status;
    if IsActive(r3.status) {
      var obs := read(JobKey(r3));
      if obs.JobFound? {
        NewStatusAdvances(r3.status, obs.status);
      }
    }
  }

  /** A read failure other than 404 leaves an active row exactly as it was. */
  lemma ReadErrorIsolated(row: JobRow, read: ObjKey -> JobRead, storageType: string, config: Config,
                          uploadStarted: bool, now: int)
    requires IsActive(row.status) && read(JobKey(row)).JobReadError?
    ensures CycleRow(row, read, storageType, config, uploadStarted, now) == row
  {
  }

  // ---------------------------------------------------------------------
  // Orphaned ConfigMaps

  /** `cleanup_old_configmaps` deletes a ConfigMap outside the `kube-`
      namespaces that is labelled `cleanup=true`, is more than an hour old
      and names, in its `job-id` label, a job the table does not have. */
  predicate IsOrphan(key: ObjKey, cm: ConfigMap, createdAt: int, now: int, rows: map<string, JobRow>) {
    && !StartsWith(key.namespace, "kube-")
    && "cleanup" in cm.labels && cm.labels["cleanup"] == "true"
    && now - createdAt > 3600
    && "job-id" in cm.labels && cm.labels["job-id"] != ""
    && cm.labels["job-id"] !in rows
  }

  /** A payload ConfigMap is swept only once its job's row is gone, and is
      then swept after an hour (outside the `kube-` namespaces). */
  lemma PayloadSweptIffOrphaned(ns: string, jobId: string, b64: string, key: ObjKey, createdAt: int, now: int,
                                rows: map<string, JobRow>)
    requires key in PayloadConfigMaps(ns, jobId, b64)
    requires jobId != "" && !StartsWith(ns, "kube-") && now - createdAt > 3600
    ensures IsOrphan(key, PayloadConfigMaps(ns, jobId, b64)[key], createdAt, now, rows) <==> jobId !in rows
  {
    if |b64| > MaxChunkSize {
      ChunkMapsKeys(ns, jobId, b64, ChunkCount(|b64|));
      var i :| 0 <= i < ChunkCount(|b64|) && ChunkKeys(ns, jobId, ChunkCount(|b64|))[i] == key;
      assert PayloadConfigMaps(ns, jobId, b64)[key] == ChunkConfigMap(jobId, ChunkData(b64, i));
    }
    assert key.namespace == ns;
  }

  /** One sweep: every listed namespace is scanned except the ones whose
      listing fails; a failed delete is ignored. */
  method SweepOrphanedConfigMaps(api: ApiServer, rows: map<string, JobRow>, createdAt: ObjKey -> int, now: int,
                                 k8sAvailable: bool, unlisted: set<string>)
    modifies api`configMaps, api`writes
    ensures !k8sAvailable ==> api.configMaps == old(api.configMaps)
    ensures k8sAvailable ==>
      api.configMaps == old(api.configMaps) - (set key | key in old(api.configMaps) && key.namespace in api.namespaces && key.namespace !in unlisted &&
                 IsOrphan(key, old(api.configMaps)[key], createdAt(key), now, rows) && key !in api.undeletable)
    ensures old(api.writes) <= api.writes
  {
    if !k8sAvailable {
      return;
    }
    var targets := set key | key in api.configMaps && key.namespace in api.namespaces && key.namespace !in unlisted &&
                             IsOrphan(key, api.configMaps[key], createdAt(key), now, rows);
    var remaining := targets;
    while remaining != {}
      invariant remaining <= targets
      invariant api.configMaps == old(api.configMaps) - ((targets - remaining) - api.undeletable)
      invariant old(api.writes) <= api.writes
      decreases remaining
    {
      var key :| key in remaining;
      var _ := api.DeleteConfigMap(key);
      remaining := remaining - {key};
    }
  }
}
