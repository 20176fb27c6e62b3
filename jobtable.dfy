/** The `jobs` table: one row per submitted simulation, keyed by job id.
    Timestamps are integers on the database clock. */
module JobTable {
  import opened Common

  datatype Status = Pending | Running | Succeeded | Failed

  function StatusName(s: Status): string {
    match s
    case Pending => "PENDING"
    case Running => "RUNNING"
    case Succeeded => "SUCCEEDED"
    case Failed => "FAILED"
  }

  predicate IsActive(s: Status) { s == Pending || s == Running }

  predicate IsTerminal(s: Status) { s == Succeeded || s == Failed }

  /** The JSON object stored in `result_files` once an upload finished. */
  datatype ResultFiles = ResultFiles(storageType: string, uploaded: bool, prefix: string)

  datatype JobRow = JobRow(
    jobId: string,
    tenantId: string,
    k8sJobName: string,
    k8sNamespace: string,
    status: Status,
    scenarioId: string,
    configFile: string,
    cpuRequest: int,
    memoryGi: int,
    submittedAt: int,
    startedAt: Option<int>,
    finishedAt: Option<int>,
    resultLocation: Option<string>,
    resultFiles: Option<ResultFiles>)

  class JobStore {
    var rows: map<string, JobRow>

    constructor()
      ensures rows == map[]
    {
      rows := map[];
    }
  }

  /** The rows `SELECT ... WHERE tenant_id = t AND status IN ('PENDING', 'RUNNING')` returns. */
  function ActiveJobIds(rows: map<string, JobRow>, tenantId: string): (ids: set<string>)
    ensures forall id :: id in ids <==> (id in rows && rows[id].tenantId == tenantId && IsActive(rows[id].status))
  {
    set id | id in rows && rows[id].tenantId == tenantId && IsActive(rows[id].status)
  }
}
