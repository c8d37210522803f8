/**
 The rows of the two job tables and the SQL statements that touch them, each
 statement (or transaction) as a function from one database value to the next.
 `Store.dfy` holds the object whose methods are proved to do exactly this; the
 protocol modules interleave these functions.
 */
module Jobs {

  /** A UUID. Only equality, `NIL` and the order of the canonical text form matter. */
  type Id = nat
  type Tenant = nat
  /** Nanoseconds since the epoch. */
  type Time = int

  /** uuid.Nil, the "unset" id and the tenant the enqueue path refuses. */
  const NIL: nat := 0

  datatype Option<+T> = None | Some(value: T)

  datatype Error =
    | NotFound | NotClaimable | NotRetryable | NotCancellable
    | PersistFailed | EnqueueAfterPersist | MissingTenant

  datatype Result<+T> = Ok(value: T) | Err(error: Error)

  datatype Status = Pending | Processing | Completed | Failed | Cancelled

  /** One row of `jobs`; the id is its key in the table. */
  datatype Row = Row(
    tenant: Tenant,
    queue: string,
    jobType: string,
    payload: string,
    status: Status,
    result: Option<string>,
    error: Option<string>,
    retryCount: int,
    maxRetries: int,
    startedAt: Option<Time>,
    completedAt: Option<Time>)

  /** One row of `dead_letter_queue`, keyed by job id. */
  datatype DlqRow = DlqRow(tenant: Tenant, reason: string, attempts: int)

  datatype Db = Db(jobs: map<Id, Row>, dlq: map<Id, DlqRow>)

  /** A job as a producer hands it over; a missing status is the Go empty string. */
  datatype Draft = Draft(
    id: Id,
    tenant: Tenant,
    queue: string,
    jobType: string,
    payload: string,
    status: Option<Status>,
    maxRetries: int)

  /** `retry_count` and `max_retries` are INTEGER columns. */
  predicate Int32(n: int) {
    -0x8000_0000 <= n <= 0x7fff_ffff
  }

  /** How many attempts a `max_retries` value really buys: never fewer than one. */
  function Budget(maxRetries: int): (b: int) {
    if maxRetries < 1 then 1 else maxRetries
  }

  predicate Has(db: Db, id: Id, status: Status) {
    id in db.jobs && db.jobs[id].status == status
  }

  predicate OwnedBy(db: Db, tenant: Tenant, id: Id) {
    id in db.jobs && db.jobs[id].tenant == tenant
  }

  function Put(db: Db, id: Id, row: Row): Db {
    db.(jobs := db.jobs[id := row])
  }

  /** The row an INSERT leaves: retry_count takes its column default. */
  function NewRow(d: Draft): Row {
    Row(d.tenant, d.queue, d.jobType, d.payload,
        if d.status.Some? then d.status.value else Pending,
        None, None, 0, d.maxRetries, None, None)
  }

  predicate CanInsert(db: Db, d: Draft) {
    d.id !in db.jobs && Int32(d.maxRetries)
  }

  function CreateJob(db: Db, d: Draft): Db {
    if CanInsert(db, d) then Put(db, d.id, NewRow(d)) else db
  }

  function GetJob(db: Db, tenant: Tenant, id: Id): Result<Row> {
    if OwnedBy(db, tenant, id) then Ok(db.jobs[id]) else Err(NotFound)
  }

  function ClaimedRow(row: Row, at: Time): Row {
    row.(status := Processing, startedAt := Some(at))
  }

  function ClaimJob(db: Db, id: Id, at: Time): Db {
    if Has(db, id, Pending) then Put(db, id, ClaimedRow(db.jobs[id], at)) else db
  }

  /** Unguarded: whatever the status is, the row becomes completed. */
  function MarkCompleted(db: Db, id: Id, result: string, at: Time): Db {
    if id in db.jobs then
      Put(db, id, db.jobs[id].(status := Completed, result := Some(result), error := None, completedAt := Some(at)))
    else db
  }

  /** Unguarded: whatever the status is, the row becomes pending again. */
  function MarkForRetry(db: Db, id: Id, attempts: int, message: string): Db {
    if id in db.jobs && Int32(attempts) then
      Put(db, id, db.jobs[id].(status := Pending, retryCount := attempts, error := Some(message)))
    else db
  }

  /** ON CONFLICT keeps the tenant that is already there. */
  function DlqUpsert(dlq: map<Id, DlqRow>, id: Id, tenant: Tenant, reason: string, attempts: int): map<Id, DlqRow> {
    if id in dlq
    then dlq[id := dlq[id].(reason := reason, attempts := attempts)]
    else dlq[id := DlqRow(tenant, reason, attempts)]
  }

  /** Unguarded, over both tables in one transaction. */
  function DeadLetter(db: Db, id: Id, attempts: int, reason: string, at: Time): Db {
    if id in db.jobs && Int32(attempts) then
      Db(db.jobs[id := db.jobs[id].(status := Failed, retryCount := attempts, error := Some(reason), completedAt := Some(at))],
         DlqUpsert(db.dlq, id, db.jobs[id].tenant, reason, attempts))
    else db
  }

  predicate CanRetry(db: Db, tenant: Tenant, id: Id) {
    OwnedBy(db, tenant, id) && db.jobs[id].status == Failed
  }

  function ResetRow(row: Row): Row {
    row.(status := Pending, retryCount := 0, error := None, result := None, startedAt := None, completedAt := None)
  }

  function RetryJob(db: Db, tenant: Tenant, id: Id): Db {
    if CanRetry(db, tenant, id)
    then Db(db.jobs[id := ResetRow(db.jobs[id])], db.dlq - {id})
    else db
  }

  function RetryReply(db: Db, tenant: Tenant, id: Id): Result<Row> {
    if !OwnedBy(db, tenant, id) then Err(NotFound)
    else if db.jobs[id].status != Failed then Err(NotRetryable)
    else Ok(ResetRow(db.jobs[id]))
  }

  predicate CanCancel(db: Db, tenant: Tenant, id: Id) {
    OwnedBy(db, tenant, id) && db.jobs[id].status == Pending
  }

  function CancelledRow(row: Row, at: Time): Row {
    row.(status := Cancelled, completedAt := Some(at))
  }

  function CancelJob(db: Db, tenant: Tenant, id: Id, at: Time): Db {
    if CanCancel(db, tenant, id) then Put(db, id, CancelledRow(db.jobs[id], at)) else db
  }

  function CancelReply(db: Db, tenant: Tenant, id: Id, at: Time): Result<Row> {
    if CanCancel(db, tenant, id) then Ok(CancelledRow(db.jobs[id], at))
    else if OwnedBy(db, tenant, id) then Err(NotCancellable)
    else Err(NotFound)
  }

  /** An empty queue or a missing status means "do not filter on it". */
  datatype Filter = Filter(queue: string, status: Option<Status>)

  predicate Matches(row: Row, tenant: Tenant, f: Filter) {
    && row.tenant == tenant
    && (f.queue != "" ==> row.queue == f.queue)
    && (f.status.Some? ==> row.status == f.status.value)
  }

  /** The rows a tenant's listing selects, before ordering and paging. */
  function ListJobs(db: Db, tenant: Tenant, f: Filter): map<Id, Row> {
    map id | id in db.jobs && Matches(db.jobs[id], tenant, f) :: db.jobs[id]
  }

  // ---------------------------------------------------------------------------
  // What every reachable database satisfies.

  /** The columns of a row agree with its status. */
  ghost predicate RowOk(r: Row) {
    && Int32(r.maxRetries)
    && 0 <= r.retryCount
    && (r.status == Failed ==> r.retryCount == Budget(r.maxRetries))
    && (r.status != Failed ==> r.retryCount < Budget(r.maxRetries))
    && (r.result.Some? <==> r.status == Completed)
    && (r.error.Some? <==> r.status != Completed && r.retryCount > 0)
    && (r.status == Processing || r.status == Completed || r.status == Failed ==> r.startedAt.Some?)
    && (r.completedAt.Some? <==> r.status == Completed || r.status == Failed || r.status == Cancelled)
  }

  ghost predicate RowsOk(db: Db) {
    forall id | id in db.jobs :: RowOk(db.jobs[id])
  }

  /** A dead-letter row exists exactly for the failed jobs and says what the job says. */
  ghost predicate DlqOk(db: Db) {
    && (forall id | id in db.dlq :: Has(db, id, Failed))
    && (forall id | Has(db, id, Failed) ::
          id in db.dlq && db.jobs[id].error.Some?
          && db.dlq[id] == DlqRow(db.jobs[id].tenant, db.jobs[id].error.value, db.jobs[id].retryCount))
  }

  ghost predicate DbOk(db: Db) {
    RowsOk(db) && DlqOk(db)
  }
}
