/**
 The producer path shared by the API and the scheduler: fill in defaults, refuse
 an unowned job, persist, then push.
 */
module Enqueue {
  import opened Jobs
  import opened Redis
  import Stores
  import Queue

  const DEFAULT_MAX_RETRIES: int := 3

  /** What applyDefaults makes of a job: each unset field by itself, and never max_retries or the tenant. */
  function WithDefaults(d: Draft, newId: Id): (r: Draft)
    ensures r.id == (if d.id != NIL then d.id else newId)
    ensures d.queue != "" ==> r.queue == d.queue
    ensures d.queue == "" ==> r.queue == "default"
    ensures d.payload != "" ==> r.payload == d.payload
    ensures d.payload == "" ==> r.payload == "{}"
    ensures d.status.Some? ==> r.status == d.status
    ensures d.status.None? ==> r.status == Some(Pending)
    ensures r.tenant == d.tenant && r.maxRetries == d.maxRetries && r.jobType == d.jobType
  {
    Draft(if d.id == NIL then newId else d.id,
          d.tenant,
          if d.queue == "" then "default" else d.queue,
          d.jobType,
          if d.payload == "" then "{}" else d.payload,
          if d.status.None? then Some(Pending) else d.status,
          d.maxRetries)
  }

  /** A job on its way in, updated in place. */
  class JobRecord {
    var id: Id
    var tenant: Tenant
    var queue: string
    var jobType: string
    var payload: string
    var status: Option<Status>
    var maxRetries: int

    constructor (tenant: Tenant, queue: string, jobType: string, payload: string, maxRetries: int)
      ensures Value() == Draft(NIL, tenant, queue, jobType, payload, None, maxRetries)
    {
      this.id := NIL;
      this.tenant := tenant;
      this.queue := queue;
      this.jobType := jobType;
      this.payload := payload;
      this.status := None;
      this.maxRetries := maxRetries;
    }

    function Value(): Draft
      reads this
    {
      Draft(id, tenant, queue, jobType, payload, status, maxRetries)
    }

    method ApplyDefaults(newId: Id)
      modifies this
      ensures Value() == WithDefaults(old(Value()), newId)
      ensures id == (if old(id) != NIL then old(id) else newId)
      ensures queue == (if old(queue) != "" then old(queue) else "default")
      ensures payload == (if old(payload) != "" then old(payload) else "{}")
      ensures status == (if old(status).Some? then old(status) else Some(Pending))
      ensures tenant == old(tenant) && jobType == old(jobType) && maxRetries == old(maxRetries)
    {
      if id == NIL { id := newId; }
      if queue == "" { queue := "default"; }
      if payload == "" { payload := "{}"; }
      if status == None { status := Some(Pending); }
    }
  }

  /**
   Submit. A tenantless job touches neither store; a refused or failed insert
   leaves Redis alone; so a pushed id always has its row. `insertFails` and
   `pushFails` say whether the call to Postgres, or to Redis, fails.
   */
  method Submit(st: Stores.Store, q: Queue.WorkQueue, job: JobRecord, newId: Id, insertFails: bool, pushFails: bool)
    returns (r: Result<Row>)
    modifies st, q, job
    ensures job.Value() == WithDefaults(old(job.Value()), newId)
    ensures var d := job.Value();
            var db, lanes := old(st.Tables()), old(q.lanes);
            if d.tenant == NIL then
              r == Err(MissingTenant) && st.Tables() == db && q.lanes == lanes
            else if insertFails || !CanInsert(db, d) then
              r == Err(PersistFailed) && st.Tables() == db && q.lanes == lanes
            else if pushFails then
              r == Err(EnqueueAfterPersist) && st.Tables() == CreateJob(db, d) && q.lanes == lanes
            else
              && r == Ok(NewRow(d))
              && st.Tables() == CreateJob(db, d)
              && q.lanes == lanes[d.queue := LPush(LaneOf(lanes, d.queue), d.id)]
  {
    job.ApplyDefaults(newId);
    if job.tenant == NIL {
      return Err(MissingTenant);
    }
    if insertFails {
      return Err(PersistFailed);
    }
    r := st.CreateJob(job.Value());
    if r.Err? {
      return;
    }
    if pushFails {
      return Err(EnqueueAfterPersist);
    }
    q.Enqueue(job.queue, job.id);
  }
}
