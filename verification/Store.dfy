/**
 The Postgres store as an object: its two job tables are fields that the methods
 update statement by statement. Each method is proved to take the tables where
 the corresponding function of `Jobs` says.
 */
module Stores {
  import opened Jobs
  import Paging

  /** A listing is exactly the tenant's rows with the requested queue and status. */
  lemma ListedIds(db: Db, tenant: Tenant, f: Filter)
    ensures Jobs.ListJobs(db, tenant, f).Keys
            == set id | id in db.jobs && db.jobs[id].tenant == tenant
                        && (f.queue == "" || db.jobs[id].queue == f.queue)
                        && (f.status == None || Some(db.jobs[id].status) == f.status)
    ensures forall id | id in Jobs.ListJobs(db, tenant, f) :: Jobs.ListJobs(db, tenant, f)[id] == db.jobs[id]
  {
  }

  class Store {
    var jobs: map<Id, Row>
    var dlq: map<Id, DlqRow>

    constructor ()
      ensures Tables() == Db(map[], map[])
    {
      jobs, dlq := map[], map[];
    }

    ghost function Tables(): Db
      reads this
    {
      Db(jobs, dlq)
    }

    /** INSERT: a taken id or a max_retries the column cannot hold is refused. */
    method CreateJob(d: Draft) returns (r: Result<Row>)
      modifies this
      ensures Tables() == Jobs.CreateJob(old(Tables()), d)
      ensures r == if CanInsert(old(Tables()), d) then Ok(NewRow(d)) else Err(PersistFailed)
      ensures r.Ok? <==> d.id !in old(jobs) && -0x8000_0000 <= d.maxRetries <= 0x7fff_ffff
      ensures r.Ok? ==>
                && r.value == Row(d.tenant, d.queue, d.jobType, d.payload, if d.status.Some? then d.status.value else Pending,
                                  None, None, 0, d.maxRetries, None, None)
                && jobs == old(jobs)[d.id := r.value]
      ensures (r.Err? ==> jobs == old(jobs)) && dlq == old(dlq)
    {
      if d.id in jobs || !Int32(d.maxRetries) {
        return Err(PersistFailed);
      }
      var row := NewRow(d);
      jobs := jobs[d.id := row];
      r := Ok(row);
    }

    method GetJob(tenant: Tenant, id: Id) returns (r: Result<Row>)
      ensures r == Jobs.GetJob(Tables(), tenant, id)
      ensures r.Ok? <==> id in jobs && jobs[id].tenant == tenant
      ensures r.Ok? ==> r.value == jobs[id]
      ensures r.Err? ==> r.error == NotFound
    {
      if id in jobs && jobs[id].tenant == tenant {
        r := Ok(jobs[id]);
      } else {
        r := Err(NotFound);
      }
    }

    method ClaimJob(id: Id, at: Time) returns (r: Result<Row>)
      modifies this
      ensures Tables() == Jobs.ClaimJob(old(Tables()), id, at)
      ensures r == if Has(old(Tables()), id, Pending) then Ok(ClaimedRow(old(jobs)[id], at)) else Err(NotClaimable)
      ensures r.Ok? <==> id in old(jobs) && old(jobs)[id].status == Pending
      ensures r.Ok? ==>
                && r.value == old(jobs)[id].(status := Processing, startedAt := Some(at))
                && jobs == old(jobs)[id := r.value]
      ensures (r.Err? ==> jobs == old(jobs)) && dlq == old(dlq)
    {
      if id in jobs && jobs[id].status == Pending {
        jobs := jobs[id := jobs[id].(status := Processing, startedAt := Some(at))];
        r := Ok(jobs[id]);
      } else {
        r := Err(NotClaimable);
      }
    }

    method MarkCompleted(id: Id, result: string, at: Time)
      modifies this
      ensures Tables() == Jobs.MarkCompleted(old(Tables()), id, result, at)
      ensures id in old(jobs) ==>
                jobs == old(jobs)[id := old(jobs)[id].(status := Completed, result := Some(result), error := None, completedAt := Some(at))]
      ensures (id !in old(jobs) ==> jobs == old(jobs)) && dlq == old(dlq)
    {
      if id in jobs {
        jobs := jobs[id := jobs[id].(status := Completed, result := Some(result), error := None, completedAt := Some(at))];
      }
    }

    method MarkForRetry(id: Id, attempts: int, message: string) returns (ok: bool)
      modifies this
      ensures Tables() == Jobs.MarkForRetry(old(Tables()), id, attempts, message)
      ensures ok == Int32(attempts)
      ensures ok && id in old(jobs) ==>
                jobs == old(jobs)[id := old(jobs)[id].(status := Pending, retryCount := attempts, error := Some(message))]
      ensures (!ok || id !in old(jobs) ==> jobs == old(jobs)) && dlq == old(dlq)
    {
      if !Int32(attempts) {
        return false;
      }
      if id in jobs {
        jobs := jobs[id := jobs[id].(status := Pending, retryCount := attempts, error := Some(message))];
      }
      ok := true;
    }

    /** Two statements, one commit: the row first, then the dead-letter row read back from it. */
    method DeadLetter(id: Id, attempts: int, reason: string, at: Time) returns (ok: bool)
      modifies this
      ensures Tables() == Jobs.DeadLetter(old(Tables()), id, attempts, reason, at)
      ensures ok == Int32(attempts)
      ensures ok && id in old(jobs) ==>
                && jobs == old(jobs)[id := old(jobs)[id].(status := Failed, retryCount := attempts,
                                                          error := Some(reason), completedAt := Some(at))]
                && dlq == old(dlq)[id := DlqRow(if id in old(dlq) then old(dlq)[id].tenant else old(jobs)[id].tenant,
                                                reason, attempts)]
      ensures !ok || id !in old(jobs) ==> jobs == old(jobs) && dlq == old(dlq)
    {
      if !Int32(attempts) {
        return false;
      }
      var jobsTx, dlqTx := jobs, dlq;
      if id in jobsTx {
        jobsTx := jobsTx[id := jobsTx[id].(status := Failed, retryCount := attempts, error := Some(reason), completedAt := Some(at))];
      }
      if id in jobsTx {
        if id in dlqTx {
          dlqTx := dlqTx[id := dlqTx[id].(reason := reason, attempts := attempts)];
        } else {
          dlqTx := dlqTx[id := DlqRow(jobsTx[id].tenant, reason, attempts)];
        }
      }
      jobs, dlq := jobsTx, dlqTx;
      ok := true;
    }

    /** Lock and check, reset, clear the dead-letter row, commit; the later statements key on the id alone. */
    method RetryJob(tenant: Tenant, id: Id) returns (r: Result<Row>)
      modifies this
      ensures Tables() == Jobs.RetryJob(old(Tables()), tenant, id)
      ensures r == RetryReply(old(Tables()), tenant, id)
      ensures r == Err(NotFound) <==> id !in old(jobs) || old(jobs)[id].tenant != tenant
      ensures r == Err(NotRetryable) <==> id in old(jobs) && old(jobs)[id].tenant == tenant && old(jobs)[id].status != Failed
      ensures r.Ok? <==> id in old(jobs) && old(jobs)[id].tenant == tenant && old(jobs)[id].status == Failed
      ensures r.Ok? ==>
                && r.value == old(jobs)[id].(status := Pending, retryCount := 0, error := None, result := None,
                                             startedAt := None, completedAt := None)
                && jobs == old(jobs)[id := r.value] && dlq == old(dlq) - {id}
      ensures r.Err? ==> jobs == old(jobs) && dlq == old(dlq)
    {
      if id !in jobs || jobs[id].tenant != tenant {
        return Err(NotFound);
      }
      if jobs[id].status != Failed {
        return Err(NotRetryable);
      }
      var jobsTx, dlqTx := jobs, dlq;
      jobsTx := jobsTx[id := jobsTx[id].(status := Pending, retryCount := 0, error := None, result := None,
                                         startedAt := None, completedAt := None)];
      dlqTx := dlqTx - {id};
      jobs, dlq := jobsTx, dlqTx;
      r := Ok(jobs[id]);
    }

    method JobExists(tenant: Tenant, id: Id) returns (found: bool)
      ensures found <==> id in jobs && jobs[id].tenant == tenant
    {
      found := id in jobs && jobs[id].tenant == tenant;
    }

    /** The guarded update; when it matches no row a second query tells a missing job from a wrong state. */
    method CancelJob(tenant: Tenant, id: Id, at: Time) returns (r: Result<Row>)
      modifies this
      ensures Tables() == Jobs.CancelJob(old(Tables()), tenant, id, at)
      ensures r == CancelReply(old(Tables()), tenant, id, at)
      ensures r == Err(NotFound) <==> id !in old(jobs) || old(jobs)[id].tenant != tenant
      ensures r == Err(NotCancellable) <==> id in old(jobs) && old(jobs)[id].tenant == tenant && old(jobs)[id].status != Pending
      ensures r.Ok? <==> id in old(jobs) && old(jobs)[id].tenant == tenant && old(jobs)[id].status == Pending
      ensures r.Ok? ==>
                && r.value == old(jobs)[id].(status := Cancelled, completedAt := Some(at))
                && jobs == old(jobs)[id := r.value]
      ensures (r.Err? ==> jobs == old(jobs)) && dlq == old(dlq)
    {
      if id in jobs && jobs[id].tenant == tenant && jobs[id].status == Pending {
        jobs := jobs[id := jobs[id].(status := Cancelled, completedAt := Some(at))];
        return Ok(jobs[id]);
      }
      var present := JobExists(tenant, id);
      r := Err(if present then NotCancellable else NotFound);
    }

    /** The count query's scan: one tenant's matching rows, and their number. */
    method Matching(tenant: Tenant, f: Filter) returns (rows: map<Id, Row>, total: nat)
      ensures rows == Jobs.ListJobs(Tables(), tenant, f)
      ensures forall id | id in rows ::
                && id in jobs && rows[id] == jobs[id] && jobs[id].tenant == tenant
                && (f.queue == "" || jobs[id].queue == f.queue)
                && (f.status == None || Some(jobs[id].status) == f.status)
      ensures total == |rows|
      ensures total == |set id | id in jobs && jobs[id].tenant == tenant
                                 && (f.queue == "" || jobs[id].queue == f.queue)
                                 && (f.status == None || Some(jobs[id].status) == f.status)|
    {
      rows, total := map[], 0;
      var left := jobs.Keys;
      while left != {}
        invariant left <= jobs.Keys
        invariant rows == map id | id in jobs && id !in left && Matches(jobs[id], tenant, f) :: jobs[id]
        invariant total == |rows|
        decreases left
      {
        var id :| id in left;
        if Matches(jobs[id], tenant, f) {
          rows, total := rows[id := jobs[id]], total + 1;
        }
        left := left - {id};
      }
      ListedIds(Tables(), tenant, f);
    }

    /** A page of the tenant's matching rows, newest first, and the number of all of them. */
    method ListJobs(tenant: Tenant, f: Filter, created: Paging.Created, limit: nat, offset: nat)
      returns (page: seq<Paging.Listed>, total: nat)
      ensures Paging.IsPage(Jobs.ListJobs(Tables(), tenant, f), created, limit, offset, page)
      ensures total == |Jobs.ListJobs(Tables(), tenant, f)|
      ensures total == |set id | id in jobs && jobs[id].tenant == tenant
                                 && (f.queue == "" || jobs[id].queue == f.queue)
                                 && (f.status == None || Some(jobs[id].status) == f.status)|
      ensures |page| == if offset >= total then 0 else if offset + limit >= total then total - offset else limit
      ensures forall i | 0 <= i < |page| ::
                && page[i].id in jobs && page[i].row == jobs[page[i].id]
                && page[i].row.tenant == tenant
                && (f.queue == "" || page[i].row.queue == f.queue)
                && (f.status == None || Some(page[i].row.status) == f.status)
      ensures forall i, j | 0 <= i < j < |page| ::
                page[i].id != page[j].id && created(page[i].id) >= created(page[j].id)
    {
      var rows;
      rows, total := Matching(tenant, f);
      var all := Paging.NewestFirst(created, rows.Keys);
      Paging.PageShows(rows, created, all, limit, offset);
      page := Paging.Page(Paging.RowsIn(rows, all), limit, offset);
    }
  }
}
