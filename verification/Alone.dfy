/**
 The code of the worker and of the API handlers, as written: one call after the
 other on the store and the queue. Each is proved to be what its process does in
 the protocol when nothing interleaves with it, so the protocol's steps are the
 code's statements, in the code's order.
 */
module Alone {
  import opened Jobs
  import opened Backoff
  import opened Redis
  import P = Protocol
  import D = Delivery
  import Stores
  import Queue
  import Enqueue
  import Paging
  import T = Tenancy

  /** One activity with the database and the queues to itself. */
  datatype Solo = Solo(db: Db, lanes: Queues, pc: P.Pc)

  /** How many statements an activity has left, at most. */
  function Remaining(pc: P.Pc): nat {
    match pc
    case Idle => 0
    case Popped(_) => 5
    case Running(_, _) => 4
    case Errored(_, _, _) => 3
    case Succeeded(_, _, _) => 2
    case Parking(_, _, _) => 2
    case Submitting(_) => 2
    case Resetting(_, _) => 2
    case Cancelling(_, _) => 3
    case Unlisting(_, _) => 2
    case _ => 1
  }

  /** Every activity is finite: each statement leaves it with fewer to go. */
  lemma EveryStatementProgresses(db: Db, pc: P.Pc, o: P.Outcome, at: Time)
    requires !pc.Idle?
    ensures Remaining(P.Next(db, pc, o, at).pc) < Remaining(pc)
  {
  }

  /**
   What the environment decides, indexed by how many statements are left: what
   the clock reads, and whether the call fails. The handler answers once.
   */
  datatype Env = Env(outcome: P.Outcome, clock: nat -> Time, fails: nat -> bool)

  /** The statements that are calls to Postgres or Redis; the others are local and cannot fail. */
  predicate IsCall(pc: P.Pc) {
    !(pc.Idle? || pc.Running? || pc.Parking? || pc.CountingCompleted? || pc.CountingFailed?)
  }

  predicate Breaks(pc: P.Pc, env: Env) {
    IsCall(pc) && env.fails(Remaining(pc))
  }

  /** One statement; a failed call has no effect and ends the activity. */
  function One(s: Solo, env: Env): Solo {
    if Breaks(s.pc, env) then s.(pc := P.Idle)
    else
      var e := P.Next(s.db, s.pc, env.outcome, env.clock(Remaining(s.pc)));
      Solo(e.db, D.Command(s.lanes, s.pc), e.pc)
  }

  /** The activity run to its end. */
  function Finish(s: Solo, env: Env): Solo
    decreases Remaining(s.pc)
  {
    if s.pc.Idle? then s
    else
      EveryStatementProgresses(s.db, s.pc, env.outcome, env.clock(Remaining(s.pc)));
      Finish(One(s, env), env)
  }

  lemma Unfold(s: Solo, env: Env) returns (next: Solo)
    ensures next == One(s, env)
    ensures Finish(s, env) == if s.pc.Idle? then s else Finish(next, env)
  {
    next := One(s, env);
  }

  /** The same statement as a beat of the protocol. */
  function BeatOf(pc: P.Pc, p: P.Pid, env: Env): D.Beat {
    D.Beat(env.clock(Remaining(pc)), D.Do(if Breaks(pc, env) then P.Crash(p) else P.Advance(p, env.outcome)))
  }

  /** The same activity stepped to its end inside the protocol, whatever else is suspended there. */
  function FinishIn(w: D.World, p: P.Pid, env: Env): D.World
    decreases Remaining(P.PcOf(w.core, p))
  {
    var pc := P.PcOf(w.core, p);
    if pc.Idle? then w
    else
      EveryStatementProgresses(w.core.db, pc, env.outcome, env.clock(Remaining(pc)));
      FinishIn(D.Step(w, BeatOf(pc, p, env)), p, env)
  }

  lemma {:induction false} SoloIsProtocol(w: D.World, p: P.Pid, env: Env)
    ensures var s := Finish(Solo(w.core.db, w.queues, P.PcOf(w.core, p)), env);
            var w' := FinishIn(w, p, env);
            w'.core.db == s.db && w'.queues == s.lanes && P.PcOf(w'.core, p) == s.pc == P.Idle
    decreases Remaining(P.PcOf(w.core, p))
  {
    var pc := P.PcOf(w.core, p);
    if !pc.Idle? {
      EveryStatementProgresses(w.core.db, pc, env.outcome, env.clock(Remaining(pc)));
      var w1 := D.Step(w, BeatOf(pc, p, env));
      assert Solo(w1.core.db, w1.queues, P.PcOf(w1.core, p)) == One(Solo(w.core.db, w.queues, pc), env);
      SoloIsProtocol(w1, p, env);
    }
  }

  // ---------------------------------------------------------------------------
  // The runs of single activities, statement by statement.

  /** The Redis clean-up: LREM, then ZREM. */
  lemma CleanUpRun(db: Db, lanes: Queues, id: Id, q: string, env: Env)
    ensures Finish(Solo(db, lanes, P.Unlisting(id, q)), env)
            == Solo(db,
                    if env.fails(2) then lanes
                    else if env.fails(1) then lanes[q := LRem(LaneOf(lanes, q), id)]
                    else lanes[q := ZRem(LRem(LaneOf(lanes, q), id), id)],
                    P.Idle)
  {
    var s1 := Unfold(Solo(db, lanes, P.Unlisting(id, q)), env);
    if !env.fails(2) {
      assert s1 == Solo(db, lanes[q := LRem(LaneOf(lanes, q), id)], P.Undelaying(id, q));
      var s2 := Unfold(s1, env);
    }
  }

  lemma CancelRun(db: Db, lanes: Queues, tenant: Tenant, id: Id, env: Env)
    requires CanCancel(db, tenant, id) && !env.fails(3)
    ensures Finish(Solo(db, lanes, P.Cancelling(tenant, id)), env)
            == Finish(Solo(Put(db, id, CancelledRow(db.jobs[id], env.clock(3))), lanes, P.Unlisting(id, db.jobs[id].queue)), env)
  {
    var s1 := Unfold(Solo(db, lanes, P.Cancelling(tenant, id)), env);
  }

  lemma RefusedCancelRun(db: Db, lanes: Queues, tenant: Tenant, id: Id, env: Env)
    requires !CanCancel(db, tenant, id) || env.fails(3)
    ensures Finish(Solo(db, lanes, P.Cancelling(tenant, id)), env) == Solo(db, lanes, P.Idle)
  {
    var s1 := Unfold(Solo(db, lanes, P.Cancelling(tenant, id)), env);
  }

  lemma RefusedClaimRun(db: Db, lanes: Queues, id: Id, env: Env)
    requires !Has(db, id, Pending) || env.fails(5)
    ensures Finish(Solo(db, lanes, P.Popped(id)), env) == Solo(db, lanes, P.Idle)
  {
    var s1 := Unfold(Solo(db, lanes, P.Popped(id)), env);
  }

  /** Claim and dispatch. */
  lemma ClaimRun(db: Db, lanes: Queues, id: Id, env: Env)
    requires Has(db, id, Pending) && !env.fails(5)
    ensures var row := ClaimedRow(db.jobs[id], env.clock(5));
            Finish(Solo(db, lanes, P.Popped(id)), env)
            == Finish(Solo(ClaimJob(db, id, env.clock(5)), lanes,
                           match env.outcome
                           case Returned(result) => P.Succeeded(id, row, result)
                           case Raised(message) => P.Errored(id, row, message)), env)
  {
    var s1 := Unfold(Solo(db, lanes, P.Popped(id)), env);
    assert s1.pc == P.Running(id, ClaimedRow(db.jobs[id], env.clock(5)));
    var s2 := Unfold(s1, env);
  }

  lemma SubmitRun(db: Db, lanes: Queues, d: Draft, env: Env)
    ensures var stored := !env.fails(2) && CanInsert(db, d);
            Finish(Solo(db, lanes, P.Submitting(d)), env)
            == Solo(if stored then CreateJob(db, d) else db,
                    if stored && !env.fails(1) then lanes[d.queue := LPush(LaneOf(lanes, d.queue), d.id)] else lanes,
                    P.Idle)
  {
    var s1 := Unfold(Solo(db, lanes, P.Submitting(d)), env);
    if !env.fails(2) && CanInsert(db, d) {
      assert s1.pc == P.Pushing(d.id, d.queue);
      var s2 := Unfold(s1, env);
    }
  }

  lemma ResetRun(db: Db, lanes: Queues, tenant: Tenant, id: Id, env: Env)
    requires CanRetry(db, tenant, id) && !env.fails(2)
    ensures var q := db.jobs[id].queue;
            Finish(Solo(db, lanes, P.Resetting(tenant, id)), env)
            == Solo(Db(db.jobs[id := ResetRow(db.jobs[id])], db.dlq - {id}),
                    if env.fails(1) then lanes else lanes[q := LPush(LaneOf(lanes, q), id)],
                    P.Idle)
  {
    var q := db.jobs[id].queue;
    var s1 := Unfold(Solo(db, lanes, P.Resetting(tenant, id)), env);
    assert s1 == Solo(Db(db.jobs[id := ResetRow(db.jobs[id])], db.dlq - {id}), lanes, P.Pushing(id, q));
    var s2 := Unfold(s1, env);
  }

  lemma RefusedResetRun(db: Db, lanes: Queues, tenant: Tenant, id: Id, env: Env)
    requires !CanRetry(db, tenant, id) || env.fails(2)
    ensures Finish(Solo(db, lanes, P.Resetting(tenant, id)), env) == Solo(db, lanes, P.Idle)
  {
    var s1 := Unfold(Solo(db, lanes, P.Resetting(tenant, id)), env);
  }

  lemma SuccessRun(db: Db, lanes: Queues, id: Id, row: Row, result: string, env: Env)
    ensures Finish(Solo(db, lanes, P.Succeeded(id, row, result)), env)
            == Solo(if env.fails(2) then db else MarkCompleted(db, id, result, env.clock(2)), lanes, P.Idle)
  {
    var s1 := Unfold(Solo(db, lanes, P.Succeeded(id, row, result)), env);
    if !env.fails(2) {
      assert s1.pc == P.CountingCompleted;
      var s2 := Unfold(s1, env);
    }
  }

  lemma BuryRun(db: Db, lanes: Queues, id: Id, job: Row, message: string, env: Env)
    requires job.retryCount + 1 >= job.maxRetries
    ensures var attempts := job.retryCount + 1;
            Finish(Solo(db, lanes, P.Errored(id, job, message)), env)
            == Solo(if env.fails(3) then db else DeadLetter(db, id, attempts, message, env.clock(3)), lanes, P.Idle)
  {
    var s1 := Unfold(Solo(db, lanes, P.Errored(id, job, message)), env);
    if !env.fails(3) && Int32(job.retryCount + 1) {
      assert s1.pc == P.CountingFailed;
      var s2 := Unfold(s1, env);
    }
  }

  lemma ParkRun(db: Db, lanes: Queues, id: Id, q: string, backoff: int, env: Env)
    ensures Finish(Solo(db, lanes, P.Parking(id, q, backoff)), env)
            == Solo(db,
                    if env.fails(1) then lanes else lanes[q := ZAdd(LaneOf(lanes, q), id, Unix(env.clock(2) + backoff))],
                    P.Idle)
  {
    var s1 := Unfold(Solo(db, lanes, P.Parking(id, q, backoff)), env);
    assert s1 == Solo(db, lanes, P.Adding(id, q, Unix(env.clock(2) + backoff)));
    var s2 := Unfold(s1, env);
  }

  lemma RequeueRun(db: Db, lanes: Queues, id: Id, job: Row, message: string, env: Env)
    requires 0 <= job.retryCount + 1 < job.maxRetries && Int32(job.retryCount + 1) && !env.fails(3)
    ensures var attempts: nat := job.retryCount + 1;
            Finish(Solo(db, lanes, P.Errored(id, job, message)), env)
            == Finish(Solo(MarkForRetry(db, id, attempts, message), lanes, P.Parking(id, job.queue, BackoffFor(attempts))), env)
  {
    var s1 := Unfold(Solo(db, lanes, P.Errored(id, job, message)), env);
  }

  /** A failed call, or a count that fits neither column nor shift, ends the activity. */
  lemma UnrecordedRun(db: Db, lanes: Queues, id: Id, job: Row, message: string, env: Env)
    requires job.retryCount + 1 < job.maxRetries
    requires env.fails(3) || !Int32(job.retryCount + 1) || job.retryCount + 1 < 0
    ensures Finish(Solo(db, lanes, P.Errored(id, job, message)), env) == Solo(db, lanes, P.Idle)
  {
    var s1 := Unfold(Solo(db, lanes, P.Errored(id, job, message)), env);
    assert s1 == Solo(db, lanes, P.Idle);
  }

  /** The retry policy, run alone. */
  lemma FailureRun(db: Db, lanes: Queues, id: Id, job: Row, message: string, env: Env)
    ensures var attempts := job.retryCount + 1;
            Finish(Solo(db, lanes, P.Errored(id, job, message)), env)
            == if env.fails(3) || !Int32(attempts) || (attempts < 0 && attempts < job.maxRetries) then Solo(db, lanes, P.Idle)
               else if attempts >= job.maxRetries
               then Solo(DeadLetter(db, id, attempts, message, env.clock(3)), lanes, P.Idle)
               else Solo(MarkForRetry(db, id, attempts, message),
                         if env.fails(1) then lanes
                         else lanes[job.queue := ZAdd(LaneOf(lanes, job.queue), id, Unix(env.clock(2) + BackoffFor(attempts)))],
                         P.Idle)
  {
    var attempts := job.retryCount + 1;
    if attempts >= job.maxRetries {
      BuryRun(db, lanes, id, job, message, env);
    } else if !env.fails(3) && Int32(attempts) && 0 <= attempts {
      RequeueRun(db, lanes, id, job, message, env);
      ParkRun(MarkForRetry(db, id, attempts, message), lanes, id, job.queue, BackoffFor(attempts), env);
    } else {
      UnrecordedRun(db, lanes, id, job, message, env);
    }
  }

  // ---------------------------------------------------------------------------
  // The worker.

  /** jobs_processed_total, by status. */
  class Metrics {
    var completed: nat
    var failed: nat
    constructor ()
      ensures completed == failed == 0
    {
      completed, failed := 0, 0;
    }
  }

  /** Whether a failure now would exhaust the budget. */
  predicate LastAttempt(row: Row) {
    row.retryCount + 1 >= row.maxRetries && Int32(row.retryCount + 1)
  }

  /** One queue changes to `lane` and no other queue changes. */
  ghost predicate OnlyLane(was: Queues, now: Queues, q: string, lane: Lane) {
    LaneOf(now, q) == lane && forall other | other != q :: LaneOf(now, other) == LaneOf(was, other)
  }

  /**
   What a failed attempt leaves in the tables and queues: a dead-lettered job, or
   a pending one that is due the delay of this attempt after the clock's second.
   */
  ghost predicate FailureHandled(was: Solo, now: Solo, id: Id, job: Row, message: string, env: Env) {
    var attempts := job.retryCount + 1;
    var jobs, dlq := was.db.jobs, was.db.dlq;
    if env.fails(3) || !Int32(attempts) then now.db == was.db && now.lanes == was.lanes
    else if id !in jobs then now.db == was.db
    else if attempts >= job.maxRetries then
      && now.db.jobs == jobs[id := jobs[id].(status := Failed, retryCount := attempts, error := Some(message),
                                             completedAt := Some(env.clock(3)))]
      && now.db.dlq == dlq[id := DlqRow(if id in dlq then dlq[id].tenant else jobs[id].tenant, message, attempts)]
      && now.lanes == was.lanes
    else if attempts >= 0 then
      var lane := LaneOf(was.lanes, job.queue);
      && now.db.jobs == jobs[id := jobs[id].(status := Pending, retryCount := attempts, error := Some(message))]
      && now.db.dlq == dlq
      && (env.fails(1) ==> now.lanes == was.lanes)
      && (!env.fails(1) ==>
            OnlyLane(was.lanes, now.lanes, job.queue,
                     Lane(lane.list, lane.delayed[id := Unix(env.clock(2)) + DelaySeconds(attempts)])))
    else now.db == was.db && now.lanes == was.lanes
  }

  lemma FailureRunHandles(db: Db, lanes: Queues, id: Id, job: Row, message: string, env: Env)
    ensures FailureHandled(Solo(db, lanes, P.Idle), Finish(Solo(db, lanes, P.Errored(id, job, message)), env), id, job, message, env)
  {
    FailureRun(db, lanes, id, job, message, env);
    if 0 <= job.retryCount + 1 {
      UnixAddBackoff(env.clock(2), job.retryCount + 1);
    }
  }

  method HandleFailure(st: Stores.Store, q: Queue.WorkQueue, m: Metrics, id: Id, job: Row, message: string, env: Env)
    modifies st, q, m
    ensures Solo(st.Tables(), q.lanes, P.Idle)
            == Finish(Solo(old(st.Tables()), old(q.lanes), P.Errored(id, job, message)), env)
    ensures FailureHandled(Solo(old(st.Tables()), old(q.lanes), P.Idle), Solo(st.Tables(), q.lanes, P.Idle), id, job, message, env)
    ensures m.completed == old(m.completed)
    ensures m.failed == old(m.failed)
                        + (if job.retryCount + 1 >= job.maxRetries && Int32(job.retryCount + 1) && !env.fails(3) then 1 else 0)
  {
    FailureRun(st.Tables(), q.lanes, id, job, message, env);
    FailureRunHandles(st.Tables(), q.lanes, id, job, message, env);
    var attempts := job.retryCount + 1;
    if attempts >= job.maxRetries {
      if env.fails(3) {
        return;
      }
      var ok := st.DeadLetter(id, attempts, message, env.clock(3));
      if !ok {
        return;
      }
      m.failed := m.failed + 1;
      return;
    }
    if attempts < 0 {
      return; // backoffFor panics on a negative shift
    }
    var backoff := BackoffFor(attempts);
    if env.fails(3) {
      return;
    }
    var ok := st.MarkForRetry(id, attempts, message);
    if !ok {
      return;
    }
    var due := env.clock(2) + backoff;
    if env.fails(1) {
      return;
    }
    q.EnqueueDelayed(job.queue, id, due);
  }

  /** process: claim, dispatch, record. */
  method Process(st: Stores.Store, q: Queue.WorkQueue, m: Metrics, id: Id, env: Env)
    modifies st, q, m
    ensures Solo(st.Tables(), q.lanes, P.Idle)
            == Finish(Solo(old(st.Tables()), old(q.lanes), P.Popped(id)), env)
    ensures var jobs := old(st.jobs);
            if env.fails(5) || id !in jobs || jobs[id].status != Pending then
              st.Tables() == old(st.Tables()) && q.lanes == old(q.lanes)
            else
              var seen := jobs[id].(status := Processing, startedAt := Some(env.clock(5)));
              match env.outcome
              case Returned(result) =>
                && st.jobs == jobs[id := if env.fails(2) then seen
                                         else seen.(status := Completed, result := Some(result), error := None,
                                                    completedAt := Some(env.clock(2)))]
                && st.dlq == old(st.dlq) && q.lanes == old(q.lanes)
              case Raised(message) =>
                FailureHandled(Solo(Db(jobs[id := seen], old(st.dlq)), old(q.lanes), P.Idle),
                               Solo(st.Tables(), q.lanes, P.Idle), id, seen, message, env)
    ensures var claimed := Has(old(st.Tables()), id, Pending) && !env.fails(5);
            && m.completed == old(m.completed) + (if claimed && env.outcome.Returned? && !env.fails(2) then 1 else 0)
            && m.failed == old(m.failed)
                           + (if claimed && env.outcome.Raised? && LastAttempt(old(st.jobs)[id]) && !env.fails(3) then 1 else 0)
  {
    ghost var db := st.Tables();
    if env.fails(5) {
      RefusedClaimRun(db, q.lanes, id, env);
      return;
    }
    var claim := st.ClaimJob(id, env.clock(5));
    if claim.Err? {
      RefusedClaimRun(db, q.lanes, id, env);
      return;
    }
    var job := claim.value;
    ClaimRun(db, q.lanes, id, env);
    match env.outcome
    case Raised(message) =>
      HandleFailure(st, q, m, id, job, message, env);
    case Returned(result) =>
      SuccessRun(st.Tables(), q.lanes, id, job, result, env);
      if env.fails(2) {
        return;
      }
      st.MarkCompleted(id, result, env.clock(2));
      m.completed := m.completed + 1;
  }

  /** One turn of the consume loop: pop from the watched queues and, if something came, process it. */
  method ConsumeOnce(st: Stores.Store, q: Queue.WorkQueue, m: Metrics, watched: seq<string>, popFails: bool, env: Env)
    modifies st, q, m
    ensures var lanes := old(q.lanes);
            match FirstReady(lanes, if popFails then [] else watched)
            case None => st.Tables() == old(st.Tables()) && q.lanes == lanes
            case Some(name) =>
              var lane := LaneOf(lanes, name);
              Solo(st.Tables(), q.lanes, P.Idle)
              == Finish(Solo(old(st.Tables()), lanes[name := RPop(lane)], P.Popped(D.LastOf(lane.list))), env)
  {
    if popFails {
      return;
    }
    var popped := q.Dequeue(watched);
    if popped.Some? {
      Process(st, q, m, popped.value.0, env);
    }
  }

  // ---------------------------------------------------------------------------
  // The API handlers.

  /** The row the enqueue request asks for. */
  function RequestedRow(tenant: Tenant, queue: string, jobType: string, payload: string, maxRetries: Option<int>): Row {
    Row(tenant, if queue == "" then "default" else queue, jobType, if payload == "" then "{}" else payload,
        Pending, None, None, 0, if maxRetries.Some? then maxRetries.value else 3, None, None)
  }

  /**
   enqueueJob: 400 without a job type, 202 with the row, and 500 both when nothing
   was stored and when the row was stored and its push failed.
   */
  method EnqueueJob(st: Stores.Store, q: Queue.WorkQueue, tenant: Tenant, queue: string, jobType: string,
                    payload: string, maxRetries: Option<int>, newId: Id, env: Env)
    returns (code: int, r: Option<Row>)
    modifies st, q
    ensures var row := RequestedRow(tenant, queue, jobType, payload, maxRetries);
            var stored := && jobType != "" && tenant != NIL && !env.fails(2)
                          && newId !in old(st.jobs) && Int32(row.maxRetries);
            && st.jobs == (if stored then old(st.jobs)[newId := row] else old(st.jobs))
            && st.dlq == old(st.dlq)
            && (if stored && !env.fails(1) then
                  var lane := LaneOf(old(q.lanes), row.queue);
                  code == 202 && r == Some(row) && OnlyLane(old(q.lanes), q.lanes, row.queue, Lane([newId] + lane.list, lane.delayed))
                else
                  code == (if jobType == "" then 400 else 500) && r == None && q.lanes == old(q.lanes))
    ensures var d := Enqueue.WithDefaults(
                       Draft(NIL, tenant, queue, jobType, payload, None,
                             if maxRetries.Some? then maxRetries.value else Enqueue.DEFAULT_MAX_RETRIES), newId);
            && P.Entry(P.Submitting(d)) == (tenant != NIL)
            && Solo(st.Tables(), q.lanes, P.Idle)
               == Finish(Solo(old(st.Tables()), old(q.lanes),
                              if jobType != "" && tenant != NIL then P.Submitting(d) else P.Idle), env)
    ensures jobType != "" && !env.fails(2) ==>
              var budget := if maxRetries.Some? then maxRetries.value else 3;
              var served := T.Serve(old(st.Tables()), T.Request(tenant, T.Enqueue(newId, queue, jobType, payload, budget), env.clock(2)));
              st.Tables() == served.db && (r.Some? ==> served.reply == T.OneRow(Ok(r.value)))
  {
    if jobType == "" {
      return 400, None;
    }
    var budget := if maxRetries.Some? then maxRetries.value else Enqueue.DEFAULT_MAX_RETRIES;
    var job := new Enqueue.JobRecord(tenant, queue, jobType, payload, budget);
    SubmitRun(st.Tables(), q.lanes, Enqueue.WithDefaults(job.Value(), newId), env);
    var saved := Enqueue.Submit(st, q, job, newId, env.fails(2), env.fails(1));
    if saved.Err? {
      return 500, None;
    }
    return 202, Some(saved.value);
  }

  /** retryJob: 404, 409, 500 when a call failed (after the reset, for the push), or 200. */
  method RetryJob(st: Stores.Store, q: Queue.WorkQueue, tenant: Tenant, id: Id, env: Env) returns (code: int)
    modifies st, q
    ensures var jobs := old(st.jobs);
            if env.fails(2) then code == 500 && st.Tables() == old(st.Tables()) && q.lanes == old(q.lanes)
            else if id !in jobs || jobs[id].tenant != tenant then
              code == 404 && st.Tables() == old(st.Tables()) && q.lanes == old(q.lanes)
            else if jobs[id].status != Failed then
              code == 409 && st.Tables() == old(st.Tables()) && q.lanes == old(q.lanes)
            else
              var lane := LaneOf(old(q.lanes), jobs[id].queue);
              && st.jobs == jobs[id := jobs[id].(status := Pending, retryCount := 0, error := None, result := None,
                                                 startedAt := None, completedAt := None)]
              && st.dlq == old(st.dlq) - {id}
              && (if env.fails(1) then code == 500 && q.lanes == old(q.lanes)
                  else code == 200 && OnlyLane(old(q.lanes), q.lanes, jobs[id].queue, Lane([id] + lane.list, lane.delayed)))
    ensures Solo(st.Tables(), q.lanes, P.Idle)
            == Finish(Solo(old(st.Tables()), old(q.lanes), P.Resetting(tenant, id)), env)
    ensures !env.fails(2) ==>
              var served := T.Serve(old(st.Tables()), T.Request(tenant, T.Retry(id), env.clock(2)));
              && st.Tables() == served.db
              && (code == 404 <==> served.reply == T.OneRow(Err(NotFound)))
              && (code == 409 <==> served.reply == T.OneRow(Err(NotRetryable)))
  {
    ghost var db := st.Tables();
    if env.fails(2) {
      RefusedResetRun(db, q.lanes, tenant, id, env);
      return 500;
    }
    var r := st.RetryJob(tenant, id);
    if r.Err? {
      RefusedResetRun(db, q.lanes, tenant, id, env);
      return if r.error == NotFound then 404 else 409;
    }
    ResetRun(db, q.lanes, tenant, id, env);
    if env.fails(1) {
      return 500;
    }
    q.Enqueue(r.value.queue, id);
    code := 200;
  }

  /** cancelJob: 404, 409, 500, or 200 whether or not the Redis clean-up succeeds. */
  method CancelJob(st: Stores.Store, q: Queue.WorkQueue, tenant: Tenant, id: Id, env: Env) returns (code: int)
    modifies st, q
    ensures var jobs := old(st.jobs);
            if env.fails(3) then code == 500 && st.Tables() == old(st.Tables()) && q.lanes == old(q.lanes)
            else if id !in jobs || jobs[id].tenant != tenant then
              code == 404 && st.Tables() == old(st.Tables()) && q.lanes == old(q.lanes)
            else if jobs[id].status != Pending then
              code == 409 && st.Tables() == old(st.Tables()) && q.lanes == old(q.lanes)
            else
              var lane := LaneOf(old(q.lanes), jobs[id].queue);
              && code == 200
              && st.jobs == jobs[id := jobs[id].(status := Cancelled, completedAt := Some(env.clock(3)))]
              && st.dlq == old(st.dlq)
              && OnlyLane(old(q.lanes), q.lanes, jobs[id].queue,
                          Lane(if env.fails(2) then lane.list else Without(lane.list, id),
                               if env.fails(2) || env.fails(1) then lane.delayed else lane.delayed - {id}))
    ensures Solo(st.Tables(), q.lanes, P.Idle)
            == Finish(Solo(old(st.Tables()), old(q.lanes), P.Cancelling(tenant, id)), env)
    ensures !env.fails(3) ==>
              var served := T.Serve(old(st.Tables()), T.Request(tenant, T.Cancel(id), env.clock(3)));
              && st.Tables() == served.db
              && (code == 404 <==> served.reply == T.OneRow(Err(NotFound)))
              && (code == 409 <==> served.reply == T.OneRow(Err(NotCancellable)))
  {
    ghost var db := st.Tables();
    if env.fails(3) {
      RefusedCancelRun(db, q.lanes, tenant, id, env);
      return 500;
    }
    var r := st.CancelJob(tenant, id, env.clock(3));
    if r.Err? {
      RefusedCancelRun(db, q.lanes, tenant, id, env);
      return if r.error == NotFound then 404 else 409;
    }
    CancelRun(db, q.lanes, tenant, id, env);
    CleanUpRun(st.Tables(), q.lanes, id, r.value.queue, env);
    q.Remove(r.value.queue, id, env.fails(2), env.fails(1));
    code := 200;
  }

  /** getJob: the stored row, or 404 for a missing job and for another tenant's. */
  method GetJob(st: Stores.Store, tenant: Tenant, id: Id, at: Time, fails: bool) returns (code: int, r: Option<Row>)
    ensures if fails then code == 500 && r == None
            else if id in st.jobs && st.jobs[id].tenant == tenant then code == 200 && r == Some(st.jobs[id])
            else code == 404 && r == None
    ensures !fails ==>
              T.Serve(st.Tables(), T.Request(tenant, T.Get(id), at)).reply
              == T.OneRow(if r.Some? then Ok(r.value) else Err(NotFound))
  {
    if fails {
      return 500, None;
    }
    var found := st.GetJob(tenant, id);
    if found.Err? {
      return 404, None;
    }
    return 200, Some(found.value);
  }

  /** listJobs: 400 for a limit outside 1 to 100, a negative offset or a queue name over 100 characters. */
  method ListJobs(st: Stores.Store, tenant: Tenant, f: Filter, created: Paging.Created, limit: int, offset: int, at: Time, fails: bool)
    returns (code: int, page: seq<Paging.Listed>, total: nat)
    ensures code == (if |f.queue| > 100 || limit < 1 || limit > 100 || offset < 0 then 400 else if fails then 500 else 200)
    ensures code != 200 ==> page == [] && total == 0
    ensures code == 200 ==>
              var reply := T.Serve(st.Tables(), T.Request(tenant, T.List(f), at)).reply;
              && reply.ManyRows? && total == |reply.rows|
              && Paging.IsPage(reply.rows, created, limit, offset, page)
              && (forall i | 0 <= i < |page| ::
                    && page[i].id in st.jobs && page[i].row == st.jobs[page[i].id] && page[i].row.tenant == tenant
                    && (f.queue == "" || page[i].row.queue == f.queue)
                    && (f.status == None || Some(page[i].row.status) == f.status))
  {
    if |f.queue| > 100 || limit < 1 || limit > 100 || offset < 0 {
      return 400, [], 0;
    }
    if fails {
      return 500, [], 0;
    }
    page, total := st.ListJobs(tenant, f, created, limit, offset);
    code := 200;
  }
}
