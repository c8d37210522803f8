/**
 The job-lifecycle protocol over an arbitrary Redis.

 Every activity of the system (a worker handling one popped id, an enqueue, a
 retry or a cancel request) is a process with a program counter that holds what
 the activity remembers. One step of a process is one SQL statement or
 transaction, one Redis command, or one local action. Any number of processes
 interleave, and any process may be abandoned at any point: that is a crash, and
 it is also a call that returned an error, before or after it took effect.

 Redis is not trusted here: at any moment any id may be handed to a worker, so
 ids may be lost, duplicated, reordered or invented.
 */
module Protocol {
  import opened Jobs
  import opened Backoff
  import L = Lifecycle

  type Pid = nat

  /** What a handler dispatch comes back with. */
  datatype Outcome = Returned(result: string) | Raised(message: string)

  /** Where an activity stands and what it remembers. */
  datatype Pc =
    | Idle
    // the worker's process and handleFailure
    | Popped(id: Id)
    | Running(id: Id, row: Row)
    | Succeeded(id: Id, row: Row, result: string)
    | Errored(id: Id, row: Row, message: string)
    | CountingCompleted
    | CountingFailed
    | Parking(id: Id, queue: string, backoff: int)
    | Adding(id: Id, queue: string, score: int)
    // Submit
    | Submitting(draft: Draft)
    // the retry and cancel requests
    | Resetting(tenant: Tenant, id: Id)
    | Cancelling(tenant: Tenant, id: Id)
    | Pushing(id: Id, queue: string)
    | Unlisting(id: Id, queue: string)
    | Undelaying(id: Id, queue: string)

  datatype Core = Core(db: Db, procs: map<Pid, Pc>)

  datatype Action =
    | Start(p: Pid, task: Pc)
    | Advance(p: Pid, outcome: Outcome)
    | Crash(p: Pid)

  /** An action and the reading of the clock when it happens. */
  datatype Tick = Tick(at: Time, act: Action)

  /** What an observer of the run writes down. */
  datatype Event =
    | Moved(id: Id, move: L.Move)
    | Counted(status: Status)
    | Abandoned(pc: Pc)
    | Quiet

  datatype Effect = Effect(db: Db, pc: Pc, event: Event)

  function SpecOf(d: Draft): L.Spec {
    L.Spec(d.tenant, d.queue, d.jobType, d.payload, d.maxRetries)
  }

  predicate Claims(ev: Event, id: Id) {
    ev.Moved? && ev.id == id && ev.move.Claim?
  }

  predicate Requeues(ev: Event, id: Id) {
    ev.Moved? && ev.id == id && ev.move.Requeue?
  }

  /** The next statement of an activity, run atomically. */
  function Next(db: Db, pc: Pc, outcome: Outcome, at: Time): Effect {
    match pc
    case Popped(id) =>
      if Has(db, id, Pending)
      then Effect(ClaimJob(db, id, at), Running(id, ClaimedRow(db.jobs[id], at)), Moved(id, L.Claim(at)))
      else Effect(db, Idle, Quiet)
    case Running(id, row) =>
      (match outcome
       case Returned(result) => Effect(db, Succeeded(id, row, result), Quiet)
       case Raised(message) => Effect(db, Errored(id, row, message), Quiet))
    case Succeeded(id, _, result) =>
      Effect(MarkCompleted(db, id, result, at), CountingCompleted, Moved(id, L.Complete(result, at)))
    case Errored(id, row, message) =>
      HandleFailure(db, id, row, message, at)
    case CountingCompleted => Effect(db, Idle, Counted(Completed))
    case CountingFailed => Effect(db, Idle, Counted(Failed))
    case Parking(id, queue, backoff) => Effect(db, Adding(id, queue, Unix(at + backoff)), Quiet)
    case Submitting(d) =>
      if CanInsert(db, d)
      then Effect(CreateJob(db, d), Pushing(d.id, d.queue), Moved(d.id, L.Submit(SpecOf(d))))
      else Effect(db, Idle, Quiet)
    case Resetting(tenant, id) =>
      if CanRetry(db, tenant, id)
      then Effect(RetryJob(db, tenant, id), Pushing(id, db.jobs[id].queue), Moved(id, L.Reset))
      else Effect(db, Idle, Quiet)
    case Cancelling(tenant, id) =>
      if CanCancel(db, tenant, id)
      then Effect(CancelJob(db, tenant, id, at), Unlisting(id, db.jobs[id].queue), Moved(id, L.Withdraw(at)))
      else Effect(db, Idle, Quiet)
    case Unlisting(id, queue) => Effect(db, Undelaying(id, queue), Quiet)
    case _ => Effect(db, Idle, Quiet)
  }

  /**
   The retry policy: the statement handleFailure issues, from the snapshot alone.
   A count the column cannot hold makes the statement fail, and a negative shift
   in backoffFor panics; both end the activity.
   */
  function HandleFailure(db: Db, id: Id, row: Row, message: string, at: Time): Effect {
    var attempts := row.retryCount + 1;
    if attempts >= row.maxRetries then
      if Int32(attempts)
      then Effect(DeadLetter(db, id, attempts, message, at), CountingFailed, Moved(id, L.Bury(message, at)))
      else Effect(db, Idle, Quiet)
    else if 0 <= attempts && Int32(attempts)
    then Effect(MarkForRetry(db, id, attempts, message), Parking(id, row.queue, BackoffFor(attempts)), Moved(id, L.Requeue(message)))
    else Effect(db, Idle, Quiet)
  }

  function PcOf(c: Core, p: Pid): Pc {
    if p in c.procs then c.procs[p] else Idle
  }

  /** What an activity can begin as; a draft has been through applyDefaults with no status set. */
  predicate Entry(pc: Pc) {
    || pc.Popped? || pc.Resetting? || pc.Cancelling?
    || (pc.Submitting? && pc.draft.tenant != NIL && pc.draft.status == Some(Pending))
  }

  function Step(c: Core, t: Tick): Core {
    match t.act
    case Start(p, task) =>
      if PcOf(c, p).Idle? && Entry(task) then c.(procs := c.procs[p := task]) else c
    case Advance(p, o) =>
      var e := Next(c.db, PcOf(c, p), o, t.at);
      Core(e.db, c.procs[p := e.pc])
    case Crash(p) => c.(procs := c.procs[p := Idle])
  }

  function EventOf(c: Core, t: Tick): Event {
    match t.act
    case Start(_, _) => Quiet
    case Advance(p, o) => Next(c.db, PcOf(c, p), o, t.at).event
    case Crash(p) => Abandoned(PcOf(c, p))
  }

  /** A run is any sequence of ticks from the empty system. */
  function Exec(run: seq<Tick>): Core {
    if |run| == 0 then Core(Db(map[], map[]), map[])
    else Step(Exec(run[..|run|-1]), run[|run|-1])
  }

  function Trace(run: seq<Tick>): seq<Event> {
    if |run| == 0 then []
    else Trace(run[..|run|-1]) + [EventOf(Exec(run[..|run|-1]), run[|run|-1])]
  }

  // ---------------------------------------------------------------------------
  // The inductive invariant.

  /** The job an activity has claimed and not yet written an outcome for. */
  function Owned(pc: Pc): Option<Id> {
    match pc
    case Running(id, _) => Some(id)
    case Succeeded(id, _, _) => Some(id)
    case Errored(id, _, _) => Some(id)
    case _ => None
  }

  predicate OnQueue(db: Db, id: Id, queue: string) {
    id in db.jobs && db.jobs[id].queue == queue
  }

  /** What an activity remembers is true of the database now. */
  predicate PcOk(db: Db, pc: Pc) {
    match pc
    case Running(id, row) => id in db.jobs && db.jobs[id] == row && row.status == Processing
    case Succeeded(id, row, _) => id in db.jobs && db.jobs[id] == row && row.status == Processing
    case Errored(id, row, _) => id in db.jobs && db.jobs[id] == row && row.status == Processing
    case Parking(id, queue, _) => OnQueue(db, id, queue)
    case Adding(id, queue, _) => OnQueue(db, id, queue)
    case Pushing(id, queue) => OnQueue(db, id, queue)
    case Unlisting(id, queue) => OnQueue(db, id, queue) && db.jobs[id].status == Cancelled
    case Undelaying(id, queue) => OnQueue(db, id, queue) && db.jobs[id].status == Cancelled
    case Submitting(d) => Entry(pc)
    case _ => true
  }

  ghost predicate Exclusive(c: Core) {
    forall p, q | p in c.procs && q in c.procs && p != q ::
      Owned(c.procs[p]).Some? ==> Owned(c.procs[p]) != Owned(c.procs[q])
  }

  ghost predicate ProcsOk(c: Core) {
    forall p | p in c.procs :: PcOk(c.db, c.procs[p])
  }

  ghost predicate Inv(c: Core) {
    DbOk(c.db) && ProcsOk(c) && Exclusive(c)
  }

  lemma NextKeepsRows(db: Db, pc: Pc, o: Outcome, at: Time)
    requires RowsOk(db) && PcOk(db, pc)
    ensures RowsOk(Next(db, pc, o, at).db)
  {
  }

  lemma PutKeepsDlq(db: Db, id: Id, row: Row)
    requires DlqOk(db) && !Has(db, id, Failed) && row.status != Failed
    ensures DlqOk(Put(db, id, row))
  {
  }

  lemma DeadLetterKeepsDlq(db: Db, id: Id, attempts: int, reason: string, at: Time)
    requires DlqOk(db) && Has(db, id, Processing)
    ensures DlqOk(DeadLetter(db, id, attempts, reason, at))
  {
  }

  lemma RetryKeepsDlq(db: Db, tenant: Tenant, id: Id)
    requires DlqOk(db)
    ensures DlqOk(RetryJob(db, tenant, id))
  {
  }

  lemma NextKeepsDlq(db: Db, pc: Pc, o: Outcome, at: Time)
    requires DlqOk(db) && PcOk(db, pc)
    ensures DlqOk(Next(db, pc, o, at).db)
  {
    var db' := Next(db, pc, o, at).db;
    if pc.Errored? && pc.row.retryCount + 1 >= pc.row.maxRetries {
      DeadLetterKeepsDlq(db, pc.id, pc.row.retryCount + 1, pc.message, at);
    } else if pc.Resetting? {
      RetryKeepsDlq(db, pc.tenant, pc.id);
    } else if db' != db {
      var id := if pc.Submitting? then pc.draft.id else pc.id;
      PutKeepsDlq(db, id, db'.jobs[id]);
    }
  }

  lemma NextKeepsSelf(db: Db, pc: Pc, o: Outcome, at: Time)
    requires DbOk(db) && PcOk(db, pc)
    ensures PcOk(Next(db, pc, o, at).db, Next(db, pc, o, at).pc)
  {
  }

  /** No step disturbs what another activity remembers, unless both own one job. */
  lemma NextKeepsOther(db: Db, pc: Pc, o: Outcome, at: Time, other: Pc)
    requires PcOk(db, pc) && PcOk(db, other)
    requires Owned(pc).Some? ==> Owned(pc) != Owned(other)
    ensures PcOk(Next(db, pc, o, at).db, other)
  {
  }

  /** Ownership begins only by claiming a pending row, which nobody owns. */
  lemma NextOwnership(db: Db, pc: Pc, o: Outcome, at: Time, other: Pc)
    requires PcOk(db, pc) && PcOk(db, other)
    requires Owned(pc).Some? ==> Owned(pc) != Owned(other)
    ensures var e := Next(db, pc, o, at); Owned(e.pc).Some? ==> Owned(e.pc) != Owned(other)
  {
  }

  lemma StepKeepsInv(c: Core, t: Tick)
    requires Inv(c)
    ensures Inv(Step(c, t))
  {
    if t.act.Advance? {
      var p, o := t.act.p, t.act.outcome;
      var pc := PcOf(c, p);
      assert PcOk(c.db, pc);
      NextKeepsRows(c.db, pc, o, t.at);
      NextKeepsDlq(c.db, pc, o, t.at);
      NextKeepsSelf(c.db, pc, o, t.at);
      forall q | q in c.procs && q != p
        ensures PcOk(Step(c, t).db, c.procs[q])
        ensures Owned(Step(c, t).procs[p]).Some? ==> Owned(Step(c, t).procs[p]) != Owned(c.procs[q])
      {
        NextKeepsOther(c.db, pc, o, t.at, c.procs[q]);
        NextOwnership(c.db, pc, o, t.at, c.procs[q]);
      }
    }
  }

  /** Every reachable state satisfies the invariant. */
  lemma {:induction false} Reachable(run: seq<Tick>)
    ensures Inv(Exec(run))
  {
    if |run| > 0 {
      Reachable(run[..|run|-1]);
      StepKeepsInv(Exec(run[..|run|-1]), run[|run|-1]);
    }
  }

  /**
   The three outcome writes carry no status guard, yet whenever one is about to
   run, its row is processing, is exactly the writer's snapshot, and is owned by
   no other activity.
   */
  lemma UnguardedWritesAreSafe(run: seq<Tick>, p: Pid, q: Pid)
    requires Owned(PcOf(Exec(run), p)).Some?
    ensures var id := Owned(PcOf(Exec(run), p)).value;
            && Has(Exec(run).db, id, Processing)
            && Exec(run).db.jobs[id] == PcOf(Exec(run), p).row
            && (q != p ==> Owned(PcOf(Exec(run), q)) != Some(id))
  {
    Reachable(run);
  }

  /** The columns of every row agree with its status in every reachable state. */
  lemma RowsStayConsistent(run: seq<Tick>, id: Id)
    requires id in Exec(run).db.jobs
    ensures RowOk(Exec(run).db.jobs[id])
  {
    Reachable(run);
  }

  lemma FailureFits(c: Core, p: Pid)
    requires Inv(c) && PcOf(c, p).Errored?
    ensures var row := PcOf(c, p).row; Int32(row.retryCount + 1) && 1 <= row.retryCount + 1 <= Budget(row.maxRetries)
  {
    assert PcOk(c.db, PcOf(c, p));
    assert RowOk(c.db.jobs[PcOf(c, p).id]);
  }

  /**
   A failed attempt is always recorded: the new count fits its column, the shift
   in backoffFor is of 1 to max_retries - 1 places, and exactly one of the two
   outcome writes is issued.
   */
  lemma FailuresAreRecorded(run: seq<Tick>, p: Pid, o: Outcome, at: Time)
    requires PcOf(Exec(run), p).Errored?
    ensures var pc := PcOf(Exec(run), p);
            var attempts := pc.row.retryCount + 1;
            var e := Next(Exec(run).db, pc, o, at);
            && Int32(attempts) && 1 <= attempts <= Budget(pc.row.maxRetries)
            && (attempts >= pc.row.maxRetries ==> e.event == Moved(pc.id, L.Bury(pc.message, at)) && e.pc == CountingFailed)
            && (attempts < pc.row.maxRetries ==>
                  e.event == Moved(pc.id, L.Requeue(pc.message)) && e.pc == Parking(pc.id, pc.row.queue, BackoffFor(attempts)))
  {
    Reachable(run);
    FailureFits(Exec(run), p);
  }

  // ---------------------------------------------------------------------------
  // Refinement: each job, seen alone, only makes the guarded moves.

  function PhaseOf(s: Status): L.Phase {
    match s
    case Pending => L.Waiting
    case Processing => L.Active
    case Completed => L.Done
    case Failed => L.Dead
    case Cancelled => L.Withdrawn
  }

  /** The whole row, as the machine sees it. */
  function View(db: Db, id: Id): L.Job {
    if id in db.jobs then
      var r := db.jobs[id];
      L.Job(L.Spec(r.tenant, r.queue, r.jobType, r.payload, r.maxRetries), PhaseOf(r.status), r.retryCount,
            r.result, r.error, r.startedAt, r.completedAt)
    else L.NoJob
  }

  /** What an event claims of a job is what happened to it, as a guarded move or as no change at all. */
  ghost predicate MovesBy(db: Db, db': Db, ev: Event, id: Id) {
    if ev.Moved? && ev.id == id
    then L.Enabled(View(db, id), ev.move) && View(db', id) == L.Apply(View(db, id), ev.move)
    else (id in db.jobs <==> id in db'.jobs) && (id in db.jobs ==> db'.jobs[id] == db.jobs[id])
  }

  lemma FailureMovesRow(db: Db, pc: Pc, o: Outcome, at: Time)
    requires RowsOk(db) && PcOk(db, pc) && pc.Errored?
    ensures var e := Next(db, pc, o, at);
            e.event.Moved? ==> MovesBy(db, e.db, e.event, e.event.id)
  {
    assert RowOk(db.jobs[pc.id]);
  }

  lemma NextMovesRow(db: Db, pc: Pc, o: Outcome, at: Time)
    requires RowsOk(db) && PcOk(db, pc)
    ensures var e := Next(db, pc, o, at);
            e.event.Moved? ==> MovesBy(db, e.db, e.event, e.event.id)
  {
    if pc.Errored? {
      FailureMovesRow(db, pc, o, at);
    }
  }

  /** The job whose row the next statement of an activity may write. */
  function Subject(pc: Pc): Option<Id> {
    match pc
    case Popped(id) => Some(id)
    case Succeeded(id, _, _) => Some(id)
    case Errored(id, _, _) => Some(id)
    case Submitting(d) => Some(d.id)
    case Resetting(_, id) => Some(id)
    case Cancelling(_, id) => Some(id)
    case _ => None
  }

  lemma NextWritesSubject(db: Db, pc: Pc, o: Outcome, at: Time, id: Id)
    requires Subject(pc) != Some(id)
    ensures var db' := Next(db, pc, o, at).db;
            (id in db.jobs <==> id in db'.jobs) && (id in db.jobs ==> db'.jobs[id] == db.jobs[id])
  {
  }

  lemma NextSaysWhatItWrites(db: Db, pc: Pc, o: Outcome, at: Time)
    ensures var e := Next(db, pc, o, at);
            if e.event.Moved? then Subject(pc) == Some(e.event.id) else e.db == db
  {
  }

  lemma NextFrame(db: Db, pc: Pc, o: Outcome, at: Time, id: Id)
    ensures var e := Next(db, pc, o, at);
            !(e.event.Moved? && e.event.id == id) ==> MovesBy(db, e.db, e.event, id)
  {
    NextSaysWhatItWrites(db, pc, o, at);
    if Subject(pc) != Some(id) {
      NextWritesSubject(db, pc, o, at, id);
    }
  }

  lemma StepMoves(c: Core, t: Tick, id: Id)
    requires Inv(c)
    ensures MovesBy(c.db, Step(c, t).db, EventOf(c, t), id)
  {
    if t.act.Advance? {
      NextMovesRow(c.db, PcOf(c, t.act.p), t.act.outcome, t.at);
      NextFrame(c.db, PcOf(c, t.act.p), t.act.outcome, t.at, id);
    }
  }

  /** The moves of one job, picked out of a trace. */
  function History(trace: seq<Event>, id: Id): seq<L.Move> {
    if |trace| == 0 then []
    else
      var last := trace[|trace|-1];
      History(trace[..|trace|-1], id) + (if last.Moved? && last.id == id then [last.move] else [])
  }

  ghost predicate Refines(db: Db, trace: seq<Event>, id: Id) {
    L.Valid(History(trace, id)) && View(db, id) == L.Replay(History(trace, id))
  }

  /** Every run of the system projects, job by job, onto a run of the guarded machine. */
  lemma {:induction false} Refinement(run: seq<Tick>, id: Id)
    ensures L.Valid(History(Trace(run), id))
    ensures View(Exec(run).db, id) == L.Replay(History(Trace(run), id))
  {
    RefinesRun(run, id);
  }

  lemma {:induction false} RefinesRun(run: seq<Tick>, id: Id)
    ensures Refines(Exec(run).db, Trace(run), id)
  {
    if |run| > 0 {
      var before, t := run[..|run|-1], run[|run|-1];
      RefinesRun(before, id);
      Reachable(before);
      StepRefines(Exec(before), t, Trace(before), id);
    }
  }

  lemma StepRefines(c: Core, t: Tick, trace: seq<Event>, id: Id)
    requires Inv(c) && Refines(c.db, trace, id)
    ensures Refines(Step(c, t).db, trace + [EventOf(c, t)], id)
  {
    var ev, h := EventOf(c, t), History(trace, id);
    HistoryStep(trace, ev, id);
    StepMoves(c, t, id);
    if ev.Moved? && ev.id == id {
      L.ReplayExtend(h, ev.move);
    } else {
      assert h + [] == h;
    }
  }

  lemma HistoryStep(trace: seq<Event>, ev: Event, id: Id)
    ensures History(trace + [ev], id) == History(trace, id) + (if ev.Moved? && ev.id == id then [ev.move] else [])
  {
  }

  lemma ExecStep(run: seq<Tick>, t: Tick)
    ensures Exec(run + [t]) == Step(Exec(run), t)
    ensures Trace(run + [t]) == Trace(run) + [EventOf(Exec(run), t)]
  {
  }

  // ---------------------------------------------------------------------------
  // What the refinement buys.

  /**
   Every claim of a job is accounted for: each earlier cycle, ended by a reset,
   used the whole budget, and this cycle used what the row's counter says.
   */
  ghost predicate ClaimsAccounted(row: Row, h: seq<L.Move>) {
    var b := Budget(row.maxRetries);
    && L.Claims(h) == L.Resets(h) * b + row.retryCount
                      + (if row.status == Processing || row.status == Completed then 1 else 0)
    && L.Claims(h) <= (1 + L.Resets(h)) * b
    && (row.status == Failed ==> row.retryCount == b)
    && (row.status != Failed ==> 0 <= row.retryCount < b)
  }

  lemma RowAccount(db: Db, h: seq<L.Move>, id: Id)
    requires L.Valid(h) && View(db, id) == L.Replay(h) && id in db.jobs
    ensures ClaimsAccounted(db.jobs[id], h)
  {
    L.Accounting(h);
    L.ClaimBound(h);
  }

  /** Handlers run at most `Budget(max_retries)` times per submission or reset. */
  lemma RunBound(run: seq<Tick>, id: Id)
    requires id in Exec(run).db.jobs
    ensures ClaimsAccounted(Exec(run).db.jobs[id], History(Trace(run), id))
  {
    Refinement(run, id);
    RowAccount(Exec(run).db, History(Trace(run), id), id);
  }

  /** A dead-letter row exists exactly for failed jobs, agrees with them, and balances the books. */
  lemma DeadLetterAgreement(run: seq<Tick>, id: Id)
    ensures var db := Exec(run).db;
            var h := History(Trace(run), id);
            && (id in db.dlq <==> Has(db, id, Failed))
            && (id in db.dlq ==>
                  && db.dlq[id].tenant == db.jobs[id].tenant
                  && db.dlq[id].attempts == db.jobs[id].retryCount
                  && Some(db.dlq[id].reason) == db.jobs[id].error)
            && L.Burials(h) == L.Resets(h) + (if id in db.dlq then 1 else 0)
  {
    Reachable(run);
    Refinement(run, id);
    L.Accounting(History(Trace(run), id));
  }

  lemma {:induction false} TraceGrows(run: seq<Tick>, more: seq<Tick>)
    ensures Trace(run) <= Trace(run + more)
  {
    if more == [] {
      assert run + more == run;
    } else {
      var mid := run + more[..|more|-1];
      TraceGrows(run, more[..|more|-1]);
      assert (run + more)[..|run + more|-1] == mid;
    }
  }

  lemma {:induction false} HistoryGrows(trace: seq<Event>, longer: seq<Event>, id: Id)
    requires trace <= longer
    ensures History(trace, id) <= History(longer, id)
  {
    if |trace| < |longer| {
      HistoryGrows(trace, longer[..|longer|-1], id);
    } else {
      assert trace == longer;
    }
  }

  lemma Rest(h: seq<L.Move>, longer: seq<L.Move>) returns (extra: seq<L.Move>)
    requires h <= longer
    ensures longer == h + extra
  {
    extra := longer[|h|..];
  }

  /** The moves a job makes after `run`. */
  lemma LaterMoves(run: seq<Tick>, more: seq<Tick>, id: Id) returns (extra: seq<L.Move>)
    ensures History(Trace(run + more), id) == History(Trace(run), id) + extra
  {
    TraceGrows(run, more);
    HistoryGrows(Trace(run), Trace(run + more), id);
    extra := Rest(History(Trace(run), id), History(Trace(run + more), id));
  }

  lemma TerminalFrom(db: Db, db': Db, ev: Event, id: Id)
    requires MovesBy(db, db', ev, id) && (Has(db, id, Completed) || Has(db, id, Cancelled))
    ensures id in db'.jobs && db'.jobs[id] == db.jobs[id]
  {
  }

  lemma TerminalStep(c: Core, t: Tick, id: Id)
    requires Inv(c) && (Has(c.db, id, Completed) || Has(c.db, id, Cancelled))
    ensures id in Step(c, t).db.jobs && Step(c, t).db.jobs[id] == c.db.jobs[id]
  {
    StepMoves(c, t, id);
    TerminalFrom(c.db, Step(c, t).db, EventOf(c, t), id);
  }

  /** Completed and cancelled rows never change again, field for field. */
  lemma {:induction false} TerminalRowsFrozen(run: seq<Tick>, more: seq<Tick>, id: Id)
    requires Has(Exec(run).db, id, Completed) || Has(Exec(run).db, id, Cancelled)
    ensures id in Exec(run + more).db.jobs
    ensures Exec(run + more).db.jobs[id] == Exec(run).db.jobs[id]
  {
    if more == [] {
      assert run + more == run;
    } else {
      var n := |more| - 1;
      var mid, t := run + more[..n], more[n];
      TerminalRowsFrozen(run, more[..n], id);
      assert mid + [t] == run + more;
      ExecStep(mid, t);
      Reachable(mid);
      TerminalStep(Exec(mid), t, id);
    }
  }

  lemma NoMovesOnceCancelled(run: seq<Tick>, more: seq<Tick>, id: Id)
    requires Has(Exec(run).db, id, Cancelled)
    ensures History(Trace(run + more), id) == History(Trace(run), id)
  {
    var h := History(Trace(run), id);
    Refinement(run, id);
    Refinement(run + more, id);
    var extra := LaterMoves(run, more, id);
    L.Absorbing(h, extra);
    assert h + [] == h;
  }

  lemma CancelledHasNoOwner(c: Core, id: Id, p: Pid)
    requires Inv(c) && Has(c.db, id, Cancelled)
    ensures Owned(PcOf(c, p)) != Some(id)
  {
    assert PcOk(c.db, PcOf(c, p));
  }

  /**
   Cancellation sticks: from the moment the cancel commits no activity owns the
   job, no later claim of it ever succeeds, and its row is final, whatever Redis
   still delivers.
   */
  lemma CancellationSticks(run: seq<Tick>, more: seq<Tick>, id: Id, p: Pid)
    requires Has(Exec(run).db, id, Cancelled)
    ensures Has(Exec(run + more).db, id, Cancelled)
    ensures Exec(run + more).db.jobs[id] == Exec(run).db.jobs[id]
    ensures Owned(PcOf(Exec(run + more), p)) != Some(id)
    ensures History(Trace(run + more), id) == History(Trace(run), id)
  {
    TerminalRowsFrozen(run, more, id);
    NoMovesOnceCancelled(run, more, id);
    Reachable(run + more);
    CancelledHasNoOwner(Exec(run + more), id, p);
  }

  /** The Redis clean-up after a cancel only ever names a cancelled job. */
  lemma RemoveOnlyNamesCancelled(run: seq<Tick>, p: Pid)
    requires PcOf(Exec(run), p).Unlisting? || PcOf(Exec(run), p).Undelaying?
    ensures Has(Exec(run).db, PcOf(Exec(run), p).id, Cancelled)
  {
    Reachable(run);
  }

  /** Tenant, queue, type, payload and retry budget of a job are what it was submitted with, for good. */
  lemma SubmissionFixed(run: seq<Tick>, more: seq<Tick>, id: Id)
    requires id in Exec(run).db.jobs
    ensures id in Exec(run + more).db.jobs
    ensures var a := Exec(run).db.jobs[id]; var b := Exec(run + more).db.jobs[id];
            && a.tenant == b.tenant && a.queue == b.queue && a.maxRetries == b.maxRetries
            && a.jobType == b.jobType && a.payload == b.payload
  {
    Refinement(run, id);
    Refinement(run + more, id);
    var extra := LaterMoves(run, more, id);
    L.IdentityFixed(History(Trace(run), id), extra);
  }

  /**
   Every column of every row follows from what happened to the job: what it was
   submitted with, and what came after its last reset.
   */
  lemma RowTellsHistory(run: seq<Tick>, id: Id)
    requires id in Exec(run).db.jobs
    ensures var row, h := Exec(run).db.jobs[id], History(Trace(run), id);
            && h != []
            && var last := h[|h|-1];
            && h[0] == L.Submit(L.Spec(row.tenant, row.queue, row.jobType, row.payload, row.maxRetries))
            && (row.status == Pending <==> last.Submit? || last.Requeue? || last.Reset?)
            && (row.status == Processing <==> last.Claim?)
            && (row.status == Completed <==> last.Complete?)
            && (row.status == Failed <==> last.Bury?)
            && (row.status == Cancelled <==> last.Withdraw?)
            && row.retryCount == L.Failures(h)
            && row.startedAt == L.LastClaim(h)
            && row.error == (if last.Complete? then None else L.LastFailure(h))
            && row.result == (if last.Complete? then Some(last.result) else None)
            && row.completedAt == (if last.Complete? || last.Bury? || last.Withdraw? then Some(last.at) else None)
  {
    Refinement(run, id);
    L.ColumnsTellHistory(History(Trace(run), id));
  }

  lemma StepElsewhere(c: Core, t: Tick, p: Pid)
    requires p != t.act.p
    ensures PcOf(Step(c, t), p) == PcOf(c, p)
  {
  }

  /** Other activities do not move this one. */
  lemma {:induction false} Undisturbed(run: seq<Tick>, others: seq<Tick>, p: Pid)
    requires forall i | 0 <= i < |others| :: others[i].act.p != p
    ensures PcOf(Exec(run + others), p) == PcOf(Exec(run), p)
  {
    if others == [] {
      assert run + others == run;
    } else {
      var n := |others| - 1;
      Undisturbed(run, others[..n], p);
      assert run + others == run + others[..n] + [others[n]];
      ExecStep(run + others[..n], others[n]);
      StepElsewhere(Exec(run + others[..n]), others[n], p);
    }
  }

  /** What a finished attempt leaves of the row its claimant saw. */
  function Settlement(row: Row, outcome: Outcome, at: Time): Row {
    match outcome
    case Returned(result) =>
      row.(status := Completed, result := Some(result), error := None, completedAt := Some(at))
    case Raised(message) =>
      if row.retryCount + 1 >= row.maxRetries
      then row.(status := Failed, retryCount := row.retryCount + 1, error := Some(message), completedAt := Some(at))
      else row.(status := Pending, retryCount := row.retryCount + 1, error := Some(message))
  }

  /** An activity that holds this answer for this claimed row. */
  predicate Holding(pc: Pc, id: Id, row: Row, outcome: Outcome) {
    match outcome
    case Returned(result) => pc == Succeeded(id, row, result)
    case Raised(message) => pc == Errored(id, row, message)
  }

  lemma Answered(c: Core, p: Pid, t: Tick)
    requires PcOf(c, p).Running? && t.act.Advance? && t.act.p == p
    ensures Holding(PcOf(Step(c, t), p), PcOf(c, p).id, PcOf(c, p).row, t.act.outcome)
  {
  }

  /** The row and the dead-letter row after a finished attempt. */
  ghost predicate Recorded(db: Db, id: Id, row: Row, outcome: Outcome, at: Time) {
    && id in db.jobs && db.jobs[id] == Settlement(row, outcome, at)
    && (outcome.Raised? && row.retryCount + 1 >= row.maxRetries ==>
          id in db.dlq && db.dlq[id] == DlqRow(row.tenant, outcome.message, row.retryCount + 1))
  }

  lemma OutcomeWritten(c: Core, p: Pid, id: Id, row: Row, outcome: Outcome, t: Tick)
    requires Inv(c) && Holding(PcOf(c, p), id, row, outcome) && t.act.Advance? && t.act.p == p
    ensures Recorded(Step(c, t).db, id, row, outcome, t.at)
  {
    StepKeepsInv(c, t);
    assert PcOk(c.db, PcOf(c, p)) && RowOk(c.db.jobs[id]);
  }

  /**
   Whatever other activities do between a handler's answer and its record: the
   row becomes the claimed row with this answer in it, field for field, and a
   final failure has its dead-letter row.
   */
  lemma OutcomeRecorded(run: seq<Tick>, p: Pid, answer: Tick, others: seq<Tick>, record: Tick)
    requires PcOf(Exec(run), p).Running?
    requires answer.act.Advance? && answer.act.p == p && record.act.Advance? && record.act.p == p
    requires forall i | 0 <= i < |others| :: others[i].act.p != p
    ensures var pc := PcOf(Exec(run), p);
            Recorded(Exec(run + [answer] + others + [record]).db, pc.id, pc.row, answer.act.outcome, record.at)
  {
    var pc := PcOf(Exec(run), p);
    ExecStep(run, answer);
    Answered(Exec(run), p, answer);
    Undisturbed(run + [answer], others, p);
    var mid := run + [answer] + others;
    Reachable(mid);
    ExecStep(mid, record);
    OutcomeWritten(Exec(mid), p, pc.id, pc.row, answer.act.outcome, record);
  }

  /** A claim changes the status and the start of a row and nothing else, and the claimant has seen the rest. */
  lemma ClaimSeesTheRow(run: seq<Tick>, p: Pid, t: Tick)
    requires t.act.Advance? && t.act.p == p && PcOf(Exec(run), p).Popped?
    ensures var id, db, c := PcOf(Exec(run), p).id, Exec(run).db, Exec(run + [t]);
            if Has(db, id, Pending) then
              var seen := db.jobs[id].(status := Processing, startedAt := Some(t.at));
              PcOf(c, p) == Running(id, seen) && c.db == db.(jobs := db.jobs[id := seen])
            else PcOf(c, p).Idle? && c.db == db
  {
    ExecStep(run, t);
  }

  // ---------------------------------------------------------------------------
  // What a crash costs.

  ghost predicate Orphaned(c: Core, id: Id) {
    Has(c.db, id, Processing) && forall p :: Owned(PcOf(c, p)) != Some(id)
  }

  /** Only its owner moves a processing job; one whose handler has returned only completes it. */
  lemma WriterOwns(c: Core, t: Tick, id: Id)
    requires Inv(c) && Has(c.db, id, Processing)
    ensures var ev := EventOf(c, t);
            ev.Moved? && ev.id == id ==>
              Owned(PcOf(c, t.act.p)) == Some(id) && (PcOf(c, t.act.p).Succeeded? ==> ev.move.Complete?)
  {
  }

  /** Who owns a processing job after its own statement owned it before, and had not yet been answered. */
  lemma OwnerWas(c: Core, t: Tick, id: Id)
    requires Has(c.db, id, Processing) && Owned(PcOf(Step(c, t), t.act.p)) == Some(id)
    ensures Owned(PcOf(c, t.act.p)) == Some(id)
    ensures PcOf(c, t.act.p).Succeeded? ==> PcOf(Step(c, t), t.act.p).Succeeded?
  {
  }

  lemma NoNewOwner(c: Core, t: Tick, id: Id)
    requires Has(c.db, id, Processing) && Owned(PcOf(c, t.act.p)) != Some(id)
    ensures Owned(PcOf(Step(c, t), t.act.p)) != Some(id)
  {
  }

  lemma OrphanStep(c: Core, t: Tick, id: Id)
    requires Inv(c) && Orphaned(c, id)
    ensures Orphaned(Step(c, t), id) && Step(c, t).db.jobs[id] == c.db.jobs[id]
  {
    assert Owned(PcOf(c, t.act.p)) != Some(id);
    WriterOwns(c, t, id);
    StepMoves(c, t, id);
    forall p ensures Owned(PcOf(Step(c, t), p)) != Some(id) {
      assert Owned(PcOf(c, p)) != Some(id);
      if p == t.act.p {
        NoNewOwner(c, t, id);
      } else {
        StepElsewhere(c, t, p);
      }
    }
  }

  /**
   Nothing recovers a job whose worker died between claim and outcome: its row
   stays `processing`, unchanged, in every continuation.
   */
  lemma {:induction false} OrphansStayProcessing(run: seq<Tick>, more: seq<Tick>, id: Id)
    requires Orphaned(Exec(run), id)
    ensures Orphaned(Exec(run + more), id)
    ensures Exec(run + more).db.jobs[id] == Exec(run).db.jobs[id]
  {
    if more == [] {
      assert run + more == run;
    } else {
      var mid, t := run + more[..|more|-1], more[|more|-1];
      OrphansStayProcessing(run, more[..|more|-1], id);
      assert mid + [t] == run + more;
      ExecStep(mid, t);
      Reachable(mid);
      OrphanStep(Exec(mid), t, id);
    }
  }

  /** Whatever the handler answers, two more statements of the owner end the processing. */
  lemma OwnerEnds(run: seq<Tick>, p: Pid, id: Id) returns (more: seq<Tick>)
    requires Owned(PcOf(Exec(run), p)) == Some(id)
    ensures !Has(Exec(run + more).db, id, Processing)
  {
    var t := Tick(0, Advance(p, Returned("")));
    ExecStep(run, t);
    Reachable(run);
    assert PcOk(Exec(run).db, PcOf(Exec(run), p)) && RowOk(Exec(run).db.jobs[id]);
    more := [t];
    if PcOf(Exec(run), p).Running? {
      ExecStep(run + [t], t);
      more := [t] + [t];
      assert run + more == run + [t] + [t];
    }
  }

  /** A processing job can leave that status exactly when some activity still owns it. */
  lemma ProcessingEndsIffOwned(run: seq<Tick>, id: Id)
    requires Has(Exec(run).db, id, Processing)
    ensures (exists more :: !Has(Exec(run + more).db, id, Processing)) <==> !Orphaned(Exec(run), id)
  {
    if Orphaned(Exec(run), id) {
      forall more ensures Has(Exec(run + more).db, id, Processing) {
        OrphansStayProcessing(run, more, id);
      }
    } else {
      var p :| Owned(PcOf(Exec(run), p)) == Some(id);
      var more := OwnerEnds(run, p, id);
    }
  }
}
