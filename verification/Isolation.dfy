/**
 Tenant isolation over whole runs of the system, workers included.

 From any run delete every activity that belongs to the other tenants: their
 requests, and the workers' handling of their jobs. What is left is a run, and
 at every point its database is exactly the part of the original one that
 belongs to the tenant. Statements of all activities interleave freely, and
 activities may be abandoned anywhere.
 */
module Isolation {
  import opened Jobs
  import opened Protocol
  import T = Tenancy

  /** A tenant, the ids that are its own by the end of a run, and those that are other tenants'. */
  datatype Side = Side(tenant: Tenant, own: set<Id>, others: set<Id>)

  ghost function SideOf(run: seq<Tick>, t: Tenant): Side {
    var jobs := Exec(run).db.jobs;
    Side(t, set id | id in jobs && jobs[id].tenant == t, set id | id in jobs && jobs[id].tenant != t)
  }

  /** Generated ids: none of the tenant's submissions comes with an id that is another tenant's. */
  ghost predicate NoClash(run: seq<Tick>, t: Tenant) {
    forall i | 0 <= i < |run| && run[i].act.Start? && run[i].act.task.Submitting? && run[i].act.task.draft.tenant == t ::
      run[i].act.task.draft.id !in SideOf(run, t).others
  }

  ghost function Part(db: Db, own: set<Id>): Db {
    Db(map id | id in db.jobs && id in own :: db.jobs[id], map id | id in db.dlq && id in own :: db.dlq[id])
  }

  // ---------------------------------------------------------------------------
  // Whose an activity is.

  /** A request is its caller's; the handling of an id is that of the job's owner. */
  predicate Mine(pc: Pc, s: Side) {
    match pc
    case Submitting(d) => d.tenant == s.tenant
    case Resetting(tenant, _) => tenant == s.tenant
    case Cancelling(tenant, _) => tenant == s.tenant
    case Popped(id) => id in s.own
    case Running(id, _) => id in s.own
    case Succeeded(id, _, _) => id in s.own
    case Errored(id, _, _) => id in s.own
    case _ => true
  }

  predicate Foreign(pc: Pc, s: Side) {
    match pc
    case Submitting(d) => d.tenant != s.tenant
    case Resetting(tenant, _) => tenant != s.tenant
    case Cancelling(tenant, _) => tenant != s.tenant
    case Popped(id) => id !in s.own
    case Running(id, _) => id !in s.own
    case Succeeded(id, _, _) => id !in s.own
    case Errored(id, _, _) => id !in s.own
    case _ => true
  }

  /** A submission that brings a generated id. */
  predicate Unclashing(pc: Pc, s: Side) {
    pc.Submitting? ==> pc.draft.id !in s.others
  }

  /** The processes whose latest activity is the tenant's, after one more tick. */
  function KeptAfter(c: Core, kept: set<Pid>, t: Tick, s: Side): set<Pid> {
    if t.act.Start? && PcOf(c, t.act.p).Idle? && Entry(t.act.task)
    then (if Mine(t.act.task, s) then kept + {t.act.p} else kept - {t.act.p})
    else kept
  }

  predicate Keeps(c: Core, kept: set<Pid>, t: Tick, s: Side) {
    if t.act.Start?
    then PcOf(c, t.act.p).Idle? && Entry(t.act.task) && Mine(t.act.task, s)
    else t.act.p in kept
  }

  function Kept(run: seq<Tick>, s: Side): set<Pid> {
    if |run| == 0 then {}
    else KeptAfter(Exec(run[..|run|-1]), Kept(run[..|run|-1], s), run[|run|-1], s)
  }

  /** The run with every tick of the other tenants' activities deleted. */
  function Purged(run: seq<Tick>, s: Side): seq<Tick> {
    if |run| == 0 then []
    else
      var before, t := run[..|run|-1], run[|run|-1];
      Purged(before, s) + (if Keeps(Exec(before), Kept(before, s), t, s) then [t] else [])
  }

  // ---------------------------------------------------------------------------
  // One statement.

  /** Every row is on the side of its tenant. */
  ghost predicate Sided(db: Db, s: Side) {
    && s.own !! s.others
    && (forall id | id in db.jobs :: if db.jobs[id].tenant == s.tenant then id in s.own else id in s.others)
  }

  lemma PartRow(db: Db, own: set<Id>, id: Id)
    requires id in own
    ensures id in Part(db, own).jobs <==> id in db.jobs
    ensures id in db.jobs ==> Part(db, own).jobs[id] == db.jobs[id]
  {
  }

  lemma PartPut(db: Db, own: set<Id>, id: Id, row: Row)
    ensures Part(Put(db, id, row), own) == if id in own then Put(Part(db, own), id, row) else Part(db, own)
  {
  }

  lemma PartDeadLetter(db: Db, own: set<Id>, id: Id, attempts: int, reason: string, at: Time)
    ensures Part(DeadLetter(db, id, attempts, reason, at), own)
            == if id in own then DeadLetter(Part(db, own), id, attempts, reason, at) else Part(db, own)
  {
  }

  lemma PartRetry(db: Db, s: Side, tenant: Tenant, id: Id)
    requires Sided(db, s)
    ensures Part(RetryJob(db, tenant, id), s.own)
            == if tenant == s.tenant then RetryJob(Part(db, s.own), tenant, id) else Part(db, s.own)
  {
  }

  /** For its own tenant a request sees the part as it sees the whole. */
  lemma PartOwned(db: Db, s: Side, id: Id)
    requires Sided(db, s)
    ensures OwnedBy(Part(db, s.own), s.tenant, id) <==> OwnedBy(db, s.tenant, id)
    ensures OwnedBy(db, s.tenant, id) ==> id in s.own && Part(db, s.own).jobs[id] == db.jobs[id]
  {
  }

  lemma FailureNext(db: Db, pc: Pc, o: Outcome, at: Time, s: Side)
    requires pc.Errored? && Sided(db, s)
    ensures var part := Part(db, s.own);
            && Next(part, pc, o, at).pc == Next(db, pc, o, at).pc
            && Part(Next(db, pc, o, at).db, s.own) == if pc.id in s.own then Next(part, pc, o, at).db else part
  {
    var attempts, part := pc.row.retryCount + 1, Part(db, s.own);
    if attempts >= pc.row.maxRetries {
      PartDeadLetter(db, s.own, pc.id, attempts, pc.message, at);
    } else if pc.id in db.jobs && Int32(attempts) {
      PartPut(db, s.own, pc.id, MarkForRetry(db, pc.id, attempts, pc.message).jobs[pc.id]);
    }
  }

  lemma SubmitNext(db: Db, pc: Pc, o: Outcome, at: Time, s: Side)
    requires pc.Submitting? && pc.draft.tenant == s.tenant && pc.draft.id !in s.others
    requires Sided(db, s) && Sided(Next(db, pc, o, at).db, s)
    ensures Next(Part(db, s.own), pc, o, at).pc == Next(db, pc, o, at).pc
    ensures Next(Part(db, s.own), pc, o, at).db == Part(Next(db, pc, o, at).db, s.own)
  {
    PartPut(db, s.own, pc.draft.id, NewRow(pc.draft));
    assert CanInsert(db, pc.draft) ==> pc.draft.id in Next(db, pc, o, at).db.jobs;
    assert CanInsert(db, pc.draft) <==> CanInsert(Part(db, s.own), pc.draft);
  }

  lemma MineNext(db: Db, pc: Pc, o: Outcome, at: Time, s: Side)
    requires Mine(pc, s) && Unclashing(pc, s) && Sided(db, s) && Sided(Next(db, pc, o, at).db, s)
    ensures Next(Part(db, s.own), pc, o, at).pc == Next(db, pc, o, at).pc
    ensures Next(Part(db, s.own), pc, o, at).db == Part(Next(db, pc, o, at).db, s.own)
  {
    match pc
    case Popped(id) =>
      PartRow(db, s.own, id);
      if id in db.jobs { PartPut(db, s.own, id, ClaimedRow(db.jobs[id], at)); }
    case Succeeded(id, _, result) =>
      PartRow(db, s.own, id);
      if id in db.jobs { PartPut(db, s.own, id, MarkCompleted(db, id, result, at).jobs[id]); }
    case Errored(_, _, _) => FailureNext(db, pc, o, at, s);
    case Submitting(_) => SubmitNext(db, pc, o, at, s);
    case Resetting(tenant, id) =>
      PartOwned(db, s, id);
      PartRetry(db, s, tenant, id);
    case Cancelling(tenant, id) =>
      PartOwned(db, s, id);
      if id in db.jobs { PartPut(db, s.own, id, CancelledRow(db.jobs[id], at)); }
    case _ =>
  }

  lemma ForeignNext(db: Db, pc: Pc, o: Outcome, at: Time, s: Side)
    requires Foreign(pc, s) && Sided(db, s) && Sided(Next(db, pc, o, at).db, s)
    ensures Part(Next(db, pc, o, at).db, s.own) == Part(db, s.own)
  {
    match pc
    case Popped(id) =>
      if id in db.jobs { PartPut(db, s.own, id, ClaimedRow(db.jobs[id], at)); }
    case Succeeded(id, _, result) =>
      if id in db.jobs { PartPut(db, s.own, id, MarkCompleted(db, id, result, at).jobs[id]); }
    case Errored(_, _, _) => FailureNext(db, pc, o, at, s);
    case Submitting(d) =>
      PartPut(db, s.own, d.id, NewRow(d));
      assert CanInsert(db, d) ==> d.id in Next(db, pc, o, at).db.jobs;
    case Resetting(tenant, id) => PartRetry(db, s, tenant, id);
    case Cancelling(tenant, id) =>
      if id in db.jobs { PartPut(db, s.own, id, CancelledRow(db.jobs[id], at)); }
    case _ =>
  }

  /** An activity stays whose it is. */
  lemma SideStays(db: Db, pc: Pc, o: Outcome, at: Time, s: Side)
    ensures Mine(pc, s) && Unclashing(pc, s) ==> Mine(Next(db, pc, o, at).pc, s) && Unclashing(Next(db, pc, o, at).pc, s)
    ensures Foreign(pc, s) ==> Foreign(Next(db, pc, o, at).pc, s)
  {
  }

  // ---------------------------------------------------------------------------
  // One tick.

  /** The purged system beside the full one: the tenant's part, and the tenant's activities. */
  ghost predicate Beside(c: Core, c': Core, kept: set<Pid>, s: Side) {
    && c'.db == Part(c.db, s.own)
    && (forall p :: if p in kept
                    then PcOf(c', p) == PcOf(c, p) && Mine(PcOf(c, p), s) && Unclashing(PcOf(c, p), s)
                    else PcOf(c', p).Idle? && Foreign(PcOf(c, p), s))
  }

  ghost function Follow(c: Core, c': Core, kept: set<Pid>, t: Tick, s: Side): Core {
    if Keeps(c, kept, t, s) then Step(c', t) else c'
  }

  lemma AdvanceBeside(c: Core, c': Core, kept: set<Pid>, t: Tick, s: Side)
    requires Beside(c, c', kept, s) && t.act.Advance? && Sided(c.db, s) && Sided(Step(c, t).db, s)
    ensures Beside(Step(c, t), Follow(c, c', kept, t, s), kept, s)
  {
    var p, o := t.act.p, t.act.outcome;
    SideStays(c.db, PcOf(c, p), o, t.at, s);
    if p in kept {
      MineNext(c.db, PcOf(c, p), o, t.at, s);
    } else {
      ForeignNext(c.db, PcOf(c, p), o, t.at, s);
    }
    forall q | q != p
      ensures PcOf(Step(c, t), q) == PcOf(c, q) && PcOf(Step(c', t), q) == PcOf(c', q)
    {
      StepElsewhere(c, t, q);
      StepElsewhere(c', t, q);
    }
  }

  lemma StartOrCrashBeside(c: Core, c': Core, kept: set<Pid>, t: Tick, s: Side)
    requires Beside(c, c', kept, s) && !t.act.Advance?
    requires t.act.Start? && Mine(t.act.task, s) ==> Unclashing(t.act.task, s)
    ensures Beside(Step(c, t), Follow(c, c', kept, t, s), KeptAfter(c, kept, t, s), s)
  {
  }

  lemma StepBeside(c: Core, c': Core, kept: set<Pid>, t: Tick, s: Side)
    requires Beside(c, c', kept, s) && Sided(c.db, s) && Sided(Step(c, t).db, s)
    requires t.act.Start? && Mine(t.act.task, s) ==> Unclashing(t.act.task, s)
    ensures Beside(Step(c, t), Follow(c, c', kept, t, s), KeptAfter(c, kept, t, s), s)
  {
    if t.act.Advance? {
      AdvanceBeside(c, c', kept, t, s);
    } else {
      StartOrCrashBeside(c, c', kept, t, s);
    }
  }

  // ---------------------------------------------------------------------------
  // Whole runs.

  lemma SidedAlways(run: seq<Tick>, k: nat, t: Tenant)
    requires k <= |run|
    ensures Sided(Exec(run[..k]).db, SideOf(run, t))
  {
    var db := Exec(run[..k]).db;
    forall id | id in db.jobs
      ensures if db.jobs[id].tenant == t then id in SideOf(run, t).own else id in SideOf(run, t).others
    {
      assert run[..k] + run[k..] == run;
      SubmissionFixed(run[..k], run[k..], id);
    }
  }

  lemma PurgeStep(run: seq<Tick>, t: Tick, s: Side)
    ensures Kept(run + [t], s) == KeptAfter(Exec(run), Kept(run, s), t, s)
    ensures Exec(Purged(run + [t], s)) == Follow(Exec(run), Exec(Purged(run, s)), Kept(run, s), t, s)
  {
    var all := run + [t];
    assert all[..|all|-1] == run && all[|all|-1] == t;
    ExecStep(Purged(run, s), t);
    assert Purged(run, s) + [] == Purged(run, s);
  }

  /** What the simulation needs of a run. */
  ghost predicate Separates(run: seq<Tick>, s: Side) {
    && (forall k | 0 <= k <= |run| :: Sided(Exec(run[..k]).db, s))
    && (forall i | 0 <= i < |run| && run[i].act.Start? && Mine(run[i].act.task, s) :: Unclashing(run[i].act.task, s))
  }

  lemma SideSeparates(run: seq<Tick>, t: Tenant)
    requires NoClash(run, t)
    ensures Separates(run, SideOf(run, t))
  {
    forall k | 0 <= k <= |run| ensures Sided(Exec(run[..k]).db, SideOf(run, t)) {
      SidedAlways(run, k, t);
    }
  }

  lemma {:induction false} RunsBeside(run: seq<Tick>, k: nat, s: Side)
    requires k <= |run| && Separates(run, s)
    ensures Beside(Exec(run[..k]), Exec(Purged(run[..k], s)), Kept(run[..k], s), s)
  {
    if k > 0 {
      var before, tick := run[..k-1], run[k-1];
      RunsBeside(run, k - 1, s);
      assert run[..k] == before + [tick];
      ExecStep(before, tick);
      PurgeStep(before, tick, s);
      StepBeside(Exec(before), Exec(Purged(before, s)), Kept(before, s), tick, s);
    }
  }

  lemma PartIsView(db: Db, s: Side)
    requires Sided(db, s) && DbOk(db)
    ensures Part(db, s.own) == Db(T.JobsOf(db, s.tenant), T.DeadOf(db, s.tenant))
  {
    var part := Part(db, s.own);
    assert part.jobs == T.JobsOf(db, s.tenant);
    assert part.dlq == T.DeadOf(db, s.tenant);
  }

  /**
   At every point of every run, the run purged of the other tenants' activities
   has exactly the tenant's rows and dead-letter rows, field for field.
   */
  lemma RunIsolation(run: seq<Tick>, k: nat, t: Tenant)
    requires k <= |run| && NoClash(run, t)
    ensures var db := Exec(run[..k]).db;
            Exec(Purged(run[..k], SideOf(run, t))).db == Db(T.JobsOf(db, t), T.DeadOf(db, t))
  {
    SideSeparates(run, t);
    RunsBeside(run, k, SideOf(run, t));
    Reachable(run[..k]);
    PartIsView(Exec(run[..k]).db, SideOf(run, t));
  }

  /** Hence whatever the tenant asks, at any point, it is answered as if it were alone. */
  lemma AnsweredAsIfAlone(run: seq<Tick>, k: nat, rq: T.Request)
    requires k <= |run| && NoClash(run, rq.tenant)
    requires rq.call.Enqueue? ==> rq.call.id !in SideOf(run, rq.tenant).others
    ensures var alone := Exec(Purged(run[..k], SideOf(run, rq.tenant)));
            T.Serve(Exec(run[..k]).db, rq).reply == T.Serve(alone.db, rq).reply
  {
    RunIsolation(run, k, rq.tenant);
    SidedAlways(run, k, rq.tenant);
    ViewOfView(Exec(run[..k]).db, rq.tenant);
    T.SameReply(Exec(run[..k]).db, Exec(Purged(run[..k], SideOf(run, rq.tenant))).db, rq);
  }

  lemma ViewOfView(db: Db, t: Tenant)
    ensures T.SameView(db, Db(T.JobsOf(db, t), T.DeadOf(db, t)), t)
  {
  }
}
