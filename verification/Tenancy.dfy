/**
 Tenant isolation of the job API, as noninterference: deleting every request of
 the other tenants from a request stream, and changing their rows at will, makes
 no difference to any answer a tenant gets.
 */
module Tenancy {
  import opened Jobs
  import P = Protocol
  import Enq = Enqueue

  datatype Call =
    | Get(id: Id)
    | List(filter: Filter)
    | Enqueue(id: Id, queue: string, jobType: string, payload: string, maxRetries: int)
    | Retry(id: Id)
    | Cancel(id: Id)

  /** A call with the tenant its credentials resolved to and the database clock. */
  datatype Request = Request(tenant: Tenant, call: Call, at: Time)

  datatype Reply = OneRow(row: Result<Row>) | ManyRows(rows: map<Id, Row>)

  datatype Served = Served(db: Db, reply: Reply)

  /** The draft the enqueue handler submits: the tenant is the caller's, and the id is a generated one. */
  function DraftOf(tenant: Tenant, c: Call): Draft
    requires c.Enqueue?
  {
    Enq.WithDefaults(Draft(NIL, tenant, c.queue, c.jobType, c.payload, None, c.maxRetries), c.id)
  }

  function Serve(db: Db, rq: Request): Served {
    match rq.call
    case Get(id) => Served(db, OneRow(GetJob(db, rq.tenant, id)))
    case List(f) => Served(db, ManyRows(ListJobs(db, rq.tenant, f)))
    case Enqueue(_, _, _, _, _) =>
      var d := DraftOf(rq.tenant, rq.call);
      if rq.tenant == NIL then Served(db, OneRow(Err(MissingTenant)))
      else if CanInsert(db, d) then Served(CreateJob(db, d), OneRow(Ok(NewRow(d))))
      else Served(db, OneRow(Err(PersistFailed)))
    case Retry(id) => Served(RetryJob(db, rq.tenant, id), OneRow(RetryReply(db, rq.tenant, id)))
    case Cancel(id) => Served(CancelJob(db, rq.tenant, id, rq.at), OneRow(CancelReply(db, rq.tenant, id, rq.at)))
  }

  // ---------------------------------------------------------------------------
  // What belongs to a tenant.

  ghost function JobsOf(db: Db, t: Tenant): map<Id, Row> {
    map id | id in db.jobs && db.jobs[id].tenant == t :: db.jobs[id]
  }

  ghost function DeadOf(db: Db, t: Tenant): map<Id, DlqRow> {
    map id | id in db.dlq && db.dlq[id].tenant == t :: db.dlq[id]
  }

  ghost predicate SameView(db1: Db, db2: Db, t: Tenant) {
    JobsOf(db1, t) == JobsOf(db2, t) && DeadOf(db1, t) == DeadOf(db2, t)
  }

  /** A dead-letter row belongs to the tenant of its job; part of what every reachable database satisfies. */
  ghost predicate DeadOwned(db: Db) {
    forall id | id in db.dlq :: id in db.jobs && db.dlq[id].tenant == db.jobs[id].tenant
  }

  lemma ReachableDeadOwned(db: Db)
    requires DbOk(db)
    ensures DeadOwned(db)
  {
  }

  lemma ServeKeepsDeadOwned(db: Db, rq: Request)
    requires DeadOwned(db)
    ensures DeadOwned(Serve(db, rq).db)
  {
  }

  /** Local respect: a tenant's call changes no job and no dead-letter row of another tenant. */
  lemma ServeTouchesOnlyItsTenant(db: Db, rq: Request, t: Tenant)
    requires DeadOwned(db) && rq.tenant != t
    ensures SameView(Serve(db, rq).db, db, t)
  {
  }

  lemma ViewOfOwned(db1: Db, db2: Db, t: Tenant, id: Id)
    requires SameView(db1, db2, t)
    ensures OwnedBy(db1, t, id) <==> OwnedBy(db2, t, id)
    ensures OwnedBy(db1, t, id) ==> db1.jobs[id] == db2.jobs[id]
  {
    assert id in JobsOf(db1, t) <==> OwnedBy(db1, t, id);
    assert id in JobsOf(db2, t) <==> OwnedBy(db2, t, id);
    if OwnedBy(db1, t, id) {
      assert JobsOf(db1, t)[id] == db1.jobs[id];
      assert JobsOf(db2, t)[id] == db2.jobs[id];
    }
  }

  lemma ListFromView(db: Db, t: Tenant, f: Filter)
    ensures ListJobs(db, t, f) == map id | id in JobsOf(db, t) && Matches(JobsOf(db, t)[id], t, f) :: JobsOf(db, t)[id]
  {
  }

  /** An id that is new to both databases, or known to both. */
  predicate IdAgrees(db1: Db, db2: Db, c: Call) {
    c.Enqueue? ==> (c.id in db1.jobs <==> c.id in db2.jobs)
  }

  lemma SameReply(db1: Db, db2: Db, rq: Request)
    requires SameView(db1, db2, rq.tenant) && IdAgrees(db1, db2, rq.call)
    ensures Serve(db1, rq).reply == Serve(db2, rq).reply
  {
    match rq.call
    case List(f) =>
      ListFromView(db1, rq.tenant, f);
      ListFromView(db2, rq.tenant, f);
    case _ =>
      ViewOfOwned(db1, db2, rq.tenant, rq.call.id);
  }

  /** How a tenant's own call changes its view: a function of the view alone. */
  lemma JobsAfter(db: Db, rq: Request)
    ensures var t, v, v' := rq.tenant, JobsOf(db, rq.tenant), JobsOf(Serve(db, rq).db, rq.tenant);
            match rq.call
            case Enqueue(id, _, _, _, _) =>
              v' == if t != NIL && CanInsert(db, DraftOf(t, rq.call)) then v[id := NewRow(DraftOf(t, rq.call))] else v
            case Retry(id) => v' == if id in v && v[id].status == Failed then v[id := ResetRow(v[id])] else v
            case Cancel(id) => v' == if id in v && v[id].status == Pending then v[id := CancelledRow(v[id], rq.at)] else v
            case _ => v' == v
  {
  }

  lemma DeadAfter(db: Db, rq: Request)
    ensures var t, v, d, d' := rq.tenant, JobsOf(db, rq.tenant), DeadOf(db, rq.tenant), DeadOf(Serve(db, rq).db, rq.tenant);
            d' == if rq.call.Retry? && rq.call.id in v && v[rq.call.id].status == Failed then d - {rq.call.id} else d
  {
  }

  /** Step consistency: equal views give equal answers and stay equal. */
  lemma ServeConsistent(db1: Db, db2: Db, rq: Request)
    requires SameView(db1, db2, rq.tenant) && IdAgrees(db1, db2, rq.call)
    ensures Serve(db1, rq).reply == Serve(db2, rq).reply
    ensures SameView(Serve(db1, rq).db, Serve(db2, rq).db, rq.tenant)
  {
    SameReply(db1, db2, rq);
    JobsAfter(db1, rq);
    JobsAfter(db2, rq);
    DeadAfter(db1, rq);
    DeadAfter(db2, rq);
  }

  // ---------------------------------------------------------------------------
  // Whole request streams.

  function RunAll(db: Db, rqs: seq<Request>): Db
    decreases rqs
  {
    if |rqs| == 0 then db else RunAll(Serve(db, rqs[0]).db, rqs[1..])
  }

  /** The answers tenant `t` gets out of a stream of everybody's requests. */
  function RepliesTo(db: Db, rqs: seq<Request>, t: Tenant): seq<Reply>
    decreases rqs
  {
    if |rqs| == 0 then []
    else
      var s := Serve(db, rqs[0]);
      (if rqs[0].tenant == t then [s.reply] else []) + RepliesTo(s.db, rqs[1..], t)
  }

  /** The stream with every other tenant's requests deleted. */
  function Purge(rqs: seq<Request>, t: Tenant): seq<Request> {
    if |rqs| == 0 then []
    else (if rqs[0].tenant == t then [rqs[0]] else []) + Purge(rqs[1..], t)
  }

  /** Generated ids never repeat, and never hit an id already in use. */
  predicate FreshIds(rqs: seq<Request>, used: set<Id>)
    decreases rqs
  {
    |rqs| == 0 ||
    (if rqs[0].call.Enqueue?
     then rqs[0].call.id !in used && FreshIds(rqs[1..], used + {rqs[0].call.id})
     else FreshIds(rqs[1..], used))
  }

  lemma ServeUses(db: Db, rq: Request, used: set<Id>)
    requires db.jobs.Keys <= used
    ensures Serve(db, rq).db.jobs.Keys <= (if rq.call.Enqueue? then used + {rq.call.id} else used)
  {
  }

  /**
   Noninterference: two systems that agree on tenant t's rows, one serving
   everybody and one serving t alone, give t the same answers and still agree on
   t's rows afterwards.
   */
  lemma {:induction false} Noninterference(db1: Db, db2: Db, rqs: seq<Request>, t: Tenant, used: set<Id>)
    requires DeadOwned(db1) && DeadOwned(db2) && SameView(db1, db2, t)
    requires FreshIds(rqs, used) && db1.jobs.Keys <= used && db2.jobs.Keys <= used
    ensures RepliesTo(db1, rqs, t) == RepliesTo(db2, Purge(rqs, t), t)
    ensures SameView(RunAll(db1, rqs), RunAll(db2, Purge(rqs, t)), t)
    decreases rqs
  {
    if |rqs| > 0 {
      var rq := rqs[0];
      var db1' := Serve(db1, rq).db;
      var used' := if rq.call.Enqueue? then used + {rq.call.id} else used;
      ServeUses(db1, rq, used);
      ServeKeepsDeadOwned(db1, rq);
      if rq.tenant == t {
        var db2' := Serve(db2, rq).db;
        ServeUses(db2, rq, used);
        ServeKeepsDeadOwned(db2, rq);
        ServeConsistent(db1, db2, rq);
        Noninterference(db1', db2', rqs[1..], t, used');
        assert Purge(rqs, t)[0] == rq && Purge(rqs, t)[1..] == Purge(rqs[1..], t);
      } else {
        ServeTouchesOnlyItsTenant(db1, rq, t);
        Noninterference(db1', db2, rqs[1..], t, used');
        assert Purge(rqs, t) == Purge(rqs[1..], t);
      }
    }
  }

  /**
   In particular between any two reachable systems, whatever their workers and
   other tenants have done to get there.
   */
  lemma IsolationInEveryRun(run1: seq<P.Tick>, run2: seq<P.Tick>, rqs: seq<Request>, t: Tenant, used: set<Id>)
    requires SameView(P.Exec(run1).db, P.Exec(run2).db, t)
    requires FreshIds(rqs, used) && P.Exec(run1).db.jobs.Keys <= used && P.Exec(run2).db.jobs.Keys <= used
    ensures RepliesTo(P.Exec(run1).db, rqs, t) == RepliesTo(P.Exec(run2).db, Purge(rqs, t), t)
    ensures SameView(RunAll(P.Exec(run1).db, rqs), RunAll(P.Exec(run2).db, Purge(rqs, t)), t)
  {
    P.Reachable(run1);
    P.Reachable(run2);
    ReachableDeadOwned(P.Exec(run1).db);
    ReachableDeadOwned(P.Exec(run2).db);
    Noninterference(P.Exec(run1).db, P.Exec(run2).db, rqs, t, used);
  }

  /**
   The one channel there is: an enqueue whose id is taken fails, so on agreeing
   databases its answer is the same exactly when the id is taken in both or in
   neither. Ids are generated, never chosen by the caller.
   */
  lemma EnqueueRevealsOnlyIdClash(db1: Db, db2: Db, rq: Request)
    requires rq.call.Enqueue? && rq.tenant != NIL && Int32(rq.call.maxRetries)
    requires SameView(db1, db2, rq.tenant)
    ensures Serve(db1, rq).reply == Serve(db2, rq).reply <==> IdAgrees(db1, db2, rq.call)
  {
  }
}
