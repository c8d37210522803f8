/**
 One scheduling pass by one scheduler, as the code runs it: scan, then for each
 due schedule compute, claim, and submit.
 */
module SchedulerPass {
  import opened Jobs
  import opened Redis
  import opened S = Scheduler
  import Stores
  import Queue
  import Enqueue

  class ScheduleStore {
    var table: Table

    constructor (table: Table)
      ensures this.table == table
    {
      this.table := table;
    }

    /** The due rows, ordered by how overdue they are. */
    method DueSchedules(now: Time) returns (due: seq<Due>)
      ensures DueScan(table, now, due)
      ensures forall id :: (exists i :: 0 <= i < |due| && due[i].id == id) <==>
                           id in table && table[id].enabled && table[id].nextRunAt <= now
      ensures forall i | 0 <= i < |due| :: due[i].id in table && due[i].row == table[due[i].id]
      ensures forall i, j | 0 <= i < j < |due| :: due[i].id != due[j].id && due[i].row.nextRunAt <= due[j].row.nextRunAt
    {
      due := [];
      var left := set id | id in table && IsDue(table[id], now);
      while left != {}
        invariant forall id | id in left :: id in table && IsDue(table[id], now)
        invariant forall i | 0 <= i < |due| :: due[i].id in table && due[i].row == table[due[i].id] && IsDue(due[i].row, now)
        invariant forall i | 0 <= i < |due| :: due[i].id !in left
        invariant forall i, id | 0 <= i < |due| && id in left :: due[i].row.nextRunAt <= table[id].nextRunAt
        invariant InOrder(due)
        invariant forall id | id in table && IsDue(table[id], now) :: id in left || exists i :: 0 <= i < |due| && due[i].id == id
        decreases left
      {
        var id := Earliest(table, left);
        ghost var was := due;
        InOrderAppend(due, Due(id, table[id]));
        due := due + [Due(id, table[id])];
        left := left - {id};
        assert due[|was|].id == id;
        assert forall i | 0 <= i < |was| :: due[i] == was[i];
      }
    }

    /** The compare-and-swap: one row updated, or none. */
    method ClaimScheduleRun(id: Id, expected: Time, lastRunAt: Time, nextRunAt: Time) returns (won: bool)
      modifies this
      ensures table == ClaimRun(old(table), id, expected, lastRunAt, nextRunAt)
      ensures won <==> id in old(table) && old(table)[id].enabled && old(table)[id].nextRunAt == expected
      ensures won ==> table == old(table)[id := old(table)[id].(lastRunAt := Some(lastRunAt), nextRunAt := nextRunAt)]
      ensures !won ==> table == old(table)
    {
      won := id in table && table[id].enabled && table[id].nextRunAt == expected;
      if won {
        table := table[id := table[id].(lastRunAt := Some(lastRunAt), nextRunAt := nextRunAt)];
      }
    }
  }

  /** Some id of the set with the least cursor. */
  method Earliest(tb: Table, ids: set<Id>) returns (least: Id)
    requires ids != {} && ids <= tb.Keys
    ensures least in ids && forall id | id in ids :: tb[least].nextRunAt <= tb[id].nextRunAt
  {
    least :| least in ids;
    var left := ids - {least};
    while left != {}
      invariant left <= ids && least in ids
      invariant forall id | id in ids && id !in left :: tb[least].nextRunAt <= tb[id].nextRunAt
      decreases left
    {
      var id :| id in left;
      if tb[id].nextRunAt < tb[least].nextRunAt {
        least := id;
      }
      left := left - {id};
    }
  }

  predicate Fires(s: Schedule, now: Time, next: Cron) {
    IsDue(s, now) && next(s.cron, now).Some?
  }

  function Advanced(s: Schedule, now: Time, next: Cron): Schedule {
    if Fires(s, now, next) then s.(lastRunAt := Some(now), nextRunAt := next(s.cron, now).value) else s
  }

  /** The table after a full pass. */
  function Settled(tb: Table, now: Time, next: Cron): Table {
    map id | id in tb :: Advanced(tb[id], now, next)
  }

  /** The table when the pass has dealt with some of the schedules. */
  function PartlySettled(tb: Table, seen: set<Id>, now: Time, next: Cron): Table {
    map id | id in tb :: if id in seen then Advanced(tb[id], now, next) else tb[id]
  }

  /** Everything a pass can touch. */
  datatype Snapshot = Snapshot(table: Table, db: Db, lanes: Queues)

  ghost function Snap(ss: ScheduleStore, st: Stores.Store, q: Queue.WorkQueue): Snapshot
    reads ss, st, q
  {
    Snapshot(ss.table, st.Tables(), q.lanes)
  }

  /** Whether firing gets as far as a job: the claim is won and the insert accepted. */
  predicate Delivers(s: Snapshot, d: Due, now: Time, next: Cron, newId: Id) {
    && next(d.row.cron, now).Some?
    && Wins(s.table, d.id, d.row.nextRunAt)
    && d.row.tenant != NIL
    && CanInsert(s.db, FiredDraft(d.row, newId))
  }

  function FireOn(s: Snapshot, d: Due, now: Time, next: Cron, newId: Id): Snapshot {
    var at := next(d.row.cron, now);
    var table' := if at.Some? then ClaimRun(s.table, d.id, d.row.nextRunAt, now, at.value) else s.table;
    if Delivers(s, d, now, next, newId) then
      var draft := FiredDraft(d.row, newId);
      Snapshot(table', CreateJob(s.db, draft), s.lanes[draft.queue := LPush(LaneOf(s.lanes, draft.queue), draft.id)])
    else Snapshot(table', s.db, s.lanes)
  }

  /** fireSchedule: the claim comes first and decides whether a job is submitted at all. */
  method FireSchedule(ss: ScheduleStore, st: Stores.Store, q: Queue.WorkQueue, now: Time, d: Due, next: Cron, newId: Id)
    returns (fired: bool)
    modifies ss, st, q
    ensures Snap(ss, st, q) == FireOn(old(Snap(ss, st, q)), d, now, next, newId)
    ensures fired == Delivers(old(Snap(ss, st, q)), d, now, next, newId)
    ensures var tb := old(ss.table);
            var at := next(d.row.cron, now);
            if at.Some? && d.id in tb && tb[d.id].enabled && tb[d.id].nextRunAt == d.row.nextRunAt then
              && ss.table == tb[d.id := tb[d.id].(lastRunAt := Some(now), nextRunAt := at.value)]
              && (fired <==> d.row.tenant != NIL && newId !in old(st.jobs))
            else ss.table == tb && !fired
    ensures st.dlq == old(st.dlq)
    ensures !fired ==> st.jobs == old(st.jobs) && q.lanes == old(q.lanes)
    ensures fired ==>
              && newId in st.jobs && FromTemplate(st.jobs[newId], d.row) && st.jobs == old(st.jobs)[newId := st.jobs[newId]]
              && LaneOf(q.lanes, "default").list == [newId] + LaneOf(old(q.lanes), "default").list
              && LaneOf(q.lanes, "default").delayed == LaneOf(old(q.lanes), "default").delayed
              && forall name | name != "default" :: LaneOf(q.lanes, name) == LaneOf(old(q.lanes), name)
  {
    var at := next(d.row.cron, now);
    if at.None? {
      return false;
    }
    var won := ss.ClaimScheduleRun(d.id, d.row.nextRunAt, now, at.value);
    if !won {
      return false;
    }
    var job := new Enqueue.JobRecord(d.row.tenant, "", d.row.jobType, d.row.payload, Enqueue.DEFAULT_MAX_RETRIES);
    var r := Enqueue.Submit(st, q, job, newId, false, false);
    fired := r.Ok?;
  }

  /** Generated ids: as many as could be needed, all different, none in use. */
  predicate Supply(ids: seq<Id>, jobs: map<Id, Row>, n: nat) {
    && |ids| >= n
    && (forall i | 0 <= i < |ids| :: ids[i] != NIL && ids[i] !in jobs)
    && (forall i, j | 0 <= i < j < |ids| :: ids[i] != ids[j])
  }

  /** The schedules of a scan that fire, in scan order. */
  function FiringOf(due: seq<Due>, now: Time, next: Cron): (fired: seq<Due>)
    ensures |fired| <= |due|
  {
    if |due| == 0 then []
    else
      var d := due[|due|-1];
      FiringOf(due[..|due|-1], now, next) + (if Fires(d.row, now, next) then [d] else [])
  }

  /** The job table with one new row per fired schedule. */
  function WithJobs(jobs: map<Id, Row>, fired: seq<Due>, ids: seq<Id>): map<Id, Row>
    requires |fired| <= |ids|
  {
    if |fired| == 0 then jobs
    else
      var n := |fired| - 1;
      WithJobs(jobs, fired[..n], ids)[ids[n] := NewRow(FiredDraft(fired[n].row, ids[n]))]
  }

  /** A lane with ids pushed one after the other. */
  function WithPushes(l: Lane, ids: seq<Id>): Lane {
    if |ids| == 0 then l else LPush(WithPushes(l, ids[..|ids|-1]), ids[|ids|-1])
  }

  lemma FiringStep(due: seq<Due>, i: nat, now: Time, next: Cron)
    requires i < |due|
    ensures FiringOf(due[..i+1], now, next)
            == FiringOf(due[..i], now, next) + (if Fires(due[i].row, now, next) then [due[i]] else [])
  {
    assert due[..i+1][..i] == due[..i];
  }

  lemma WithJobsStep(jobs: map<Id, Row>, fired: seq<Due>, d: Due, ids: seq<Id>)
    requires |fired| < |ids|
    ensures var id := ids[|fired|];
            WithJobs(jobs, fired + [d], ids) == WithJobs(jobs, fired, ids)[id := NewRow(FiredDraft(d.row, id))]
  {
  }

  lemma WithPushesStep(l: Lane, ids: seq<Id>, n: nat)
    requires n < |ids|
    ensures WithPushes(l, ids[..n+1]) == LPush(WithPushes(l, ids[..n]), ids[n])
  {
    assert ids[..n+1][..n] == ids[..n];
  }

  lemma {:induction false} NextIdUnused(jobs: map<Id, Row>, fired: seq<Due>, ids: seq<Id>, n: nat)
    requires Supply(ids, jobs, 0) && |fired| <= n < |ids|
    ensures ids[n] !in WithJobs(jobs, fired, ids)
  {
    if |fired| > 0 {
      NextIdUnused(jobs, fired[..|fired|-1], ids, n);
    }
  }

  /** Each fired schedule has its own new job, made from its template for its tenant. */
  lemma {:induction false} OneJobEach(jobs: map<Id, Row>, fired: seq<Due>, ids: seq<Id>, k: nat)
    requires Supply(ids, jobs, |fired|) && k < |fired|
    ensures ids[k] in WithJobs(jobs, fired, ids)
    ensures FromTemplate(WithJobs(jobs, fired, ids)[ids[k]], fired[k].row)
  {
    var n := |fired| - 1;
    if k < n {
      OneJobEach(jobs, fired[..n], ids, k);
    }
  }

  /** No other row changes. */
  lemma {:induction false} OldJobsKept(jobs: map<Id, Row>, fired: seq<Due>, ids: seq<Id>, id: Id)
    requires Supply(ids, jobs, |fired|) && id in jobs
    ensures id in WithJobs(jobs, fired, ids) && WithJobs(jobs, fired, ids)[id] == jobs[id]
  {
    if |fired| > 0 {
      OldJobsKept(jobs, fired[..|fired|-1], ids, id);
    }
  }

  /** And no other row appears. */
  lemma {:induction false} NoStrayJobs(jobs: map<Id, Row>, fired: seq<Due>, ids: seq<Id>)
    requires Supply(ids, jobs, |fired|)
    ensures |WithJobs(jobs, fired, ids)| == |jobs| + |fired|
  {
    if |fired| > 0 {
      var n := |fired| - 1;
      NoStrayJobs(jobs, fired[..n], ids);
      NextIdUnused(jobs, fired[..n], ids, n);
      assert WithJobs(jobs, fired, ids).Keys == WithJobs(jobs, fired[..n], ids).Keys + {ids[n]};
    }
  }

  /** The new jobs queue up behind what is there, in the order the schedules fired. */
  lemma {:induction false} PushesPopOrder(l: Lane, ids: seq<Id>)
    ensures PopOrder(WithPushes(l, ids)) == PopOrder(l) + ids
  {
    if |ids| > 0 {
      var n := |ids| - 1;
      PushesPopOrder(l, ids[..n]);
      ReversePrepend(ids[n], WithPushes(l, ids[..n]).list);
    }
  }

  lemma {:induction false} FiringInScan(due: seq<Due>, now: Time, next: Cron, d: Due)
    ensures d in FiringOf(due, now, next) <==> d in due && Fires(d.row, now, next)
  {
    if |due| > 0 {
      FiringInScan(due[..|due|-1], now, next, d);
    }
  }

  /** Exactly the due schedules that parse fire, each once. */
  lemma {:induction false} EachFiresOnce(tb: Table, now: Time, next: Cron, due: seq<Due>, n: nat)
    requires DueScan(tb, now, due) && n <= |due|
    ensures InOrder(FiringOf(due[..n], now, next))
  {
    if n > 0 {
      EachFiresOnce(tb, now, next, due, n - 1);
      var before := FiringOf(due[..n-1], now, next);
      assert due[..n][..n-1] == due[..n-1];
      forall i | 0 <= i < |before|
        ensures before[i].id != due[n-1].id && before[i].row.nextRunAt <= due[n-1].row.nextRunAt
      {
        FiringInScan(due[..n-1], now, next, before[i]);
        var k :| 0 <= k < n - 1 && due[..n-1][k] == before[i];
        assert due[k] == before[i];
      }
      InOrderAppend(before, due[n-1]);
    }
  }

  lemma FiringIsComplete(tb: Table, now: Time, next: Cron, due: seq<Due>, id: Id)
    requires DueScan(tb, now, due) && id in tb
    ensures Due(id, tb[id]) in FiringOf(due, now, next) <==> Fires(tb[id], now, next)
  {
    FiringInScan(due, now, next, Due(id, tb[id]));
    if IsDue(tb[id], now) {
      var k :| 0 <= k < |due| && due[k].id == id;
      assert due[k] == Due(id, tb[id]);
    }
  }

  /**
   What a pass does: every schedule that was due and parses is advanced and fires
   exactly one job, in order of its cursor, and every other schedule, job and
   queue is untouched.
   */
  ghost predicate PassDone(s0: Snapshot, s: Snapshot, fired: seq<Due>, ids: seq<Id>, now: Time, next: Cron) {
    && s.table == Settled(s0.table, now, next)
    && s.table.Keys == s0.table.Keys
    && (forall id | id in s0.table ::
          var was, at := s0.table[id], next(s0.table[id].cron, now);
          var fires := was.enabled && was.nextRunAt <= now && at.Some?;
          && (Due(id, was) in fired <==> fires)
          && s.table[id] == if fires then was.(lastRunAt := Some(now), nextRunAt := at.value) else was)
    && (forall d | d in fired :: d.id in s0.table && d.row == s0.table[d.id])
    && InOrder(fired)
    && |fired| <= |ids|
    && s.db == Db(WithJobs(s0.db.jobs, fired, ids), s0.db.dlq)
    && LaneOf(s.lanes, "default") == WithPushes(LaneOf(s0.lanes, "default"), ids[..|fired|])
    && (forall name | name != "default" :: LaneOf(s.lanes, name) == LaneOf(s0.lanes, name))
  }

  /** handleSchedules, nothing failing and nobody interfering. */
  method HandleSchedules(ss: ScheduleStore, st: Stores.Store, q: Queue.WorkQueue, now: Time, next: Cron, ids: seq<Id>)
    returns (fired: seq<Due>)
    requires Supply(ids, st.jobs, |ss.table|)
    requires forall id | id in ss.table :: ss.table[id].tenant != NIL
    modifies ss, st, q
    ensures PassDone(old(Snap(ss, st, q)), Snap(ss, st, q), fired, ids, now, next)
  {
    ghost var s0 := Snap(ss, st, q);
    var due := ss.DueSchedules(now);
    PassBegins(s0, due, ids, now, next);
    fired := [];
    var i := 0;
    while i < |due|
      invariant 0 <= i <= |due|
      invariant PassAt(s0, Snap(ss, st, q), due, i, fired, ids, now, next)
    {
      fired := FireNext(ss, st, q, s0, due, i, fired, ids, now, next);
      i := i + 1;
    }
    PassEnds(s0, Snap(ss, st, q), due, fired, ids, now, next);
  }

  /** The body of the loop. */
  method FireNext(ss: ScheduleStore, st: Stores.Store, q: Queue.WorkQueue, ghost s0: Snapshot,
                  due: seq<Due>, i: nat, fired: seq<Due>, ids: seq<Id>, now: Time, next: Cron)
    returns (fired': seq<Due>)
    requires PassAt(s0, Snap(ss, st, q), due, i, fired, ids, now, next) && i < |due|
    requires PassPossible(s0, due, ids, now)
    modifies ss, st, q
    ensures PassAt(s0, Snap(ss, st, q), due, i + 1, fired', ids, now, next)
  {
    ghost var s := Snap(ss, st, q);
    var ok := FireSchedule(ss, st, q, now, due[i], next, ids[|fired|]);
    fired' := if ok then fired + [due[i]] else fired;
    PassStep(s0, s, Snap(ss, st, q), due, i, fired, fired', ids, now, next);
  }

  /** Where a pass stands after the first `i` schedules of its scan. */
  ghost predicate PassAt(s0: Snapshot, s: Snapshot, due: seq<Due>, i: nat, fired: seq<Due>, ids: seq<Id>, now: Time, next: Cron) {
    && i <= |due| && |fired| <= i && |due| <= |ids|
    && fired == FiringOf(due[..i], now, next)
    && s.table == PartlySettled(s0.table, Names(due[..i]), now, next)
    && s.db == Db(WithJobs(s0.db.jobs, fired, ids), s0.db.dlq)
    && LaneOf(s.lanes, "default") == WithPushes(LaneOf(s0.lanes, "default"), ids[..|fired|])
    && (forall name | name != "default" :: LaneOf(s.lanes, name) == LaneOf(s0.lanes, name))
  }

  /** What a pass relies on: a scan, new ids, and owners. */
  ghost predicate PassPossible(s0: Snapshot, due: seq<Due>, ids: seq<Id>, now: Time) {
    && DueScan(s0.table, now, due)
    && Supply(ids, s0.db.jobs, 0)
    && (forall id | id in s0.table :: s0.table[id].tenant != NIL)
  }

  lemma PassBegins(s0: Snapshot, due: seq<Due>, ids: seq<Id>, now: Time, next: Cron)
    requires DueScan(s0.table, now, due) && Supply(ids, s0.db.jobs, |s0.table|)
    requires forall id | id in s0.table :: s0.table[id].tenant != NIL
    ensures PassPossible(s0, due, ids, now)
    ensures PassAt(s0, s0, due, 0, [], ids, now, next)
  {
    DueFits(s0.table, now, due);
  }

  lemma PassStep(s0: Snapshot, s: Snapshot, s': Snapshot, due: seq<Due>, i: nat, fired: seq<Due>, fired': seq<Due>,
                 ids: seq<Id>, now: Time, next: Cron)
    requires PassAt(s0, s, due, i, fired, ids, now, next) && i < |due|
    requires PassPossible(s0, due, ids, now)
    requires s' == FireOn(s, due[i], now, next, ids[|fired|])
    requires fired' == if Delivers(s, due[i], now, next, ids[|fired|]) then fired + [due[i]] else fired
    ensures PassAt(s0, s', due, i + 1, fired', ids, now, next)
  {
    PassDelivers(s0, s, due, i, fired, ids, now, next);
    SettleOne(s0.table, now, next, due, i);
    FiringStep(due, i, now, next);
    var d, n := due[i], |fired|;
    if Fires(d.row, now, next) {
      JobAndPush(s, d, now, next, ids[n]);
      WithJobsStep(s0.db.jobs, fired, d, ids);
      WithPushesStep(LaneOf(s0.lanes, "default"), ids, n);
    }
  }

  /** Nobody having interfered, a scanned schedule gets its job exactly when its expression parses. */
  lemma PassDelivers(s0: Snapshot, s: Snapshot, due: seq<Due>, i: nat, fired: seq<Due>, ids: seq<Id>, now: Time, next: Cron)
    requires PassAt(s0, s, due, i, fired, ids, now, next) && i < |due|
    requires PassPossible(s0, due, ids, now)
    ensures Delivers(s, due[i], now, next, ids[|fired|]) <==> Fires(due[i].row, now, next)
  {
    NextIdUnused(s0.db.jobs, fired, ids, |fired|);
    ClaimWins(s0.table, now, next, due, i);
  }

  lemma JobAndPush(s: Snapshot, d: Due, now: Time, next: Cron, newId: Id)
    requires Delivers(s, d, now, next, newId)
    ensures var s' := FireOn(s, d, now, next, newId);
            && s'.db == Db(s.db.jobs[newId := NewRow(FiredDraft(d.row, newId))], s.db.dlq)
            && LaneOf(s'.lanes, "default") == LPush(LaneOf(s.lanes, "default"), newId)
            && (forall name | name != "default" :: LaneOf(s'.lanes, name) == LaneOf(s.lanes, name))
  {
  }

  lemma PassEnds(s0: Snapshot, s: Snapshot, due: seq<Due>, fired: seq<Due>, ids: seq<Id>, now: Time, next: Cron)
    requires PassAt(s0, s, due, |due|, fired, ids, now, next) && PassPossible(s0, due, ids, now)
    ensures PassDone(s0, s, fired, ids, now, next)
  {
    assert due[..|due|] == due;
    SettleAll(s0.table, now, next, due);
    EachFiresOnce(s0.table, now, next, due, |due|);
    forall id | id in s0.table
      ensures Due(id, s0.table[id]) in fired <==> Fires(s0.table[id], now, next)
    {
      FiringIsComplete(s0.table, now, next, due, id);
    }
    forall d | d in fired ensures d.id in s0.table && d.row == s0.table[d.id] {
      FiringInScan(due, now, next, d);
    }
  }

  ghost function Names(due: seq<Due>): set<Id> {
    set k | 0 <= k < |due| :: due[k].id
  }

  lemma NamesStep(due: seq<Due>, i: nat)
    requires i < |due|
    ensures Names(due[..i+1]) == Names(due[..i]) + {due[i].id}
  {
    forall id ensures id in Names(due[..i+1]) <==> id in Names(due[..i]) || id == due[i].id {
      if id in Names(due[..i]) {
        var k :| 0 <= k < i && due[..i][k].id == id;
        assert due[..i+1][k].id == id;
      }
      assert due[..i+1][i].id == due[i].id;
      if id in Names(due[..i+1]) {
        var k :| 0 <= k < i + 1 && due[..i+1][k].id == id;
        assert k < i ==> due[..i][k].id == id;
      }
    }
  }

  lemma NotNamedYet(tb: Table, now: Time, due: seq<Due>, i: nat)
    requires DueScan(tb, now, due) && i < |due|
    ensures due[i].id !in Names(due[..i])
    ensures due[i].id in tb && tb[due[i].id] == due[i].row && IsDue(due[i].row, now)
  {
    forall k | 0 <= k < i ensures due[..i][k].id != due[i].id {
      assert due[..i][k] == due[k];
    }
  }

  /** Nobody having interfered, the claim of a scanned schedule wins. */
  lemma ClaimWins(tb: Table, now: Time, next: Cron, due: seq<Due>, i: nat)
    requires DueScan(tb, now, due) && i < |due|
    ensures Wins(PartlySettled(tb, Names(due[..i]), now, next), due[i].id, due[i].row.nextRunAt)
  {
    NotNamedYet(tb, now, due, i);
  }

  /** Settling one more schedule of a table. */
  lemma SettleMore(tb: Table, seen: set<Id>, id: Id, now: Time, next: Cron)
    requires id in tb && id !in seen
    ensures PartlySettled(tb, seen + {id}, now, next)
            == PartlySettled(tb, seen, now, next)[id := Advanced(tb[id], now, next)]
  {
  }

  /** And the claim settles that schedule. */
  lemma SettleOne(tb: Table, now: Time, next: Cron, due: seq<Due>, i: nat)
    requires DueScan(tb, now, due) && i < |due|
    ensures var part := PartlySettled(tb, Names(due[..i]), now, next);
            var d := due[i];
            PartlySettled(tb, Names(due[..i+1]), now, next)
            == if Fires(d.row, now, next)
               then ClaimRun(part, d.id, d.row.nextRunAt, now, next(d.row.cron, now).value)
               else part
  {
    var d, part := due[i], PartlySettled(tb, Names(due[..i]), now, next);
    NamesStep(due, i);
    NotNamedYet(tb, now, due, i);
    ClaimWins(tb, now, next, due, i);
    SettleMore(tb, Names(due[..i]), d.id, now, next);
    assert part[d.id] == d.row;
    assert !Fires(d.row, now, next) ==> part[d.id := d.row] == part;
  }

  lemma SettleAll(tb: Table, now: Time, next: Cron, due: seq<Due>)
    requires DueScan(tb, now, due)
    ensures PartlySettled(tb, Names(due), now, next) == Settled(tb, now, next)
  {
  }

  lemma DueFits(tb: Table, now: Time, due: seq<Due>)
    requires DueScan(tb, now, due)
    ensures |due| <= |tb|
  {
    var names := DueNames(tb, now, due, |due|);
    assert names <= tb.Keys;
    var others := tb.Keys - names;
    assert tb.Keys == names + others;
  }

  lemma {:induction false} DueNames(tb: Table, now: Time, due: seq<Due>, n: nat) returns (names: set<Id>)
    requires DueScan(tb, now, due) && n <= |due|
    ensures forall id | id in names :: exists k :: 0 <= k < n && due[k].id == id
    ensures |names| == n && names <= tb.Keys
  {
    names := {};
    if n > 0 {
      var before := DueNames(tb, now, due, n - 1);
      assert due[n-1].id !in before;
      names := before + {due[n-1].id};
    }
  }

  /** After a pass an enabled schedule that parses lies in the future exactly when the library's answer does, if it was due. */
  lemma PassSettles(tb: Table, now: Time, next: Cron, id: Id)
    requires id in tb && tb[id].enabled && next(tb[id].cron, now).Some?
    ensures Settled(tb, now, next)[id].nextRunAt > now <==> (IsDue(tb[id], now) ==> next(tb[id].cron, now).value > now)
  {
  }

  /** No schedule fires at this instant. */
  ghost predicate Quiet(tb: Table, now: Time, next: Cron) {
    forall id | id in tb :: !Fires(tb[id], now, next)
  }

  /** Every schedule that fires at this instant is given a future one. */
  ghost predicate AnswersAhead(tb: Table, now: Time, next: Cron) {
    forall id | id in tb && Fires(tb[id], now, next) :: next(tb[id].cron, now).value > now
  }

  lemma QuietIffAhead(tb: Table, now: Time, next: Cron)
    ensures Quiet(Settled(tb, now, next), now, next) <==> AnswersAhead(tb, now, next)
  {
    if Quiet(Settled(tb, now, next), now, next) {
      forall id | id in tb && Fires(tb[id], now, next) ensures next(tb[id].cron, now).value > now {
        assert !Fires(Settled(tb, now, next)[id], now, next);
      }
    }
  }

  ghost predicate Same(s: Snapshot, s': Snapshot) {
    s'.table == s.table && s'.db == s.db && forall name :: LaneOf(s'.lanes, name) == LaneOf(s.lanes, name)
  }

  /** A pass fires nothing exactly when no schedule fires, and then it changes no schedule, job or queue. */
  lemma QuietPass(s0: Snapshot, s: Snapshot, fired: seq<Due>, ids: seq<Id>, now: Time, next: Cron)
    requires PassDone(s0, s, fired, ids, now, next)
    ensures fired == [] <==> Quiet(s0.table, now, next)
    ensures fired == [] ==> Same(s0, s)
  {
    if fired == [] {
      assert forall id | id in s0.table :: Due(id, s0.table[id]) !in fired;
      assert Settled(s0.table, now, next) == s0.table;
      assert LaneOf(s.lanes, "default") == LaneOf(s0.lanes, "default");
    } else {
      var d := fired[0];
      assert d == Due(d.id, s0.table[d.id]) && d in fired;
    }
  }

  lemma AheadIffFiredAhead(s0: Snapshot, s: Snapshot, fired: seq<Due>, ids: seq<Id>, now: Time, next: Cron)
    requires PassDone(s0, s, fired, ids, now, next)
    ensures AnswersAhead(s0.table, now, next)
            <==> forall d | d in fired :: next(d.row.cron, now) != None && next(d.row.cron, now).value > now
  {
    forall d | d in fired ensures Fires(d.row, now, next) {
      assert d == Due(d.id, s0.table[d.id]);
    }
    if forall d | d in fired :: next(d.row.cron, now) != None && next(d.row.cron, now).value > now {
      forall id | id in s0.table && Fires(s0.table[id], now, next) ensures next(s0.table[id].cron, now).value > now {
        assert Due(id, s0.table[id]) in fired;
      }
    }
  }

  /**
   Two passes at one instant: the second fires nothing exactly when every schedule
   that fired in the first was given a future instant. It then makes no job and no
   push, and leaves the table alone.
   */
  lemma SecondPassIsQuiet(s0: Snapshot, s1: Snapshot, s2: Snapshot, fired: seq<Due>, again: seq<Due>,
                          ids: seq<Id>, more: seq<Id>, now: Time, next: Cron)
    requires PassDone(s0, s1, fired, ids, now, next) && PassDone(s1, s2, again, more, now, next)
    ensures again == [] <==> forall d | d in fired :: next(d.row.cron, now) != None && next(d.row.cron, now).value > now
    ensures again == [] ==> Same(s1, s2)
  {
    QuietIffAhead(s0.table, now, next);
    QuietPass(s1, s2, again, more, now, next);
    AheadIffFiredAhead(s0, s1, fired, ids, now, next);
  }

  /** The code's step is the machine's: claiming, and then submitting what was claimed. */
  lemma FireIsMachine(m: State, next: Cron, p: Pid, newId: Id, lanes: Queues)
    requires PcOf(m, p).Firing? && PcOf(m, p).due != []
    ensures var pc := PcOf(m, p);
            var m1 := Step(m, next, Fire(p));
            var m2 := Step(m1, next, Submit(p, newId));
            var s := FireOn(Snapshot(m.table, m.db, lanes), pc.due[0], pc.now, next, newId);
            m2.table == s.table && m2.db == s.db && PcOf(m2, p) == Firing(pc.now, pc.due[1..], pc.since)
  {
  }
}
