/**
 How long a failing job is kept away: over every run with a faithful Redis and
 one non-decreasing clock, attempt n+1 of a job does not begin until the delays
 of its first n failures have passed, less one second for all the truncation of
 due times together.
 */
module Timing {
  import opened Jobs
  import opened Backoff
  import opened Redis
  import P = Protocol
  import D = Delivery

  /** One clock: it never goes back, and a poller's reading is not later than its promotion. */
  predicate Clocked(run: seq<D.Beat>) {
    && (forall i, j | 0 <= i < j < |run| :: run[i].at <= run[j].at)
    && (forall i | 0 <= i < |run| :: run[i].act.Promotion? ==> run[i].act.now <= run[i].at)
  }

  /** When the first failure of a job's current cycle was recorded. */
  function FirstFailures(run: seq<D.Beat>): map<Id, Time> {
    if |run| == 0 then map[]
    else
      var before, b := run[..|run|-1], run[|run|-1];
      Note(FirstFailures(before), D.Exec(before).core, D.CoreTick(D.Exec(before), b))
  }

  function Note(first: map<Id, Time>, c: P.Core, t: P.Tick): map<Id, Time> {
    var ev := P.EventOf(c, t);
    if ev.Moved? && ev.move.Requeue? && ev.id in c.db.jobs && c.db.jobs[ev.id].retryCount == 0
    then first[ev.id := t.at]
    else first
  }

  /** A job that has failed and will run again. */
  predicate Retrying(db: Db, id: Id) {
    (Has(db, id, Pending) || Has(db, id, Processing)) && db.jobs[id].retryCount >= 1
  }

  /** The second before which the job must not run again. */
  function DueSecond(first: Time, tries: nat): int {
    Unix(first) + ChainSeconds(tries)
  }

  /** An activity that stands for the job respects its due second. */
  predicate HandOnTime(pc: P.Pc, clock: Time, id: Id, tries: nat, due: int) {
    D.Hand(pc) == Some(id) ==>
      match pc
      case Adding(_, _, score) => score >= due
      case Parking(_, _, backoff) => backoff == BackoffFor(tries) && Unix(clock) + DelaySeconds(tries) >= due
      case Pushing(_, _) => false
      case _ => Unix(clock) >= due
  }

  predicate LaneOnTime(l: Lane, clock: Time, id: Id, due: int) {
    && (id in l.list ==> Unix(clock) >= due)
    && (id in l.delayed ==> l.delayed[id] >= due)
  }

  /** Every carrier of a retrying job respects its due second. */
  ghost predicate OnTime(w: D.World, clock: Time, first: map<Id, Time>, id: Id) {
    Retrying(w.core.db, id) ==>
      && id in first
      && var tries: nat := w.core.db.jobs[id].retryCount;
      var due := DueSecond(first[id], tries);
      && (forall q :: LaneOnTime(LaneOf(w.queues, q), clock, id, due))
      && (forall p :: HandOnTime(P.PcOf(w.core, p), clock, id, tries, due))
  }

  /** One statement of one activity keeps hand and queue on time, the job's row being as it was. */
  lemma StatementOnTime(r: Queues, db: Db, pc: P.Pc, o: P.Outcome, clock: Time, id: Id, tries: nat, due: int, q: string)
    requires HandOnTime(pc, clock, id, tries, due)
    requires LaneOnTime(LaneOf(r, q), clock, id, due)
    requires var ev := P.Next(db, pc, o, clock).event; !(ev.Moved? && ev.id == id) || ev.move.Claim?
    ensures HandOnTime(P.Next(db, pc, o, clock).pc, clock, id, tries, due)
    ensures LaneOnTime(LaneOf(D.Command(r, pc), q), clock, id, due)
  {
    if pc.Parking? {
      UnixAddBackoff(clock, tries);
    } else if pc.Unlisting? && id in Without(LaneOf(r, pc.queue).list, pc.id) {
      WithoutSubset(LaneOf(r, pc.queue).list, pc.id, id);
    }
  }

  lemma PromotionOnTime(l: Lane, now: Time, clock: Time, limit: nat, id: Id, due: int)
    requires now <= clock && LaneOnTime(l, clock, id, due)
    ensures LaneOnTime(Promote(l, Unix(now), limit), clock, id, due)
  {
    var l' := Promote(l, Unix(now), limit);
    if id in l'.list {
      PromoteListed(l, Unix(now), limit, id);
      UnixMonotone(now, clock);
    }
    PromoteLeaves(l, Unix(now), limit, id);
  }

  /** A step that does not write the job's row, or only claims it, keeps every carrier on time. */
  lemma CarriersStayOnTime(w: D.World, b: D.Beat, first: map<Id, Time>, id: Id)
    requires OnTime(w, b.at, first, id) && Retrying(w.core.db, id)
    requires b.act.Promotion? ==> b.act.now <= b.at
    requires var ev := P.EventOf(w.core, D.CoreTick(w, b)); !(ev.Moved? && ev.id == id) || ev.move.Claim?
    ensures var tries: nat := w.core.db.jobs[id].retryCount;
            var due := DueSecond(first[id], tries);
            && (forall q :: LaneOnTime(LaneOf(D.Step(w, b).queues, q), b.at, id, due))
            && (forall p :: HandOnTime(P.PcOf(D.Step(w, b).core, p), b.at, id, tries, due))
  {
    var w' := D.Step(w, b);
    var tries: nat := w.core.db.jobs[id].retryCount;
    var due := DueSecond(first[id], tries);
    forall q ensures LaneOnTime(LaneOf(w'.queues, q), b.at, id, due) {
      assert LaneOnTime(LaneOf(w.queues, q), b.at, id, due);
      match b.act
      case Do(a) =>
        if a.Advance? {
          StatementOnTime(w.queues, w.core.db, P.PcOf(w.core, a.p), a.outcome, b.at, id, tries, due, q);
        }
      case Pop(_, _) =>
      case Promotion(name, now, limit) =>
        if name == q {
          PromotionOnTime(LaneOf(w.queues, q), now, b.at, limit, id, due);
        }
    }
    forall p ensures HandOnTime(P.PcOf(w'.core, p), b.at, id, tries, due) {
      HandStaysOnTime(w, b, id, tries, due, p);
    }
  }

  lemma HandStaysOnTime(w: D.World, b: D.Beat, id: Id, tries: nat, due: int, p: P.Pid)
    requires forall q :: LaneOnTime(LaneOf(w.queues, q), b.at, id, due)
    requires HandOnTime(P.PcOf(w.core, p), b.at, id, tries, due)
    requires var ev := P.EventOf(w.core, D.CoreTick(w, b)); !(ev.Moved? && ev.id == id) || ev.move.Claim?
    ensures HandOnTime(P.PcOf(D.Step(w, b).core, p), b.at, id, tries, due)
  {
  }

  /** What recording a failure leaves behind. */
  lemma RequeueShape(w: D.World, b: D.Beat, id: Id) returns (p: P.Pid, tries: nat, queue: string)
    requires D.Inv(w)
    requires P.Requeues(P.EventOf(w.core, D.CoreTick(w, b)), id)
    ensures D.Hand(P.PcOf(w.core, p)) == Some(id) && P.PcOf(w.core, p).Errored?
    ensures Has(w.core.db, id, Processing) && w.core.db.jobs[id].retryCount == tries
    ensures Has(D.Step(w, b).core.db, id, Pending) && D.Step(w, b).core.db.jobs[id].retryCount == tries + 1
    ensures D.Step(w, b).queues == w.queues
    ensures D.Step(w, b).core.procs == w.core.procs[p := P.Parking(id, queue, BackoffFor(tries + 1))]
  {
    p := b.act.act.p;
    var pc := P.PcOf(w.core, p);
    assert pc.Errored? && pc.id == id && P.PcOk(w.core.db, pc);
    assert RowOk(w.core.db.jobs[id]);
    tries := pc.row.retryCount;
    queue := pc.row.queue;
  }

  lemma OnlyCarrier(w: D.World, p: P.Pid, id: Id)
    requires D.Inv(w) && D.Hand(P.PcOf(w.core, p)) == Some(id)
    ensures forall q :: id !in LaneOf(w.queues, q).list && id !in LaneOf(w.queues, q).delayed
    ensures forall p' :: p' != p ==> D.Hand(P.PcOf(w.core, p')) != Some(id)
  {
    assert D.Single(w, id);
    forall q ensures id !in LaneOf(w.queues, q).list && id !in LaneOf(w.queues, q).delayed {
      D.PartOfCarriers(w, q, p, id);
      CountIn(LaneOf(w.queues, q).list, id);
    }
    forall p' | p' != p ensures D.Hand(P.PcOf(w.core, p')) != Some(id) {
      D.TwoHands(w, p, p', id);
    }
  }

  /** Recording a failure: the writer is the only carrier, and its park is on time. */
  lemma RequeueOnTime(w: D.World, b: D.Beat, first: map<Id, Time>, id: Id)
    requires D.Inv(w) && OnTime(w, b.at, first, id)
    requires P.Requeues(P.EventOf(w.core, D.CoreTick(w, b)), id)
    ensures OnTime(D.Step(w, b), b.at, Note(first, w.core, D.CoreTick(w, b)), id)
  {
    var p, k, queue := RequeueShape(w, b, id);
    OnlyCarrier(w, p, id);
    var first' := Note(first, w.core, D.CoreTick(w, b));
    if k >= 1 {
      assert HandOnTime(P.PcOf(w.core, p), b.at, id, k, DueSecond(first[id], k));
    }
    ParkOnTime(w, D.Step(w, b), b.at, first', p, queue, id, k);
  }

  lemma ParkOnTime(w: D.World, w': D.World, clock: Time, first: map<Id, Time>, p: P.Pid, queue: string, id: Id, k: nat)
    requires forall q :: id !in LaneOf(w.queues, q).list && id !in LaneOf(w.queues, q).delayed
    requires forall p' :: p' != p ==> D.Hand(P.PcOf(w.core, p')) != Some(id)
    requires w'.queues == w.queues
    requires w'.core.procs == w.core.procs[p := P.Parking(id, queue, BackoffFor(k + 1))]
    requires Has(w'.core.db, id, Pending) && w'.core.db.jobs[id].retryCount == k + 1
    requires id in first && Unix(clock) >= DueSecond(first[id], k)
    ensures OnTime(w', clock, first, id)
  {
    forall p' ensures HandOnTime(P.PcOf(w'.core, p'), clock, id, k + 1, DueSecond(first[id], k + 1)) {
      if p' != p {
        assert P.PcOf(w'.core, p') == P.PcOf(w.core, p');
      }
    }
  }

  /** Short of recording a failure, only a job that was retrying already is retrying after a step. */
  lemma RetryingBefore(db: Db, db': Db, ev: P.Event, id: Id)
    requires P.MovesBy(db, db', ev, id) && Retrying(db', id)
    requires !P.Requeues(ev, id)
    ensures Retrying(db, id) && db'.jobs[id].retryCount == db.jobs[id].retryCount
    ensures !(ev.Moved? && ev.id == id) || ev.move.Claim?
  {
  }

  lemma NoteOther(first: map<Id, Time>, c: P.Core, t: P.Tick, id: Id)
    requires !P.Requeues(P.EventOf(c, t), id)
    ensures id in first ==> id in Note(first, c, t) && Note(first, c, t)[id] == first[id]
  {
  }

  lemma StepOnTime(w: D.World, b: D.Beat, first: map<Id, Time>, id: Id)
    requires D.Inv(w) && OnTime(w, b.at, first, id)
    requires b.act.Promotion? ==> b.act.now <= b.at
    ensures OnTime(D.Step(w, b), b.at, Note(first, w.core, D.CoreTick(w, b)), id)
  {
    var t := D.CoreTick(w, b);
    var ev := P.EventOf(w.core, t);
    if P.Requeues(ev, id) {
      RequeueOnTime(w, b, first, id);
    } else if Retrying(D.Step(w, b).core.db, id) {
      P.StepMoves(w.core, t, id);
      RetryingBefore(w.core.db, D.Step(w, b).core.db, ev, id);
      NoteOther(first, w.core, t, id);
      CarriersStayOnTime(w, b, first, id);
    }
  }

  lemma LaterStillOnTime(w: D.World, clock: Time, later: Time, first: map<Id, Time>, id: Id)
    requires OnTime(w, clock, first, id) && clock <= later
    ensures OnTime(w, later, first, id)
  {
  }

  lemma {:induction false} RunOnTime(run: seq<D.Beat>, clock: Time, id: Id)
    requires Clocked(run) && forall i | 0 <= i < |run| :: run[i].at <= clock
    ensures OnTime(D.Exec(run), clock, FirstFailures(run), id)
  {
    if |run| > 0 {
      var before, b := run[..|run|-1], run[|run|-1];
      RunOnTime(before, b.at, id);
      D.Reachable(before);
      StepOnTime(D.Exec(before), b, FirstFailures(before), id);
      LaterStillOnTime(D.Exec(run), b.at, clock, FirstFailures(run), id);
    }
  }

  /**
   While attempt n+1 of a job is in a worker's hands, more than ChainSeconds(n) - 1
   seconds have passed since its first failure was recorded.
   */
  lemma RetryChain(run: seq<D.Beat>, clock: Time, p: P.Pid, id: Id, n: nat)
    requires Clocked(run) && forall i | 0 <= i < |run| :: run[i].at <= clock
    requires P.Owned(P.PcOf(D.Exec(run).core, p)) == Some(id)
    requires id in D.Exec(run).core.db.jobs && D.Exec(run).core.db.jobs[id].retryCount == n >= 1
    ensures id in FirstFailures(run)
    ensures clock - FirstFailures(run)[id] > (ChainSeconds(n) - 1) * SECOND
  {
    RunOnTime(run, clock, id);
    D.Reachable(run);
    var w := D.Exec(run);
    assert P.PcOk(w.core.db, P.PcOf(w.core, p));
    assert HandOnTime(P.PcOf(w.core, p), clock, id, n, DueSecond(FirstFailures(run)[id], n));
    UnixGap(FirstFailures(run)[id], clock, ChainSeconds(n));
  }

  lemma UnixGap(a: Time, b: Time, s: nat)
    requires Unix(b) >= Unix(a) + s
    ensures b - a > (s - 1) * SECOND
  {
  }

  // ---------------------------------------------------------------------------
  // Exactly when a retry is due.

  /** The job an activity is about to give a due time, if that is its next statement. */
  function ParksNow(w: D.World, b: D.Beat): Option<Id> {
    if b.act.Do? && b.act.act.Advance? && P.PcOf(w.core, b.act.act.p).Parking?
    then Some(P.PcOf(w.core, b.act.act.p).id)
    else None
  }

  /** The reading of the clock at which each job was last given a due time. */
  function ParkedAt(run: seq<D.Beat>): map<Id, Time> {
    if |run| == 0 then map[]
    else
      var before, b := run[..|run|-1], run[|run|-1];
      NotePark(ParkedAt(before), D.Exec(before), b)
  }

  function NotePark(parked: map<Id, Time>, w: D.World, b: D.Beat): map<Id, Time> {
    var id := ParksNow(w, b);
    if id.Some? then parked[id.value := b.at] else parked
  }

  /** The due second of a job with this many failures, parked at this reading. */
  predicate DueAt(parked: map<Id, Time>, id: Id, tries: int, score: int) {
    tries >= 1 && id in parked && score == Unix(parked[id]) + DelaySeconds(tries)
  }

  predicate HandExact(pc: P.Pc, parked: map<Id, Time>, id: Id, tries: int) {
    && (pc.Parking? && pc.id == id ==> tries >= 1 && pc.backoff == BackoffFor(tries))
    && (pc.Adding? && pc.id == id ==> DueAt(parked, id, tries, pc.score))
  }

  predicate LaneExact(l: Lane, parked: map<Id, Time>, id: Id, tries: int) {
    id in l.delayed ==> DueAt(parked, id, tries, l.delayed[id])
  }

  ghost predicate Exact(w: D.World, parked: map<Id, Time>, id: Id) {
    var tries := if id in w.core.db.jobs then w.core.db.jobs[id].retryCount else 0;
    && (forall q :: LaneExact(LaneOf(w.queues, q), parked, id, tries))
    && (forall p :: HandExact(P.PcOf(w.core, p), parked, id, tries))
  }

  /** One statement of one activity, the job's count being as it was. */
  lemma StatementExact(r: Queues, db: Db, pc: P.Pc, o: P.Outcome, at: Time, parked: map<Id, Time>, id: Id, tries: int, q: string)
    requires HandExact(pc, parked, id, tries) && LaneExact(LaneOf(r, q), parked, id, tries)
    requires !P.Requeues(P.Next(db, pc, o, at).event, id)
    requires pc.Parking? && pc.id == id ==> id !in LaneOf(r, q).delayed
    ensures var parked' := if pc.Parking? then parked[pc.id := at] else parked;
            && HandExact(P.Next(db, pc, o, at).pc, parked', id, tries)
            && LaneExact(LaneOf(D.Command(r, pc), q), parked', id, tries)
  {
    if pc.Parking? && pc.id == id {
      UnixAddBackoff(at, tries);
    }
  }

  /** A step that leaves the job's count alone. */
  lemma StepExact(w: D.World, b: D.Beat, parked: map<Id, Time>, id: Id)
    requires D.Inv(w) && Exact(w, parked, id)
    requires !P.Requeues(P.EventOf(w.core, D.CoreTick(w, b)), id)
    requires var db, db' := w.core.db, D.Step(w, b).core.db;
             (if id in db.jobs then db.jobs[id].retryCount else 0) == (if id in db'.jobs then db'.jobs[id].retryCount else 0)
    ensures Exact(D.Step(w, b), NotePark(parked, w, b), id)
  {
    var w', parked' := D.Step(w, b), NotePark(parked, w, b);
    var tries := if id in w.core.db.jobs then w.core.db.jobs[id].retryCount else 0;
    if ParksNow(w, b) == Some(id) {
      OnlyCarrier(w, b.act.act.p, id);
    }
    forall q ensures LaneExact(LaneOf(w'.queues, q), parked', id, tries) {
      LaneStaysExact(w, b, parked, id, tries, q);
    }
    forall p ensures HandExact(P.PcOf(w'.core, p), parked', id, tries) {
      HandStaysExact(w, b, parked, id, tries, p);
    }
  }

  lemma LaneStaysExact(w: D.World, b: D.Beat, parked: map<Id, Time>, id: Id, tries: int, q: string)
    requires LaneExact(LaneOf(w.queues, q), parked, id, tries)
    requires b.act.Do? ==> HandExact(P.PcOf(w.core, b.act.act.p), parked, id, tries)
    requires !P.Requeues(P.EventOf(w.core, D.CoreTick(w, b)), id)
    requires ParksNow(w, b) == Some(id) ==> id !in LaneOf(w.queues, q).delayed
    ensures LaneExact(LaneOf(D.Step(w, b).queues, q), NotePark(parked, w, b), id, tries)
  {
    match b.act
    case Do(a) =>
      if a.Advance? {
        StatementExact(w.queues, w.core.db, P.PcOf(w.core, a.p), a.outcome, b.at, parked, id, tries, q);
      }
    case Pop(_, _) =>
    case Promotion(name, now, limit) =>
      PromoteLeaves(LaneOf(w.queues, name), Unix(now), limit, id);
  }

  lemma HandStaysExact(w: D.World, b: D.Beat, parked: map<Id, Time>, id: Id, tries: int, p: P.Pid)
    requires HandExact(P.PcOf(w.core, p), parked, id, tries)
    requires b.act.Do? ==> HandExact(P.PcOf(w.core, b.act.act.p), parked, id, tries)
    requires !P.Requeues(P.EventOf(w.core, D.CoreTick(w, b)), id)
    requires ParksNow(w, b) == Some(id) && p != b.act.act.p ==> D.Hand(P.PcOf(w.core, p)) != Some(id)
    ensures HandExact(P.PcOf(D.Step(w, b).core, p), NotePark(parked, w, b), id, tries)
  {
    if ParksNow(w, b) == Some(id) {
      UnixAddBackoff(b.at, tries);
    }
  }

  /** An id without carriers, or whose one carrier is no retry, is trivially exact. */
  lemma NothingDelayed(w: D.World, parked: map<Id, Time>, id: Id)
    requires forall q :: id !in LaneOf(w.queues, q).delayed
    requires forall p :: !(P.PcOf(w.core, p).Parking? && P.PcOf(w.core, p).id == id)
    requires forall p :: !(P.PcOf(w.core, p).Adding? && P.PcOf(w.core, p).id == id)
    ensures Exact(w, parked, id)
  {
  }

  lemma NoCarrier(w: D.World, id: Id)
    requires D.Carriers(w, id) == 0
    ensures forall q :: id !in LaneOf(w.queues, q).delayed
    ensures forall p :: D.Hand(P.PcOf(w.core, p)) != Some(id)
  {
    forall q ensures id !in LaneOf(w.queues, q).delayed {
      D.PartOfCarriers(w, q, 0, id);
    }
    forall p ensures D.Hand(P.PcOf(w.core, p)) != Some(id) {
      D.PartOfCarriers(w, "", p, id);
    }
  }

  predicate EndsCycle(ev: P.Event, id: Id) {
    ev.Moved? && ev.id == id && (ev.move.Bury? || ev.move.Reset?)
  }

  lemma EndsCycleShape(w: D.World, b: D.Beat, id: Id) returns (p: P.Pid)
    requires EndsCycle(P.EventOf(w.core, D.CoreTick(w, b)), id)
    ensures var pc, w' := P.PcOf(w.core, p), D.Step(w, b);
            && w'.queues == w.queues && w'.core.procs == w.core.procs[p := P.PcOf(w'.core, p)]
            && !P.PcOf(w'.core, p).Parking? && !P.PcOf(w'.core, p).Adding?
            && (D.Hand(pc) == Some(id) || Has(w.core.db, id, Failed))
  {
    p := b.act.act.p;
  }

  /** A final failure uses up the job's only carrier, and a job that is reset had none. */
  lemma EndsCycleExact(w: D.World, b: D.Beat, parked: map<Id, Time>, id: Id)
    requires D.Inv(w) && EndsCycle(P.EventOf(w.core, D.CoreTick(w, b)), id)
    ensures Exact(D.Step(w, b), parked, id)
  {
    var p := EndsCycleShape(w, b, id);
    assert D.Single(w, id);
    if D.Hand(P.PcOf(w.core, p)) == Some(id) {
      OnlyCarrier(w, p, id);
    } else {
      NoCarrier(w, id);
    }
    var w' := D.Step(w, b);
    forall p' | p' != p ensures P.PcOf(w'.core, p') == P.PcOf(w.core, p') {
    }
    NothingDelayed(w', parked, id);
  }

  /** A recorded failure leaves its writer, about to park with the delay of the new count, as the only carrier. */
  lemma RequeueExact(w: D.World, b: D.Beat, parked: map<Id, Time>, id: Id)
    requires D.Inv(w) && P.Requeues(P.EventOf(w.core, D.CoreTick(w, b)), id)
    ensures Exact(D.Step(w, b), parked, id)
  {
    var p, k, queue := RequeueShape(w, b, id);
    OnlyCarrier(w, p, id);
    var w' := D.Step(w, b);
    forall p' ensures HandExact(P.PcOf(w'.core, p'), parked, id, k + 1) {
      if p' != p {
        assert P.PcOf(w'.core, p') == P.PcOf(w.core, p');
      }
    }
  }

  lemma CountStays(db: Db, db': Db, ev: P.Event, id: Id)
    requires P.MovesBy(db, db', ev, id) && !P.Requeues(ev, id) && !EndsCycle(ev, id)
    ensures (if id in db.jobs then db.jobs[id].retryCount else 0) == (if id in db'.jobs then db'.jobs[id].retryCount else 0)
  {
  }

  lemma ParksQuietly(w: D.World, b: D.Beat)
    requires P.EventOf(w.core, D.CoreTick(w, b)).Moved?
    ensures ParksNow(w, b) == None
  {
  }

  lemma {:induction false} RunExact(run: seq<D.Beat>, id: Id)
    ensures Exact(D.Exec(run), ParkedAt(run), id)
  {
    if |run| > 0 {
      var before, b := run[..|run|-1], run[|run|-1];
      RunExact(before, id);
      D.Reachable(before);
      var w := D.Exec(before);
      var t := D.CoreTick(w, b);
      var ev := P.EventOf(w.core, t);
      if ev.Moved? {
        ParksQuietly(w, b);
      }
      if P.Requeues(ev, id) {
        RequeueExact(w, b, ParkedAt(before), id);
      } else if EndsCycle(ev, id) {
        EndsCycleExact(w, b, ParkedAt(before), id);
      } else {
        P.StepMoves(w.core, t, id);
        CountStays(w.core.db, D.Step(w, b).core.db, ev, id);
        StepExact(w, b, ParkedAt(before), id);
      }
    }
  }

  /**
   In every run, crashes and cancels included, a delayed id is due at exactly the
   second at which it was parked plus the delay of its last attempt, and an id on
   its way to the set carries exactly that score.
   */
  lemma DueExactly(run: seq<D.Beat>, q: string, p: P.Pid, id: Id)
    ensures var w, parked := D.Exec(run), ParkedAt(run);
            var z, pc := LaneOf(w.queues, q).delayed, P.PcOf(w.core, p);
            && (id in z || (pc.Adding? && pc.id == id) ==>
                  && id in w.core.db.jobs && w.core.db.jobs[id].retryCount >= 1 && id in parked
                  && var due := Unix(parked[id]) + DelaySeconds(w.core.db.jobs[id].retryCount);
                  && (id in z ==> z[id] == due)
                  && (pc.Adding? && pc.id == id ==> pc.score == due))
  {
    RunExact(run, id);
    var w := D.Exec(run);
    var tries := if id in w.core.db.jobs then w.core.db.jobs[id].retryCount else 0;
    assert LaneExact(LaneOf(w.queues, q), ParkedAt(run), id, tries);
    assert HandExact(P.PcOf(w.core, p), ParkedAt(run), id, tries);
  }

  /**
   Hence a promotion takes a retry off the set exactly from its due second on:
   never before, and from then on unless the limit went to ids due no later.
   */
  lemma PromotedExactlyWhenDue(run: seq<D.Beat>, q: string, now: Time, limit: nat, id: Id)
    requires id in LaneOf(D.Exec(run).queues, q).delayed
    ensures id in D.Exec(run).core.db.jobs && D.Exec(run).core.db.jobs[id].retryCount >= 1 && id in ParkedAt(run)
    ensures var w := D.Exec(run);
            var z, tries := LaneOf(w.queues, q).delayed, w.core.db.jobs[id].retryCount;
            var moved := RangeByScore(z, Unix(now), limit);
            && (id in moved ==> Unix(now) >= Unix(ParkedAt(run)[id]) + DelaySeconds(tries))
            && (Unix(now) >= Unix(ParkedAt(run)[id]) + DelaySeconds(tries) && id !in moved ==>
                  |moved| == limit && forall x | x in moved :: x in z && z[x] <= z[id])
  {
    DueExactly(run, q, 0, id);
    var z := LaneOf(D.Exec(run).queues, q).delayed;
    RangeInScoreOrder(z, Unix(now), limit);
    var moved := RangeByScore(z, Unix(now), limit);
    forall x | x in moved ensures x in z && (z[id] <= Unix(now) && id !in moved ==> z[x] <= z[id]) {
      var i :| 0 <= i < |moved| && moved[i] == x;
    }
  }
}
