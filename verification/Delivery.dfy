/**
 The same protocol over a faithful Redis: lists and delayed sets hold exactly
 what the commands put there, and each command takes effect at most once.

 Everything that still stands for a future run of a job is a carrier of its id:
 an entry of a work list, a member of a delayed set, an id in a worker's hand,
 or a push that a committed write still owes. The carriers form one multiset,
 and every step changes it by an exact amount.
 */
module Delivery {
  import opened Jobs
  import opened Backoff
  import opened Redis
  import P = Protocol

  datatype World = World(core: P.Core, queues: Queues)

  datatype Act =
    | Do(act: P.Action)
    | Pop(p: P.Pid, watched: seq<string>)
    | Promotion(queue: string, now: Time, limit: nat)

  /** An act and the reading of the clock when it takes effect. */
  datatype Beat = Beat(at: Time, act: Act)

  /** The queue whose Redis keys the next statement of an activity touches. */
  function QueueOf(pc: P.Pc): string {
    if pc.Pushing? || pc.Adding? || pc.Unlisting? || pc.Undelaying? then pc.queue else ""
  }

  /** The Redis command that is the next statement of an activity, if it is one. */
  function OnLane(l: Lane, pc: P.Pc): Lane {
    match pc
    case Pushing(id, _) => LPush(l, id)
    case Adding(id, _, score) => ZAdd(l, id, score)
    case Unlisting(id, _) => LRem(l, id)
    case Undelaying(id, _) => ZRem(l, id)
    case _ => l
  }

  function Command(r: Queues, pc: P.Pc): Queues {
    if pc.Pushing? || pc.Adding? || pc.Unlisting? || pc.Undelaying?
    then r[pc.queue := OnLane(LaneOf(r, pc.queue), pc)]
    else r
  }

  /** The queue a pop takes from, when the worker is free and a watched list has work. */
  function PopSource(w: World, p: P.Pid, watched: seq<string>): (q: Option<string>)
    ensures q.Some? ==> LaneOf(w.queues, q.value).list != []
  {
    if P.PcOf(w.core, p).Idle? then FirstReady(w.queues, watched) else None
  }

  function LastOf(s: seq<Id>): Id
    requires s != []
  {
    s[|s|-1]
  }

  /** What an act is to the core: popping is a start with the id the list really held. */
  function CoreAct(w: World, act: Act): P.Action {
    match act
    case Do(a) => if a.Start? && a.task.Popped? then P.Start(a.p, P.Idle) else a
    case Pop(p, watched) =>
      var q := PopSource(w, p, watched);
      if q.Some? then P.Start(p, P.Popped(LastOf(LaneOf(w.queues, q.value).list))) else P.Start(p, P.Idle)
    case Promotion(_, _, _) => P.Start(0, P.Idle)
  }

  function QueuesAfter(w: World, act: Act): Queues {
    match act
    case Do(a) => if a.Advance? then Command(w.queues, P.PcOf(w.core, a.p)) else w.queues
    case Pop(p, watched) =>
      var q := PopSource(w, p, watched);
      if q.Some? then w.queues[q.value := RPop(LaneOf(w.queues, q.value))] else w.queues
    case Promotion(q, now, limit) => w.queues[q := Promote(LaneOf(w.queues, q), Unix(now), limit)]
  }

  function CoreTick(w: World, b: Beat): P.Tick {
    P.Tick(b.at, CoreAct(w, b.act))
  }

  function Step(w: World, b: Beat): World {
    World(P.Step(w.core, CoreTick(w, b)), QueuesAfter(w, b.act))
  }

  function Exec(run: seq<Beat>): World {
    if |run| == 0 then World(P.Exec([]), map[])
    else Step(Exec(run[..|run|-1]), run[|run|-1])
  }

  /** The run as the arbitrary-Redis protocol sees it. */
  function CoreRun(run: seq<Beat>): seq<P.Tick> {
    if |run| == 0 then []
    else CoreRun(run[..|run|-1]) + [CoreTick(Exec(run[..|run|-1]), run[|run|-1])]
  }

  /** A faithful Redis is a special case: all that `Protocol` proves holds here. */
  lemma {:induction false} Projects(run: seq<Beat>)
    ensures Exec(run).core == P.Exec(CoreRun(run))
  {
    if |run| > 0 {
      var before := run[..|run|-1];
      Projects(before);
      P.ExecStep(CoreRun(before), CoreTick(Exec(before), run[|run|-1]));
    }
  }

  // ---------------------------------------------------------------------------
  // Adding up a finite map.

  ghost function Sum<K(!new)>(m: map<K, nat>): nat
    decreases m.Keys
  {
    if m == map[] then 0
    else var k :| k in m; m[k] + Sum(m - {k})
  }

  lemma {:induction false} SumPull<K(!new)>(m: map<K, nat>, k: K)
    requires k in m
    ensures Sum(m) == m[k] + Sum(m - {k})
    decreases m.Keys
  {
    var j :| j in m && Sum(m) == m[j] + Sum(m - {j});
    if j != k {
      SumPull(m - {j}, k);
      SumPull(m - {k}, j);
      assert m - {j} - {k} == m - {k} - {j};
    }
  }

  lemma SumPut<K(!new)>(m: map<K, nat>, k: K, v: nat)
    ensures Sum(m[k := v]) + (if k in m then m[k] else 0) == Sum(m) + v
  {
    SumPull(m[k := v], k);
    assert m[k := v] - {k} == m - {k};
    if k in m {
      SumPull(m, k);
    } else {
      assert m - {k} == m;
    }
  }

  // ---------------------------------------------------------------------------
  // Carriers.

  /** The id an activity still stands for. */
  function Hand(pc: P.Pc): Option<Id> {
    match pc
    case Popped(id) => Some(id)
    case Running(id, _) => Some(id)
    case Succeeded(id, _, _) => Some(id)
    case Errored(id, _, _) => Some(id)
    case Parking(id, _, _) => Some(id)
    case Adding(id, _, _) => Some(id)
    case Pushing(id, _) => Some(id)
    case _ => None
  }

  function Holds(pc: P.Pc, id: Id): nat {
    if Hand(pc) == Some(id) then 1 else 0
  }

  ghost function LaneCounts(r: Queues, id: Id): map<string, nat> {
    map q | q in r :: Held(r[q], id)
  }

  ghost function HandCounts(procs: map<P.Pid, P.Pc>, id: Id): map<P.Pid, nat> {
    map p | p in procs :: Holds(procs[p], id)
  }

  /** How many carriers an id has, over every queue and every activity. */
  ghost function Carriers(w: World, id: Id): nat {
    Sum(LaneCounts(w.queues, id)) + Sum(HandCounts(w.core.procs, id))
  }

  lemma LanePut(r: Queues, q: string, l: Lane, id: Id)
    ensures Sum(LaneCounts(r[q := l], id)) + Held(LaneOf(r, q), id) == Sum(LaneCounts(r, id)) + Held(l, id)
  {
    assert LaneCounts(r[q := l], id) == LaneCounts(r, id)[q := Held(l, id)];
    SumPut(LaneCounts(r, id), q, Held(l, id));
  }

  lemma HandPut(procs: map<P.Pid, P.Pc>, p: P.Pid, pc: P.Pc, id: Id)
    ensures Sum(HandCounts(procs[p := pc], id)) + (if p in procs then Holds(procs[p], id) else 0)
            == Sum(HandCounts(procs, id)) + Holds(pc, id)
  {
    assert HandCounts(procs[p := pc], id) == HandCounts(procs, id)[p := Holds(pc, id)];
    SumPut(HandCounts(procs, id), p, Holds(pc, id));
  }

  /** One lane and one hand are never more than all the carriers together. */
  lemma PartOfCarriers(w: World, q: string, p: P.Pid, id: Id)
    ensures Held(LaneOf(w.queues, q), id) + Holds(P.PcOf(w.core, p), id) <= Carriers(w, id)
  {
    LanePut(w.queues, q, Lane([], map[]), id);
    HandPut(w.core.procs, p, P.Idle, id);
  }

  /** Two hands likewise. */
  lemma TwoHands(w: World, p: P.Pid, p': P.Pid, id: Id)
    requires p != p'
    ensures Holds(P.PcOf(w.core, p), id) + Holds(P.PcOf(w.core, p'), id) <= Carriers(w, id)
  {
    HandPut(w.core.procs, p, P.Idle, id);
    HandPut(w.core.procs[p := P.Idle], p', P.Idle, id);
  }

  /** A step that rewrites one lane and one hand changes the carriers by exactly the difference. */
  lemma CarriersPut(w: World, w': World, q: string, p: P.Pid, id: Id)
    requires w'.queues == w.queues[q := LaneOf(w'.queues, q)] || w'.queues == w.queues
    requires w'.core.procs == w.core.procs[p := P.PcOf(w'.core, p)] || w'.core.procs == w.core.procs
    ensures Carriers(w', id) + Held(LaneOf(w.queues, q), id) + Holds(P.PcOf(w.core, p), id)
            == Carriers(w, id) + Held(LaneOf(w'.queues, q), id) + Holds(P.PcOf(w'.core, p), id)
  {
    LanePut(w.queues, q, LaneOf(w'.queues, q), id);
    HandPut(w.core.procs, p, P.PcOf(w'.core, p), id);
  }

  // ---------------------------------------------------------------------------
  // The conservation law.

  /** Only a committed submission or reset makes a carrier. */
  function Gained(ev: P.Event, id: Id): nat {
    if ev.Moved? && ev.id == id && (ev.move.Submit? || ev.move.Reset?) then 1 else 0
  }

  /** What a database statement gives up: a finished job, or an id whose claim is refused. */
  function SpentInHand(db: Db, pc: P.Pc, ev: P.Event, id: Id): nat {
    if ev.Moved? && ev.id == id && (ev.move.Complete? || ev.move.Bury?) then 1
    else if pc == P.Popped(id) && !Has(db, id, Pending) then 1
    else 0
  }

  /** What the clean-up after a cancel takes out of a queue. */
  function SpentInLane(l: Lane, pc: P.Pc, id: Id): nat {
    if pc.Unlisting? && pc.id == id then Count(l.list, id)
    else if pc.Undelaying? && pc.id == id && id in l.delayed then 1
    else 0
  }

  function Lost(w: World, b: Beat, id: Id): nat {
    if b.act.Do? && b.act.act.Crash? then Holds(P.PcOf(w.core, b.act.act.p), id)
    else if b.act.Do? && b.act.act.Advance? then
      var pc := P.PcOf(w.core, b.act.act.p);
      SpentInHand(w.core.db, pc, P.EventOf(w.core, CoreTick(w, b)), id) + SpentInLane(LaneOf(w.queues, QueueOf(pc)), pc, id)
    else 0
  }

  ghost predicate Placed(w: World) {
    forall q, id | Held(LaneOf(w.queues, q), id) > 0 :: P.OnQueue(w.core.db, id, q)
  }

  ghost predicate Single(w: World, id: Id) {
    && Carriers(w, id) <= 1
    && (Carriers(w, id) == 1 ==> id in w.core.db.jobs && !Has(w.core.db, id, Completed) && !Has(w.core.db, id, Failed))
  }

  ghost predicate Inv(w: World) {
    P.Inv(w.core) && Placed(w) && forall id :: Single(w, id)
  }

  /** What passes from the hand to the queue. */
  function Handed(pc: P.Pc, id: Id): nat {
    if pc.Pushing? || pc.Adding? then Holds(pc, id) else 0
  }

  lemma HandBalance(db: Db, pc: P.Pc, o: P.Outcome, at: Time, id: Id)
    requires RowsOk(db) && P.PcOk(db, pc)
    ensures var e := P.Next(db, pc, o, at);
            Holds(e.pc, id) + SpentInHand(db, pc, e.event, id) + Handed(pc, id)
            == Holds(pc, id) + Gained(e.event, id)
  {
  }

  lemma LaneBalance(l: Lane, pc: P.Pc, id: Id)
    requires pc.Adding? ==> pc.id !in l.delayed
    ensures Held(OnLane(l, pc), id) + SpentInLane(l, pc, id) == Held(l, id) + Handed(pc, id)
  {
    match pc
    case Pushing(x, _) => HeldPush(l, x, id);
    case Adding(x, _, score) => HeldAdd(l, x, score, id);
    case Unlisting(x, _) => HeldUnlist(l, x, id);
    case Undelaying(x, _) => HeldUndelay(l, x, id);
    case _ =>
  }

  lemma LaneAfter(r: Queues, pc: P.Pc)
    ensures LaneOf(Command(r, pc), QueueOf(pc)) == OnLane(LaneOf(r, QueueOf(pc)), pc)
    ensures Command(r, pc) == r || Command(r, pc) == r[QueueOf(pc) := LaneOf(Command(r, pc), QueueOf(pc))]
  {
  }

  lemma NotDelayedYet(w: World, p: P.Pid)
    requires Inv(w) && P.PcOf(w.core, p).Adding?
    ensures var pc := P.PcOf(w.core, p); pc.id !in LaneOf(w.queues, pc.queue).delayed
  {
    var pc := P.PcOf(w.core, p);
    PartOfCarriers(w, pc.queue, p, pc.id);
    assert Single(w, pc.id);
  }

  lemma AdvanceBalance(w: World, b: Beat, id: Id)
    requires Inv(w) && b.act.Do? && b.act.act.Advance?
    ensures Carriers(Step(w, b), id) + Lost(w, b, id)
            == Carriers(w, id) + Gained(P.EventOf(w.core, CoreTick(w, b)), id)
  {
    var p := b.act.act.p;
    var pc := P.PcOf(w.core, p);
    LaneAfter(w.queues, pc);
    CarriersPut(w, Step(w, b), QueueOf(pc), p, id);
    assert P.PcOk(w.core.db, pc);
    if pc.Adding? {
      NotDelayedYet(w, p);
    }
    HandBalance(w.core.db, pc, b.act.act.outcome, b.at, id);
    LaneBalance(LaneOf(w.queues, QueueOf(pc)), pc, id);
  }

  lemma PopBalance(w: World, b: Beat, id: Id)
    requires b.act.Pop?
    ensures Carriers(Step(w, b), id) == Carriers(w, id)
  {
    var q := PopSource(w, b.act.p, b.act.watched);
    CarriersPut(w, Step(w, b), if q.Some? then q.value else "", b.act.p, id);
    if q.Some? {
      HeldPop(LaneOf(w.queues, q.value), id);
    }
  }

  /** Starting makes no carrier, and a crash loses what was in hand. */
  lemma StartOrCrashBalance(w: World, b: Beat, id: Id)
    requires b.act.Do? && !b.act.act.Advance?
    ensures Carriers(Step(w, b), id) + Lost(w, b, id) == Carriers(w, id)
  {
    CarriersPut(w, Step(w, b), "", b.act.act.p, id);
  }

  lemma PromotionBalance(w: World, b: Beat, id: Id)
    requires b.act.Promotion?
    ensures Carriers(Step(w, b), id) == Carriers(w, id)
  {
    CarriersPut(w, Step(w, b), b.act.queue, 0, id);
    PromoteConserves(LaneOf(w.queues, b.act.queue), Unix(b.act.now), b.act.limit, id);
  }

  /** Every step changes the number of carriers of an id by exactly what it made less what it used up. */
  lemma CarriersBalance(w: World, b: Beat, id: Id)
    requires Inv(w)
    ensures Carriers(Step(w, b), id) + Lost(w, b, id)
            == Carriers(w, id) + Gained(P.EventOf(w.core, CoreTick(w, b)), id)
  {
    match b.act
    case Do(a) =>
      if a.Advance? {
        AdvanceBalance(w, b, id);
      } else {
        StartOrCrashBalance(w, b, id);
      }
    case Pop(_, _) => PopBalance(w, b, id);
    case Promotion(_, _, _) => PromotionBalance(w, b, id);
  }

  lemma KeepsSingle(w: World, b: Beat, id: Id)
    requires Inv(w)
    ensures Single(Step(w, b), id)
  {
    assert Single(w, id);
    CarriersBalance(w, b, id);
    P.StepMoves(w.core, CoreTick(w, b), id);
    SingleFrom(w, Step(w, b), P.EventOf(w.core, CoreTick(w, b)), Lost(w, b, id), id);
  }

  lemma SingleFrom(w: World, w': World, ev: P.Event, lost: nat, id: Id)
    requires Single(w, id)
    requires P.MovesBy(w.core.db, w'.core.db, ev, id)
    requires Carriers(w', id) + lost == Carriers(w, id) + Gained(ev, id)
    requires ev.Moved? && ev.id == id && (ev.move.Complete? || ev.move.Bury?) ==> lost == 1
    ensures Single(w', id)
  {
  }

  lemma QueueStable(db: Db, db': Db, ev: P.Event, id: Id, q: string)
    requires P.MovesBy(db, db', ev, id) && P.OnQueue(db, id, q)
    ensures P.OnQueue(db', id, q)
  {
  }

  lemma StatementPlaces(r: Queues, db: Db, pc: P.Pc, q: string, id: Id)
    requires P.PcOk(db, pc)
    ensures Held(LaneOf(Command(r, pc), q), id) > 0 ==> Held(LaneOf(r, q), id) > 0 || P.OnQueue(db, id, q)
  {
    if pc.Pushing? {
      HeldPush(LaneOf(r, pc.queue), pc.id, id);
    } else if pc.Unlisting? {
      HeldUnlist(LaneOf(r, pc.queue), pc.id, id);
    }
  }

  lemma KeepsPlaced(w: World, b: Beat, q: string, id: Id)
    requires Inv(w)
    requires Held(LaneOf(Step(w, b).queues, q), id) > 0
    ensures P.OnQueue(Step(w, b).core.db, id, q)
  {
    assert Held(LaneOf(w.queues, q), id) > 0 || P.OnQueue(w.core.db, id, q) by {
      match b.act
      case Do(a) =>
        if a.Advance? {
          assert P.PcOk(w.core.db, P.PcOf(w.core, a.p));
          StatementPlaces(w.queues, w.core.db, P.PcOf(w.core, a.p), q, id);
        }
      case Pop(p, watched) =>
        var s := PopSource(w, p, watched);
        if s.Some? {
          HeldPop(LaneOf(w.queues, s.value), id);
        }
      case Promotion(s, now, limit) =>
        PromoteConserves(LaneOf(w.queues, s), Unix(now), limit, id);
    }
    P.StepMoves(w.core, CoreTick(w, b), id);
    QueueStable(w.core.db, Step(w, b).core.db, P.EventOf(w.core, CoreTick(w, b)), id, q);
  }

  lemma StepKeepsInv(w: World, b: Beat)
    requires Inv(w)
    ensures Inv(Step(w, b))
  {
    P.StepKeepsInv(w.core, CoreTick(w, b));
    forall id ensures Single(Step(w, b), id) { KeepsSingle(w, b, id); }
    forall q, id | Held(LaneOf(Step(w, b).queues, q), id) > 0
      ensures P.OnQueue(Step(w, b).core.db, id, q)
    {
      KeepsPlaced(w, b, q, id);
    }
  }

  lemma {:induction false} Reachable(run: seq<Beat>)
    ensures Inv(Exec(run))
  {
    if |run| == 0 {
      P.Reachable([]);
      assert forall id :: LaneCounts(Exec(run).queues, id) == map[] && HandCounts(Exec(run).core.procs, id) == map[];
    } else {
      Reachable(run[..|run|-1]);
      StepKeepsInv(Exec(run[..|run|-1]), run[|run|-1]);
    }
  }

  /** In every run, crashes included: never two carriers, and none for a finished or missing job. */
  lemma AtMostOneCarrier(run: seq<Beat>, id: Id)
    ensures Carriers(Exec(run), id) <= 1
    ensures id !in Exec(run).core.db.jobs ==> Carriers(Exec(run), id) == 0
    ensures Has(Exec(run).core.db, id, Completed) || Has(Exec(run).core.db, id, Failed) ==> Carriers(Exec(run), id) == 0
  {
    Reachable(run);
    assert Single(Exec(run), id);
  }

  /** No queue and no hand ever names a missing job, or a job of another queue. */
  lemma NoDanglingIds(run: seq<Beat>, q: string, p: P.Pid, id: Id)
    ensures Held(LaneOf(Exec(run).queues, q), id) > 0 ==> P.OnQueue(Exec(run).core.db, id, q)
    ensures Hand(P.PcOf(Exec(run).core, p)) == Some(id) ==> id in Exec(run).core.db.jobs
    ensures var pc := P.PcOf(Exec(run).core, p);
            pc.Pushing? || pc.Adding? || pc.Parking? ==> P.OnQueue(Exec(run).core.db, pc.id, pc.queue)
  {
    Reachable(run);
    PartOfCarriers(Exec(run), q, p, id);
    assert Single(Exec(run), id);
  }

  // ---------------------------------------------------------------------------
  // Without crashes nothing is lost.

  ghost predicate HasOwner(c: P.Core, id: Id) {
    exists p :: p in c.procs && P.Owned(c.procs[p]) == Some(id)
  }

  /** A pending job has a carrier, and a processing job the activity that claimed it. */
  ghost predicate Live(w: World, id: Id) {
    && (Has(w.core.db, id, Pending) ==> Carriers(w, id) == 1)
    && (Has(w.core.db, id, Processing) ==> HasOwner(w.core, id))
  }

  predicate CrashFree(run: seq<Beat>) {
    forall i | 0 <= i < |run| :: !(run[i].act.Do? && run[i].act.act.Crash?)
  }

  lemma OwnerCarries(w: World, p: P.Pid, id: Id)
    requires P.Owned(P.PcOf(w.core, p)) == Some(id)
    ensures Carriers(w, id) >= 1
  {
    PartOfCarriers(w, "", p, id);
  }

  /** A step that neither crashes an activity nor writes a pending row takes none of its carriers. */
  lemma PendingLosesNothing(w: World, b: Beat, id: Id)
    requires Inv(w) && Has(w.core.db, id, Pending)
    requires !(b.act.Do? && b.act.act.Crash?)
    requires var ev := P.EventOf(w.core, CoreTick(w, b)); !(ev.Moved? && ev.id == id)
    ensures Lost(w, b, id) == 0
  {
  }

  lemma RequeueHasOwner(c: P.Core, t: P.Tick, id: Id)
    requires P.Requeues(P.EventOf(c, t), id)
    ensures P.Owned(P.PcOf(c, t.act.p)) == Some(id)
  {
  }

  /** A job becomes pending by submission, reset or a recorded failure, or it was pending before. */
  lemma PendingBefore(db: Db, db': Db, ev: P.Event, id: Id)
    requires P.MovesBy(db, db', ev, id) && Has(db', id, Pending)
    ensures Gained(ev, id) == 1 || P.Requeues(ev, id)
            || (Has(db, id, Pending) && !(ev.Moved? && ev.id == id))
  {
  }

  lemma PendingKeepsCarrier(w: World, b: Beat, id: Id)
    requires Inv(w) && Live(w, id)
    requires !(b.act.Do? && b.act.act.Crash?)
    requires Has(Step(w, b).core.db, id, Pending)
    ensures Carriers(Step(w, b), id) == 1
  {
    var t := CoreTick(w, b);
    var ev := P.EventOf(w.core, t);
    P.StepMoves(w.core, t, id);
    PendingBefore(w.core.db, Step(w, b).core.db, ev, id);
    CarriersBalance(w, b, id);
    KeepsSingle(w, b, id);
    if P.Requeues(ev, id) {
      RequeueHasOwner(w.core, t, id);
      OwnerCarries(w, t.act.p, id);
      RequeueLosesNothing(w, b, id);
    } else if Gained(ev, id) == 1 {
      GainLosesNothing(w, b, id);
    } else {
      PendingLosesNothing(w, b, id);
    }
  }

  lemma RequeueLosesNothing(w: World, b: Beat, id: Id)
    requires P.Requeues(P.EventOf(w.core, CoreTick(w, b)), id)
    ensures Lost(w, b, id) == 0
  {
  }

  lemma GainLosesNothing(w: World, b: Beat, id: Id)
    requires Gained(P.EventOf(w.core, CoreTick(w, b)), id) == 1
    ensures Lost(w, b, id) == 0
  {
  }

  /** A job enters processing by a claim alone. */
  lemma ClaimedNow(db: Db, db': Db, ev: P.Event, id: Id)
    requires P.MovesBy(db, db', ev, id) && Has(db', id, Processing)
    ensures P.Claims(ev, id) || (Has(db, id, Processing) && !(ev.Moved? && ev.id == id))
  {
  }

  lemma ClaimantOwns(c: P.Core, t: P.Tick, id: Id)
    requires P.Claims(P.EventOf(c, t), id)
    ensures HasOwner(P.Step(c, t), id)
  {
    assert t.act.p in P.Step(c, t).procs && P.Owned(P.Step(c, t).procs[t.act.p]) == Some(id);
  }

  /** An owner that writes no outcome is still the owner after its statement. */
  lemma OwnerStays(c: P.Core, t: P.Tick, o: P.Pid, id: Id)
    requires P.Inv(c) && !t.act.Crash? && o in c.procs && P.Owned(c.procs[o]) == Some(id)
    requires var ev := P.EventOf(c, t); !(ev.Moved? && ev.id == id)
    ensures o in P.Step(c, t).procs && P.Owned(P.Step(c, t).procs[o]) == Some(id)
  {
    assert P.PcOk(c.db, c.procs[o]);
    assert RowOk(c.db.jobs[id]);
  }

  /** What another activity does leaves an owner in place; what the owner does keeps or ends the processing. */
  lemma ProcessingKeepsOwner(c: P.Core, t: P.Tick, id: Id)
    requires P.Inv(c) && !t.act.Crash?
    requires Has(c.db, id, Processing) ==> HasOwner(c, id)
    requires Has(P.Step(c, t).db, id, Processing)
    ensures HasOwner(P.Step(c, t), id)
  {
    P.StepMoves(c, t, id);
    ClaimedNow(c.db, P.Step(c, t).db, P.EventOf(c, t), id);
    if P.Claims(P.EventOf(c, t), id) {
      ClaimantOwns(c, t, id);
    } else {
      var o :| o in c.procs && P.Owned(c.procs[o]) == Some(id);
      OwnerStays(c, t, o, id);
    }
  }

  lemma KeepsLive(w: World, b: Beat, id: Id)
    requires Inv(w) && Live(w, id)
    requires !(b.act.Do? && b.act.act.Crash?)
    ensures Live(Step(w, b), id)
  {
    if Has(Step(w, b).core.db, id, Pending) {
      PendingKeepsCarrier(w, b, id);
    } else if Has(Step(w, b).core.db, id, Processing) {
      ProcessingKeepsOwner(w.core, CoreTick(w, b), id);
    }
  }

  lemma {:induction false} LiveRun(run: seq<Beat>, id: Id)
    requires CrashFree(run)
    ensures Live(Exec(run), id)
  {
    if |run| > 0 {
      LiveRun(run[..|run|-1], id);
      Reachable(run[..|run|-1]);
      KeepsLive(Exec(run[..|run|-1]), run[|run|-1], id);
    }
  }

  /** In a run without crashes or errors every unfinished job has exactly one carrier: none is ever stranded. */
  lemma ExactlyOneCarrier(run: seq<Beat>, id: Id)
    requires CrashFree(run)
    requires Has(Exec(run).core.db, id, Pending) || Has(Exec(run).core.db, id, Processing)
    ensures Carriers(Exec(run), id) == 1
  {
    LiveRun(run, id);
    AtMostOneCarrier(run, id);
    if Has(Exec(run).core.db, id, Processing) {
      var p :| p in Exec(run).core.procs && P.Owned(Exec(run).core.procs[p]) == Some(id);
      OwnerCarries(Exec(run), p, id);
    }
  }

  // ---------------------------------------------------------------------------
  // What a crash costs: the carrier is the only way a pending job ever runs.

  ghost predicate Stranded(w: World, id: Id) {
    Carriers(w, id) == 0 && (Has(w.core.db, id, Pending) || Has(w.core.db, id, Cancelled))
  }

  lemma ClaimTakesCarrier(c: P.Core, t: P.Tick, id: Id)
    requires P.Claims(P.EventOf(c, t), id)
    ensures Hand(P.PcOf(c, t.act.p)) == Some(id)
  {
  }

  lemma StrandedFrom(w: World, w': World, ev: P.Event, lost: nat, id: Id)
    requires Stranded(w, id) && !P.Claims(ev, id)
    requires P.MovesBy(w.core.db, w'.core.db, ev, id)
    requires Carriers(w', id) + lost == Carriers(w, id) + Gained(ev, id)
    ensures Stranded(w', id)
  {
  }

  lemma StrandedStep(w: World, b: Beat, id: Id)
    requires Inv(w) && Stranded(w, id)
    ensures Stranded(Step(w, b), id)
  {
    var t := CoreTick(w, b);
    P.StepMoves(w.core, t, id);
    CarriersBalance(w, b, id);
    if P.Claims(P.EventOf(w.core, t), id) {
      ClaimTakesCarrier(w.core, t, id);
      PartOfCarriers(w, "", t.act.p, id);
    } else {
      StrandedFrom(w, Step(w, b), P.EventOf(w.core, t), Lost(w, b, id), id);
    }
  }

  lemma ExecStep(run: seq<Beat>, b: Beat)
    ensures Exec(run + [b]) == Step(Exec(run), b)
  {
  }

  /**
   A pending job without a carrier never runs: no continuation, however long,
   claims it. `Recovery.PendingRunsIffCarried` has the converse.
   */
  lemma {:induction false} StrandedNeverRuns(run: seq<Beat>, more: seq<Beat>, id: Id)
    requires Stranded(Exec(run), id)
    ensures Stranded(Exec(run + more), id)
  {
    if more == [] {
      assert run + more == run;
    } else {
      var mid, b := run + more[..|more|-1], more[|more|-1];
      StrandedNeverRuns(run, more[..|more|-1], id);
      assert mid + [b] == run + more;
      ExecStep(mid, b);
      Reachable(mid);
      StrandedStep(Exec(mid), b, id);
    }
  }
}
