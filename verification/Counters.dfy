/**
 The worker's jobs_processed_total counters, reconciled with the tables over
 every run: what was counted, what a crash lost on the way to the counter, and
 what is about to be counted add up to what the database says.
 */
module Counters {
  import opened Jobs
  import opened Protocol

  /** The occurrences that matter for the books. */
  datatype Mark = Completion | Burial | Revival | CountedOk | CountedBad | LostOk | LostBad | Other

  function MarkOf(e: Event): Mark {
    match e
    case Moved(_, m) =>
      if m.Complete? then Completion else if m.Bury? then Burial else if m.Reset? then Revival else Other
    case Counted(s) => if s == Completed then CountedOk else if s == Failed then CountedBad else Other
    case Abandoned(pc) => if pc.CountingCompleted? then LostOk else if pc.CountingFailed? then LostBad else Other
    case Quiet => Other
  }

  function Tally(trace: seq<Event>, m: Mark): nat {
    if |trace| == 0 then 0
    else Tally(trace[..|trace|-1], m) + (if MarkOf(trace[|trace|-1]) == m then 1 else 0)
  }

  ghost function WithStatus(db: Db, s: Status): set<Id> {
    set id | id in db.jobs && db.jobs[id].status == s
  }

  /** The processes between their outcome write and their counter. */
  ghost function At(c: Core, pc: Pc): set<Pid> {
    set p | p in c.procs && c.procs[p] == pc
  }

  ghost predicate Balanced(c: Core, trace: seq<Event>) {
    && Tally(trace, Completion) == |WithStatus(c.db, Completed)|
    && Tally(trace, Burial) == |WithStatus(c.db, Failed)| + Tally(trace, Revival)
    && Tally(trace, Completion) == Tally(trace, CountedOk) + Tally(trace, LostOk) + |At(c, CountingCompleted)|
    && Tally(trace, Burial) == Tally(trace, CountedBad) + Tally(trace, LostBad) + |At(c, CountingFailed)|
  }

  lemma TallyStep(trace: seq<Event>, e: Event, m: Mark)
    ensures Tally(trace + [e], m) == Tally(trace, m) + (if MarkOf(e) == m then 1 else 0)
  {
  }

  /** A completion adds one completed row; nothing takes one away. */
  lemma CompletedIff(db: Db, db': Db, ev: Event, id: Id)
    requires MovesBy(db, db', ev, id)
    ensures var now := MarkOf(ev) == Completion && ev.id == id;
            && (Has(db', id, Completed) <==> Has(db, id, Completed) || now)
            && !(Has(db, id, Completed) && now)
  {
  }

  /** A burial adds one failed row and a reset takes one away. */
  lemma FailedIff(db: Db, db': Db, ev: Event, id: Id)
    requires MovesBy(db, db', ev, id)
    ensures var buried := MarkOf(ev) == Burial && ev.id == id;
            var revived := MarkOf(ev) == Revival && ev.id == id;
            && (Has(db', id, Failed) <==> (Has(db, id, Failed) || buried) && !revived)
            && !(Has(db, id, Failed) && buried)
            && (revived ==> Has(db, id, Failed))
  {
  }

  lemma CompletedCount(c: Core, t: Tick)
    requires Inv(c)
    ensures |WithStatus(Step(c, t).db, Completed)|
            == |WithStatus(c.db, Completed)| + (if MarkOf(EventOf(c, t)) == Completion then 1 else 0)
  {
    var db, db', ev := c.db, Step(c, t).db, EventOf(c, t);
    var one := MarkOf(ev) == Completion;
    var x := if ev.Moved? then ev.id else 0;
    forall id
      ensures id in WithStatus(db', Completed) <==> id in WithStatus(db, Completed) || (one && id == x)
      ensures one && id == x ==> id !in WithStatus(db, Completed)
    {
      StepMoves(c, t, id);
      CompletedIff(db, db', ev, id);
    }
    SetStep(WithStatus(db, Completed), WithStatus(db', Completed), x, one, false);
  }

  lemma FailedCount(c: Core, t: Tick)
    requires Inv(c)
    ensures |WithStatus(Step(c, t).db, Failed)| + (if MarkOf(EventOf(c, t)) == Revival then 1 else 0)
            == |WithStatus(c.db, Failed)| + (if MarkOf(EventOf(c, t)) == Burial then 1 else 0)
  {
    var db, db', ev := c.db, Step(c, t).db, EventOf(c, t);
    var one, less := MarkOf(ev) == Burial, MarkOf(ev) == Revival;
    var x := if ev.Moved? then ev.id else 0;
    forall id
      ensures id in WithStatus(db', Failed) <==>
              (id in WithStatus(db, Failed) || (one && id == x)) && !(less && id == x)
      ensures one && id == x ==> id !in WithStatus(db, Failed)
      ensures less && id == x ==> id in WithStatus(db, Failed)
    {
      StepMoves(c, t, id);
      FailedIff(db, db', ev, id);
    }
    SetStep(WithStatus(db, Failed), WithStatus(db', Failed), x, one, less);
  }

  lemma SetStep(s: set<Id>, s': set<Id>, x: Id, add: bool, drop: bool)
    requires forall i :: i in s' <==> (i in s || (add && i == x)) && !(drop && i == x)
    requires add ==> x !in s && !drop
    requires drop ==> x in s
    ensures |s'| + (if drop then 1 else 0) == |s| + (if add then 1 else 0)
  {
    if add {
      assert s' == s + {x};
    } else if drop {
      assert s == s' + {x};
    } else {
      assert s' == s;
    }
  }

  /** A written outcome puts its writer in front of its counter; counting or crashing takes it away. */
  lemma CountingMarks(c: Core, t: Tick)
    ensures var m, was, now := MarkOf(EventOf(c, t)), PcOf(c, t.act.p), PcOf(Step(c, t), t.act.p);
            && (now == CountingCompleted <==> m == Completion || (was == CountingCompleted && m != CountedOk && m != LostOk))
            && (now == CountingFailed <==> m == Burial || (was == CountingFailed && m != CountedBad && m != LostBad))
            && (m == CountedOk || m == LostOk ==> was == CountingCompleted)
            && (m == CountedBad || m == LostBad ==> was == CountingFailed)
            && (m == Completion ==> was != CountingCompleted) && (m == Burial ==> was != CountingFailed)
  {
  }

  lemma StepCounting(c: Core, t: Tick)
    ensures var m := MarkOf(EventOf(c, t));
            && |At(Step(c, t), CountingCompleted)| + (if m == CountedOk || m == LostOk then 1 else 0)
               == |At(c, CountingCompleted)| + (if m == Completion then 1 else 0)
            && |At(Step(c, t), CountingFailed)| + (if m == CountedBad || m == LostBad then 1 else 0)
               == |At(c, CountingFailed)| + (if m == Burial then 1 else 0)
  {
    CountingMarks(c, t);
    AtStep(c, Step(c, t), t.act.p, CountingCompleted);
    AtStep(c, Step(c, t), t.act.p, CountingFailed);
  }

  /** Whoever is not the process that moved stands where it stood. */
  lemma AtElsewhere(c: Core, c': Core, p: Pid, q: Pid, pc: Pc)
    requires c'.procs == c.procs || (p in c'.procs && c'.procs == c.procs[p := c'.procs[p]])
    ensures q != p ==> (q in At(c', pc) <==> q in At(c, pc))
  {
  }

  lemma AtPcOf(c: Core, p: Pid, pc: Pc)
    requires !pc.Idle?
    ensures p in At(c, pc) <==> PcOf(c, p) == pc
  {
  }

  lemma AtStep(c: Core, c': Core, p: Pid, pc: Pc)
    requires !pc.Idle?
    requires c'.procs == c.procs || (p in c'.procs && c'.procs == c.procs[p := c'.procs[p]])
    ensures |At(c', pc)| + (if PcOf(c, p) == pc then 1 else 0) == |At(c, pc)| + (if PcOf(c', p) == pc then 1 else 0)
  {
    AtPcOf(c, p, pc);
    AtPcOf(c', p, pc);
    forall q | q != p ensures q in At(c', pc) <==> q in At(c, pc) {
      AtElsewhere(c, c', p, q, pc);
    }
    MembershipOf(At(c, pc), At(c', pc), p);
  }

  /** Sets that differ at most in one element. */
  lemma MembershipOf(s: set<Pid>, s': set<Pid>, p: Pid)
    requires forall q | q != p :: q in s' <==> q in s
    ensures |s'| + (if p in s then 1 else 0) == |s| + (if p in s' then 1 else 0)
  {
    var rest := s - {p};
    assert s' - {p} == rest;
    assert p in s ==> s == rest + {p};
    assert p in s' ==> s' == rest + {p};
    assert p !in s ==> s == rest;
    assert p !in s' ==> s' == rest;
  }

  lemma {:induction false} BooksBalance(run: seq<Tick>)
    ensures Balanced(Exec(run), Trace(run))
  {
    if |run| == 0 {
      assert WithStatus(Exec(run).db, Completed) == {} && WithStatus(Exec(run).db, Failed) == {};
      assert At(Exec(run), CountingCompleted) == {} && At(Exec(run), CountingFailed) == {};
    } else {
      var before, t := run[..|run|-1], run[|run|-1];
      BooksBalance(before);
      Reachable(before);
      BalanceStep(Exec(before), t, Trace(before));
    }
  }

  lemma BalanceStep(c: Core, t: Tick, trace: seq<Event>)
    requires Inv(c) && Balanced(c, trace)
    ensures Balanced(Step(c, t), trace + [EventOf(c, t)])
  {
    CompletedCount(c, t);
    FailedCount(c, t);
    StepCounting(c, t);
    forall m: Mark { TallyStep(trace, EventOf(c, t), m); }
  }

  /**
   In every run the completed counter is at most the completed rows and the
   failed counter at most the failed rows plus the successful retries. The gap is
   exactly the activities lost or still standing in front of their counter.
   */
  lemma CountersReconcile(run: seq<Tick>)
    ensures var c, tr := Exec(run), Trace(run);
            && Tally(tr, CountedOk) + Tally(tr, LostOk) + |At(c, CountingCompleted)| == |WithStatus(c.db, Completed)|
            && Tally(tr, CountedBad) + Tally(tr, LostBad) + |At(c, CountingFailed)|
               == |WithStatus(c.db, Failed)| + Tally(tr, Revival)
  {
    BooksBalance(run);
  }

  lemma {:induction false} NoCrashNoLoss(run: seq<Tick>)
    requires forall i | 0 <= i < |run| :: !run[i].act.Crash?
    ensures Tally(Trace(run), LostOk) == Tally(Trace(run), LostBad) == 0
  {
    if |run| > 0 {
      NoCrashNoLoss(run[..|run|-1]);
      var c, t := Exec(run[..|run|-1]), run[|run|-1];
      TallyStep(Trace(run[..|run|-1]), EventOf(c, t), LostOk);
      TallyStep(Trace(run[..|run|-1]), EventOf(c, t), LostBad);
      AdvanceLosesNothing(c, t);
    }
  }

  lemma AdvanceLosesNothing(c: Core, t: Tick)
    requires !t.act.Crash?
    ensures MarkOf(EventOf(c, t)) != LostOk && MarkOf(EventOf(c, t)) != LostBad
  {
  }

  /** With no crash or error, and nobody on the way to a counter, the counters are exact. */
  lemma CountersExactWithoutCrashes(run: seq<Tick>)
    requires forall i | 0 <= i < |run| :: !run[i].act.Crash?
    requires At(Exec(run), CountingCompleted) == {} && At(Exec(run), CountingFailed) == {}
    ensures Tally(Trace(run), CountedOk) == |WithStatus(Exec(run).db, Completed)|
    ensures Tally(Trace(run), CountedBad) == |WithStatus(Exec(run).db, Failed)| + Tally(Trace(run), Revival)
  {
    CountersReconcile(run);
    NoCrashNoLoss(run);
  }
}
