/**
 Which unfinished jobs can still be finished.

 An ordinary continuation has no crashes, a clock that does not run backwards,
 and promotions that use the clock. A pending job can be brought to completion
 by an ordinary continuation exactly when it still has its carrier, and a
 processing job exactly when the activity that claimed it is still there; in the
 other cases no continuation whatsoever moves the job on.
 */
module Recovery {
  import opened Jobs
  import opened Backoff
  import opened Redis
  import opened Delivery
  import P = Protocol

  predicate OrdinaryBeat(b: Beat, from: Time) {
    && from <= b.at
    && !(b.act.Do? && b.act.act.Crash?)
    && (b.act.Promotion? ==> b.act.now == b.at)
  }

  predicate Ordinary(more: seq<Beat>, from: Time) {
    && (forall i | 0 <= i < |more| :: OrdinaryBeat(more[i], from))
    && (forall i, j | 0 <= i < j < |more| :: more[i].at <= more[j].at)
  }

  ghost predicate Reaches(run: seq<Beat>, more: seq<Beat>, from: Time, id: Id, status: Status) {
    Ordinary(more, from) && Has(Exec(run + more).core.db, id, status)
  }

  ghost predicate Finishes(run: seq<Beat>, more: seq<Beat>, from: Time, id: Id) {
    Reaches(run, more, from, id, Completed)
  }

  /** One ordinary beat, then an ordinary continuation. */
  lemma PrependTo(run: seq<Beat>, b: Beat, rest: seq<Beat>, from: Time, id: Id, status: Status)
    requires OrdinaryBeat(b, from) && Reaches(run + [b], rest, b.at, id, status)
    ensures Reaches(run, [b] + rest, from, id, status)
  {
    assert run + ([b] + rest) == run + [b] + rest;
  }

  lemma Prepend(run: seq<Beat>, b: Beat, rest: seq<Beat>, from: Time, id: Id)
    requires OrdinaryBeat(b, from) && Finishes(run + [b], rest, b.at, id)
    ensures Finishes(run, [b] + rest, from, id)
  {
    PrependTo(run, b, rest, from, id, Completed);
  }

  function Go(at: Time, p: P.Pid): Beat {
    Beat(at, Do(P.Advance(p, P.Returned(""))))
  }

  // ---------------------------------------------------------------------------
  // From an activity that holds the id.

  lemma FromSucceeded(run: seq<Beat>, p: P.Pid, from: Time, id: Id) returns (more: seq<Beat>)
    requires P.PcOf(Exec(run).core, p).Succeeded? && P.PcOf(Exec(run).core, p).id == id
    ensures Finishes(run, more, from, id)
  {
    more := [Go(from, p)];
    ExecStep(run, Go(from, p));
    Reachable(run);
    assert P.PcOk(Exec(run).core.db, P.PcOf(Exec(run).core, p));
  }

  lemma FromRunning(run: seq<Beat>, p: P.Pid, from: Time, id: Id) returns (more: seq<Beat>)
    requires P.PcOf(Exec(run).core, p).Running? && P.PcOf(Exec(run).core, p).id == id
    ensures Finishes(run, more, from, id)
  {
    var b := Go(from, p);
    ExecStep(run, b);
    more := FromSucceeded(run + [b], p, from, id);
    Prepend(run, b, more, from, id);
    more := [b] + more;
  }

  lemma FromPopped(run: seq<Beat>, p: P.Pid, from: Time, id: Id) returns (more: seq<Beat>)
    requires Has(Exec(run).core.db, id, Pending) && P.PcOf(Exec(run).core, p) == P.Popped(id)
    ensures Finishes(run, more, from, id)
  {
    var b := Go(from, p);
    ExecStep(run, b);
    more := FromRunning(run + [b], p, from, id);
    Prepend(run, b, more, from, id);
    more := [b] + more;
  }

  // ---------------------------------------------------------------------------
  // From a work list: free workers pop it down to the id.

  lemma {:induction false} FreePid(pids: set<P.Pid>) returns (p: P.Pid)
    ensures p !in pids
    ensures forall q | q in pids :: q < p
    decreases pids
  {
    p := 0;
    if pids != {} {
      var q :| q in pids;
      p := FreePid(pids - {q});
      p := if p <= q then q + 1 else p;
      forall r | r in pids ensures r < p {
        if r != q { assert r in pids - {q}; }
      }
    }
  }

  lemma {:induction false} FromList(run: seq<Beat>, q: string, from: Time, id: Id) returns (more: seq<Beat>)
    requires Has(Exec(run).core.db, id, Pending) && id in LaneOf(Exec(run).queues, q).list
    ensures Finishes(run, more, from, id)
    decreases |LaneOf(Exec(run).queues, q).list|
  {
    var w := Exec(run);
    var list := LaneOf(w.queues, q).list;
    var p := FreePid(w.core.procs.Keys);
    var b := Beat(from, Pop(p, [q]));
    assert FirstReady(w.queues, [q]) == Some(q);
    assert PopSource(w, p, [q]) == Some(q);
    ExecStep(run, b);
    assert P.PcOf(Exec(run + [b]).core, p) == P.Popped(LastOf(list));
    assert LaneOf(Exec(run + [b]).queues, q).list == list[..|list|-1];
    if LastOf(list) == id {
      more := FromPopped(run + [b], p, from, id);
    } else {
      more := FromList(run + [b], q, from, id);
    }
    Prepend(run, b, more, from, id);
    more := [b] + more;
  }

  // ---------------------------------------------------------------------------
  // From a delayed set: once the clock reads the due second, a promotion large
  // enough moves the id to the list.

  lemma DuePromoted(l: Lane, now: int, id: Id)
    requires id in l.delayed && l.delayed[id] <= now
    ensures id in Promote(l, now, |DueIds(l.delayed, now)|).list
  {
    var n := |DueIds(l.delayed, now)|;
    var due := RangeByScore(l.delayed, now, n);
    RangeIsDue(l.delayed, now, n);
    AllTaken(due, DueIds(l.delayed, now), id);
    PromoteLeaves(l, now, n, id);
    PromoteConserves(l, now, n, id);
    CountIn(Promote(l, now, n).list, id);
  }

  /** As many distinct members as the set has are all of them. */
  lemma {:induction false} AllTaken(s: seq<Id>, all: set<Id>, id: Id)
    requires |s| == |all| && id in all
    requires forall i | 0 <= i < |s| :: s[i] in all
    requires forall i, j | 0 <= i < j < |s| :: s[i] != s[j]
    ensures id in s
    decreases |s|
  {
    if s != [] && s[0] != id {
      AllTaken(s[1..], all - {s[0]}, id);
    }
  }

  lemma FromDelayed(run: seq<Beat>, q: string, from: Time, id: Id) returns (more: seq<Beat>)
    requires Has(Exec(run).core.db, id, Pending) && id in LaneOf(Exec(run).queues, q).delayed
    ensures Finishes(run, more, from, id)
  {
    var l := LaneOf(Exec(run).queues, q);
    var due := l.delayed[id] * SECOND;
    var at := if from < due then due else from;
    assert l.delayed[id] <= Unix(at);
    var b := Beat(at, Promotion(q, at, |DueIds(l.delayed, Unix(at))|));
    ExecStep(run, b);
    DuePromoted(l, Unix(at), id);
    more := FromList(run + [b], q, at, id);
    Prepend(run, b, more, from, id);
    more := [b] + more;
  }

  // ---------------------------------------------------------------------------
  // From a hand.

  lemma FromPushing(run: seq<Beat>, p: P.Pid, from: Time, id: Id) returns (more: seq<Beat>)
    requires Has(Exec(run).core.db, id, Pending)
    requires P.PcOf(Exec(run).core, p).Pushing? && P.PcOf(Exec(run).core, p).id == id
    ensures Finishes(run, more, from, id)
  {
    var b, q := Go(from, p), P.PcOf(Exec(run).core, p).queue;
    ExecStep(run, b);
    assert LaneOf(Exec(run + [b]).queues, q).list[0] == id;
    more := FromList(run + [b], q, from, id);
    Prepend(run, b, more, from, id);
    more := [b] + more;
  }

  lemma FromAdding(run: seq<Beat>, p: P.Pid, from: Time, id: Id) returns (more: seq<Beat>)
    requires Has(Exec(run).core.db, id, Pending)
    requires P.PcOf(Exec(run).core, p).Adding? && P.PcOf(Exec(run).core, p).id == id
    ensures Finishes(run, more, from, id)
  {
    var b, q := Go(from, p), P.PcOf(Exec(run).core, p).queue;
    ExecStep(run, b);
    assert id in LaneOf(Exec(run + [b]).queues, q).delayed;
    more := FromDelayed(run + [b], q, from, id);
    Prepend(run, b, more, from, id);
    more := [b] + more;
  }

  lemma FromParking(run: seq<Beat>, p: P.Pid, from: Time, id: Id) returns (more: seq<Beat>)
    requires Has(Exec(run).core.db, id, Pending)
    requires P.PcOf(Exec(run).core, p).Parking? && P.PcOf(Exec(run).core, p).id == id
    ensures Finishes(run, more, from, id)
  {
    var b := Go(from, p);
    ExecStep(run, b);
    more := FromAdding(run + [b], p, from, id);
    Prepend(run, b, more, from, id);
    more := [b] + more;
  }

  lemma FromHand(run: seq<Beat>, p: P.Pid, from: Time, id: Id) returns (more: seq<Beat>)
    requires Has(Exec(run).core.db, id, Pending) && Hand(P.PcOf(Exec(run).core, p)) == Some(id)
    ensures Finishes(run, more, from, id)
  {
    var pc := P.PcOf(Exec(run).core, p);
    Reachable(run);
    assert P.PcOk(Exec(run).core.db, pc);
    if pc.Popped? {
      more := FromPopped(run, p, from, id);
    } else if pc.Pushing? {
      more := FromPushing(run, p, from, id);
    } else if pc.Adding? {
      more := FromAdding(run, p, from, id);
    } else {
      more := FromParking(run, p, from, id);
    }
  }

  // ---------------------------------------------------------------------------
  // Finding the carrier.

  lemma {:induction false} SumPositive<K(!new)>(m: map<K, nat>) returns (k: K)
    requires Sum(m) > 0
    ensures k in m && m[k] > 0
    decreases m.Keys
  {
    k :| k in m && Sum(m) == m[k] + Sum(m - {k});
    if m[k] == 0 {
      k := SumPositive(m - {k});
    }
  }

  lemma FromCarrier(run: seq<Beat>, from: Time, id: Id) returns (more: seq<Beat>)
    requires Has(Exec(run).core.db, id, Pending) && Carriers(Exec(run), id) > 0
    ensures Finishes(run, more, from, id)
  {
    var w := Exec(run);
    if Sum(HandCounts(w.core.procs, id)) > 0 {
      var p := SumPositive(HandCounts(w.core.procs, id));
      more := FromHand(run, p, from, id);
    } else {
      var q := SumPositive(LaneCounts(w.queues, id));
      CountIn(w.queues[q].list, id);
      if id in w.queues[q].list {
        more := FromList(run, q, from, id);
      } else {
        more := FromDelayed(run, q, from, id);
      }
    }
  }

  // ---------------------------------------------------------------------------
  // From the activity that claimed the job, and from the dead-letter table.

  /** An operator's retry, at any instant, puts a dead-lettered job back on its list. */
  lemma FromFailed(run: seq<Beat>, from: Time, id: Id) returns (more: seq<Beat>)
    requires Has(Exec(run).core.db, id, Failed)
    ensures Finishes(run, more, from, id)
  {
    var p := FreePid(Exec(run).core.procs.Keys);
    var b0 := Beat(from, Do(P.Start(p, P.Resetting(Exec(run).core.db.jobs[id].tenant, id))));
    var b1 := Go(from, p);
    ExecStep(run, b0);
    ExecStep(run + [b0], b1);
    more := FromPushing(run + [b0] + [b1], p, from, id);
    Prepend(run + [b0], b1, more, from, id);
    Prepend(run, b0, [b1] + more, from, id);
    more := [b0] + ([b1] + more);
  }

  lemma FromErrored(run: seq<Beat>, p: P.Pid, from: Time, id: Id) returns (more: seq<Beat>)
    requires P.PcOf(Exec(run).core, p).Errored? && P.PcOf(Exec(run).core, p).id == id
    ensures Finishes(run, more, from, id)
  {
    var b := Go(from, p);
    Reachable(run);
    ExecStep(run, b);
    assert P.PcOk(Exec(run).core.db, P.PcOf(Exec(run).core, p));
    assert RowOk(Exec(run).core.db.jobs[id]);
    if P.PcOf(Exec(run + [b]).core, p).Parking? {
      more := FromParking(run + [b], p, from, id);
    } else {
      more := FromFailed(run + [b], from, id);
    }
    Prepend(run, b, more, from, id);
    more := [b] + more;
  }

  lemma FromOwner(run: seq<Beat>, p: P.Pid, from: Time, id: Id) returns (more: seq<Beat>)
    requires P.Owned(P.PcOf(Exec(run).core, p)) == Some(id)
    ensures Finishes(run, more, from, id)
  {
    if P.PcOf(Exec(run).core, p).Running? {
      more := FromRunning(run, p, from, id);
    } else if P.PcOf(Exec(run).core, p).Succeeded? {
      more := FromSucceeded(run, p, from, id);
    } else {
      more := FromErrored(run, p, from, id);
    }
  }

  // ---------------------------------------------------------------------------
  // The carrier of a processing job is the activity that claimed it.

  ghost predicate CarriedByOwner(w: World, id: Id) {
    Has(w.core.db, id, Processing) && Carriers(w, id) == 1 ==> HasOwner(w.core, id)
  }

  /** A crash of the owner loses the carrier; a crash of anything else leaves the owner. */
  lemma CrashKeepsOrLoses(w: World, b: Beat, id: Id)
    requires Inv(w) && CarriedByOwner(w, id) && b.act.Do? && b.act.act.Crash?
    ensures CarriedByOwner(Step(w, b), id)
  {
    var p, w' := b.act.act.p, Step(w, b);
    CarriersBalance(w, b, id);
    AtMostOne(w, id);
    if Has(w'.core.db, id, Processing) && Carriers(w', id) == 1 {
      var o :| o in w.core.procs && P.Owned(w.core.procs[o]) == Some(id);
      assert o != p;
      assert o in w'.core.procs && w'.core.procs[o] == w.core.procs[o];
    }
  }

  lemma AtMostOne(w: World, id: Id)
    requires Inv(w)
    ensures Carriers(w, id) <= 1
  {
    assert Single(w, id);
  }

  /** Nothing is submitted or reset while it is processing. */
  lemma ProcessingGainsNothing(db: Db, db': Db, ev: P.Event, id: Id)
    requires P.MovesBy(db, db', ev, id) && Has(db, id, Processing)
    ensures Gained(ev, id) == 0
  {
  }

  lemma KeepsCarriedByOwner(w: World, b: Beat, id: Id)
    requires Inv(w) && CarriedByOwner(w, id)
    ensures CarriedByOwner(Step(w, b), id)
  {
    if b.act.Do? && b.act.act.Crash? {
      CrashKeepsOrLoses(w, b, id);
    } else if Has(Step(w, b).core.db, id, Processing) && Carriers(Step(w, b), id) == 1 {
      var t := CoreTick(w, b);
      P.StepMoves(w.core, t, id);
      CarriersBalance(w, b, id);
      AtMostOne(w, id);
      if Has(w.core.db, id, Processing) {
        ProcessingGainsNothing(w.core.db, Step(w, b).core.db, P.EventOf(w.core, t), id);
      }
      ProcessingKeepsOwner(w.core, t, id);
    }
  }

  lemma {:induction false} CarriedByOwnerAlways(run: seq<Beat>, id: Id)
    ensures CarriedByOwner(Exec(run), id)
  {
    if |run| > 0 {
      CarriedByOwnerAlways(run[..|run|-1], id);
      Reachable(run[..|run|-1]);
      KeepsCarriedByOwner(Exec(run[..|run|-1]), run[|run|-1], id);
    }
  }

  /** While a job is processing, "has a carrier" and "its claimant is still there" are the same. */
  lemma OwnedIffCarried(run: seq<Beat>, id: Id)
    requires Has(Exec(run).core.db, id, Processing)
    ensures HasOwner(Exec(run).core, id) <==> Carriers(Exec(run), id) == 1
    ensures P.Orphaned(Exec(run).core, id) <==> Carriers(Exec(run), id) == 0
  {
    AtMostOneCarrier(run, id);
    CarriedByOwnerAlways(run, id);
    var c := Exec(run).core;
    if HasOwner(c, id) {
      var p :| p in c.procs && P.Owned(c.procs[p]) == Some(id);
      assert P.Owned(P.PcOf(c, p)) == Some(id);
      OwnerCarries(Exec(run), p, id);
    } else {
      assert forall p :: P.Owned(P.PcOf(c, p)) != Some(id);
    }
  }

  // ---------------------------------------------------------------------------
  // The exact conditions.

  lemma {:induction false} OrphanForever(run: seq<Beat>, more: seq<Beat>, id: Id)
    requires P.Orphaned(Exec(run).core, id)
    ensures P.Orphaned(Exec(run + more).core, id)
  {
    if more == [] {
      assert run + more == run;
    } else {
      var mid, b := run + more[..|more|-1], more[|more|-1];
      OrphanForever(run, more[..|more|-1], id);
      assert mid + [b] == run + more;
      ExecStep(mid, b);
      Reachable(mid);
      P.OrphanStep(Exec(mid).core, CoreTick(Exec(mid), b), id);
    }
  }

  lemma ProcessingBefore(db: Db, db': Db, ev: P.Event, id: Id)
    requires P.MovesBy(db, db', ev, id) && Has(db', id, Completed)
    ensures Has(db, id, Completed) || Has(db, id, Processing)
  {
  }

  /** A pending job is completed only by way of processing. */
  lemma {:induction false} PassesThrough(run: seq<Beat>, more: seq<Beat>, id: Id) returns (part: seq<Beat>)
    requires Has(Exec(run).core.db, id, Pending) && Has(Exec(run + more).core.db, id, Completed)
    ensures Has(Exec(run + part).core.db, id, Processing)
  {
    assert run + [] == run;
    part := more[..|more|-1];
    var mid, b := run + part, more[|more|-1];
    assert mid + [b] == run + more;
    ExecStep(mid, b);
    Reachable(mid);
    var c, t := Exec(mid).core, CoreTick(Exec(mid), b);
    P.StepMoves(c, t, id);
    ProcessingBefore(c.db, P.Step(c, t).db, P.EventOf(c, t), id);
    if Has(c.db, id, Completed) {
      part := PassesThrough(run, part, id);
    }
  }

  /** A pending job can still run exactly when its id has a carrier. */
  lemma PendingRunsIffCarried(run: seq<Beat>, id: Id)
    requires Has(Exec(run).core.db, id, Pending)
    ensures (exists more :: Has(Exec(run + more).core.db, id, Processing)) <==> Carriers(Exec(run), id) == 1
  {
    AtMostOneCarrier(run, id);
    if Carriers(Exec(run), id) == 1 {
      var more := FromCarrier(run, 0, id);
      var part := PassesThrough(run, more, id);
    } else if more :| Has(Exec(run + more).core.db, id, Processing) {
      StrandedNeverRuns(run, more, id);
    }
  }

  /** A processing job can still leave that status exactly when its claimant is still there. */
  lemma ProcessingEndsIffCarried(run: seq<Beat>, id: Id)
    requires Has(Exec(run).core.db, id, Processing)
    ensures (exists more :: !Has(Exec(run + more).core.db, id, Processing)) <==> Carriers(Exec(run), id) == 1
  {
    AtMostOneCarrier(run, id);
    OwnedIffCarried(run, id);
    if Carriers(Exec(run), id) == 1 {
      var p :| p in Exec(run).core.procs && P.Owned(Exec(run).core.procs[p]) == Some(id);
      var more := FromOwner(run, p, 0, id);
      assert !Has(Exec(run + more).core.db, id, Processing);
    } else if more :| !Has(Exec(run + more).core.db, id, Processing) {
      OrphanForever(run, more, id);
    }
  }

  /** What a caller can look at: the row's status and, for an unfinished job, its carrier. */
  ghost predicate Recoverable(w: World, id: Id)
    requires id in w.core.db.jobs
  {
    match w.core.db.jobs[id].status
    case Completed => true
    case Failed => true
    case Cancelled => false
    case _ => Carriers(w, id) == 1
  }

  lemma FinishesIfRecoverable(run: seq<Beat>, from: Time, id: Id) returns (more: seq<Beat>)
    requires id in Exec(run).core.db.jobs && Recoverable(Exec(run), id)
    ensures Finishes(run, more, from, id)
  {
    match Exec(run).core.db.jobs[id].status
    case Completed =>
      more := [];
      assert run + more == run;
    case Failed => more := FromFailed(run, from, id);
    case Pending => more := FromCarrier(run, from, id);
    case Processing =>
      OwnedIffCarried(run, id);
      var p :| p in Exec(run).core.procs && P.Owned(Exec(run).core.procs[p]) == Some(id);
      more := FromOwner(run, p, from, id);
  }

  lemma NeverFinishesOtherwise(run: seq<Beat>, more: seq<Beat>, id: Id)
    requires id in Exec(run).core.db.jobs && !Recoverable(Exec(run), id)
    ensures !Has(Exec(run + more).core.db, id, Completed)
  {
    AtMostOneCarrier(run, id);
    if Has(Exec(run).core.db, id, Processing) {
      OwnedIffCarried(run, id);
      OrphanForever(run, more, id);
    } else if Has(Exec(run).core.db, id, Pending) {
      StrandedNeverRuns(run, more, id);
    } else {
      CancelledForever(run, more, id);
    }
  }

  lemma {:induction false} CancelledForever(run: seq<Beat>, more: seq<Beat>, id: Id)
    requires Has(Exec(run).core.db, id, Cancelled)
    ensures Has(Exec(run + more).core.db, id, Cancelled)
  {
    if more == [] {
      assert run + more == run;
    } else {
      var mid, b := run + more[..|more|-1], more[|more|-1];
      CancelledForever(run, more[..|more|-1], id);
      assert mid + [b] == run + more;
      ExecStep(mid, b);
      Reachable(mid);
      P.TerminalStep(Exec(mid).core, CoreTick(Exec(mid), b), id);
    }
  }

  /**
   The exact condition of "recoverable": from any reading of the clock, some
   ordinary continuation completes the job if and only if it is completed or
   dead-lettered already, or is unfinished and has its carrier. When the
   condition fails, no continuation of any kind completes it.
   */
  lemma FinishableIffRecoverable(run: seq<Beat>, from: Time, id: Id)
    requires id in Exec(run).core.db.jobs
    ensures (exists more :: Finishes(run, more, from, id)) <==> Recoverable(Exec(run), id)
    ensures (exists more :: Has(Exec(run + more).core.db, id, Completed)) <==> Recoverable(Exec(run), id)
  {
    if Recoverable(Exec(run), id) {
      var more := FinishesIfRecoverable(run, from, id);
      assert Has(Exec(run + more).core.db, id, Completed);
    } else {
      forall more ensures !Has(Exec(run + more).core.db, id, Completed) {
        NeverFinishesOtherwise(run, more, id);
      }
    }
  }

  // ---------------------------------------------------------------------------
  // Which jobs can still be cancelled.

  lemma CancelFromPending(run: seq<Beat>, from: Time, id: Id) returns (more: seq<Beat>)
    requires Has(Exec(run).core.db, id, Pending)
    ensures Reaches(run, more, from, id, Cancelled)
  {
    var p := FreePid(Exec(run).core.procs.Keys);
    var b0 := Beat(from, Do(P.Start(p, P.Cancelling(Exec(run).core.db.jobs[id].tenant, id))));
    ExecStep(run, b0);
    ExecStep(run + [b0], Go(from, p));
    more := [b0, Go(from, p)];
    assert run + more == run + [b0] + [Go(from, p)];
  }

  lemma CancelFromFailed(run: seq<Beat>, from: Time, id: Id) returns (more: seq<Beat>)
    requires Has(Exec(run).core.db, id, Failed)
    ensures Reaches(run, more, from, id, Cancelled)
  {
    var p := FreePid(Exec(run).core.procs.Keys);
    var b0 := Beat(from, Do(P.Start(p, P.Resetting(Exec(run).core.db.jobs[id].tenant, id))));
    var b1 := Go(from, p);
    ExecStep(run, b0);
    ExecStep(run + [b0], b1);
    more := CancelFromPending(run + [b0] + [b1], from, id);
    PrependTo(run + [b0], b1, more, from, id, Cancelled);
    PrependTo(run, b0, [b1] + more, from, id, Cancelled);
    more := [b0] + ([b1] + more);
  }

  lemma CancelFromErrored(run: seq<Beat>, p: P.Pid, from: Time, id: Id) returns (more: seq<Beat>)
    requires P.PcOf(Exec(run).core, p).Errored? && P.PcOf(Exec(run).core, p).id == id
    ensures Reaches(run, more, from, id, Cancelled)
  {
    var b := Go(from, p);
    Reachable(run);
    ExecStep(run, b);
    assert P.PcOk(Exec(run).core.db, P.PcOf(Exec(run).core, p));
    assert RowOk(Exec(run).core.db.jobs[id]);
    if Has(Exec(run + [b]).core.db, id, Pending) {
      more := CancelFromPending(run + [b], from, id);
    } else {
      more := CancelFromFailed(run + [b], from, id);
    }
    PrependTo(run, b, more, from, id, Cancelled);
    more := [b] + more;
  }

  lemma CancelFromRunning(run: seq<Beat>, p: P.Pid, from: Time, id: Id) returns (more: seq<Beat>)
    requires P.PcOf(Exec(run).core, p).Running? && P.PcOf(Exec(run).core, p).id == id
    ensures Reaches(run, more, from, id, Cancelled)
  {
    var b := Beat(from, Do(P.Advance(p, P.Raised(""))));
    ExecStep(run, b);
    more := CancelFromErrored(run + [b], p, from, id);
    PrependTo(run, b, more, from, id, Cancelled);
    more := [b] + more;
  }

  /** Completed, or processing with nobody left who might record a failure. */
  ghost predicate PastCancelling(c: P.Core, id: Id) {
    || Has(c.db, id, Completed)
    || (Has(c.db, id, Processing) && forall p :: P.Owned(P.PcOf(c, p)) == Some(id) ==> P.PcOf(c, p).Succeeded?)
  }

  lemma PastCancellingStep(c: P.Core, t: P.Tick, id: Id)
    requires P.Inv(c) && PastCancelling(c, id)
    ensures PastCancelling(P.Step(c, t), id)
  {
    var c', ev := P.Step(c, t), P.EventOf(c, t);
    P.StepMoves(c, t, id);
    if Has(c.db, id, Processing) {
      assert P.Owned(P.PcOf(c, t.act.p)) == Some(id) ==> P.PcOf(c, t.act.p).Succeeded?;
      P.WriterOwns(c, t, id);
      StillPast(c.db, c'.db, ev, id);
      if Has(c'.db, id, Processing) {
        forall p | P.Owned(P.PcOf(c', p)) == Some(id) ensures P.PcOf(c', p).Succeeded? {
          if p == t.act.p {
            P.OwnerWas(c, t, id);
          } else {
            P.StepElsewhere(c, t, p);
          }
        }
      }
    } else {
      P.TerminalStep(c, t, id);
    }
  }

  lemma StillPast(db: Db, db': Db, ev: P.Event, id: Id)
    requires P.MovesBy(db, db', ev, id) && Has(db, id, Processing)
    requires ev.Moved? && ev.id == id ==> ev.move.Complete?
    ensures Has(db', id, Processing) || Has(db', id, Completed)
  {
  }

  lemma {:induction false} PastCancellingForever(run: seq<Beat>, more: seq<Beat>, id: Id)
    requires PastCancelling(Exec(run).core, id)
    ensures PastCancelling(Exec(run + more).core, id)
  {
    if more == [] {
      assert run + more == run;
    } else {
      var mid, b := run + more[..|more|-1], more[|more|-1];
      PastCancellingForever(run, more[..|more|-1], id);
      assert mid + [b] == run + more;
      ExecStep(mid, b);
      Reachable(mid);
      PastCancellingStep(Exec(mid).core, CoreTick(Exec(mid), b), id);
    }
  }

  /**
   A job can still be brought to cancellation, by ordinary means, exactly when it
   is not completed and not held for processing by nobody or by an activity whose
   handler has already returned. In particular a pending job always can, stranded
   or not.
   */
  lemma CancellableIff(run: seq<Beat>, from: Time, id: Id)
    requires id in Exec(run).core.db.jobs
    ensures (exists more :: Reaches(run, more, from, id, Cancelled)) <==> !PastCancelling(Exec(run).core, id)
    ensures (exists more :: Has(Exec(run + more).core.db, id, Cancelled)) <==> !PastCancelling(Exec(run).core, id)
  {
    if PastCancelling(Exec(run).core, id) {
      forall more ensures !Has(Exec(run + more).core.db, id, Cancelled) {
        PastCancellingForever(run, more, id);
      }
    } else {
      var more := CancelSomehow(run, from, id);
      assert Has(Exec(run + more).core.db, id, Cancelled);
    }
  }

  lemma CancelSomehow(run: seq<Beat>, from: Time, id: Id) returns (more: seq<Beat>)
    requires id in Exec(run).core.db.jobs && !PastCancelling(Exec(run).core, id)
    ensures Reaches(run, more, from, id, Cancelled)
  {
    match Exec(run).core.db.jobs[id].status
    case Cancelled =>
      more := [];
      assert run + more == run;
    case Pending => more := CancelFromPending(run, from, id);
    case Failed => more := CancelFromFailed(run, from, id);
    case Processing =>
      var p :| P.Owned(P.PcOf(Exec(run).core, p)) == Some(id) && !P.PcOf(Exec(run).core, p).Succeeded?;
      if P.PcOf(Exec(run).core, p).Running? {
        more := CancelFromRunning(run, p, from, id);
      } else {
        more := CancelFromErrored(run, p, from, id);
      }
  }

  // ---------------------------------------------------------------------------
  // Both failures happen.

  /** Submission: start and insert. */
  lemma Inserted(d: Draft, at: Time) returns (run: seq<Beat>)
    requires P.Entry(P.Submitting(d)) && Int32(d.maxRetries)
    ensures |run| == 2
    ensures Exec(run).core == P.Core(Db(map[d.id := NewRow(d)], map[]), map[0 := P.Pushing(d.id, d.queue)])
    ensures Exec(run).queues == map[]
  {
    var start := Beat(at, Do(P.Start(0, P.Submitting(d))));
    ExecStep([], start);
    assert Exec([] + [start]).core == P.Core(Db(map[], map[]), map[0 := P.Submitting(d)]);
    ExecStep([] + [start], Go(at, 0));
    run := [] + [start] + [Go(at, 0)];
  }

  /** And push. */
  lemma Submitted(d: Draft, at: Time) returns (run: seq<Beat>)
    requires P.Entry(P.Submitting(d)) && Int32(d.maxRetries)
    ensures |run| == 3
    ensures Exec(run).core == P.Core(Db(map[d.id := NewRow(d)], map[]), map[0 := P.Idle])
    ensures Exec(run).queues == map[d.queue := Lane([d.id], map[])]
  {
    var before := Inserted(d, at);
    ExecStep(before, Go(at, 0));
    assert LPush(LaneOf(Exec(before).queues, d.queue), d.id) == Lane([d.id], map[]);
    run := before + [Go(at, 0)];
  }

  /** A crash between the insert and the push leaves a pending job without a carrier. */
  lemma CrashStrands(d: Draft, at: Time)
    requires P.Entry(P.Submitting(d)) && Int32(d.maxRetries)
    ensures exists run :: |run| == 3 && Has(Exec(run).core.db, d.id, Pending) && Carriers(Exec(run), d.id) == 0
  {
    var before := Inserted(d, at);
    var crash := Beat(at, Do(P.Crash(0)));
    ExecStep(before, crash);
    var w := Exec(before + [crash]);
    assert w.core.procs == map[0 := P.Idle];
    HandPut(map[], 0, P.Idle, d.id);
    assert HandCounts(map[], d.id) == map[] && LaneCounts(w.queues, d.id) == map[];
    assert |before + [crash]| == 3;
  }

  lemma PopOnly(w: World, id: Id, q: string, at: Time)
    requires w.core.procs == map[0 := P.Idle] && w.queues == map[q := Lane([id], map[])]
    ensures Step(w, Beat(at, Pop(0, [q]))).core == P.Core(w.core.db, map[0 := P.Popped(id)])
  {
    assert FirstReady(w.queues, [q]) == Some(q);
    assert PopSource(w, 0, [q]) == Some(q);
    assert LastOf(LaneOf(w.queues, q).list) == id;
    assert w.core.procs[0 := P.Popped(id)] == map[0 := P.Popped(id)];
  }

  lemma ClaimOnly(w: World, id: Id, at: Time)
    requires w.core.procs == map[0 := P.Popped(id)] && Has(w.core.db, id, Pending)
    ensures Has(Step(w, Go(at, 0)).core.db, id, Processing) && Step(w, Go(at, 0)).core.procs.Keys == {0}
  {
  }

  /** Delivery: pop, claim, and the crash. */
  lemma ClaimAndCrash(run: seq<Beat>, id: Id, q: string, at: Time) returns (more: seq<Beat>)
    requires Has(Exec(run).core.db, id, Pending) && Exec(run).core.procs == map[0 := P.Idle]
    requires Exec(run).queues == map[q := Lane([id], map[])]
    ensures |more| == 3 && Has(Exec(run + more).core.db, id, Processing)
    ensures Exec(run + more).core.procs == map[0 := P.Idle]
  {
    var pop, go, crash := Beat(at, Pop(0, [q])), Go(at, 0), Beat(at, Do(P.Crash(0)));
    ExecStep(run, pop);
    PopOnly(Exec(run), id, q, at);
    ExecStep(run + [pop], go);
    ClaimOnly(Exec(run + [pop]), id, at);
    ExecStep(run + [pop] + [go], crash);
    more := [pop, go, crash];
    assert run + more == run + [pop] + [go] + [crash];
  }

  /** Any submission whatever is orphaned by a crash of the worker that has claimed it. */
  lemma CrashOrphans(d: Draft, at: Time)
    requires P.Entry(P.Submitting(d)) && Int32(d.maxRetries)
    ensures exists run :: |run| == 6 && P.Orphaned(Exec(run).core, d.id) && Carriers(Exec(run), d.id) == 0
  {
    var run := Submitted(d, at);
    var more := ClaimAndCrash(run, d.id, d.queue, at);
    assert forall p :: P.PcOf(Exec(run + more).core, p).Idle?;
    OwnedIffCarried(run + more, d.id);
    assert |run + more| == 6;
  }
}
