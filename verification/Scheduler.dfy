/**
 The recurring scheduler: any number of scheduler processes, each with its own
 clock, scan the schedules, claim due runs by compare-and-swap on the stored
 cursor, and submit one job per won claim. Schedulers crash anywhere; operators
 add, switch and edit schedules at any time, but do not move cursors.

 The cron library is a parameter: `next(expr, t)` is None for an expression that
 does not parse and otherwise the next activation after t.
 */
module Scheduler {
  import opened Jobs
  import Enqueue

  type Pid = nat
  type Cron = (string, Time) -> Option<Time>

  datatype Schedule = Schedule(
    tenant: Tenant,
    jobType: string,
    payload: string,
    cron: string,
    enabled: bool,
    lastRunAt: Option<Time>,
    nextRunAt: Time)

  type Table = map<Id, Schedule>

  // ---------------------------------------------------------------------------
  // The two statements on job_schedules.

  predicate IsDue(s: Schedule, now: Time) {
    s.enabled && s.nextRunAt <= now
  }

  datatype Due = Due(id: Id, row: Schedule)

  /** Each schedule once, most overdue first. */
  ghost predicate InOrder(due: seq<Due>) {
    forall i, j | 0 <= i < j < |due| :: due[i].id != due[j].id && due[i].row.nextRunAt <= due[j].row.nextRunAt
  }

  lemma InOrderAppend(due: seq<Due>, d: Due)
    requires InOrder(due)
    requires forall i | 0 <= i < |due| :: due[i].id != d.id && due[i].row.nextRunAt <= d.row.nextRunAt
    ensures InOrder(due + [d])
  {
  }

  /** A result DueSchedules may return: the due rows, each once, most overdue first. */
  ghost predicate DueScan(tb: Table, now: Time, due: seq<Due>) {
    && (forall i | 0 <= i < |due| :: due[i].id in tb && due[i].row == tb[due[i].id] && IsDue(due[i].row, now))
    && InOrder(due)
    && (forall id | id in tb && IsDue(tb[id], now) :: exists i :: 0 <= i < |due| && due[i].id == id)
  }

  /** The guard of ClaimScheduleRun's UPDATE. */
  predicate Wins(tb: Table, id: Id, expected: Time) {
    id in tb && tb[id].enabled && tb[id].nextRunAt == expected
  }

  function ClaimRun(tb: Table, id: Id, expected: Time, lastRunAt: Time, nextRunAt: Time): Table {
    if Wins(tb, id, expected)
    then tb[id := tb[id].(lastRunAt := Some(lastRunAt), nextRunAt := nextRunAt)]
    else tb
  }

  /** The job a schedule fires, as the producer path completes it. */
  function FiredDraft(s: Schedule, job: Id): Draft {
    Enqueue.WithDefaults(Draft(NIL, s.tenant, "", s.jobType, s.payload, None, Enqueue.DEFAULT_MAX_RETRIES), job)
  }

  // ---------------------------------------------------------------------------
  // The machine.

  datatype Pc =
    | Resting
    | Firing(now: Time, due: seq<Due>, since: nat)
    | Owning(now: Time, run: Due, rest: seq<Due>, since: nat, claim: nat)

  datatype Event =
    | Claimed(sched: Id, cron: string, expected: Time, now: Time, next: Time)
    | Created(sched: Id, expected: Time, job: Id, claim: nat)

  /**
   The log is history: nothing reads it. `since` marks where it stood when a scan
   was made, and `claim` is the position of the claim that a submission belongs to.
   */
  datatype State = State(table: Table, db: Db, procs: map<Pid, Pc>, log: seq<Event>)

  datatype Action =
    | Scan(p: Pid, now: Time, due: seq<Due>)
    | Fire(p: Pid)
    | Submit(p: Pid, job: Id)
    | Crash(p: Pid)
    | Add(id: Id, row: Schedule)
    | Switch(id: Id, enabled: bool)
    | EditCron(id: Id, cron: string)

  function PcOf(s: State, p: Pid): Pc {
    if p in s.procs then s.procs[p] else Resting
  }

  function FireFirst(s: State, next: Cron, p: Pid, now: Time, due: seq<Due>, since: nat): State
    requires due != []
  {
    var d, rest := due[0], Firing(now, due[1..], since);
    var at := next(d.row.cron, now);
    if at.Some? && Wins(s.table, d.id, d.row.nextRunAt) then
      s.(table := ClaimRun(s.table, d.id, d.row.nextRunAt, now, at.value),
         procs := s.procs[p := Owning(now, d, due[1..], since, |s.log|)],
         log := s.log + [Claimed(d.id, d.row.cron, d.row.nextRunAt, now, at.value)])
    else s.(procs := s.procs[p := rest])
  }

  function SubmitOwned(s: State, p: Pid, pc: Pc, job: Id): State
    requires pc.Owning?
  {
    var d := FiredDraft(pc.run.row, job);
    var rest := Firing(pc.now, pc.rest, pc.since);
    if d.tenant != NIL && CanInsert(s.db, d) then
      s.(db := CreateJob(s.db, d),
         procs := s.procs[p := rest],
         log := s.log + [Created(pc.run.id, pc.run.row.nextRunAt, d.id, pc.claim)])
    else s.(procs := s.procs[p := rest])
  }

  ghost function Step(s: State, next: Cron, a: Action): State {
    match a
    case Scan(p, now, due) =>
      if PcOf(s, p).Resting? && DueScan(s.table, now, due)
      then s.(procs := s.procs[p := Firing(now, due, |s.log|)]) else s
    case Fire(p) =>
      var pc := PcOf(s, p);
      if pc.Firing? && pc.due != [] then FireFirst(s, next, p, pc.now, pc.due, pc.since)
      else if pc.Firing? then s.(procs := s.procs[p := Resting])
      else s
    case Submit(p, job) => if PcOf(s, p).Owning? then SubmitOwned(s, p, PcOf(s, p), job) else s
    case Crash(p) => s.(procs := s.procs[p := Resting])
    case Add(id, row) => if id in s.table then s else s.(table := s.table[id := row])
    case Switch(id, enabled) =>
      if id in s.table then s.(table := s.table[id := s.table[id].(enabled := enabled)]) else s
    case EditCron(id, cron) =>
      if id in s.table then s.(table := s.table[id := s.table[id].(cron := cron)]) else s
  }

  ghost function Exec(next: Cron, run: seq<Action>): State {
    if |run| == 0 then State(map[], Db(map[], map[]), map[], [])
    else Step(Exec(next, run[..|run|-1]), next, run[|run|-1])
  }

  // ---------------------------------------------------------------------------
  // The books: what holds whatever the cron library answers.

  /** The scanned rows a scheduler has still to deal with. */
  function Waiting(pc: Pc): seq<Due> {
    match pc
    case Resting => []
    case Firing(_, due, _) => due
    case Owning(_, _, rest, _, _) => rest
  }

  /** What a schedule fires does not change: its tenant and its job template. */
  predicate SameTemplate(a: Schedule, b: Schedule) {
    a.tenant == b.tenant && a.jobType == b.jobType && a.payload == b.payload
  }

  predicate Scanned(tb: Table, d: Due) {
    d.id in tb && SameTemplate(d.row, tb[d.id])
  }

  /** The row of a job made from a schedule's template. */
  predicate FromTemplate(row: Row, s: Schedule) {
    && row.tenant == s.tenant && row.jobType == s.jobType
    && row.payload == (if s.payload == "" then "{}" else s.payload)
    && row.queue == "default" && row.maxRetries == 3
    && row.status == Pending && row.retryCount == 0
    && row.result == None && row.error == None && row.startedAt == None && row.completedAt == None
  }

  ghost predicate PcOk(tb: Table, pc: Pc) {
    && (forall i | 0 <= i < |Waiting(pc)| :: Scanned(tb, Waiting(pc)[i]) && Waiting(pc)[i].row.nextRunAt <= pc.now)
    && (pc.Owning? ==> Scanned(tb, pc.run))
  }

  lemma FirstAndRest(tb: Table, pc: Pc)
    requires PcOk(tb, pc) && pc.Firing? && pc.due != []
    ensures Scanned(tb, pc.due[0]) && pc.due[0].row.nextRunAt <= pc.now
    ensures PcOk(tb, Firing(pc.now, pc.due[1..], pc.since))
  {
    assert Waiting(pc)[0] == pc.due[0];
    forall i | 0 <= i < |pc.due[1..]|
      ensures Scanned(tb, pc.due[1..][i]) && pc.due[1..][i].row.nextRunAt <= pc.now
    {
      assert pc.due[1..][i] == Waiting(pc)[i + 1];
    }
  }

  /** Log position `k` holds the claim of that schedule at that cursor. */
  predicate IsClaim(log: seq<Event>, k: nat, id: Id, expected: Time) {
    k < |log| && log[k].Claimed? && log[k].sched == id && log[k].expected == expected
  }

  ghost predicate ClaimsOk(s: State, next: Cron) {
    forall i | 0 <= i < |s.log| && s.log[i].Claimed? ::
      && s.log[i].sched in s.table
      && s.log[i].expected <= s.log[i].now
      && next(s.log[i].cron, s.log[i].now) == Some(s.log[i].next)
  }

  ghost predicate JobsOk(s: State) {
    forall i | 0 <= i < |s.log| && s.log[i].Created? ::
      && IsClaim(s.log, s.log[i].claim, s.log[i].sched, s.log[i].expected)
      && s.log[i].sched in s.table
      && s.log[i].job in s.db.jobs
      && FromTemplate(s.db.jobs[s.log[i].job], s.table[s.log[i].sched])
  }

  /** A claim is in one process's hands at most, or has its job, never both, and never two jobs. */
  ghost predicate TokensOk(log: seq<Event>, procs: map<Pid, Pc>) {
    && (forall p | p in procs && procs[p].Owning? ::
          IsClaim(log, procs[p].claim, procs[p].run.id, procs[p].run.row.nextRunAt))
    && (forall p, i | p in procs && procs[p].Owning? && 0 <= i < |log| && log[i].Created? ::
          log[i].claim != procs[p].claim)
    && (forall p, q | p in procs && q in procs && p != q && procs[p].Owning? && procs[q].Owning? ::
          procs[p].claim != procs[q].claim)
    && (forall i, j | 0 <= i < j < |log| && log[i].Created? && log[j].Created? :: log[i].claim != log[j].claim)
  }

  ghost predicate ProcsOk(tb: Table, procs: map<Pid, Pc>) {
    forall p | p in procs :: PcOk(tb, procs[p])
  }

  ghost predicate Books(s: State, next: Cron) {
    ProcsOk(s.table, s.procs) && ClaimsOk(s, next) && JobsOk(s) && TokensOk(s.log, s.procs)
  }

  /** Later tables keep every schedule and its template. */
  ghost predicate TemplatesKept(tb: Table, tb': Table) {
    forall id | id in tb :: id in tb' && SameTemplate(tb[id], tb'[id])
  }

  lemma TemplatesKeptPc(tb: Table, tb': Table, pc: Pc)
    requires PcOk(tb, pc) && TemplatesKept(tb, tb')
    ensures PcOk(tb', pc)
  {
  }

  lemma TableOnlyKeepsBooks(s: State, next: Cron, tb': Table)
    requires Books(s, next) && TemplatesKept(s.table, tb')
    ensures Books(s.(table := tb'), next)
  {
    forall p | p in s.procs ensures PcOk(tb', s.procs[p]) {
      TemplatesKeptPc(s.table, tb', s.procs[p]);
    }
  }

  lemma ProcOnlyKeepsBooks(s: State, next: Cron, p: Pid, pc: Pc)
    requires Books(s, next) && PcOk(s.table, pc) && !pc.Owning?
    ensures Books(s.(procs := s.procs[p := pc]), next)
  {
  }

  predicate Winning(s: State, next: Cron, p: Pid) {
    var pc := PcOf(s, p);
    pc.Firing? && pc.due != [] && next(pc.due[0].row.cron, pc.now).Some? && Wins(s.table, pc.due[0].id, pc.due[0].row.nextRunAt)
  }

  /** Appending a claim, with the process that won it at its own position. */
  lemma ClaimTokens(log: seq<Event>, procs: map<Pid, Pc>, p: Pid, pc: Pc, won: Event)
    requires TokensOk(log, procs) && pc.Owning? && pc.claim == |log|
    requires IsClaim(log + [won], |log|, pc.run.id, pc.run.row.nextRunAt)
    requires forall i | 0 <= i < |log| && log[i].Created? :: log[i].claim < |log|
    ensures TokensOk(log + [won], procs[p := pc])
  {
  }

  lemma WinKeepsBooks(s: State, next: Cron, p: Pid)
    requires Books(s, next) && Winning(s, next, p)
    ensures Books(Step(s, next, Fire(p)), next)
  {
    var s', pc := Step(s, next, Fire(p)), PcOf(s, p);
    var won := s'.log[|s.log|];
    FirstAndRest(s.table, pc);
    assert s'.log == s.log + [won];
    ClaimTokens(s.log, s.procs, p, s'.procs[p], won);
    forall q | q in s'.procs ensures PcOk(s'.table, s'.procs[q]) {
      TemplatesKeptPc(s.table, s'.table, if q == p then Firing(pc.now, pc.due[1..], pc.since) else s.procs[q]);
      assert q == p ==> Waiting(s'.procs[q]) == Waiting(Firing(pc.now, pc.due[1..], pc.since));
    }
  }

  /** Appending a job, by the process that gives up the claim. */
  lemma JobTokens(log: seq<Event>, procs: map<Pid, Pc>, p: Pid, pc: Pc, made: Event)
    requires TokensOk(log, procs) && p in procs && procs[p].Owning? && !pc.Owning?
    requires made.Created? && made.claim == procs[p].claim
    ensures TokensOk(log + [made], procs[p := pc])
  {
  }

  lemma JobAppended(s: State, next: Cron, p: Pid, job: Id)
    requires Books(s, next) && PcOf(s, p).Owning?
    requires var d := FiredDraft(PcOf(s, p).run.row, job); d.tenant != NIL && CanInsert(s.db, d)
    ensures JobsOk(Step(s, next, Submit(p, job)))
  {
    var s', pc := Step(s, next, Submit(p, job)), PcOf(s, p);
    assert s'.log == s.log + [s'.log[|s.log|]];
    assert PcOk(s.table, pc);
  }

  lemma SubmitKeepsBooks(s: State, next: Cron, p: Pid, job: Id)
    requires Books(s, next)
    ensures Books(Step(s, next, Submit(p, job)), next)
  {
    var s', pc := Step(s, next, Submit(p, job)), PcOf(s, p);
    if pc.Owning? {
      var rest := Firing(pc.now, pc.rest, pc.since);
      assert PcOk(s.table, pc);
      assert Waiting(rest) == Waiting(pc);
      if s'.log == s.log {
        ProcOnlyKeepsBooks(s, next, p, rest);
      } else {
        JobAppended(s, next, p, job);
        JobTokens(s.log, s.procs, p, rest, s'.log[|s.log|]);
      }
    }
  }

  /** The steps that neither win a claim nor submit a job: one process, or the table, changes. */
  ghost predicate Background(s: State, s': State) {
    || s' == s
    || (s' == s.(table := s'.table) && TemplatesKept(s.table, s'.table) && CursorsKept(s.table, s'.table))
    || exists p, pc :: s' == s.(procs := s.procs[p := pc]) && PcOk(s.table, pc) && !pc.Owning? && NewlyHeld(s, p, pc)
  }

  ghost predicate CursorsKept(tb: Table, tb': Table) {
    forall id | id in tb && id in tb' :: tb'[id].nextRunAt == tb[id].nextRunAt
  }

  /** What a process has still to deal with was so before, or was scanned this instant. */
  ghost predicate NewlyHeld(s: State, p: Pid, pc: Pc) {
    || (pc.Firing? && pc.since == |s.log|
        && forall i | 0 <= i < |pc.due| :: pc.due[i].id in s.table && pc.due[i].row == s.table[pc.due[i].id])
    || pc.Resting?
    || (pc.Firing? && PcOf(s, p).Firing? && pc.since == PcOf(s, p).since && PcOf(s, p).due != [] && pc.due == PcOf(s, p).due[1..])
  }

  lemma OperatorStep(s: State, next: Cron, a: Action)
    requires a.Add? || a.Switch? || a.EditCron?
    ensures var s' := Step(s, next, a);
            s' == s.(table := s'.table) && TemplatesKept(s.table, s'.table) && CursorsKept(s.table, s'.table)
  {
  }

  lemma OtherSteps(s: State, next: Cron, a: Action)
    requires Books(s, next) && !a.Submit? && !(a.Fire? && Winning(s, next, a.p))
    ensures Background(s, Step(s, next, a))
  {
    var s' := Step(s, next, a);
    match a
    case Scan(p, now, due) =>
      if PcOf(s, p).Resting? && DueScan(s.table, now, due) {
        assert Waiting(Firing(now, due, |s.log|)) == due;
        assert PcOk(s.table, Firing(now, due, |s.log|)) && NewlyHeld(s, p, Firing(now, due, |s.log|));
      }
    case Fire(p) =>
      var pc := PcOf(s, p);
      if pc.Firing? {
        if pc.due != [] { FirstAndRest(s.table, pc); }
        var pc' := if pc.due == [] then Resting else Firing(pc.now, pc.due[1..], pc.since);
        assert PcOk(s.table, pc') && NewlyHeld(s, p, pc');
      }
    case Crash(p) => assert PcOk(s.table, Resting) && NewlyHeld(s, p, Resting);
    case Submit(_, _) =>
    case Add(_, _) => OperatorStep(s, next, a);
    case Switch(_, _) => OperatorStep(s, next, a);
    case EditCron(_, _) => OperatorStep(s, next, a);
  }

  lemma BackgroundKeepsBooks(s: State, s': State, next: Cron)
    requires Books(s, next) && Background(s, s')
    ensures Books(s', next)
  {
    if s' == s {
    } else if p, pc :| s' == s.(procs := s.procs[p := pc]) && PcOk(s.table, pc) && !pc.Owning? && NewlyHeld(s, p, pc) {
      ProcOnlyKeepsBooks(s, next, p, pc);
    } else {
      TableOnlyKeepsBooks(s, next, s'.table);
    }
  }

  lemma StepKeepsBooks(s: State, next: Cron, a: Action)
    requires Books(s, next)
    ensures Books(Step(s, next, a), next)
  {
    if a.Submit? {
      SubmitKeepsBooks(s, next, a.p, a.job);
    } else if a.Fire? && Winning(s, next, a.p) {
      WinKeepsBooks(s, next, a.p);
    } else {
      OtherSteps(s, next, a);
      BackgroundKeepsBooks(s, Step(s, next, a), next);
    }
  }

  lemma {:induction false} BooksBalance(next: Cron, run: seq<Action>)
    ensures Books(Exec(next, run), next)
  {
    if |run| > 0 {
      BooksBalance(next, run[..|run|-1]);
      StepKeepsBooks(Exec(next, run[..|run|-1]), next, run[|run|-1]);
    }
  }

  /**
   Every job in the log was submitted for a claim that was won, its row is made
   from that schedule's template for its tenant, and no other job was submitted
   for that claim.
   */
  lemma AtMostOneJobPerClaim(next: Cron, run: seq<Action>, i: nat)
    requires i < |Exec(next, run).log| && Exec(next, run).log[i].Created?
    ensures var s := Exec(next, run);
            var e := s.log[i];
            && IsClaim(s.log, e.claim, e.sched, e.expected)
            && e.sched in s.table && e.job in s.db.jobs
            && FromTemplate(s.db.jobs[e.job], s.table[e.sched])
            && (forall j | 0 <= j < |s.log| && j != i && s.log[j].Created? :: s.log[j].claim != e.claim)
  {
    BooksBalance(next, run);
  }

  // ---------------------------------------------------------------------------
  // What a crash costs: at most once, not at least once.

  ghost predicate HasJob(log: seq<Event>, k: nat) {
    exists i :: 0 <= i < |log| && log[i].Created? && log[i].claim == k
  }

  ghost predicate Held(s: State, k: nat) {
    exists p :: p in s.procs && s.procs[p].Owning? && s.procs[p].claim == k && s.procs[p].run.row.tenant != NIL
  }

  /** Only a process that holds a claim can still give it a job. */
  lemma MissedStep(s: State, next: Cron, a: Action, k: nat)
    requires k < |s.log| && !HasJob(s.log, k) && !Held(s, k)
    ensures var s' := Step(s, next, a); k < |s'.log| && !HasJob(s'.log, k) && !Held(s', k)
  {
    var s' := Step(s, next, a);
    forall i | 0 <= i < |s'.log| && s'.log[i].Created? ensures s'.log[i].claim != k {
      if i == |s.log| {
        assert a.Submit? && PcOf(s, a.p) == s.procs[a.p];
      }
    }
  }

  lemma {:induction false} MissedForever(next: Cron, run: seq<Action>, more: seq<Action>, k: nat)
    requires k < |Exec(next, run).log| && !HasJob(Exec(next, run).log, k) && !Held(Exec(next, run), k)
    ensures k < |Exec(next, run + more).log| && !HasJob(Exec(next, run + more).log, k) && !Held(Exec(next, run + more), k)
  {
    if more == [] {
      assert run + more == run;
    } else {
      var n := |more| - 1;
      MissedForever(next, run, more[..n], k);
      assert run + more == run + more[..n] + [more[n]];
      ExecStep(next, run + more[..n], more[n]);
      MissedStep(Exec(next, run + more[..n]), next, more[n], k);
    }
  }

  lemma {:induction false} NewId(used: set<Id>) returns (id: Id)
    ensures id != NIL && id !in used && forall u | u in used :: u < id
    decreases used
  {
    id := 1;
    if used != {} {
      var u :| u in used;
      id := NewId(used - {u});
      id := if id <= u then u + 1 else id;
      forall v | v in used ensures v < id {
        if v != u { assert v in used - {u}; }
      }
    }
  }

  lemma HolderSubmits(next: Cron, run: seq<Action>, p: Pid) returns (more: seq<Action>)
    requires PcOf(Exec(next, run), p).Owning? && PcOf(Exec(next, run), p).run.row.tenant != NIL
    ensures HasJob(Exec(next, run + more).log, PcOf(Exec(next, run), p).claim)
  {
    var s := Exec(next, run);
    var job := NewId(s.db.jobs.Keys);
    more := [Submit(p, job)];
    ExecStep(next, run, Submit(p, job));
    assert Exec(next, run + more).log[|s.log|].Created?;
  }

  /**
   A won claim that has no job yet can still get one if and only if the process
   that won it still holds it, for a schedule with an owner. A crash between the
   claim and the submission misses that run for good.
   */
  lemma ClaimDeliversIffHeld(next: Cron, run: seq<Action>, k: nat)
    requires k < |Exec(next, run).log| && Exec(next, run).log[k].Claimed? && !HasJob(Exec(next, run).log, k)
    ensures (exists more :: HasJob(Exec(next, run + more).log, k)) <==> Held(Exec(next, run), k)
  {
    var s := Exec(next, run);
    if Held(s, k) {
      var p :| p in s.procs && s.procs[p].Owning? && s.procs[p].claim == k && s.procs[p].run.row.tenant != NIL;
      var more := HolderSubmits(next, run, p);
    } else {
      forall more ensures !HasJob(Exec(next, run + more).log, k) {
        MissedForever(next, run, more, k);
      }
    }
  }

  lemma CrashMissesTheRun(next: Cron, run: seq<Action>, p: Pid, more: seq<Action>)
    requires PcOf(Exec(next, run), p).Owning?
    ensures !HasJob(Exec(next, run + [Crash(p)] + more).log, PcOf(Exec(next, run), p).claim)
  {
    var s, k := Exec(next, run), PcOf(Exec(next, run), p).claim;
    BooksBalance(next, run);
    ExecStep(next, run, Crash(p));
    var s' := Exec(next, run + [Crash(p)]);
    forall q | q in s'.procs && s'.procs[q].Owning? ensures s'.procs[q].claim != k {
      assert q in s.procs && s.procs[q] == s'.procs[q];
    }
    MissedForever(next, run + [Crash(p)], more, k);
  }

  // ---------------------------------------------------------------------------
  // What operators can rely on.

  ghost predicate OffAndUnclaimed(s: State, id: Id, since: nat) {
    && id in s.table && !s.table[id].enabled && since <= |s.log|
    && (forall i | since <= i < |s.log| :: !(s.log[i].Claimed? && s.log[i].sched == id))
  }

  lemma OffStep(s: State, next: Cron, a: Action, id: Id, since: nat)
    requires OffAndUnclaimed(s, id, since) && !(a.Switch? && a.id == id && a.enabled)
    ensures OffAndUnclaimed(Step(s, next, a), id, since)
  {
  }

  /** Once a schedule is switched off nobody claims it, scans made before included, until it is switched on. */
  lemma {:induction false} OffMeansOff(next: Cron, run: seq<Action>, id: Id, more: seq<Action>)
    requires id in Exec(next, run).table
    requires forall i | 0 <= i < |more| :: !(more[i].Switch? && more[i].id == id && more[i].enabled)
    ensures OffAndUnclaimed(Exec(next, run + [Switch(id, false)] + more), id, |Exec(next, run).log|)
  {
    var off := run + [Switch(id, false)];
    ExecStep(next, run, Switch(id, false));
    if more == [] {
      assert off + more == off;
    } else {
      var n := |more| - 1;
      OffMeansOff(next, run, id, more[..n]);
      assert off + more == off + more[..n] + [more[n]];
      ExecStep(next, off + more[..n], more[n]);
      OffStep(Exec(next, off + more[..n]), next, more[n], id, |Exec(next, run).log|);
    }
  }

  lemma CronStays(s: State, next: Cron, a: Action, id: Id)
    requires id in s.table && !(a.EditCron? && a.id == id)
    ensures id in Step(s, next, a).table && Step(s, next, a).table[id].cron == s.table[id].cron
  {
  }

  /** An edited expression is what every later scan sees, until the next edit. */
  lemma {:induction false} EditTakesEffect(next: Cron, run: seq<Action>, id: Id, cron: string, more: seq<Action>)
    requires id in Exec(next, run).table
    requires forall i | 0 <= i < |more| :: !(more[i].EditCron? && more[i].id == id)
    ensures id in Exec(next, run + [EditCron(id, cron)] + more).table
    ensures Exec(next, run + [EditCron(id, cron)] + more).table[id].cron == cron
  {
    var edited := run + [EditCron(id, cron)];
    ExecStep(next, run, EditCron(id, cron));
    if more == [] {
      assert edited + more == edited;
    } else {
      var n := |more| - 1;
      EditTakesEffect(next, run, id, cron, more[..n]);
      assert edited + more == edited + more[..n] + [more[n]];
      ExecStep(next, edited + more[..n], more[n]);
      CronStays(Exec(next, edited + more[..n]), next, more[n], id);
    }
  }

  // ---------------------------------------------------------------------------
  // The cursor of one schedule.

  /** Every claim of the schedule moved it past the claimer's clock. */
  ghost predicate Forward(log: seq<Event>, id: Id) {
    forall i | 0 <= i < |log| && log[i].Claimed? && log[i].sched == id :: log[i].now < log[i].next
  }

  /** Some claim of the schedule was won from log position `since` on. */
  ghost predicate ClaimedSince(log: seq<Event>, since: nat, id: Id) {
    exists i :: since <= i < |log| && log[i].Claimed? && log[i].sched == id
  }

  /** A scanned row is no newer than the table's, and older if the schedule was claimed since. */
  ghost predicate CursorPc(s: State, pc: Pc, id: Id) {
    forall i | 0 <= i < |Waiting(pc)| && Waiting(pc)[i].id == id ::
      && id in s.table
      && Waiting(pc)[i].row.nextRunAt <= s.table[id].nextRunAt
      && (ClaimedSince(s.log, pc.since, id) ==> Waiting(pc)[i].row.nextRunAt < s.table[id].nextRunAt)
  }

  lemma CursorFirstAndRest(s: State, pc: Pc, id: Id)
    requires CursorPc(s, pc, id) && pc.Firing? && pc.due != []
    ensures CursorPc(s, Firing(pc.now, pc.due[1..], pc.since), id)
    ensures pc.due[0].id == id && ClaimedSince(s.log, pc.since, id) ==>
              id in s.table && pc.due[0].row.nextRunAt < s.table[id].nextRunAt
  {
    assert Waiting(pc)[0] == pc.due[0];
    var rest := Firing(pc.now, pc.due[1..], pc.since);
    forall i | 0 <= i < |Waiting(rest)| && Waiting(rest)[i].id == id
      ensures id in s.table && Waiting(rest)[i].row.nextRunAt <= s.table[id].nextRunAt
      ensures ClaimedSince(s.log, pc.since, id) ==> Waiting(rest)[i].row.nextRunAt < s.table[id].nextRunAt
    {
      assert Waiting(rest)[i] == Waiting(pc)[i + 1];
    }
  }

  /** Only what waits, and since when, matters. */
  lemma SameWaiting(s: State, pc: Pc, pc': Pc, id: Id)
    requires CursorPc(s, pc, id) && !pc.Resting? && !pc'.Resting?
    requires Waiting(pc) == Waiting(pc') && pc.since == pc'.since
    ensures CursorPc(s, pc', id)
  {
    assert forall i | 0 <= i < |Waiting(pc')| :: Waiting(pc')[i] == Waiting(pc)[i];
  }

  /** Each claim started where, or after, the one before it ended. */
  ghost predicate CursorLog(s: State, id: Id) {
    && (forall i | 0 <= i < |s.log| && s.log[i].Claimed? && s.log[i].sched == id ::
          id in s.table && s.log[i].next <= s.table[id].nextRunAt)
    && (forall i, j | 0 <= i < j < |s.log| && s.log[i].Claimed? && s.log[j].Claimed? && s.log[i].sched == id && s.log[j].sched == id ::
          s.log[i].next <= s.log[j].expected)
  }

  ghost predicate Cursor(s: State, id: Id) {
    CursorLog(s, id) && forall p | p in s.procs :: CursorPc(s, s.procs[p], id)
  }

  /** A step that wins no claim of the schedule and does not touch its cursor. */
  ghost predicate Foreign(s: State, s': State, id: Id) {
    && (id in s.table ==> id in s'.table && s'.table[id].nextRunAt == s.table[id].nextRunAt)
    && s.log <= s'.log
    && (forall i | |s.log| <= i < |s'.log| :: !(s'.log[i].Claimed? && s'.log[i].sched == id))
  }

  lemma ForeignKeepsPc(s: State, s': State, pc: Pc, id: Id)
    requires CursorPc(s, pc, id) && Foreign(s, s', id)
    ensures CursorPc(s', pc, id)
  {
  }

  lemma ForeignKeepsCursor(s: State, s': State, p: Pid, id: Id)
    requires Cursor(s, id) && Foreign(s, s', id)
    requires s'.procs == s.procs || (s'.procs == s.procs[p := PcOf(s', p)] && CursorPc(s, PcOf(s', p), id))
    ensures Cursor(s', id)
  {
    forall q | q in s'.procs ensures CursorPc(s', s'.procs[q], id) {
      ForeignKeepsPc(s, s', s'.procs[q], id);
    }
  }

  lemma HeldKeepsCursor(s: State, p: Pid, pc: Pc, id: Id)
    requires Cursor(s, id) && NewlyHeld(s, p, pc)
    ensures CursorPc(s, pc, id)
  {
    var was := PcOf(s, p);
    if was.Firing? && was.due != [] {
      CursorFirstAndRest(s, was, id);
      if pc.Firing? && pc.since == was.since && pc.due == was.due[1..] {
        SameWaiting(s, Firing(was.now, was.due[1..], was.since), pc, id);
      }
    }
  }

  lemma BackgroundKeepsCursor(s: State, s': State, id: Id)
    requires Cursor(s, id) && Background(s, s')
    ensures Cursor(s', id)
  {
    if s' == s {
    } else if p, pc :| s' == s.(procs := s.procs[p := pc]) && PcOk(s.table, pc) && !pc.Owning? && NewlyHeld(s, p, pc) {
      HeldKeepsCursor(s, p, pc, id);
      ForeignKeepsCursor(s, s', p, id);
    } else {
      ForeignKeepsCursor(s, s', 0, id);
    }
  }

  lemma SubmitKeepsCursor(s: State, next: Cron, p: Pid, job: Id, id: Id)
    requires Cursor(s, id)
    ensures Cursor(Step(s, next, Submit(p, job)), id)
  {
    if PcOf(s, p).Owning? {
      SameWaiting(s, s.procs[p], Firing(PcOf(s, p).now, PcOf(s, p).rest, PcOf(s, p).since), id);
      ForeignKeepsCursor(s, Step(s, next, Submit(p, job)), p, id);
    }
  }

  /** A claim of this very schedule moves its cursor strictly forward. */
  lemma OwnWinKeepsPc(s: State, s': State, won: Event, pc: Pc, id: Id)
    requires CursorPc(s, pc, id) && won.Claimed? && won.sched == id
    requires s'.log == s.log + [won]
    requires id in s.table && id in s'.table && s.table[id].nextRunAt < s'.table[id].nextRunAt
    ensures CursorPc(s', pc, id)
  {
  }

  lemma WinKeepsCursor(s: State, next: Cron, p: Pid, id: Id)
    requires Books(s, next) && Cursor(s, id) && Winning(s, next, p)
    requires Forward(Step(s, next, Fire(p)).log, id)
    ensures Cursor(Step(s, next, Fire(p)), id)
  {
    var s', pc := Step(s, next, Fire(p)), PcOf(s, p);
    var won := s'.log[|s.log|];
    FirstAndRest(s.table, pc);
    CursorFirstAndRest(s, pc, id);
    assert s'.log == s.log + [won];
    SameWaiting(s, Firing(pc.now, pc.due[1..], pc.since), s'.procs[p], id);
    if pc.due[0].id == id {
      assert pc.due[0].row.nextRunAt <= pc.now < won.next;
      forall q | q in s'.procs ensures CursorPc(s', s'.procs[q], id) {
        OwnWinKeepsPc(s, s', won, s'.procs[q], id);
      }
    } else {
      ForeignKeepsCursor(s, s', p, id);
    }
  }

  lemma LogGrows(s: State, next: Cron, a: Action)
    ensures s.log <= Step(s, next, a).log
  {
  }

  /** In every run in which one schedule's claims all move forward, its cursor invariant holds. */
  lemma {:induction false} Reachable(next: Cron, run: seq<Action>, id: Id)
    requires Forward(Exec(next, run).log, id)
    ensures Cursor(Exec(next, run), id)
  {
    if |run| > 0 {
      var before, a := Exec(next, run[..|run|-1]), run[|run|-1];
      LogGrows(before, next, a);
      assert Forward(before.log, id);
      Reachable(next, run[..|run|-1], id);
      BooksBalance(next, run[..|run|-1]);
      if a.Submit? {
        SubmitKeepsCursor(before, next, a.p, a.job, id);
      } else if a.Fire? && Winning(before, next, a.p) {
        WinKeepsCursor(before, next, a.p, id);
      } else {
        OtherSteps(before, next, a);
        BackgroundKeepsCursor(before, Exec(next, run), id);
      }
    }
  }

  /**
   Of two won claims of a schedule the later starts where, or after, the earlier
   ended: no cursor value is claimed twice. Nothing is asked of the cron library,
   nor of any other schedule.
   */
  lemma CursorStrictlyIncreases(next: Cron, run: seq<Action>, id: Id, i: nat, j: nat)
    requires Forward(Exec(next, run).log, id)
    requires var log := Exec(next, run).log;
             i < j < |log| && log[i].Claimed? && log[j].Claimed? && log[i].sched == id && log[j].sched == id
    ensures var log := Exec(next, run).log;
            log[i].expected < log[i].next <= log[j].expected < log[j].next
  {
    Reachable(next, run, id);
    BooksBalance(next, run);
  }

  /** The compare-and-swap has no ABA: a scheduler wins only if nobody claimed the schedule since its scan. */
  lemma NoAba(next: Cron, run: seq<Action>, p: Pid)
    requires PcOf(Exec(next, run), p).Firing? && PcOf(Exec(next, run), p).due != []
    requires Forward(Exec(next, run).log, PcOf(Exec(next, run), p).due[0].id)
    requires var pc := PcOf(Exec(next, run), p);
             ClaimedSince(Exec(next, run).log, pc.since, pc.due[0].id)
    ensures var pc := PcOf(Exec(next, run), p);
            !Wins(Exec(next, run).table, pc.due[0].id, pc.due[0].row.nextRunAt)
  {
    var s := Exec(next, run);
    var pc := PcOf(s, p);
    Reachable(next, run, pc.due[0].id);
    CursorFirstAndRest(s, pc, pc.due[0].id);
  }

  /** Hence at most one job per cursor value of a schedule. */
  lemma AtMostOneJobPerCursor(next: Cron, run: seq<Action>, id: Id, i: nat, j: nat)
    requires Forward(Exec(next, run).log, id)
    requires var log := Exec(next, run).log;
             i < j < |log| && log[i].Created? && log[j].Created? && log[i].sched == id && log[j].sched == id
    ensures Exec(next, run).log[i].expected != Exec(next, run).log[j].expected
  {
    var log := Exec(next, run).log;
    AtMostOneJobPerClaim(next, run, i);
    AtMostOneJobPerClaim(next, run, j);
    var a, b := log[i].claim, log[j].claim;
    if a < b {
      CursorStrictlyIncreases(next, run, id, a, b);
    } else {
      CursorStrictlyIncreases(next, run, id, b, a);
    }
  }

  // ---------------------------------------------------------------------------
  // Which expressions fire at most once.

  /** All claims of the schedule were made with one expression. */
  ghost predicate OnlyUses(log: seq<Event>, id: Id, expr: string) {
    forall k | 0 <= k < |log| && log[k].Claimed? && log[k].sched == id :: log[k].cron == expr
  }

  /** The library answers with an instant in the future, whenever it is asked about this expression. */
  ghost predicate AdvancesOn(next: Cron, expr: string) {
    forall t :: next(expr, t).Some? ==> next(expr, t).value > t
  }

  lemma AdvancingIsForward(next: Cron, run: seq<Action>, id: Id, expr: string)
    requires AdvancesOn(next, expr) && OnlyUses(Exec(next, run).log, id, expr)
    ensures Forward(Exec(next, run).log, id)
  {
    BooksBalance(next, run);
    var log := Exec(next, run).log;
    forall i | 0 <= i < |log| && log[i].Claimed? && log[i].sched == id ensures log[i].now < log[i].next {
      assert next(log[i].cron, log[i].now) == Some(log[i].next);
    }
  }

  ghost predicate ClaimedTwice(log: seq<Event>, id: Id, i: nat, j: nat) {
    i < j < |log| && log[i].Claimed? && log[j].Claimed? && log[i].sched == id && log[j].sched == id
    && log[i].expected == log[j].expected
  }

  /** No run claims one cursor value twice for a schedule that carries this expression. */
  ghost predicate NeverClaimsTwice(next: Cron, expr: string) {
    forall run, id, i, j | OnlyUses(Exec(next, run).log, id, expr) :: !ClaimedTwice(Exec(next, run).log, id, i, j)
  }

  /** The run that fires twice when the library answers with an instant that is not in the future. */
  function StuckRun(expr: string, t: Time, v: Time): seq<Action> {
    var row := Schedule(1, "echo", "{}", expr, true, None, v);
    [Add(7, row), Scan(1, t, [Due(7, row)]), Fire(1), Scan(2, t, [Due(7, row.(lastRunAt := Some(t)))]), Fire(2)]
  }

  /** One scan and one claim of a schedule that is alone in the table. */
  lemma ScanAndFire(s: State, next: Cron, p: Pid, t: Time, row: Schedule)
    requires s.table == map[7 := row] && p !in s.procs && IsDue(row, t) && next(row.cron, t).Some?
    ensures var s' := Step(Step(s, next, Scan(p, t, [Due(7, row)])), next, Fire(p));
            var at := next(row.cron, t).value;
            && s'.table == map[7 := row.(lastRunAt := Some(t), nextRunAt := at)]
            && s'.procs.Keys == s.procs.Keys + {p}
            && s'.log == s.log + [Claimed(7, row.cron, row.nextRunAt, t, at)]
  {
    assert DueScan(s.table, t, [Due(7, row)]) by { assert [Due(7, row)][0].id == 7; }
    var s1 := Step(s, next, Scan(p, t, [Due(7, row)]));
    assert s1.procs[p] == Firing(t, [Due(7, row)], |s.log|);
  }

  lemma StuckRunClaimsTwice(next: Cron, expr: string, t: Time, v: Time)
    requires next(expr, t) == Some(v) && v <= t
    ensures var log := Exec(next, StuckRun(expr, t, v)).log;
            |log| == 2 && log[0] == log[1] && log[0] == Claimed(7, expr, v, t, v)
  {
    var run := StuckRun(expr, t, v);
    var row := run[0].row;
    ExecFive(next, run);
    var s1 := Step(State(map[], Db(map[], map[]), map[], []), next, run[0]);
    ScanAndFire(s1, next, 1, t, row);
    var s3 := Step(Step(s1, next, run[1]), next, run[2]);
    ScanAndFire(s3, next, 2, t, row.(lastRunAt := Some(t)));
  }

  lemma ExecFive(next: Cron, run: seq<Action>)
    requires |run| == 5
    ensures var s0 := State(map[], Db(map[], map[]), map[], []);
            Exec(next, run)
            == Step(Step(Step(Step(Step(s0, next, run[0]), next, run[1]), next, run[2]), next, run[3]), next, run[4])
  {
    ExecStep(next, [], run[0]);
    ExecStep(next, run[..1], run[1]);
    ExecStep(next, run[..2], run[2]);
    ExecStep(next, run[..3], run[3]);
    ExecStep(next, run[..4], run[4]);
    assert [] + [run[0]] == run[..1] && run[..1] + [run[1]] == run[..2] && run[..2] + [run[2]] == run[..3];
    assert run[..3] + [run[3]] == run[..4] && run[..4] + [run[4]] == run;
  }

  lemma ExecStep(next: Cron, run: seq<Action>, a: Action)
    ensures Exec(next, run + [a]) == Step(Exec(next, run), next, a)
  {
  }

  /** An expression fires at most once per cursor value, in every run, exactly when its activations are always in the future. */
  lemma AtMostOnceIffAdvances(next: Cron, expr: string)
    ensures NeverClaimsTwice(next, expr) <==> AdvancesOn(next, expr)
  {
    if AdvancesOn(next, expr) {
      forall run, id, i, j | OnlyUses(Exec(next, run).log, id, expr)
        ensures !ClaimedTwice(Exec(next, run).log, id, i, j)
      {
        AdvancingIsForward(next, run, id, expr);
        if ClaimedTwice(Exec(next, run).log, id, i, j) {
          CursorStrictlyIncreases(next, run, id, i, j);
        }
      }
    } else {
      var t :| next(expr, t).Some? && !(next(expr, t).value > t);
      StuckRunClaimsTwice(next, expr, t, next(expr, t).value);
      var log := Exec(next, StuckRun(expr, t, next(expr, t).value)).log;
      assert OnlyUses(log, 7, expr) && ClaimedTwice(log, 7, 0, 1);
    }
  }

  // ---------------------------------------------------------------------------
  // Catch-up: missed activations collapse.

  /** The claims of one schedule, in the order they were won. */
  function ClaimsOf(log: seq<Event>, id: Id): (c: seq<Event>)
    ensures forall k | 0 <= k < |c| :: c[k] in log && c[k].Claimed? && c[k].sched == id
  {
    if |log| == 0 then []
    else
      var e := log[|log|-1];
      ClaimsOf(log[..|log|-1], id) + (if e.Claimed? && e.sched == id then [e] else [])
  }

  /** How many of them were made at a time in (a, b]. */
  function CountIn(claims: seq<Event>, a: Time, b: Time): nat
    requires forall k | 0 <= k < |claims| :: claims[k].Claimed?
  {
    if |claims| == 0 then 0
    else
      var e := claims[|claims|-1];
      CountIn(claims[..|claims|-1], a, b) + (if a < e.now <= b then 1 else 0)
  }

  /** Between two claims of a schedule lies the activation the first one waits for. */
  ghost predicate Chained(claims: seq<Event>) {
    && (forall k | 0 <= k < |claims| :: claims[k].Claimed? && claims[k].now < claims[k].next)
    && (forall k, l | 0 <= k < l < |claims| :: claims[k].next <= claims[l].now)
  }

  lemma ChainedAppend(claims: seq<Event>, e: Event)
    requires Chained(claims) && e.Claimed? && e.now < e.next
    requires forall k | 0 <= k < |claims| :: claims[k].next <= e.now
    ensures Chained(claims + [e])
  {
  }

  /** What the chain needs of a log. */
  ghost predicate Ordered(log: seq<Event>, id: Id) {
    && Forward(log, id)
    && (forall i, j | 0 <= i < j < |log| && log[i].Claimed? && log[j].Claimed? && log[i].sched == id && log[j].sched == id ::
          log[i].next <= log[j].now)
  }

  lemma EarlierClaim(log: seq<Event>, n: nat, id: Id, e: Event)
    requires Ordered(log, id) && n < |log| && log[n].Claimed? && log[n].sched == id
    requires e in log[..n] && e.Claimed? && e.sched == id
    ensures e.next <= log[n].now
  {
    var i :| 0 <= i < n && log[i] == e;
  }

  lemma {:induction false} ClaimsChained(log: seq<Event>, n: nat, id: Id)
    requires Ordered(log, id) && n <= |log|
    ensures Chained(ClaimsOf(log[..n], id))
  {
    if n > 0 {
      ClaimsChained(log, n - 1, id);
      var c, e := ClaimsOf(log[..n-1], id), log[n-1];
      assert log[..n][..n-1] == log[..n-1];
      if e.Claimed? && e.sched == id {
        forall k | 0 <= k < |c| ensures c[k].next <= e.now {
          EarlierClaim(log, n - 1, id, c[k]);
        }
        ChainedAppend(c, e);
      }
    }
  }

  /** `g` is the activation some claim made in the window waits for. */
  ghost predicate AwaitedIn(claims: seq<Event>, a: Time, b: Time, g: Time) {
    exists k :: 0 <= k < |claims| && claims[k].Claimed? && claims[k].next == g && a < claims[k].now <= b
  }

  lemma AwaitedExtends(claims: seq<Event>, n: nat, a: Time, b: Time, g: Time)
    requires Chained(claims) && n == |claims| - 1 && AwaitedIn(claims[..n], a, b, g)
    ensures AwaitedIn(claims, a, b, g)
    ensures a < g <= claims[n].now < claims[n].next
  {
  }

  /** The activations that the claims in a window wait for are as many as those claims: all different. */
  lemma {:induction false} WindowActivations(claims: seq<Event>, a: Time, b: Time) returns (sep: set<Time>)
    requires Chained(claims)
    ensures |sep| == CountIn(claims, a, b)
    ensures forall g | g in sep :: AwaitedIn(claims, a, b, g)
  {
    sep := {};
    if |claims| > 0 {
      var n := |claims| - 1;
      var before := WindowActivations(claims[..n], a, b);
      forall g | g in before ensures AwaitedIn(claims, a, b, g) && g != claims[n].next {
        AwaitedExtends(claims, n, a, b, g);
      }
      sep := before;
      if a < claims[n].now <= b {
        sep := before + {claims[n].next};
      }
    }
  }

  lemma {:induction false} CountBound(claims: seq<Event>, a: Time, b: Time, activations: set<Time>)
    requires Chained(claims)
    requires forall k | 0 <= k < |claims| && a < claims[k].next <= b :: claims[k].next in activations
    ensures CountIn(claims, a, b) <= 1 + |activations|
  {
    if |claims| > 0 {
      var n := |claims| - 1;
      if a < claims[n].now <= b {
        var sep := WindowActivations(claims[..n], a, b);
        forall g | g in sep ensures g in activations {
          AwaitedExtends(claims, n, a, b, g);
          var k :| 0 <= k < |claims| && claims[k].Claimed? && claims[k].next == g && a < claims[k].now <= b;
        }
        Subset(sep, activations);
      } else {
        CountBound(claims[..n], a, b, activations);
      }
    }
  }

  lemma Subset(x: set<Time>, y: set<Time>)
    requires x <= y
    ensures |x| <= |y|
  {
    assert y == x + (y - x);
  }

  lemma ForwardIsOrdered(next: Cron, run: seq<Action>, id: Id)
    requires Forward(Exec(next, run).log, id)
    ensures Ordered(Exec(next, run).log, id)
  {
    Reachable(next, run, id);
    BooksBalance(next, run);
  }

  /**
   However many activations pass unserved, and however many schedulers there are:
   the claims a schedule wins in a window are at most one more than the
   activations that the expressions it was claimed with have in that window.
   */
  lemma CatchUpCollapses(next: Cron, run: seq<Action>, id: Id, a: Time, b: Time, activations: set<Time>)
    requires Forward(Exec(next, run).log, id)
    requires forall k, t | 0 <= k < |ClaimsOf(Exec(next, run).log, id)| ::
               var at := next(ClaimsOf(Exec(next, run).log, id)[k].cron, t);
               at.Some? && a < at.value <= b ==> at.value in activations
    ensures CountIn(ClaimsOf(Exec(next, run).log, id), a, b) <= 1 + |activations|
  {
    var log := Exec(next, run).log;
    var claims := ClaimsOf(log, id);
    BooksBalance(next, run);
    ForwardIsOrdered(next, run, id);
    ClaimsChained(log, |log|, id);
    assert log[..|log|] == log;
    forall k | 0 <= k < |claims| && a < claims[k].next <= b ensures claims[k].next in activations {
      var i :| 0 <= i < |log| && log[i] == claims[k];
      assert next(claims[k].cron, claims[k].now) == Some(claims[k].next);
    }
    CountBound(claims, a, b, activations);
  }
}
