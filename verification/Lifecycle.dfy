/**
 The specification the whole system is held to: one job, every move guarded.

     waiting k -> active k -> done | waiting k+1 | dead;  dead -> waiting 0;
     waiting k -> withdrawn

 A history is valid when each of its moves was allowed. The theorems here are
 about every valid history; `Protocol.dfy` shows that every run of the real
 system gives each job a valid history.
 */
module Lifecycle {
  import opened Jobs

  datatype Phase = Waiting | Active | Done | Dead | Withdrawn

  /** What a job is submitted with. */
  datatype Spec = Spec(tenant: Tenant, queue: string, jobType: string, payload: string, maxRetries: int)

  /** A job with everything its row shows. */
  datatype Job = NoJob | Job(
    spec: Spec,
    phase: Phase,
    tries: int,
    result: Option<string>,
    error: Option<string>,
    startedAt: Option<Time>,
    completedAt: Option<Time>)

  datatype Move =
    | Submit(spec: Spec)
    | Claim(at: Time)
    | Complete(result: string, at: Time)
    | Requeue(message: string)
    | Bury(message: string, at: Time)
    | Reset
    | Withdraw(at: Time)

  predicate Enabled(j: Job, m: Move) {
    match m
    case Submit(_) => j.NoJob?
    case Claim(_) => j.Job? && j.phase == Waiting
    case Complete(_, _) => j.Job? && j.phase == Active
    case Requeue(_) => j.Job? && j.phase == Active && j.tries + 1 < j.spec.maxRetries
    case Bury(_, _) => j.Job? && j.phase == Active && j.tries + 1 >= j.spec.maxRetries
    case Reset => j.Job? && j.phase == Dead
    case Withdraw(_) => j.Job? && j.phase == Waiting
  }

  function Apply(j: Job, m: Move): Job
    requires Enabled(j, m)
  {
    match m
    case Submit(spec) => Job(spec, Waiting, 0, None, None, None, None)
    case Claim(at) => j.(phase := Active, startedAt := Some(at))
    case Complete(r, at) => j.(phase := Done, result := Some(r), error := None, completedAt := Some(at))
    case Requeue(message) => j.(phase := Waiting, tries := j.tries + 1, error := Some(message))
    case Bury(message, at) => j.(phase := Dead, tries := j.tries + 1, error := Some(message), completedAt := Some(at))
    case Reset => Job(j.spec, Waiting, 0, None, None, None, None)
    case Withdraw(at) => j.(phase := Withdrawn, completedAt := Some(at))
  }

  predicate Valid(h: seq<Move>)
    decreases |h|, 0
  {
    |h| == 0 || (Valid(h[..|h|-1]) && Enabled(Replay(h[..|h|-1]), h[|h|-1]))
  }

  function Replay(h: seq<Move>): Job
    requires Valid(h)
    decreases |h|, 1
  {
    if |h| == 0 then NoJob else Apply(Replay(h[..|h|-1]), h[|h|-1])
  }

  lemma ReplayExtend(h: seq<Move>, m: Move)
    requires Valid(h) && Enabled(Replay(h), m)
    ensures Valid(h + [m]) && Replay(h + [m]) == Apply(Replay(h), m)
  {
  }

  function Claims(h: seq<Move>): nat {
    if |h| == 0 then 0 else Claims(h[..|h|-1]) + (if h[|h|-1].Claim? then 1 else 0)
  }

  function Resets(h: seq<Move>): nat {
    if |h| == 0 then 0 else Resets(h[..|h|-1]) + (if h[|h|-1].Reset? then 1 else 0)
  }

  function Burials(h: seq<Move>): nat {
    if |h| == 0 then 0 else Burials(h[..|h|-1]) + (if h[|h|-1].Bury? then 1 else 0)
  }

  /** The claims of the current attempt cycle, those since the last reset. */
  function CycleClaims(j: Job): int
    requires j.Job?
  {
    j.tries + (if j.phase == Active || j.phase == Done then 1 else 0)
  }

  /**
   The exact account of every claim: each past cycle used the whole budget, and
   the present one used what the row's counter says.
   */
  lemma {:induction false} Accounting(h: seq<Move>)
    requires Valid(h)
    ensures Replay(h).NoJob? ==> Claims(h) == Resets(h) == Burials(h) == 0
    ensures Replay(h).Job? ==>
              var j := Replay(h);
              && 0 <= j.tries
              && (j.phase == Dead ==> j.tries == Budget(j.spec.maxRetries))
              && (j.phase != Dead ==> j.tries < Budget(j.spec.maxRetries))
              && Claims(h) == Resets(h) * Budget(j.spec.maxRetries) + CycleClaims(j)
              && Burials(h) == Resets(h) + (if j.phase == Dead then 1 else 0)
  {
    if |h| > 0 {
      var n := |h| - 1;
      Accounting(h[..n]);
      if h[n].Reset? {
        var b := Budget(Replay(h).spec.maxRetries);
        assert (Resets(h[..n]) + 1) * b == Resets(h[..n]) * b + b;
      }
    }
  }

  /** At most `Budget` claims per submission or reset. */
  lemma ClaimBound(h: seq<Move>)
    requires Valid(h) && Replay(h).Job?
    ensures Claims(h) <= (1 + Resets(h)) * Budget(Replay(h).spec.maxRetries)
  {
    Accounting(h);
    var b := Budget(Replay(h).spec.maxRetries);
    assert (1 + Resets(h)) * b == Resets(h) * b + b;
  }

  /** Done and withdrawn jobs never move again. */
  lemma {:induction false} Absorbing(h: seq<Move>, more: seq<Move>)
    requires Valid(h + more)
    requires Valid(h) && Replay(h).Job? && (Replay(h).phase == Done || Replay(h).phase == Withdrawn)
    ensures more == []
  {
    if more != [] {
      var n := |more| - 1;
      assert (h + more)[..|h| + n] == h + more[..n];
      if n > 0 {
        Absorbing(h, more[..n]);
      }
    }
  }

  /** What a job was submitted with never changes. */
  lemma {:induction false} IdentityFixed(h: seq<Move>, more: seq<Move>)
    requires Valid(h) && Replay(h).Job? && Valid(h + more)
    ensures Replay(h + more).Job?
    ensures Replay(h + more).spec == Replay(h).spec
  {
    if more == [] {
      assert h + more == h;
    } else {
      var n := |more| - 1;
      assert (h + more)[..|h| + n] == h + more[..n];
      IdentityFixed(h, more[..n]);
    }
  }

  // ---------------------------------------------------------------------------
  // Every column read off the history.

  /** When the job was last claimed since it was submitted or reset. */
  function LastClaim(h: seq<Move>): Option<Time> {
    if |h| == 0 then None
    else match h[|h|-1]
      case Claim(at) => Some(at)
      case Submit(_) => None
      case Reset => None
      case _ => LastClaim(h[..|h|-1])
  }

  /** What the last failure since then said. */
  function LastFailure(h: seq<Move>): Option<string> {
    if |h| == 0 then None
    else match h[|h|-1]
      case Requeue(message) => Some(message)
      case Bury(message, _) => Some(message)
      case Submit(_) => None
      case Reset => None
      case _ => LastFailure(h[..|h|-1])
  }

  /** How many failures there were since then. */
  function Failures(h: seq<Move>): nat {
    if |h| == 0 then 0
    else match h[|h|-1]
      case Submit(_) => 0
      case Reset => 0
      case m => Failures(h[..|h|-1]) + (if m.Requeue? || m.Bury? then 1 else 0)
  }

  /** The columns say what happened: all of them follow from the submission and from what came after the last reset. */
  lemma {:induction false} ColumnsTellHistory(h: seq<Move>)
    requires Valid(h) && h != []
    ensures var j, last := Replay(h), h[|h|-1];
            && j.Job? && h[0] == Submit(j.spec)
            && (j.phase == Waiting <==> last.Submit? || last.Requeue? || last.Reset?)
            && (j.phase == Active <==> last.Claim?)
            && (j.phase == Done <==> last.Complete?)
            && (j.phase == Dead <==> last.Bury?)
            && (j.phase == Withdrawn <==> last.Withdraw?)
            && j.tries == Failures(h)
            && j.startedAt == LastClaim(h)
            && j.error == (if last.Complete? then None else LastFailure(h))
            && j.result == (if last.Complete? then Some(last.result) else None)
            && j.completedAt == (if last.Complete? || last.Bury? || last.Withdraw? then Some(last.at) else None)
  {
    if |h| > 1 {
      ColumnsTellHistory(h[..|h|-1]);
    }
  }
}
