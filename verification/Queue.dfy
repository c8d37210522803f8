/**
 The Redis-backed queue as an object. `PromoteDue` runs the script: one range
 read, then a loop of LPUSH and ZREM.
 */
module Queue {
  import opened Jobs
  import opened Backoff
  import opened Redis

  /** LIMIT 0 count; a negative count means all of them. */
  function Limit(l: Lane, count: int): nat {
    if count < 0 then |l.delayed| else count
  }

  lemma DueAreMembers(z: map<Id, int>, now: int)
    ensures |DueIds(z, now)| <= |z|
  {
    var others := z.Keys - DueIds(z, now);
    assert z.Keys == DueIds(z, now) + others;
  }

  class WorkQueue {
    var lanes: Queues

    constructor ()
      ensures lanes == map[]
    {
      lanes := map[];
    }

    method Enqueue(q: string, id: Id)
      modifies this
      ensures lanes == old(lanes)[q := LPush(LaneOf(old(lanes), q), id)]
    {
      var lane := LaneOf(lanes, q);
      lanes := lanes[q := lane.(list := [id] + lane.list)];
    }

    /** BRPOP over several queues; None is the timeout. */
    method Dequeue(watched: seq<string>) returns (popped: Option<(Id, string)>)
      modifies this
      ensures popped.None? ==> lanes == old(lanes) && forall q | q in watched :: LaneOf(lanes, q).list == []
      ensures popped.Some? ==>
                var (id, q) := popped.value;
                var was := LaneOf(old(lanes), q);
                && FirstReady(old(lanes), watched) == Some(q)
                && was.list == RPop(was).list + [id]
                && lanes == old(lanes)[q := RPop(was)]
    {
      var i := 0;
      while i < |watched|
        invariant 0 <= i <= |watched|
        invariant lanes == old(lanes)
        invariant FirstReady(lanes, watched) == FirstReady(lanes, watched[i..])
        invariant forall j | 0 <= j < i :: LaneOf(lanes, watched[j]).list == []
      {
        var q := watched[i];
        var lane := LaneOf(lanes, q);
        assert watched[i..][0] == q && watched[i..][1..] == watched[i+1..];
        if lane.list != [] {
          var n := |lane.list| - 1;
          lanes := lanes[q := lane.(list := lane.list[..n])];
          return Some((lane.list[n], q));
        }
        i := i + 1;
      }
      popped := None;
    }

    method EnqueueDelayed(q: string, id: Id, runAt: Time)
      modifies this
      ensures lanes == old(lanes)[q := ZAdd(LaneOf(old(lanes), q), id, Unix(runAt))]
    {
      var lane := LaneOf(lanes, q);
      lanes := lanes[q := lane.(delayed := lane.delayed[id := Unix(runAt)])];
    }

    /** The script reads the due ids once and then moves them; that is promotion one at a time. */
    method PromoteDue(q: string, now: Time, count: int) returns (moved: nat)
      modifies this
      ensures var was := LaneOf(old(lanes), q);
              lanes == old(lanes)[q := Promote(was, Unix(now), Limit(was, count))]
      ensures var due := |DueIds(LaneOf(old(lanes), q).delayed, Unix(now))|;
              moved == if count < 0 || due < count then due else count
    {
      var was := LaneOf(lanes, q);
      var limit := Limit(was, count);
      DueAreMembers(was.delayed, Unix(now));
      var due := RangeByScore(was.delayed, Unix(now), limit);
      RangeIsDue(was.delayed, Unix(now), limit);
      var lane := was;
      var i := 0;
      while i < |due|
        invariant 0 <= i <= |due| <= limit
        invariant due[i..] == RangeByScore(lane.delayed, Unix(now), limit - i)
        invariant Promote(lane, Unix(now), limit - i) == Promote(was, Unix(now), limit)
      {
        assert due[i..][1..] == due[i+1..];
        lane := lane.(list := [due[i]] + lane.list);
        lane := lane.(delayed := lane.delayed - {due[i]});
        i := i + 1;
      }
      lanes := lanes[q := lane];
      moved := |due|;
    }

    /** LREM then ZREM; a failed LREM skips the ZREM. */
    method Remove(q: string, id: Id, lremFails: bool, zremFails: bool)
      modifies this
      ensures var was := LaneOf(old(lanes), q);
              lanes == if lremFails then old(lanes)
                       else if zremFails then old(lanes)[q := LRem(was, id)]
                       else old(lanes)[q := ZRem(LRem(was, id), id)]
    {
      if lremFails {
        return;
      }
      var lane := LaneOf(lanes, q);
      lanes := lanes[q := lane.(list := Without(lane.list, id))];
      if zremFails {
        return;
      }
      lane := LaneOf(lanes, q);
      lanes := lanes[q := lane.(delayed := lane.delayed - {id})];
    }
  }

  /** Every queue named, promoted once per mention, in order. */
  function PromoteAll(lanes: Queues, names: seq<string>, now: int, limit: nat): Queues
    decreases names
  {
    if |names| == 0 then lanes
    else PromoteAll(lanes[names[0] := Promote(LaneOf(lanes, names[0]), now, limit)], names[1..], now, limit)
  }

  /** promoteBatch. */
  const PROMOTE_BATCH: nat := 100

  /** One tick of the poller: each queue is promoted up to 100 ids for each time it is named, and no other queue is touched. */
  method PollTick(q: WorkQueue, names: seq<string>, now: Time)
    modifies q
    ensures forall name ::
              LaneOf(q.lanes, name) == Promote(LaneOf(old(q.lanes), name), Unix(now), multiset(names)[name] * 100)
  {
    var i := 0;
    while i < |names|
      invariant 0 <= i <= |names|
      invariant PromoteAll(q.lanes, names[i..], Unix(now), PROMOTE_BATCH)
                == PromoteAll(old(q.lanes), names, Unix(now), PROMOTE_BATCH)
    {
      assert names[i..][1..] == names[i+1..];
      var _ := q.PromoteDue(names[i], now, PROMOTE_BATCH);
      i := i + 1;
    }
    forall name
      ensures LaneOf(q.lanes, name) == Promote(LaneOf(old(q.lanes), name), Unix(now), multiset(names)[name] * 100)
    {
      EachMentionPromotes(old(q.lanes), names, Unix(now), PROMOTE_BATCH, name);
    }
  }

  lemma OneMoreMention(l: Lane, now: int, limit: nat, k: nat)
    ensures Promote(Promote(l, now, limit), now, k * limit) == Promote(l, now, (k + 1) * limit)
  {
    PromoteTwice(l, now, limit, k * limit);
    assert limit + k * limit == (k + 1) * limit;
  }

  lemma MentionsSplit(names: seq<string>, q: string)
    requires names != []
    ensures multiset(names)[q] == multiset(names[1..])[q] + (if names[0] == q then 1 else 0)
  {
    assert names == [names[0]] + names[1..];
  }

  /** A queue named k times is promoted with k times the limit; a queue not named is left alone. */
  lemma {:induction false} EachMentionPromotes(lanes: Queues, names: seq<string>, now: int, limit: nat, q: string)
    ensures LaneOf(PromoteAll(lanes, names, now, limit), q) == Promote(LaneOf(lanes, q), now, multiset(names)[q] * limit)
    decreases names
  {
    if |names| > 0 {
      var lane, k := LaneOf(lanes, names[0]), multiset(names[1..])[q];
      MentionsSplit(names, q);
      EachMentionPromotes(lanes[names[0] := Promote(lane, now, limit)], names[1..], now, limit, q);
      if names[0] == q {
        OneMoreMention(lane, now, limit, k);
      }
    }
  }

  lemma UnnamedUntouched(lanes: Queues, names: seq<string>, now: int, limit: nat, q: string)
    requires q !in names
    ensures LaneOf(PromoteAll(lanes, names, now, limit), q) == LaneOf(lanes, q)
  {
    EachMentionPromotes(lanes, names, now, limit, q);
    assert multiset(names)[q] == 0;
  }

  /** A poll tick moves ids between the structures of their own queue and loses none. */
  lemma {:induction false} PollTickConserves(lanes: Queues, names: seq<string>, now: int, limit: nat, q: string, id: Id)
    ensures Held(LaneOf(PromoteAll(lanes, names, now, limit), q), id) == Held(LaneOf(lanes, q), id)
    decreases names
  {
    if |names| > 0 {
      PromoteConserves(LaneOf(lanes, names[0]), now, limit, id);
      PollTickConserves(lanes[names[0] := Promote(LaneOf(lanes, names[0]), now, limit)], names[1..], now, limit, q, id);
    }
  }
}
