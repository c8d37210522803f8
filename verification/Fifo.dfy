/**
 First in, first out, over any interleaving of pushes, promotions, clean-ups and
 blocking pops on several queues. A ledger writes down every id that ever
 entered a queue, in order, and what became of it.
 */
module Fifo {
  import opened Jobs
  import opened Backoff
  import opened Redis
  import P = Protocol
  import D = Delivery

  datatype Fate = Waiting | Taken | Dropped

  datatype Entry = Entry(id: Id, fate: Fate)

  function Enter(led: seq<Entry>, ids: seq<Id>): seq<Entry>
    decreases ids
  {
    if |ids| == 0 then led else Enter(led + [Entry(ids[0], Waiting)], ids[1..])
  }

  function TakeFirst(led: seq<Entry>): seq<Entry> {
    if |led| == 0 then []
    else if led[0].fate == Waiting then [led[0].(fate := Taken)] + led[1..]
    else [led[0]] + TakeFirst(led[1..])
  }

  function DropAll(led: seq<Entry>, id: Id): seq<Entry> {
    if |led| == 0 then []
    else [if led[0] == Entry(id, Waiting) then Entry(id, Dropped) else led[0]] + DropAll(led[1..], id)
  }

  /** The ids of one fate, in the order they entered. */
  function Ids(led: seq<Entry>, fate: Fate): seq<Id> {
    if |led| == 0 then []
    else if led[0].fate == fate then [led[0].id] + Ids(led[1..], fate)
    else Ids(led[1..], fate)
  }

  /** Everything that entered and was not cleaned up, in the order it entered. */
  function Kept(led: seq<Entry>): seq<Id> {
    if |led| == 0 then []
    else if led[0].fate != Dropped then [led[0].id] + Kept(led[1..])
    else Kept(led[1..])
  }

  /** What the step of a world writes in the ledger of queue `q`. */
  function Record(led: seq<Entry>, w: D.World, act: D.Act, q: string): seq<Entry> {
    match act
    case Do(a) =>
      var pc := if a.Advance? then P.PcOf(w.core, a.p) else P.Idle;
      if pc.Pushing? && pc.queue == q then Enter(led, [pc.id])
      else if pc.Unlisting? && pc.queue == q then DropAll(led, pc.id)
      else led
    case Pop(p, watched) => if D.PopSource(w, p, watched) == Some(q) then TakeFirst(led) else led
    case Promotion(name, now, limit) =>
      if name == q then Enter(led, RangeByScore(LaneOf(w.queues, q).delayed, Unix(now), limit)) else led
  }

  function Ledger(run: seq<D.Beat>, q: string): seq<Entry> {
    if |run| == 0 then []
    else Record(Ledger(run[..|run|-1], q), D.Exec(run[..|run|-1]), run[|run|-1].act, q)
  }

  /** The id a step really hands to a worker from queue `q`. */
  function PoppedNow(w: D.World, act: D.Act, q: string): seq<Id> {
    if act.Pop? && D.PopSource(w, act.p, act.watched) == Some(q)
    then [D.LastOf(LaneOf(w.queues, q).list)]
    else []
  }

  function Popped(run: seq<D.Beat>, q: string): seq<Id> {
    if |run| == 0 then []
    else Popped(run[..|run|-1], q) + PoppedNow(D.Exec(run[..|run|-1]), run[|run|-1].act, q)
  }

  /** Nothing still waiting entered before something already taken. */
  ghost predicate Ordered(led: seq<Entry>) {
    |led| == 0 || (Ordered(led[1..]) && (led[0].fate == Waiting ==> Ids(led[1..], Taken) == []))
  }

  lemma {:induction false} KeptSplits(led: seq<Entry>)
    requires Ordered(led)
    ensures Kept(led) == Ids(led, Taken) + Ids(led, Waiting)
  {
    if |led| > 0 {
      KeptSplits(led[1..]);
    }
  }

  lemma {:induction false} EnterOne(led: seq<Entry>, id: Id)
    requires Ordered(led)
    ensures Ordered(led + [Entry(id, Waiting)])
    ensures Ids(led + [Entry(id, Waiting)], Waiting) == Ids(led, Waiting) + [id]
    ensures Ids(led + [Entry(id, Waiting)], Taken) == Ids(led, Taken)
  {
    var longer := led + [Entry(id, Waiting)];
    if |led| > 0 {
      EnterOne(led[1..], id);
      assert longer[1..] == led[1..] + [Entry(id, Waiting)];
    }
  }

  lemma {:induction false} EnterIds(led: seq<Entry>, ids: seq<Id>)
    requires Ordered(led)
    ensures Ordered(Enter(led, ids))
    ensures Ids(Enter(led, ids), Waiting) == Ids(led, Waiting) + ids
    ensures Ids(Enter(led, ids), Taken) == Ids(led, Taken)
    decreases ids
  {
    if |ids| == 0 {
      assert Ids(led, Waiting) + ids == Ids(led, Waiting);
    } else {
      EnterOne(led, ids[0]);
      EnterIds(led + [Entry(ids[0], Waiting)], ids[1..]);
      assert ids == [ids[0]] + ids[1..];
    }
  }

  lemma {:induction false} TakeIds(led: seq<Entry>)
    requires Ordered(led) && Ids(led, Waiting) != []
    ensures Ordered(TakeFirst(led))
    ensures Ids(TakeFirst(led), Waiting) == Ids(led, Waiting)[1..]
    ensures Ids(TakeFirst(led), Taken) == Ids(led, Taken) + [Ids(led, Waiting)[0]]
  {
    var t := TakeFirst(led);
    assert t[1..] == if led[0].fate == Waiting then led[1..] else TakeFirst(led[1..]);
    if led[0].fate != Waiting {
      TakeIds(led[1..]);
    }
  }

  lemma {:induction false} DropIds(led: seq<Entry>, id: Id)
    requires Ordered(led)
    ensures Ordered(DropAll(led, id))
    ensures Ids(DropAll(led, id), Waiting) == Without(Ids(led, Waiting), id)
    ensures Ids(DropAll(led, id), Taken) == Ids(led, Taken)
  {
    if |led| > 0 {
      DropIds(led[1..], id);
      assert DropAll(led, id)[1..] == DropAll(led[1..], id);
      if led[0].fate == Waiting {
        assert Ids(led, Waiting)[1..] == Ids(led[1..], Waiting);
      }
    }
  }

  lemma {:induction false} WithoutAppend(s: seq<Id>, x: Id, id: Id)
    ensures Without(s + [x], id) == if x == id then Without(s, id) else Without(s, id) + [x]
  {
    if s == [] {
      assert s + [x] == [x];
      assert Without([x][1..], id) == [];
    } else {
      WithoutAppend(s[1..], x, id);
      assert (s + [x])[1..] == s[1..] + [x];
    }
  }

  lemma {:induction false} WithoutReverse(s: seq<Id>, id: Id)
    ensures Reverse(Without(s, id)) == Without(Reverse(s), id)
  {
    if |s| > 0 {
      WithoutReverse(s[1..], id);
      WithoutAppend(Reverse(s[1..]), s[0], id);
      if s[0] != id {
        ReversePrepend(s[0], Without(s[1..], id));
      }
    }
  }

  lemma {:induction false} ReverseLast(s: seq<Id>)
    requires s != []
    ensures Reverse(s) == [D.LastOf(s)] + Reverse(s[..|s|-1])
  {
    if |s| > 1 {
      ReverseLast(s[1..]);
      assert s[1..][..|s|-2] == s[..|s|-1][1..];
    }
  }

  /** The ledger tells the truth about the list and about what was popped. */
  ghost predicate Truthful(led: seq<Entry>, popped: seq<Id>, lane: Lane) {
    Ordered(led) && Ids(led, Taken) == popped && Ids(led, Waiting) == PopOrder(lane)
  }

  lemma PushTruthful(led: seq<Entry>, popped: seq<Id>, l: Lane, id: Id)
    requires Truthful(led, popped, l)
    ensures Truthful(Enter(led, [id]), popped, LPush(l, id))
  {
    EnterIds(led, [id]);
    ReversePrepend(id, l.list);
  }

  lemma UnlistTruthful(led: seq<Entry>, popped: seq<Id>, l: Lane, id: Id)
    requires Truthful(led, popped, l)
    ensures Truthful(DropAll(led, id), popped, LRem(l, id))
  {
    DropIds(led, id);
    WithoutReverse(l.list, id);
  }

  lemma PopTruthful(led: seq<Entry>, popped: seq<Id>, l: Lane)
    requires Truthful(led, popped, l) && l.list != []
    ensures Truthful(TakeFirst(led), popped + [D.LastOf(l.list)], RPop(l))
  {
    ReverseLast(l.list);
    TakeIds(led);
  }

  lemma PromoteTruthful(led: seq<Entry>, popped: seq<Id>, l: Lane, now: int, n: nat)
    requires Truthful(led, popped, l)
    ensures Truthful(Enter(led, RangeByScore(l.delayed, now, n)), popped, Promote(l, now, n))
  {
    EnterIds(led, RangeByScore(l.delayed, now, n));
    PromotePopOrder(l, now, n);
  }

  lemma RecordTruthful(led: seq<Entry>, popped: seq<Id>, w: D.World, act: D.Act, q: string)
    requires Truthful(led, popped, LaneOf(w.queues, q))
    ensures Truthful(Record(led, w, act, q), popped + PoppedNow(w, act, q), LaneOf(D.QueuesAfter(w, act), q))
  {
    var lane := LaneOf(w.queues, q);
    assert popped + [] == popped;
    match act
    case Do(a) =>
      var pc := if a.Advance? then P.PcOf(w.core, a.p) else P.Idle;
      if pc.Pushing? && pc.queue == q {
        PushTruthful(led, popped, lane, pc.id);
      } else if pc.Unlisting? && pc.queue == q {
        UnlistTruthful(led, popped, lane, pc.id);
      }
    case Pop(p, watched) =>
      if D.PopSource(w, p, watched) == Some(q) {
        PopTruthful(led, popped, lane);
      }
    case Promotion(name, now, limit) =>
      if name == q {
        PromoteTruthful(led, popped, lane, Unix(now), limit);
      }
  }

  lemma {:induction false} LedgerTruthful(run: seq<D.Beat>, q: string)
    ensures Truthful(Ledger(run, q), Popped(run, q), LaneOf(D.Exec(run).queues, q))
  {
    if |run| > 0 {
      var before := run[..|run|-1];
      LedgerTruthful(before, q);
      RecordTruthful(Ledger(before, q), Popped(before, q), D.Exec(before), run[|run|-1].act, q);
    }
  }

  /**
   For every queue and every run: what was popped, followed by the list in the
   order it will be popped, is what entered, in the order it entered, less what a
   cancel cleaned up.
   */
  lemma FirstInFirstOut(run: seq<D.Beat>, q: string)
    ensures Popped(run, q) + PopOrder(LaneOf(D.Exec(run).queues, q)) == Kept(Ledger(run, q))
  {
    LedgerTruthful(run, q);
    KeptSplits(Ledger(run, q));
  }
}
