/**
 The work list and the delayed set of a queue as values, the promotion script as
 a one-at-a-time rule, and what it guarantees.

 The left end of the list is index 0: LPUSH prepends, BRPOP takes the last.
 */
module Redis {
  import opened Jobs

  /** One queue: its work list, and its delayed ids with the second they are due. */
  datatype Lane = Lane(list: seq<Id>, delayed: map<Id, int>)

  /** Every queue by name; an absent key is an empty queue. */
  type Queues = map<string, Lane>

  function LaneOf(r: Queues, q: string): Lane {
    if q in r then r[q] else Lane([], map[])
  }

  function LPush(l: Lane, id: Id): Lane {
    l.(list := [id] + l.list)
  }

  function ZAdd(l: Lane, id: Id, score: int): Lane {
    l.(delayed := l.delayed[id := score])
  }

  function ZRem(l: Lane, id: Id): Lane {
    l.(delayed := l.delayed - {id})
  }

  /** Every occurrence of `id` taken out, the rest in order. */
  function Without(s: seq<Id>, id: Id): seq<Id> {
    if |s| == 0 then []
    else if s[0] == id then Without(s[1..], id)
    else [s[0]] + Without(s[1..], id)
  }

  function LRem(l: Lane, id: Id): Lane {
    l.(list := Without(l.list, id))
  }

  function RPop(l: Lane): Lane
    requires l.list != []
  {
    l.(list := l.list[..|l.list|-1])
  }

  /** BRPOP looks at the keys in the order given and takes from the first non-empty list. */
  function FirstReady(r: Queues, watched: seq<string>): (q: Option<string>)
    ensures q.Some? ==> q.value in watched && LaneOf(r, q.value).list != []
    ensures q.None? ==> forall name | name in watched :: LaneOf(r, name).list == []
  {
    if |watched| == 0 then None
    else if LaneOf(r, watched[0]).list != [] then Some(watched[0])
    else FirstReady(r, watched[1..])
  }

  /** And every queue watched before that one is empty. */
  lemma {:induction false} FirstReadyIsFirst(r: Queues, watched: seq<string>) returns (k: nat)
    requires FirstReady(r, watched).Some?
    ensures k < |watched| && FirstReady(r, watched) == Some(watched[k]) && LaneOf(r, watched[k]).list != []
    ensures forall j | 0 <= j < k :: LaneOf(r, watched[j]).list == []
  {
    k := 0;
    if LaneOf(r, watched[0]).list == [] {
      var j := FirstReadyIsFirst(r, watched[1..]);
      k := j + 1;
    }
  }

  // ---------------------------------------------------------------------------
  // The order of a scored set.

  /** Redis orders members by score, then by their text. */
  predicate Precedes(z: map<Id, int>, a: Id, b: Id)
    requires a in z && b in z
  {
    z[a] < z[b] || (z[a] == z[b] && a <= b)
  }

  function DueIds(z: map<Id, int>, now: int): set<Id> {
    set id | id in z && z[id] <= now
  }

  ghost predicate IsFirst(z: map<Id, int>, s: set<Id>, x: Id)
    requires s <= z.Keys
  {
    x in s && forall y | y in s :: Precedes(z, x, y)
  }

  lemma {:induction false} FindFirst(z: map<Id, int>, s: set<Id>) returns (x: Id)
    requires s <= z.Keys && s != {}
    ensures IsFirst(z, s, x)
    decreases s
  {
    var a :| a in s;
    x := a;
    if s != {a} {
      var m := FindFirst(z, s - {a});
      x := if Precedes(z, a, m) then a else m;
      forall y | y in s ensures Precedes(z, x, y) {
        if y != a {
          assert y in s - {a};
          assert Precedes(z, m, y);
        }
      }
    }
  }

  lemma FirstExists(z: map<Id, int>, s: set<Id>)
    requires s <= z.Keys && s != {}
    ensures exists x :: x in s && forall y | y in s :: Precedes(z, x, y)
  {
    var x := FindFirst(z, s);
    assert x in s && forall y | y in s :: Precedes(z, x, y);
  }

  function First(z: map<Id, int>, s: set<Id>): (x: Id)
    requires s <= z.Keys && s != {}
    ensures x in s && forall y | y in s :: Precedes(z, x, y)
  {
    FirstExists(z, s);
    var x :| x in s && forall y | y in s :: Precedes(z, x, y);
    x
  }

  /** ZRANGEBYSCORE z -inf now LIMIT 0 n. */
  function RangeByScore(z: map<Id, int>, now: int, n: nat): seq<Id> {
    if n == 0 || DueIds(z, now) == {} then []
    else
      var m := First(z, DueIds(z, now));
      [m] + RangeByScore(z - {m}, now, n - 1)
  }

  // ---------------------------------------------------------------------------
  // Promotion, one id at a time.

  /** Up to `n` times: take the first due id off the set and push it on the list. */
  function Promote(l: Lane, now: int, n: nat): Lane
    decreases n
  {
    if n == 0 || DueIds(l.delayed, now) == {} then l
    else
      var m := First(l.delayed, DueIds(l.delayed, now));
      Promote(ZRem(LPush(l, m), m), now, n - 1)
  }

  function Reverse(s: seq<Id>): (r: seq<Id>)
    ensures |r| == |s|
  {
    if |s| == 0 then [] else Reverse(s[1..]) + [s[0]]
  }

  /** The order in which BRPOP hands out a list. */
  function PopOrder(l: Lane): seq<Id> {
    Reverse(l.list)
  }

  lemma ReversePrepend(x: Id, s: seq<Id>)
    ensures Reverse([x] + s) == Reverse(s) + [x]
  {
  }

  /** Promoted ids queue up behind what is already there, earliest due first. */
  lemma {:induction false} PromotePopOrder(l: Lane, now: int, n: nat)
    ensures PopOrder(Promote(l, now, n)) == PopOrder(l) + RangeByScore(l.delayed, now, n)
    decreases n
  {
    if n > 0 && DueIds(l.delayed, now) != {} {
      var m := First(l.delayed, DueIds(l.delayed, now));
      var l' := ZRem(LPush(l, m), m);
      PromotePopOrder(l', now, n - 1);
      ReversePrepend(m, l.list);
      assert PopOrder(l') == PopOrder(l) + [m];
    }
  }

  /** The ids promoted: as many as are due, up to the limit; each due, none twice. */
  lemma {:induction false} RangeIsDue(z: map<Id, int>, now: int, n: nat)
    ensures var due := RangeByScore(z, now, n);
            && |due| == (if |DueIds(z, now)| < n then |DueIds(z, now)| else n)
            && (forall i | 0 <= i < |due| :: due[i] in DueIds(z, now))
            && (forall i, j | 0 <= i < j < |due| :: due[i] != due[j])
    decreases n
  {
    if n > 0 && DueIds(z, now) != {} {
      var m := First(z, DueIds(z, now));
      RangeIsDue(z - {m}, now, n - 1);
      assert DueIds(z - {m}, now) == DueIds(z, now) - {m};
    }
  }

  /** Each id promoted precedes, by score and then by member, every due id that was not taken before it. */
  lemma {:induction false} RangeIsLeast(z: map<Id, int>, now: int, n: nat, i: nat, y: Id)
    requires i < |RangeByScore(z, now, n)| && y in z && z[y] <= now
    requires y !in RangeByScore(z, now, n)[..i]
    ensures var x := RangeByScore(z, now, n)[i];
            x in z && (z[x] < z[y] || (z[x] == z[y] && x <= y))
    decreases n
  {
    assert y in DueIds(z, now);
    var m := First(z, DueIds(z, now));
    if i > 0 {
      var due := RangeByScore(z, now, n);
      assert due[..i] == [m] + due[1..][..i-1];
      RangeIsLeast(z - {m}, now, n - 1, i - 1, y);
    }
  }

  /** A range shorter than the limit has every due id. */
  lemma {:induction false} ShortRangeIsAll(z: map<Id, int>, now: int, n: nat, y: Id)
    requires |RangeByScore(z, now, n)| < n && y in z && z[y] <= now
    ensures y in RangeByScore(z, now, n)
    decreases n
  {
    assert y in DueIds(z, now);
    var m := First(z, DueIds(z, now));
    if y != m {
      ShortRangeIsAll(z - {m}, now, n - 1, y);
    }
  }

  /** `x` has the lower score, or the same one and the lower member. */
  predicate Sooner(z: map<Id, int>, x: Id, y: Id) {
    x in z && y in z && (z[x] < z[y] || (z[x] == z[y] && x < y))
  }

  lemma RangeAscends(z: map<Id, int>, now: int, n: nat, i: nat, j: nat)
    requires i < j < |RangeByScore(z, now, n)|
    ensures Sooner(z, RangeByScore(z, now, n)[i], RangeByScore(z, now, n)[j])
  {
    RangeIsDue(z, now, n);
    RangeIsLeast(z, now, n, i, RangeByScore(z, now, n)[j]);
  }

  lemma RangeBeforeRest(z: map<Id, int>, now: int, n: nat, i: nat, y: Id)
    requires i < |RangeByScore(z, now, n)| && y in z && z[y] <= now && y !in RangeByScore(z, now, n)
    ensures Sooner(z, RangeByScore(z, now, n)[i], y)
  {
    RangeIsLeast(z, now, n, i, y);
    assert RangeByScore(z, now, n)[i] in RangeByScore(z, now, n);
  }

  /**
   The promoted ids on the scores alone: all of them are due, they come in
   ascending order of score and then of member, they come before every due id
   that is left, and one is left only when the limit is used up.
   */
  lemma RangeInScoreOrder(z: map<Id, int>, now: int, n: nat)
    ensures var due := RangeByScore(z, now, n);
            && |due| <= n
            && (forall i | 0 <= i < |due| :: due[i] in z && z[due[i]] <= now)
            && (forall i, j | 0 <= i < j < |due| ::
                  z[due[i]] < z[due[j]] || (z[due[i]] == z[due[j]] && due[i] < due[j]))
            && (forall i, y | 0 <= i < |due| && y in z && z[y] <= now && y !in due ::
                  z[due[i]] < z[y] || (z[due[i]] == z[y] && due[i] < y))
            && (forall y | y in z && z[y] <= now && y !in due :: |due| == n)
  {
    var due := RangeByScore(z, now, n);
    RangeIsDue(z, now, n);
    forall i, j | 0 <= i < j < |due| ensures Sooner(z, due[i], due[j]) {
      RangeAscends(z, now, n, i, j);
    }
    forall i, y | 0 <= i < |due| && y in z && z[y] <= now && y !in due ensures Sooner(z, due[i], y) {
      RangeBeforeRest(z, now, n, i, y);
    }
    forall y | y in z && z[y] <= now && y !in due ensures |due| == n {
      if |due| < n {
        ShortRangeIsAll(z, now, n, y);
      }
    }
  }

  /** What stays in the delayed set is exactly what was not promoted, with its score. */
  lemma {:induction false} PromoteLeaves(l: Lane, now: int, n: nat, id: Id)
    ensures id in Promote(l, now, n).delayed <==> id in l.delayed && id !in RangeByScore(l.delayed, now, n)
    ensures id in Promote(l, now, n).delayed ==> Promote(l, now, n).delayed[id] == l.delayed[id]
    decreases n
  {
    if n > 0 && DueIds(l.delayed, now) != {} {
      var m := First(l.delayed, DueIds(l.delayed, now));
      PromoteLeaves(ZRem(LPush(l, m), m), now, n - 1, id);
      if id == m {
        NotAgain(l.delayed - {m}, now, n - 1, m);
      }
    }
  }

  lemma NotAgain(z: map<Id, int>, now: int, n: nat, m: Id)
    requires m !in z
    ensures m !in RangeByScore(z, now, n)
  {
  }

  function Count(s: seq<Id>, id: Id): nat {
    if |s| == 0 then 0 else (if s[0] == id then 1 else 0) + Count(s[1..], id)
  }

  /** How many times the queue holds an id, on its list or in its delayed set. */
  function Held(l: Lane, id: Id): nat {
    Count(l.list, id) + (if id in l.delayed then 1 else 0)
  }

  lemma {:induction false} CountIn(s: seq<Id>, id: Id)
    ensures Count(s, id) > 0 <==> id in s
  {
    if |s| > 0 {
      CountIn(s[1..], id);
    }
  }

  lemma {:induction false} CountLast(s: seq<Id>, id: Id)
    requires s != []
    ensures Count(s, id) == Count(s[..|s|-1], id) + (if s[|s|-1] == id then 1 else 0)
  {
    if |s| > 1 {
      CountLast(s[1..], id);
      assert s[1..][..|s|-2] == s[..|s|-1][1..];
    }
  }

  /** LREM takes out every occurrence of one id and leaves the others' counts alone. */
  lemma {:induction false} WithoutCounts(s: seq<Id>, x: Id, id: Id)
    ensures Count(Without(s, x), id) == if x == id then 0 else Count(s, id)
  {
    if |s| > 0 {
      WithoutCounts(s[1..], x, id);
      if s[0] != x {
        assert Without(s, x)[1..] == Without(s[1..], x);
      }
    }
  }

  lemma HeldPush(l: Lane, x: Id, id: Id)
    ensures Held(LPush(l, x), id) == Held(l, id) + (if x == id then 1 else 0)
  {
  }

  lemma HeldPop(l: Lane, id: Id)
    requires l.list != []
    ensures Held(RPop(l), id) + (if l.list[|l.list|-1] == id then 1 else 0) == Held(l, id)
  {
    CountLast(l.list, id);
  }

  lemma HeldAdd(l: Lane, x: Id, score: int, id: Id)
    requires x !in l.delayed
    ensures Held(ZAdd(l, x, score), id) == Held(l, id) + (if x == id then 1 else 0)
  {
  }

  lemma HeldUndelay(l: Lane, x: Id, id: Id)
    ensures Held(ZRem(l, x), id) == Held(l, id) - (if x == id && id in l.delayed then 1 else 0)
  {
  }

  lemma HeldUnlist(l: Lane, x: Id, id: Id)
    ensures Held(LRem(l, x), id) == Held(l, id) - (if x == id then Count(l.list, id) else 0)
  {
    WithoutCounts(l.list, x, id);
  }

  /** Promotion neither loses nor duplicates an id. */
  lemma {:induction false} PromoteConserves(l: Lane, now: int, n: nat, id: Id)
    ensures Held(Promote(l, now, n), id) == Held(l, id)
    decreases n
  {
    if n > 0 && DueIds(l.delayed, now) != {} {
      var m := First(l.delayed, DueIds(l.delayed, now));
      HeldPush(l, m, id);
      HeldUndelay(LPush(l, m), m, id);
      PromoteConserves(ZRem(LPush(l, m), m), now, n - 1, id);
    }
  }

  /** Two promotions at one instant are one promotion with the limits added. */
  lemma {:induction false} PromoteTwice(l: Lane, now: int, a: nat, b: nat)
    ensures Promote(Promote(l, now, a), now, b) == Promote(l, now, a + b)
    decreases a
  {
    if a > 0 {
      if DueIds(l.delayed, now) != {} {
        var m := First(l.delayed, DueIds(l.delayed, now));
        PromoteTwice(ZRem(LPush(l, m), m), now, a - 1, b);
      }
    }
  }

  /** Whatever a promotion puts on the list was due. */
  lemma {:induction false} PromoteListed(l: Lane, now: int, n: nat, id: Id)
    requires id in Promote(l, now, n).list
    ensures id in l.list || (id in l.delayed && l.delayed[id] <= now)
    decreases n
  {
    if n > 0 && DueIds(l.delayed, now) != {} {
      var m := First(l.delayed, DueIds(l.delayed, now));
      PromoteListed(ZRem(LPush(l, m), m), now, n - 1, id);
    }
  }

  lemma {:induction false} WithoutSubset(s: seq<Id>, x: Id, id: Id)
    requires id in Without(s, x)
    ensures id in s
  {
    if |s| > 0 && s[0] != id {
      WithoutSubset(s[1..], x, id);
    }
  }
}
