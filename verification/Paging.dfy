/**
 Listing jobs page by page: newest first by created_at, LIMIT and OFFSET. Rows
 with equal created_at come in any order, and each query may choose another.
 */
module Paging {
  import opened Jobs

  /** The created_at column. */
  type Created = Id -> Time

  datatype Listed = Listed(id: Id, row: Row)

  ghost function Elems(s: seq<Id>): set<Id> {
    set i | 0 <= i < |s| :: s[i]
  }

  ghost predicate Sorted(created: Created, all: seq<Id>) {
    forall i, j | 0 <= i < j < |all| :: all[i] != all[j] && created(all[i]) >= created(all[j])
  }

  /** An order the query may return its rows in: all of them, each once, newest first. */
  ghost predicate Ordering(ids: set<Id>, created: Created, all: seq<Id>) {
    Sorted(created, all) && Elems(all) == ids
  }

  /** LIMIT and OFFSET. */
  function Page<T>(all: seq<T>, limit: nat, offset: nat): (page: seq<T>)
    ensures |page| == if offset >= |all| then 0 else if offset + limit >= |all| then |all| - offset else limit
    ensures forall i | 0 <= i < |page| :: page[i] == all[offset + i]
  {
    if offset >= |all| then []
    else if offset + limit >= |all| then all[offset..]
    else all[offset..offset + limit]
  }

  /** The rows of an order. */
  function RowsIn(rows: map<Id, Row>, all: seq<Id>): seq<Listed>
    requires forall i | 0 <= i < |all| :: all[i] in rows
  {
    seq(|all|, i requires 0 <= i < |all| => Listed(all[i], rows[all[i]]))
  }

  /** What the listing query may return. */
  ghost predicate IsPage(rows: map<Id, Row>, created: Created, limit: nat, offset: nat, page: seq<Listed>) {
    exists all :: Ordering(rows.Keys, created, all)
                  && (forall i | 0 <= i < |all| :: all[i] in rows)
                  && page == Page(RowsIn(rows, all), limit, offset)
  }

  lemma OrderingHasRows(rows: map<Id, Row>, created: Created, all: seq<Id>)
    requires Ordering(rows.Keys, created, all)
    ensures |all| == |rows| && forall i | 0 <= i < |all| :: all[i] in rows
  {
    ElemsCount(created, all);
    assert forall i | 0 <= i < |all| :: all[i] in Elems(all);
  }

  lemma RowAt(rows: map<Id, Row>, all: seq<Id>, limit: nat, offset: nat, i: nat)
    requires forall k | 0 <= k < |all| :: all[k] in rows
    requires i < |Page(RowsIn(rows, all), limit, offset)|
    ensures offset + i < |all|
    ensures Page(RowsIn(rows, all), limit, offset)[i] == Listed(all[offset + i], rows[all[offset + i]])
  {
    assert Page(RowsIn(rows, all), limit, offset)[i] == RowsIn(rows, all)[offset + i];
  }

  /** What a page cut out of an order shows. */
  lemma PageShows(rows: map<Id, Row>, created: Created, all: seq<Id>, limit: nat, offset: nat)
    requires Ordering(rows.Keys, created, all)
    ensures |all| == |rows| && forall i | 0 <= i < |all| :: all[i] in rows
    ensures var page := Page(RowsIn(rows, all), limit, offset);
            && IsPage(rows, created, limit, offset, page)
            && (forall i | 0 <= i < |page| :: page[i].id in rows && page[i].row == rows[page[i].id])
            && (forall i, j | 0 <= i < j < |page| ::
                  page[i].id != page[j].id && created(page[i].id) >= created(page[j].id))
  {
    OrderingHasRows(rows, created, all);
    var page := Page(RowsIn(rows, all), limit, offset);
    forall i | 0 <= i < |page| ensures page[i].id in rows && page[i].row == rows[page[i].id] {
      RowAt(rows, all, limit, offset, i);
    }
    forall i, j | 0 <= i < j < |page|
      ensures page[i].id != page[j].id && created(page[i].id) >= created(page[j].id)
    {
      RowAt(rows, all, limit, offset, i);
      RowAt(rows, all, limit, offset, j);
    }
  }

  /** Some id of the set with the latest created_at. */
  method Newest(created: Created, ids: set<Id>) returns (id: Id)
    requires ids != {}
    ensures id in ids && forall x | x in ids :: created(id) >= created(x)
  {
    id :| id in ids;
    var left := ids - {id};
    while left != {}
      invariant left <= ids && id in ids
      invariant forall x | x in ids && x !in left :: created(id) >= created(x)
      decreases left
    {
      var x :| x in left;
      if created(x) > created(id) {
        id := x;
      }
      left := left - {x};
    }
  }

  lemma SortedAppend(created: Created, all: seq<Id>, id: Id)
    requires Sorted(created, all) && id !in Elems(all)
    requires forall x | x in Elems(all) :: created(x) >= created(id)
    ensures Sorted(created, all + [id]) && Elems(all + [id]) == Elems(all) + {id}
  {
    var longer := all + [id];
    assert forall i | 0 <= i < |all| :: longer[i] == all[i] && all[i] in Elems(all);
    assert longer[|all|] == id;
    forall x ensures x in Elems(longer) <==> x in Elems(all) + {id} {
      if x in Elems(all) {
        var i :| 0 <= i < |all| && all[i] == x;
        assert longer[i] == x;
      }
    }
  }

  /** ORDER BY created_at DESC. */
  method NewestFirst(created: Created, ids: set<Id>) returns (all: seq<Id>)
    ensures Ordering(ids, created, all)
  {
    all := [];
    var left := ids;
    while left != {}
      invariant left <= ids && Elems(all) == ids - left && Sorted(created, all)
      invariant forall x, y | x in Elems(all) && y in left :: created(x) >= created(y)
      decreases left
    {
      var id := Newest(created, left);
      SortedAppend(created, all, id);
      all, left := all + [id], left - {id};
    }
  }

  /** No tie between the last row before the cut and the first one after. */
  predicate CleanCut(created: Created, all: seq<Id>, m: nat) {
    0 < m < |all| ==> created(all[m-1]) > created(all[m])
  }

  /** Reading up to the cut in one order and on from it in another shows every row exactly once. */
  ghost predicate Exact(ids: set<Id>, first: seq<Id>, second: seq<Id>, m: nat)
    requires m <= |first| && m <= |second|
  {
    Elems(first[..m]) !! Elems(second[m..]) && Elems(first[..m]) + Elems(second[m..]) == ids
  }

  lemma {:induction false} ElemsCount(created: Created, s: seq<Id>)
    requires Sorted(created, s)
    ensures |Elems(s)| == |s|
  {
    if s == [] {
      assert Elems(s) == {};
    } else {
      var n := |s| - 1;
      ElemsCount(created, s[..n]);
      assert Elems(s) == Elems(s[..n]) + {s[n]} by {
        forall x ensures x in Elems(s) <==> x in Elems(s[..n]) + {s[n]} {
          if x in Elems(s) {
            var i :| 0 <= i < |s| && s[i] == x;
            assert i < n ==> s[..n][i] == x;
          }
        }
      }
    }
  }

  lemma SplitElems(s: seq<Id>, m: nat)
    requires m <= |s|
    ensures Elems(s) == Elems(s[..m]) + Elems(s[m..])
  {
    forall x | x in Elems(s) ensures x in Elems(s[..m]) + Elems(s[m..]) {
      var i :| 0 <= i < |s| && s[i] == x;
      assert if i < m then s[..m][i] == x else s[m..][i-m] == x;
    }
  }

  lemma SplitDisjoint(created: Created, s: seq<Id>, m: nat)
    requires Sorted(created, s) && m <= |s|
    ensures Elems(s[..m]) !! Elems(s[m..])
  {
  }

  /** A clean cut separates the newer from the older rows. */
  lemma CutSeparates(created: Created, all: seq<Id>, m: nat, a: Id, b: Id)
    requires Sorted(created, all) && m <= |all| && CleanCut(created, all, m)
    requires a in Elems(all[..m]) && b in Elems(all[m..])
    ensures created(a) > created(b)
  {
    var i :| 0 <= i < m && all[..m][i] == a;
    var j :| 0 <= j < |all| - m && all[m..][j] == b;
    assert all[i] == a && all[m + j] == b;
    assert i < m - 1 ==> created(all[i]) >= created(all[m-1]);
    assert j > 0 ==> created(all[m]) >= created(all[m + j]);
  }

  lemma SameSizeSubset(a: set<Id>, b: set<Id>)
    requires a <= b && |a| == |b|
    ensures a == b
  {
    assert b == a + (b - a);
  }

  /** Whatever order the second query chooses, a clean cut puts the same rows before it. */
  lemma CleanCutFixesRows(ids: set<Id>, created: Created, first: seq<Id>, second: seq<Id>, m: nat)
    requires Ordering(ids, created, first) && Ordering(ids, created, second)
    requires m <= |first| && m <= |second| && CleanCut(created, first, m)
    ensures Elems(first[..m]) == Elems(second[..m])
  {
    var a, b := Elems(first[..m]), Elems(second[..m]);
    ElemsCount(created, first[..m]);
    ElemsCount(created, second[..m]);
    SplitElems(first, m);
    SplitElems(second, m);
    if a != b {
      if a <= b {
        SameSizeSubset(a, b);
      } else if b <= a {
        SameSizeSubset(b, a);
      }
      var x :| x in a && x !in b;
      var y :| y in b && y !in a;
      CutSeparates(created, first, m, x, y);
      EarlierIsNewer(created, second, m, y, x);
    }
  }

  lemma EarlierIsNewer(created: Created, all: seq<Id>, m: nat, a: Id, b: Id)
    requires Sorted(created, all) && m <= |all| && a in Elems(all[..m]) && b in Elems(all[m..])
    ensures created(a) >= created(b)
  {
    var i :| 0 <= i < m && all[..m][i] == a;
    var j :| 0 <= j < |all| - m && all[m..][j] == b;
    assert all[i] == a && all[m + j] == b;
  }

  /** The same order with the two rows at the cut exchanged. */
  function Exchanged(all: seq<Id>, m: nat): seq<Id>
    requires 0 < m < |all|
  {
    all[m-1 := all[m]][m := all[m-1]]
  }

  lemma ExchangedIsOrdering(ids: set<Id>, created: Created, all: seq<Id>, m: nat)
    requires Ordering(ids, created, all) && 0 < m < |all| && !CleanCut(created, all, m)
    ensures Ordering(ids, created, Exchanged(all, m))
  {
    var other := Exchanged(all, m);
    assert created(all[m-1]) == created(all[m]);
    forall i, j | 0 <= i < j < |other| ensures other[i] != other[j] && created(other[i]) >= created(other[j]) {
      assert created(other[i]) == created(all[i]) && created(other[j]) == created(all[j]);
    }
    forall x ensures x in Elems(other) <==> x in Elems(all) {
      if x in Elems(all) {
        var i :| 0 <= i < |all| && all[i] == x;
        assert other[if i == m then m - 1 else if i == m - 1 then m else i] == x;
      }
      if x in Elems(other) {
        var i :| 0 <= i < |other| && other[i] == x;
        assert all[if i == m then m - 1 else if i == m - 1 then m else i] == x;
      }
    }
  }

  /**
   Reading on from a page boundary shows every matching row exactly once,
   whatever order each query breaks its ties in, if and only if no tie lies
   across the boundary.
   */
  lemma PagesExactIffCleanCut(ids: set<Id>, created: Created, all: seq<Id>, m: nat)
    requires Ordering(ids, created, all) && m <= |all|
    ensures CleanCut(created, all, m)
            <==> forall other | Ordering(ids, created, other) :: m <= |other| && Exact(ids, all, other, m)
  {
    ElemsCount(created, all);
    if CleanCut(created, all, m) {
      forall other | Ordering(ids, created, other) ensures m <= |other| && Exact(ids, all, other, m) {
        ElemsCount(created, other);
        CleanCutFixesRows(ids, created, all, other, m);
        SplitElems(other, m);
        SplitDisjoint(created, other, m);
      }
    } else {
      var other := Exchanged(all, m);
      ExchangedIsOrdering(ids, created, all, m);
      assert all[..m][m-1] == other[m..][0];
      assert all[m-1] in Elems(all[..m]) && all[m-1] in Elems(other[m..]);
    }
  }
}
