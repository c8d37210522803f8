/**
 The migration runner: check a file's version, and if it is missing run the file
 and record the version in one transaction. Any number of runners may do this at
 once and crash anywhere.
 */
module Migrate {

  type Pid = nat

  const SUFFIX: string := ".up.sql"

  predicate HasSuffix(name: string) {
    |name| >= |SUFFIX| && name[|name| - |SUFFIX|..] == SUFFIX
  }

  /** strings.TrimSuffix. */
  function Version(name: string): string {
    if HasSuffix(name) then name[..|name| - |SUFFIX|] else name
  }

  /** Byte order, as sort.Strings uses it. */
  predicate Before(a: string, b: string) {
    if |b| == 0 then false
    else if |a| == 0 then true
    else a[0] < b[0] || (a[0] == b[0] && Before(a[1..], b[1..]))
  }

  /** The directory listing the runner works through: globbed by suffix, sorted, no name twice. */
  ghost predicate Listing(files: seq<string>) {
    && (forall i | 0 <= i < |files| :: HasSuffix(files[i]))
    && (forall i, j | 0 <= i < j < |files| :: Before(files[i], files[j]))
  }

  /** The names agree up to `k`, where the first one ends or has the smaller character. */
  predicate DecidedAt(a: string, b: string, k: nat) {
    k <= |a| && k < |b| && a[..k] == b[..k] && (k == |a| || a[k] < b[k])
  }

  /** The first difference decides, and a proper prefix comes first. */
  lemma {:induction false} BeforeIff(a: string, b: string)
    ensures Before(a, b) <==> exists k: nat :: DecidedAt(a, b, k)
  {
    if |a| > 0 && |b| > 0 {
      BeforeIff(a[1..], b[1..]);
    }
    if Before(a, b) {
      if |a| == 0 || a[0] < b[0] {
        assert DecidedAt(a, b, 0);
      } else {
        var k: nat :| DecidedAt(a[1..], b[1..], k);
        assert a[..k+1] == [a[0]] + a[1..][..k] && b[..k+1] == [b[0]] + b[1..][..k];
        assert DecidedAt(a, b, k + 1);
      }
    }
    if k: nat :| DecidedAt(a, b, k) {
      if k > 0 {
        assert a[0] == a[..k][0] && b[0] == b[..k][0];
        assert a[1..][..k-1] == a[..k][1..] && b[1..][..k-1] == b[..k][1..];
        assert DecidedAt(a[1..], b[1..], k - 1);
      }
    }
  }

  lemma {:induction false} NotBeforeItself(a: string)
    ensures !Before(a, a)
  {
    if |a| > 0 {
      NotBeforeItself(a[1..]);
    }
  }

  lemma {:induction false} BeforeTotal(a: string, b: string)
    ensures a == b || Before(a, b) || Before(b, a)
  {
    if |a| > 0 && |b| > 0 && a[0] == b[0] {
      BeforeTotal(a[1..], b[1..]);
      assert a == [a[0]] + a[1..] && b == [b[0]] + b[1..];
    }
  }

  lemma {:induction false} BeforeTransitive(a: string, b: string, c: string)
    requires Before(a, b) && Before(b, c)
    ensures Before(a, c)
  {
    if |a| > 0 && a[0] == b[0] && b[0] == c[0] {
      BeforeTransitive(a[1..], b[1..], c[1..]);
    }
  }

  /** A common prefix does not matter. */
  lemma {:induction false} BeforePrefixed(p: string, a: string, b: string)
    ensures Before(p + a, p + b) <==> Before(a, b)
  {
    if p == [] {
      assert p + a == a && p + b == b;
    } else {
      assert (p + a)[1..] == p[1..] + a && (p + b)[1..] == p[1..] + b;
      BeforePrefixed(p[1..], a, b);
    }
  }

  // ---------------------------------------------------------------------------
  // Numbered files.

  function Pow10(w: nat): nat {
    if w == 0 then 1 else 10 * Pow10(w - 1)
  }

  /** A number in decimal, padded with zeros to a width. */
  function Padded(n: nat, w: nat): string {
    if w == 0 then "" else Padded(n / 10, w - 1) + [('0' as int + n % 10) as char]
  }

  /** File names are zero-padded, so the order of the names is the order of their numbers. */
  lemma {:induction false} PaddedOrder(m: nat, n: nat, w: nat, a: string, b: string)
    requires m < n < Pow10(w)
    ensures Before(Padded(m, w) + a, Padded(n, w) + b)
  {
    var c, d := ('0' as int + m % 10) as char, ('0' as int + n % 10) as char;
    var p, q := Padded(m / 10, w - 1), Padded(n / 10, w - 1);
    assert Padded(m, w) + a == p + ([c] + a) && Padded(n, w) + b == q + ([d] + b);
    if m / 10 < n / 10 {
      PaddedOrder(m / 10, n / 10, w - 1, [c] + a, [d] + b);
    } else {
      BeforePrefixed(p, [c] + a, [d] + b);
    }
  }

  lemma VersionsDiffer(files: seq<string>, i: nat, j: nat)
    requires Listing(files) && i < |files| && j < |files|
    ensures Version(files[i]) == Version(files[j]) <==> i == j
  {
    var a, b := files[i], files[j];
    assert a == Version(a) + SUFFIX && b == Version(b) + SUFFIX;
    NotBeforeItself(a);
  }

  function Versions(files: seq<string>): (v: seq<string>)
    ensures |v| == |files| && forall i | 0 <= i < |v| :: v[i] == Version(files[i])
  {
    seq(|files|, i requires 0 <= i < |files| => Version(files[i]))
  }

  // ---------------------------------------------------------------------------
  // Concurrent runners.

  /** A runner works through the files of its own binary. */
  datatype Pc = Off | Checking(files: seq<string>, i: nat) | Applying(files: seq<string>, i: nat)

  /** `applied` is schema_migrations in commit order; a version's SQL ran exactly when it was appended. */
  datatype State = State(applied: seq<string>, runners: map<Pid, Pc>)

  datatype Action =
    | Launch(p: Pid, files: seq<string>)
    | Check(p: Pid)
    | Commit(p: Pid, sqlOk: bool)
    | Crash(p: Pid)

  function PcOf(s: State, p: Pid): Pc {
    if p in s.runners then s.runners[p] else Off
  }

  /** The transaction: a failing statement, or the primary key, rolls all of it back. */
  predicate Commits(applied: seq<string>, version: string, sqlOk: bool) {
    sqlOk && version !in applied
  }

  function Step(s: State, a: Action): State {
    var pc := PcOf(s, a.p);
    match a
    case Launch(p, files) => if pc.Off? then s.(runners := s.runners[p := Checking(files, 0)]) else s
    case Check(p) =>
      if !pc.Checking? then s
      else if pc.i >= |pc.files| then s.(runners := s.runners[p := Off])
      else if Version(pc.files[pc.i]) in s.applied then s.(runners := s.runners[p := Checking(pc.files, pc.i + 1)])
      else s.(runners := s.runners[p := Applying(pc.files, pc.i)])
    case Commit(p, sqlOk) =>
      if !pc.Applying? || pc.i >= |pc.files| then s
      else if Commits(s.applied, Version(pc.files[pc.i]), sqlOk)
      then State(s.applied + [Version(pc.files[pc.i])], s.runners[p := Checking(pc.files, pc.i + 1)])
      else s.(runners := s.runners[p := Off])
    case Crash(p) => s.(runners := s.runners[p := Off])
  }

  /** Any history of runners over a table that already holds `start`. */
  function Exec(start: seq<string>, run: seq<Action>): State {
    if |run| == 0 then State(start, map[])
    else Step(Exec(start, run[..|run|-1]), run[|run|-1])
  }

  // ---------------------------------------------------------------------------
  // Whatever binaries run.

  ghost predicate Distinct(s: seq<string>) {
    forall i, j | 0 <= i < j < |s| :: s[i] != s[j]
  }

  /** A runner has seen everything before its position applied. */
  ghost predicate Caught(applied: seq<string>, pc: Pc) {
    !pc.Off? ==> forall k | 0 <= k < pc.i && k < |pc.files| :: Version(pc.files[k]) in applied
  }

  ghost predicate Sound(s: State, start: seq<string>) {
    && start <= s.applied && Distinct(s.applied)
    && (forall p | p in s.runners :: Caught(s.applied, s.runners[p]))
  }

  lemma CaughtExtends(applied: seq<string>, v: string, pc: Pc)
    requires Caught(applied, pc)
    ensures Caught(applied + [v], pc)
  {
  }

  lemma StepKeepsSound(s: State, start: seq<string>, a: Action)
    requires Sound(s, start)
    ensures Sound(Step(s, a), start)
  {
    var s', pc := Step(s, a), PcOf(s, a.p);
    forall p | p in s'.runners ensures Caught(s'.applied, s'.runners[p]) {
      if p in s.runners && s'.applied != s.applied {
        CaughtExtends(s.applied, Version(pc.files[pc.i]), s.runners[p]);
      }
    }
  }

  /**
   Over any table, with any mixture of binaries: no version is ever recorded
   twice, none is forgotten, and a runner that gets past a file leaves it applied.
   */
  lemma {:induction false} AppliedOnce(start: seq<string>, run: seq<Action>)
    requires Distinct(start)
    ensures Sound(Exec(start, run), start)
  {
    if |run| > 0 {
      AppliedOnce(start, run[..|run|-1]);
      StepKeepsSound(Exec(start, run[..|run|-1]), start, run[|run|-1]);
    }
  }

  // ---------------------------------------------------------------------------
  // Runners of one binary over a new database.

  predicate Uses(run: seq<Action>, files: seq<string>) {
    forall i | 0 <= i < |run| && run[i].Launch? :: run[i].files == files
  }

  ghost predicate Inv(s: State, files: seq<string>) {
    && s.applied <= Versions(files)
    && (forall p | p in s.runners :: !s.runners[p].Off? ==> s.runners[p].files == files && s.runners[p].i <= |s.applied|)
  }

  /** In a prefix of the list, being applied is being early. */
  lemma AppliedIffEarly(applied: seq<string>, files: seq<string>, i: nat)
    requires Listing(files) && applied <= Versions(files) && i < |files|
    ensures Version(files[i]) in applied <==> i < |applied|
  {
    if i < |applied| {
      assert applied[i] == Version(files[i]);
    }
    if Version(files[i]) in applied {
      var k :| 0 <= k < |applied| && applied[k] == Version(files[i]);
      VersionsDiffer(files, k, i);
    }
  }

  lemma StepKeepsInv(s: State, files: seq<string>, a: Action)
    requires Listing(files) && Inv(s, files) && (a.Launch? ==> a.files == files)
    ensures Inv(Step(s, a), files)
  {
    var pc := PcOf(s, a.p);
    if !pc.Off? && pc.i < |files| {
      AppliedIffEarly(s.applied, files, pc.i);
    }
  }

  lemma {:induction false} Reachable(files: seq<string>, run: seq<Action>)
    requires Listing(files) && Uses(run, files)
    ensures Inv(Exec([], run), files)
  {
    if |run| > 0 {
      Reachable(files, run[..|run|-1]);
      StepKeepsInv(Exec([], run[..|run|-1]), files, run[|run|-1]);
    }
  }

  /** Whatever runners and crashes do, what is committed is an exact prefix of the sorted list, each version once. */
  lemma CommittedIsPrefix(files: seq<string>, run: seq<Action>)
    requires Listing(files) && Uses(run, files)
    ensures var applied := Exec([], run).applied;
            && |applied| <= |files|
            && applied == Versions(files)[..|applied|]
            && Distinct(applied)
  {
    Reachable(files, run);
    AppliedOnce([], run);
  }

  // ---------------------------------------------------------------------------
  // One runner, as the code runs.

  /** What an uninterrupted run makes of the table: it stops at the first file whose SQL fails. */
  function Migrated(applied: seq<string>, files: seq<string>, sqlOk: string -> bool): seq<string>
    decreases files
  {
    if |files| == 0 then applied
    else if Version(files[0]) in applied then Migrated(applied, files[1..], sqlOk)
    else if sqlOk(files[0]) then Migrated(applied + [Version(files[0])], files[1..], sqlOk)
    else applied
  }

  /** A runner of the concurrent machine stepped to its end, nobody else moving. */
  function RunAlone(s: State, p: Pid, sqlOk: string -> bool): State
    requires PcOf(s, p).Off? || PcOf(s, p).i <= |PcOf(s, p).files|
    decreases match PcOf(s, p)
              case Off => 0
              case Checking(files, i) => 2 * (|files| - i) + 2
              case Applying(files, i) => 2 * (|files| - i) + 1
  {
    match PcOf(s, p)
    case Off => s
    case Checking(_, _) => RunAlone(Step(s, Check(p)), p, sqlOk)
    case Applying(files, i) => if i < |files| then RunAlone(Step(s, Commit(p, sqlOk(files[i]))), p, sqlOk) else s
  }

  /** That is what the code does. */
  lemma {:induction false} AloneIsMigrated(s: State, p: Pid, sqlOk: string -> bool)
    requires PcOf(s, p).Checking? && PcOf(s, p).i <= |PcOf(s, p).files|
    ensures RunAlone(s, p, sqlOk).applied == Migrated(s.applied, PcOf(s, p).files[PcOf(s, p).i..], sqlOk)
    decreases |PcOf(s, p).files| - PcOf(s, p).i
  {
    var files, i := PcOf(s, p).files, PcOf(s, p).i;
    var s1 := Step(s, Check(p));
    if i < |files| {
      assert files[i..][0] == files[i] && files[i..][1..] == files[i+1..];
      if Version(files[i]) in s.applied {
        AloneIsMigrated(s1, p, sqlOk);
      } else {
        var s2 := Step(s1, Commit(p, sqlOk(files[i])));
        assert RunAlone(s1, p, sqlOk) == RunAlone(s2, p, sqlOk);
        if sqlOk(files[i]) {
          AloneIsMigrated(s2, p, sqlOk);
        }
      }
    }
  }

  /** Wherever a runner crashes, a restart takes the table from where the commits left it. */
  lemma RestartResumes(s: State, p: Pid, files: seq<string>, sqlOk: string -> bool)
    ensures var s' := Step(Step(s, Crash(p)), Launch(p, files));
            && PcOf(s', p) == Checking(files, 0) && s'.applied == s.applied
            && RunAlone(s', p, sqlOk).applied == Migrated(s.applied, files, sqlOk)
  {
    var s' := Step(Step(s, Crash(p)), Launch(p, files));
    AloneIsMigrated(s', p, sqlOk);
    assert files[0..] == files;
  }

  /** Some name of the set that comes before all the others. */
  method Least(names: set<string>) returns (least: string)
    requires names != {}
    ensures least in names && forall n | n in names && n != least :: Before(least, n)
  {
    least :| least in names;
    var left := names - {least};
    while left != {}
      invariant left <= names && least in names
      invariant forall n | n in names && n !in left && n != least :: Before(least, n)
      decreases left
    {
      var n :| n in left;
      BeforeTotal(n, least);
      if Before(n, least) {
        forall x | x in names && x !in left && x != least ensures Before(n, x) {
          BeforeTransitive(n, least, x);
        }
        least := n;
      }
      left := left - {n};
    }
  }

  /** The directory's migration files, sorted. */
  method SortedNames(dir: set<string>) returns (files: seq<string>)
    ensures Listing(files)
    ensures forall n :: n in files <==> n in dir && HasSuffix(n)
  {
    files := [];
    var left := set n | n in dir && HasSuffix(n);
    while left != {}
      invariant left <= dir && Listing(files)
      invariant forall n | n in left :: HasSuffix(n) && forall i | 0 <= i < |files| :: Before(files[i], n)
      invariant forall n :: n in files || n in left <==> n in dir && HasSuffix(n)
      decreases left
    {
      var n := Least(left);
      files, left := files + [n], left - {n};
    }
  }

  class Schema {
    var applied: seq<string>

    constructor ()
      ensures applied == []
    {
      applied := [];
    }

    method ApplyMigration(version: string, sqlOk: bool) returns (ok: bool)
      modifies this
      ensures ok == Commits(old(applied), version, sqlOk)
      ensures applied == if ok then old(applied) + [version] else old(applied)
    {
      var tx := applied;
      if !sqlOk {
        return false;
      }
      if version in tx {
        return false;
      }
      tx := tx + [version];
      applied := tx;
      ok := true;
    }

    /**
     Every file of the directory whose version is not recorded is applied, in
     order, up to the first one that fails.
     */
    method Migrate(dir: set<string>, sqlOk: string -> bool) returns (ok: bool, files: seq<string>)
      modifies this
      ensures Listing(files)
      ensures forall n :: n in files <==> n in dir && |n| >= 7 && n[|n|-7..] == ".up.sql"
      ensures applied == Migrated(old(applied), files, sqlOk)
      ensures ok <==> forall i | 0 <= i < |files| :: Version(files[i]) in applied
    {
      files := SortedNames(dir);
      var i := 0;
      while i < |files|
        invariant 0 <= i <= |files|
        invariant Migrated(applied, files[i..], sqlOk) == Migrated(old(applied), files, sqlOk)
        invariant forall k | 0 <= k < i :: Version(files[k]) in applied
      {
        assert files[i..][1..] == files[i+1..];
        var version := Version(files[i]);
        if version !in applied {
          var done := ApplyMigration(version, sqlOk(files[i]));
          if !done {
            return false, files;
          }
        }
        i := i + 1;
      }
      ok := true;
    }
  }

  lemma {:induction false} MigratedKeeps(applied: seq<string>, files: seq<string>, sqlOk: string -> bool)
    ensures applied <= Migrated(applied, files, sqlOk)
    decreases files
  {
    if |files| > 0 {
      if Version(files[0]) in applied {
        MigratedKeeps(applied, files[1..], sqlOk);
      } else if sqlOk(files[0]) {
        MigratedKeeps(applied + [Version(files[0])], files[1..], sqlOk);
      }
    }
  }

  lemma Member(v: string, s: seq<string>, t: seq<string>)
    requires v in s && s <= t
    ensures v in t
  {
  }

  /** Running again, whatever the first run managed to do, changes nothing. */
  lemma {:induction false} SecondRunChangesNothing(applied: seq<string>, files: seq<string>, sqlOk: string -> bool)
    ensures var once := Migrated(applied, files, sqlOk); Migrated(once, files, sqlOk) == once
    decreases files
  {
    if |files| > 0 {
      var v := Version(files[0]);
      if v in applied {
        SecondRunChangesNothing(applied, files[1..], sqlOk);
        MigratedKeeps(applied, files[1..], sqlOk);
        Member(v, applied, Migrated(applied, files, sqlOk));
      } else if sqlOk(files[0]) {
        SecondRunChangesNothing(applied + [v], files[1..], sqlOk);
        MigratedKeeps(applied + [v], files[1..], sqlOk);
        Member(v, applied + [v], Migrated(applied, files, sqlOk));
      }
    }
  }

  /** The versions of the files that a table lacks, in file order. */
  function Missing(applied: seq<string>, files: seq<string>): seq<string> {
    if |files| == 0 then []
    else if Version(files[0]) in applied then Missing(applied, files[1..])
    else [Version(files[0])] + Missing(applied, files[1..])
  }

  /** How far a run gets: to the first missing file whose SQL fails. */
  function Reach(applied: seq<string>, files: seq<string>, sqlOk: string -> bool): (k: nat)
    ensures k <= |files|
    ensures forall i | 0 <= i < k :: Version(files[i]) in applied || sqlOk(files[i])
    ensures k < |files| ==> Version(files[k]) !in applied && !sqlOk(files[k])
  {
    if |files| == 0 || (Version(files[0]) !in applied && !sqlOk(files[0])) then 0
    else 1 + Reach(applied, files[1..], sqlOk)
  }

  ghost predicate Apart(v: string, files: seq<string>) {
    forall i | 0 <= i < |files| :: Version(files[i]) != v
  }

  /** Recording a version that no later file has changes nothing for the later files. */
  lemma {:induction false} ApartFromRest(applied: seq<string>, v: string, files: seq<string>, sqlOk: string -> bool)
    requires Apart(v, files)
    ensures Reach(applied + [v], files, sqlOk) == Reach(applied, files, sqlOk)
    ensures forall k | 0 <= k <= |files| :: Missing(applied + [v], files[..k]) == Missing(applied, files[..k])
  {
    if |files| > 0 {
      ApartFromRest(applied, v, files[1..], sqlOk);
      assert Version(files[0]) in applied + [v] <==> Version(files[0]) in applied;
      forall k | 0 < k <= |files| ensures Missing(applied + [v], files[..k]) == Missing(applied, files[..k]) {
        assert files[..k][1..] == files[1..][..k-1];
      }
    }
  }

  lemma FirstIsApart(files: seq<string>)
    requires Listing(files) && files != []
    ensures Listing(files[1..]) && Apart(Version(files[0]), files[1..])
  {
    forall i | 0 <= i < |files[1..]| ensures Version(files[1..][i]) != Version(files[0]) {
      VersionsDiffer(files, 0, i + 1);
    }
  }

  /** From any table whatever, one run appends the missing versions, in order, up to the first failing file. */
  lemma {:induction false} OneRunAppliesMissing(applied: seq<string>, files: seq<string>, sqlOk: string -> bool)
    requires Listing(files)
    ensures Migrated(applied, files, sqlOk) == applied + Missing(applied, files[..Reach(applied, files, sqlOk)])
    decreases files
  {
    if |files| > 0 {
      FirstIsApart(files);
      var v, k := Version(files[0]), Reach(applied, files[1..], sqlOk);
      assert files[..k+1][1..] == files[1..][..k];
      if v in applied {
        OneRunAppliesMissing(applied, files[1..], sqlOk);
      } else if sqlOk(files[0]) {
        OneRunAppliesMissing(applied + [v], files[1..], sqlOk);
        ApartFromRest(applied, v, files[1..], sqlOk);
        assert applied + [v] + Missing(applied, files[1..][..k]) == applied + ([v] + Missing(applied, files[1..][..k]));
      }
    }
  }

  /** What is missing is what the files have and the table does not. */
  lemma {:induction false} MissingIff(applied: seq<string>, files: seq<string>, v: string)
    ensures v in Missing(applied, files) <==> v in Versions(files) && v !in applied
  {
    if |files| > 0 {
      MissingIff(applied, files[1..], v);
      assert Versions(files) == [Version(files[0])] + Versions(files[1..]);
    }
  }

  lemma {:induction false} MissingDistinct(applied: seq<string>, files: seq<string>)
    requires Listing(files)
    ensures Distinct(Missing(applied, files))
  {
    if |files| > 0 {
      FirstIsApart(files);
      MissingDistinct(applied, files[1..]);
      MissingIff(applied, files[1..], Version(files[0]));
    }
  }

  lemma Rejoin(name: string)
    requires HasSuffix(name)
    ensures name == Version(name) + SUFFIX
  {
  }

  lemma NamedBy(files: seq<string>, v: string) returns (k: nat)
    requires Listing(files) && v in Versions(files)
    ensures k < |files| && files[k] == v + SUFFIX
  {
    k :| 0 <= k < |Versions(files)| && Versions(files)[k] == v;
    Rejoin(files[k]);
  }

  /** The missing versions are in the order of their file names. */
  lemma {:induction false} MissingInOrder(applied: seq<string>, files: seq<string>, i: nat, j: nat)
    requires Listing(files) && i < j < |Missing(applied, files)|
    ensures Before(Missing(applied, files)[i] + ".up.sql", Missing(applied, files)[j] + ".up.sql")
  {
    FirstIsApart(files);
    var rest := Missing(applied, files[1..]);
    if Version(files[0]) in applied {
      MissingInOrder(applied, files[1..], i, j);
    } else if i > 0 {
      MissingInOrder(applied, files[1..], i - 1, j - 1);
    } else {
      assert rest[j-1] in rest;
      MissingIff(applied, files[1..], rest[j-1]);
      var k := NamedBy(files[1..], rest[j-1]);
      Rejoin(files[0]);
      assert Before(files[0], files[k+1]);
    }
  }

  lemma DistinctAppend(a: seq<string>, b: seq<string>)
    requires Distinct(a) && Distinct(b) && forall v | v in b :: v !in a
    ensures Distinct(a + b)
  {
    forall i, j | 0 <= i < j < |a + b| ensures (a + b)[i] != (a + b)[j] {
      if i < |a| <= j {
        assert (a + b)[j] == b[j - |a|] && (a + b)[j] in b;
      }
    }
  }

  /** Adding what is missing makes the table complete and repeats nothing. */
  lemma MissingCompletes(applied: seq<string>, files: seq<string>)
    requires Distinct(applied) && Listing(files)
    ensures Distinct(applied + Missing(applied, files))
    ensures forall i | 0 <= i < |files| :: Version(files[i]) in applied + Missing(applied, files)
  {
    MissingDistinct(applied, files);
    forall v | v in Missing(applied, files) ensures v !in applied {
      MissingIff(applied, files, v);
    }
    DistinctAppend(applied, Missing(applied, files));
    forall i | 0 <= i < |files| ensures Version(files[i]) in applied + Missing(applied, files) {
      MissingIff(applied, files, Version(files[i]));
      assert Versions(files)[i] == Version(files[i]);
    }
  }

  /**
   After any concurrent history of any binaries over any table, a run in which
   nothing fails leaves the table with the versions it lacked appended in order,
   every file applied and no version twice. This covers files that are added
   later and sort before files already applied.
   */
  lemma CleanRunCompletes(start: seq<string>, run: seq<Action>, files: seq<string>, sqlOk: string -> bool)
    requires Distinct(start) && Listing(files) && forall i | 0 <= i < |files| :: sqlOk(files[i])
    ensures var applied := Exec(start, run).applied;
            var result := Migrated(applied, files, sqlOk);
            && result == applied + Missing(applied, files)
            && Distinct(result)
            && (forall i | 0 <= i < |files| :: Version(files[i]) in result)
  {
    var applied := Exec(start, run).applied;
    AppliedOnce(start, run);
    OneRunAppliesMissing(applied, files, sqlOk);
    assert files[..|files|] == files;
    MissingCompletes(applied, files);
  }

  lemma {:induction false} AllMissing(applied: seq<string>, files: seq<string>)
    requires forall i | 0 <= i < |files| :: Version(files[i]) !in applied
    ensures Missing(applied, files) == Versions(files)
  {
    if |files| > 0 {
      AllMissing(applied, files[1..]);
      assert Versions(files) == [Version(files[0])] + Versions(files[1..]);
    }
  }

  /** When exactly the first `n` files are applied, the rest is missing. */
  lemma {:induction false} MissingSplit(applied: seq<string>, files: seq<string>, n: nat)
    requires n <= |files|
    requires forall i | 0 <= i < |files| :: Version(files[i]) in applied <==> i < n
    ensures Missing(applied, files) == Versions(files[n..])
  {
    if n == 0 {
      AllMissing(applied, files);
      assert files[0..] == files;
    } else {
      MissingSplit(applied, files[1..], n - 1);
      assert files[1..][n-1..] == files[n..];
    }
  }

  lemma VersionsJoin(files: seq<string>, n: nat, k: nat)
    requires n <= k <= |files|
    ensures Versions(files)[..n] + Versions(files[n..k]) == Versions(files)[..k]
  {
  }

  /** A table with the first `n` versions lacks, of the first `k` files, exactly the others. */
  lemma MissingInPart(files: seq<string>, n: nat, k: nat)
    requires Listing(files) && n <= k <= |files|
    ensures Versions(files)[..n] + Missing(Versions(files)[..n], files[..k]) == Versions(files)[..k]
  {
    var applied := Versions(files)[..n];
    forall i | 0 <= i < k ensures Version(files[..k][i]) in applied <==> i < n {
      AppliedIffEarly(applied, files, i);
    }
    MissingSplit(applied, files[..k], n);
    assert files[..k][n..] == files[n..k];
    VersionsJoin(files, n, k);
  }

  /** From a prefix of the list one run takes the prefix on to the first failing file. */
  lemma OneRunCompletes(files: seq<string>, n: nat, sqlOk: string -> bool)
    requires Listing(files) && n <= |files|
    ensures var k := Reach(Versions(files)[..n], files, sqlOk);
            n <= k <= |files| && Migrated(Versions(files)[..n], files, sqlOk) == Versions(files)[..k]
  {
    var applied := Versions(files)[..n];
    var k := Reach(applied, files, sqlOk);
    if k < n {
      AppliedIffEarly(applied, files, k);
    }
    OneRunAppliesMissing(applied, files, sqlOk);
    MissingInPart(files, n, k);
  }

  /** After any concurrent history of one binary over a new database, a run in which no file fails leaves exactly its files, in order. */
  lemma RecoveryCompletes(files: seq<string>, run: seq<Action>, sqlOk: string -> bool)
    requires Listing(files) && Uses(run, files) && forall i | 0 <= i < |files| :: sqlOk(files[i])
    ensures Migrated(Exec([], run).applied, files, sqlOk) == Versions(files)
  {
    CommittedIsPrefix(files, run);
    OneRunCompletes(files, |Exec([], run).applied|, sqlOk);
    assert Versions(files)[..|files|] == Versions(files);
  }
}
