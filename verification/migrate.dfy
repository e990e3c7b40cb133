/**
 * internal/database/migrate.go: ordered, resumable application of migration
 * files. A schema is any value, a migration body a function on it; a failed Exec
 * has no effect. Between a body and its record in schema_migrations a run can
 * die, so the next run executes that body again.
 */
module Migrations {
  import opened Prelude

  datatype Migration<!S> = Migration(name: string, body: S -> S)

  // ---- filename order ----

  /** Go's order on strings. */
  predicate Less(a: string, b: string) {
    b != "" && (a == "" || a[0] < b[0] || (a[0] == b[0] && Less(a[1..], b[1..])))
  }

  /**
   * The shared prefix decides: a proper prefix comes first, otherwise the smaller
   * character at the first difference.
   */
  ghost predicate Precedes(a: string, b: string) {
    exists n: nat :: SplitAt(a, b, n)
  }

  predicate SplitAt(a: string, b: string, n: nat) {
    n <= |a| && n < |b| && a[..n] == b[..n] && (n == |a| || a[n] < b[n])
  }

  lemma {:induction false} SplitIsLess(a: string, b: string, n: nat)
    requires SplitAt(a, b, n)
    ensures Less(a, b)
    decreases n
  {
    if n > 0 {
      assert a[0] == a[..n][0] && b[0] == b[..n][0];
      assert a[1..][..n - 1] == a[..n][1..] && b[1..][..n - 1] == b[..n][1..];
      SplitIsLess(a[1..], b[1..], n - 1);
    }
  }

  lemma {:induction false} LessIsSplit(a: string, b: string) returns (n: nat)
    requires Less(a, b)
    ensures SplitAt(a, b, n)
    decreases |a|
  {
    n := 0;
    if a != "" && a[0] >= b[0] {
      var m := LessIsSplit(a[1..], b[1..]);
      assert a[..m + 1] == [a[0]] + a[1..][..m] && b[..m + 1] == [b[0]] + b[1..][..m];
      n := m + 1;
    }
  }

  lemma LessIffPrecedes(a: string, b: string)
    ensures Less(a, b) <==> Precedes(a, b)
  {
    hide Less, SplitAt;
    if Less(a, b) { var n := LessIsSplit(a, b); }
    if Precedes(a, b) {
      var n: nat :| SplitAt(a, b, n);
      SplitIsLess(a, b, n);
    }
  }

  lemma {:induction false} LessIsTotal(a: string, b: string)
    ensures Less(a, b) || Less(b, a) || a == b
    ensures !(Less(a, b) && Less(b, a)) && !Less(a, a)
    decreases |a|
  {
    if a != "" {
      LessIsTotal(a[1..], a[1..]);
      if b != "" {
        LessIsTotal(a[1..], b[1..]);
        if a[0] == b[0] && a[1..] == b[1..] {
          assert a == [a[0]] + a[1..] && b == [b[0]] + b[1..];
        }
      }
    }
  }

  lemma {:induction false} LessIsTransitive(a: string, b: string, c: string)
    requires Less(a, b) && Less(b, c)
    ensures Less(a, c)
    decreases |a|
  {
    if a != "" && a[0] == b[0] == c[0] { LessIsTransitive(a[1..], b[1..], c[1..]); }
  }

  ghost predicate Ascending<S>(es: seq<Migration<S>>) {
    forall i, j :: 0 <= i < j < |es| ==> Less(es[i].name, es[j].name)
  }

  function Names<S>(es: seq<Migration<S>>): set<string> {
    set i | 0 <= i < |es| :: es[i].name
  }

  function InsertByName<S>(m: Migration<S>, es: seq<Migration<S>>): seq<Migration<S>> {
    if es == [] || Less(m.name, es[0].name) then [m] + es else [es[0]] + InsertByName(m, es[1..])
  }

  /** sort.Strings over the globbed names. */
  function SortByName<S>(es: seq<Migration<S>>): seq<Migration<S>> {
    if es == [] then [] else InsertByName(es[0], SortByName(es[1..]))
  }

  lemma {:induction false} InsertNames<S>(m: Migration<S>, es: seq<Migration<S>>)
    ensures Names(InsertByName(m, es)) == Names(es) + {m.name}
    decreases |es|
  {
    if es == [] || Less(m.name, es[0].name) {
      NamesOfCons(m, es);
    } else {
      assert es == [es[0]] + es[1..];
      NamesOfCons(es[0], es[1..]);
      InsertNames(m, es[1..]);
      NamesOfCons(es[0], InsertByName(m, es[1..]));
    }
  }

  /** A smaller name before ascending ones. */
  lemma AscendingCons<S>(e: Migration<S>, es: seq<Migration<S>>)
    requires Ascending(es)
    requires forall n :: n in Names(es) ==> Less(e.name, n)
    ensures Ascending([e] + es)
  {
    hide Less;
    var r := [e] + es;
    forall i, j | 0 <= i < j < |r| ensures Less(r[i].name, r[j].name) {
      assert r[j] == es[j - 1] && es[j - 1].name in Names(es);
      if i > 0 { assert r[i] == es[i - 1]; }
    }
  }

  lemma HeadIsLeast<S>(es: seq<Migration<S>>, n: string)
    requires es != [] && Ascending(es) && n in Names(es)
    ensures n == es[0].name || Less(es[0].name, n)
  {
    hide Less;
    var k :| 0 <= k < |es| && es[k].name == n;
  }

  lemma {:induction false} InsertSorts<S>(m: Migration<S>, es: seq<Migration<S>>)
    requires Ascending(es) && m.name !in Names(es)
    ensures Ascending(InsertByName(m, es)) && Names(InsertByName(m, es)) == Names(es) + {m.name}
    decreases |es|
  {
    hide Less;
    InsertNames(m, es);
    if es == [] || Less(m.name, es[0].name) {
      forall n | n in Names(es) ensures Less(m.name, n) {
        HeadIsLeast(es, n);
        if n != es[0].name { LessIsTransitive(m.name, es[0].name, n); }
      }
      AscendingCons(m, es);
    } else {
      var rest := es[1..];
      assert es == [es[0]] + rest;
      NamesOfCons(es[0], rest);
      InsertSorts(m, rest);
      LessIsTotal(m.name, es[0].name);
      forall n | n in Names(InsertByName(m, rest)) ensures Less(es[0].name, n) {
        if n != m.name { TailIsGreater(es, n); }
      }
      AscendingCons(es[0], InsertByName(m, rest));
    }
  }

  lemma TailIsGreater<S>(es: seq<Migration<S>>, n: string)
    requires es != [] && Ascending(es) && n in Names(es[1..])
    ensures Less(es[0].name, n)
  {
    hide Less;
    var k :| 0 <= k < |es| - 1 && es[1..][k].name == n;
    assert es[1..][k] == es[k + 1];
  }

  lemma NamesOfCons<S>(m: Migration<S>, es: seq<Migration<S>>)
    ensures Names([m] + es) == {m.name} + Names(es)
  {
    var r := [m] + es;
    forall n | n in Names(es) ensures n in Names(r) {
      var i :| 0 <= i < |es| && es[i].name == n;
      assert r[i + 1].name == n;
    }
    assert r[0].name in Names(r);
  }

  /** A directory holds no name twice. */
  ghost predicate NoDuplicates<S>(es: seq<Migration<S>>) {
    forall i, j :: 0 <= i < j < |es| ==> es[i].name != es[j].name
  }

  lemma {:induction false} SortIsOrdered<S>(es: seq<Migration<S>>)
    requires NoDuplicates(es)
    ensures Ascending(SortByName(es)) && Names(SortByName(es)) == Names(es)
    decreases |es|
  {
    if es != [] {
      assert es == [es[0]] + es[1..];
      SortIsOrdered(es[1..]);
      InsertSorts(es[0], SortByName(es[1..]));
      NamesOfCons(es[0], es[1..]);
    }
  }

  // ---- one run ----

  datatype StepFaults = StepFaults(readOk: bool, execOk: bool, recordOk: bool)

  datatype Plan = Plan(createOk: bool, globOk: bool, loadOk: bool, steps: seq<StepFaults>)

  function StepAt(p: Plan, i: nat): StepFaults {
    if i < |p.steps| then p.steps[i] else StepFaults(true, true, true)
  }

  /** Recorded versions, schema, and the indices of the bodies executed so far. */
  datatype Db<S> = Db(versions: set<string>, schema: S, executed: seq<nat>)

  /** The loop over the entries from the `i`-th on; `applied` was loaded before it. */
  function ApplyFrom<S>(db: Db<S>, es: seq<Migration<S>>, applied: set<string>, i: nat, p: Plan): (Db<S>, bool)
    requires i <= |es|
    decreases |es| - i
  {
    if i == |es| then (db, true)
    else if es[i].name in applied then ApplyFrom(db, es, applied, i + 1, p)
    else
      var f := StepAt(p, i);
      if !f.readOk || !f.execOk then (db, false)
      else
        var done := db.(schema := es[i].body(db.schema), executed := db.executed + [i]);
        if !f.recordOk then (done, false)
        else ApplyFrom(done.(versions := done.versions + {es[i].name}), es, applied, i + 1, p)
  }

  function RunOnce<S>(db: Db<S>, files: seq<Migration<S>>, p: Plan): (Db<S>, bool) {
    if !p.createOk || !p.globOk || !p.loadOk then (db, false)
    else ApplyFrom(db, SortByName(files), db.versions, 0, p)
  }

  class Database<S> {
    var versions: set<string>
    var schema: S
    ghost var executed: seq<nat>

    constructor (schema: S)
      ensures State() == Db({}, schema, [])
    {
      versions := {};
      this.schema := schema;
      executed := [];
    }

    ghost function State(): Db<S>
      reads this
    {
      Db(versions, schema, executed)
    }

    method AppliedVersions(ok: bool) returns (r: Option<map<string, bool>>)
      ensures r == if ok then Some(map v | v in versions :: true) else None
    {
      if !ok { return None; }
      var applied: map<string, bool> := map[];
      var left := versions;
      while left != {}
        invariant left <= versions && applied == map v | v in versions - left :: true
        decreases left
      {
        var v :| v in left;
        left := left - {v};
        applied := applied[v := true];
      }
      assert versions - left == versions;
      r := Some(applied);
    }

    method Migrate(files: seq<Migration<S>>, p: Plan) returns (ok: bool)
      modifies this
      ensures (State(), ok) == RunOnce(old(State()), files, p)
    {
      if !p.createOk || !p.globOk { return false; }
      var entries := SortByName(files);
      var applied := AppliedVersions(p.loadOk);
      if applied == None { return false; }
      ghost var before := State();
      var i := 0;
      while i < |entries|
        invariant i <= |entries|
        invariant ApplyFrom(State(), entries, before.versions, i, p) ==
                  ApplyFrom(before, entries, before.versions, 0, p)
      {
        var name := entries[i].name;
        if name !in applied.value {
          var f := StepAt(p, i);
          if !f.readOk { return false; }
          if !f.execOk { return false; }
          schema := entries[i].body(schema);
          executed := executed + [i];
          if !f.recordOk { return false; }
          versions := versions + {name};
        }
        i := i + 1;
      }
      ok := true;
    }
  }

  // ---- the executed indices form a staircase ----

  /** From 0 upwards, each index followed by itself or the next, with `k` migrations recorded. */
  ghost predicate Stairs(x: seq<nat>, k: nat) {
    && (x == [] ==> k == 0)
    && (x != [] ==> x[0] == 0 && (x[|x| - 1] == k || x[|x| - 1] + 1 == k))
    && (forall j :: 0 <= j < |x| - 1 ==> x[j + 1] == x[j] || x[j + 1] == x[j] + 1)
  }

  /** The schema after executing the bodies of `x` in order. */
  function Fold<S>(es: seq<Migration<S>>, s: S, x: seq<nat>): S {
    if x == [] then s
    else
      var t := Fold(es, s, x[..|x| - 1]);
      if x[|x| - 1] < |es| then es[x[|x| - 1]].body(t) else t
  }

  /** What every series of runs on one file set, starting from `s`, keeps: the first `k` entries are recorded. */
  ghost predicate OnCourse<S>(db: Db<S>, es: seq<Migration<S>>, s: S, k: nat) {
    && k <= |es|
    && db.versions == Names(es[..k])
    && Stairs(db.executed, k)
    && (db.executed != [] ==> db.executed[|db.executed| - 1] < |es|)
    && db.schema == Fold(es, s, db.executed)
  }

  lemma NamesOfPrefix<S>(es: seq<Migration<S>>, k: nat, i: nat)
    requires Ascending(es) && k <= |es| && i < |es|
    ensures es[i].name in Names(es[..k]) <==> i < k
    ensures k < |es| ==> Names(es[..k + 1]) == Names(es[..k]) + {es[k].name}
  {
    if i < k { assert es[..k][i] == es[i]; }
    if i >= k {
      forall j | 0 <= j < k ensures es[..k][j].name != es[i].name { LessIsTotal(es[j].name, es[i].name); }
    }
    if k < |es| {
      assert es[..k + 1] == es[..k] + [es[k]];
      forall n | n in Names(es[..k]) ensures n in Names(es[..k + 1]) {
        var j :| 0 <= j < k && es[..k][j].name == n;
        assert es[..k + 1][j].name == n;
      }
      assert es[..k + 1][k] == es[k];
    }
  }

  lemma {:induction false} SkipsApplied<S>(db: Db<S>, es: seq<Migration<S>>, k: nat, i: nat, p: Plan)
    requires Ascending(es) && i <= k <= |es|
    ensures ApplyFrom(db, es, Names(es[..k]), i, p) == ApplyFrom(db, es, Names(es[..k]), k, p)
    decreases k - i
  {
    if i < k {
      NamesOfPrefix(es, k, i);
      SkipsApplied(db, es, k, i + 1, p);
    }
  }

  lemma StairsGrow(x: seq<nat>, k: nat)
    requires Stairs(x, k)
    ensures Stairs(x + [k], k) && Stairs(x + [k], k + 1)
  {
  }

  /** Executing the `k`-th body keeps the staircase, whether or not it gets recorded. */
  lemma ExecKeeps<S>(db: Db<S>, es: seq<Migration<S>>, s: S, k: nat)
    requires OnCourse(db, es, s, k) && k < |es| && Ascending(es)
    ensures var done := db.(schema := es[k].body(db.schema), executed := db.executed + [k]);
      && OnCourse(done, es, s, k)
      && OnCourse(done.(versions := done.versions + {es[k].name}), es, s, k + 1)
  {
    hide Stairs, Names;
    NamesOfPrefix(es, k, k);
    StairsGrow(db.executed, k);
    assert (db.executed + [k])[..|db.executed|] == db.executed;
  }

  lemma {:induction false} ApplyAdvances<S>(db: Db<S>, es: seq<Migration<S>>, applied: set<string>, s: S, k0: nat,
                                            k: nat, p: Plan)
    returns (m: nat)
    requires Ascending(es) && OnCourse(db, es, s, k)
    requires k0 <= k && applied == Names(es[..k0])
    ensures k <= m
    ensures var (after, ok) := ApplyFrom(db, es, applied, k, p);
      && OnCourse(after, es, s, m) && (ok ==> m == |es|)
      && db.executed <= after.executed
    decreases |es| - k
  {
    hide Stairs, Names, Fold, Less;
    m := k;
    if k < |es| {
      NamesOfPrefix(es, k0, k);
      var f := StepAt(p, k);
      if f.readOk && f.execOk {
        ExecKeeps(db, es, s, k);
        if f.recordOk {
          var done := db.(schema := es[k].body(db.schema), executed := db.executed + [k]);
          m := ApplyAdvances(done.(versions := done.versions + {es[k].name}), es, applied, s, k0, k + 1, p);
        }
      }
    }
  }

  /** One run, failing anywhere: the recorded versions remain a prefix, and no shorter one. */
  lemma RunAdvances<S>(db: Db<S>, files: seq<Migration<S>>, s: S, k: nat, p: Plan) returns (m: nat)
    requires NoDuplicates(files) && OnCourse(db, SortByName(files), s, k)
    ensures k <= m
    ensures var (after, ok) := RunOnce(db, files, p);
      && OnCourse(after, SortByName(files), s, m) && (ok ==> m == |SortByName(files)|)
      && db.executed <= after.executed
  {
    var es := SortByName(files);
    SortIsOrdered(files);
    m := k;
    if p.createOk && p.globOk && p.loadOk {
      SkipsApplied(db, es, k, 0, p);
      m := ApplyAdvances(db, es, db.versions, s, k, k, p);
    }
  }

  // ---- where a run stops ----

  /** All goes well at entry `i`. */
  predicate StepOk(p: Plan, i: nat) {
    var f := StepAt(p, i);
    f.readOk && f.execOk && f.recordOk
  }

  /** The indices from `k` up to `m`. */
  function Range(k: nat, m: nat): seq<nat>
    requires k <= m
    decreases m - k
  {
    if k == m then [] else [k] + Range(k + 1, m)
  }

  /** The run went through the entries from `k` up to `m`, and stopped there at a failing step unless `m` is the end. */
  ghost predicate StopsAt<S>(db: Db<S>, es: seq<Migration<S>>, k: nat, m: nat, p: Plan, after: Db<S>, ok: bool) {
    && k <= m <= |es|
    && (forall i :: k <= i < m ==> StepOk(p, i))
    && (m < |es| ==> !StepOk(p, m))
    && (ok <==> m == |es|)
    && after.versions == db.versions + Names(es[k..m])
    && (var f := StepAt(p, m);
        after.executed == db.executed + Range(k, m) + if m < |es| && f.readOk && f.execOk then [m] else [])
  }

  lemma {:induction false} ApplyStops<S>(db: Db<S>, es: seq<Migration<S>>, applied: set<string>, k: nat, p: Plan)
    returns (m: nat)
    requires k <= |es| && forall j :: k <= j < |es| ==> es[j].name !in applied
    ensures var (after, ok) := ApplyFrom(db, es, applied, k, p); StopsAt(db, es, k, m, p, after, ok)
    decreases |es| - k
  {
    hide Names;
    m := k;
    assert es[k..k] == [];
    NamesOfNone<S>();
    if k < |es| && StepOk(p, k) {
      var done := db.(schema := es[k].body(db.schema), executed := db.executed + [k]);
      var next := done.(versions := done.versions + {es[k].name});
      m := ApplyStops(next, es, applied, k + 1, p);
      assert es[k..m] == [es[k]] + es[k + 1..m];
      NamesOfCons(es[k], es[k + 1..m]);
    }
  }

  lemma NamesOfNone<S>()
    ensures Names<S>([]) == {}
  {
  }

  /**
   * One run, exactly: if it gets to read the recorded versions, it executes and
   * records the entries from the first unrecorded one on, up to the first one at
   * which a step fails, and succeeds if and only if there is none.
   */
  lemma RunStopsAtFault<S>(db: Db<S>, files: seq<Migration<S>>, s: S, k: nat, p: Plan) returns (m: nat)
    requires NoDuplicates(files) && OnCourse(db, SortByName(files), s, k)
    ensures var (after, ok) := RunOnce(db, files, p);
            if p.createOk && p.globOk && p.loadOk then StopsAt(db, SortByName(files), k, m, p, after, ok)
            else after == db && !ok
  {
    hide Stairs, Names, SortByName, Fold, Less;
    var es := SortByName(files);
    SortIsOrdered(files);
    m := k;
    if p.createOk && p.globOk && p.loadOk {
      SkipsApplied(db, es, k, 0, p);
      forall j | k <= j < |es| ensures es[j].name !in db.versions { NamesOfPrefix(es, k, j); }
      m := ApplyStops(db, es, db.versions, k, p);
    }
  }

  // ---- series of runs ----

  /** The database after a series of runs, and whether the last one succeeded. */
  function RunAll<S>(db: Db<S>, files: seq<Migration<S>>, ps: seq<Plan>): (Db<S>, bool)
    decreases |ps|
  {
    if ps == [] then (db, false)
    else
      var (before, _) := RunAll(db, files, ps[..|ps| - 1]);
      RunOnce(before, files, ps[|ps| - 1])
  }

  /** However runs fail, versions are a prefix of the sorted names and the executed indices a staircase. */
  lemma {:induction false} SeriesStaysOnCourse<S>(files: seq<Migration<S>>, s: S, ps: seq<Plan>) returns (k: nat)
    requires NoDuplicates(files)
    ensures var (db, ok) := RunAll(Db({}, s, []), files, ps);
            OnCourse(db, SortByName(files), s, k) && (ok ==> k == |SortByName(files)|)
    decreases |ps|
  {
    if ps == [] {
      k := 0;
      assert Names(SortByName(files)[..0]) == {};
    } else {
      k := SeriesStaysOnCourse(files, s, ps[..|ps| - 1]);
      var before := RunAll(Db({}, s, []), files, ps[..|ps| - 1]).0;
      k := RunAdvances(before, files, s, k, ps[|ps| - 1]);
    }
  }

  /** The schema after the first `n` bodies, each executed once. */
  function CleanSchema<S>(es: seq<Migration<S>>, s: S, n: nat): S
    requires n <= |es|
  {
    if n == 0 then s else es[n - 1].body(CleanSchema(es, s, n - 1))
  }

  /** Repeating a body on the very schema it has just left changes nothing. */
  ghost predicate Repeatable<S>(es: seq<Migration<S>>, s: S) {
    forall i :: 0 <= i < |es| ==> es[i].body(CleanSchema(es, s, i + 1)) == CleanSchema(es, s, i + 1)
  }

  /** The schema is the one a clean run has after its body executed last. */
  ghost predicate AtCleanPoint<S>(db: Db<S>, es: seq<Migration<S>>, s: S) {
    && (db.executed == [] ==> db.schema == s)
    && (db.executed != [] ==>
          var last := db.executed[|db.executed| - 1];
          last < |es| && db.schema == CleanSchema(es, s, last + 1))
  }

  /** Repeats on a staircase of repeatable bodies collapse. */
  lemma {:induction false} StairsCollapse<S>(es: seq<Migration<S>>, s: S, x: seq<nat>, k: nat)
    requires Repeatable(es, s) && Stairs(x, k)
    requires x != [] && x[|x| - 1] < |es|
    ensures Fold(es, s, x) == CleanSchema(es, s, x[|x| - 1] + 1)
    decreases |x|
  {
    var front, last := x[..|x| - 1], x[|x| - 1];
    if front == [] {
      assert Fold(es, s, front) == s && CleanSchema(es, s, 0) == s;
    } else {
      var prev := front[|front| - 1];
      assert x[|front| - 1 + 1] == last;
      StairsCollapse(es, s, front, prev + 1);
      if prev == last {
        assert es[last].body(CleanSchema(es, s, last + 1)) == CleanSchema(es, s, last + 1);
      }
    }
  }

  /** Nothing fails. */
  const SMOOTH := Plan(true, true, true, [])

  lemma {:induction false} SmoothRunSucceeds<S>(db: Db<S>, es: seq<Migration<S>>, applied: set<string>, i: nat)
    requires i <= |es|
    ensures ApplyFrom(db, es, applied, i, SMOOTH).1
    decreases |es| - i
  {
    if i < |es| {
      var done := db.(schema := es[i].body(db.schema), executed := db.executed + [i]);
      var recorded := done.(versions := done.versions + {es[i].name});
      SmoothRunSucceeds(if es[i].name in applied then db else recorded, es, applied, i + 1);
    }
  }

  /** The database after a series of runs on a new one. */
  function Migrated<S>(files: seq<Migration<S>>, s: S, ps: seq<Plan>): (Db<S>, bool) {
    RunAll(Db({}, s, []), files, ps)
  }

  /** Fails to record the body of entry `i`, and nothing else. */
  function LoseAt(i: nat): Plan {
    Plan(true, true, true, seq(i + 1, j => StepFaults(true, true, j != i)))
  }

  /** A run from a clean point at `k` under LoseAt stops after body `i`, with the entries before it recorded. */
  lemma {:induction false} LosesRecord<S>(db: Db<S>, es: seq<Migration<S>>, applied: set<string>, s: S, k: nat, i: nat)
    requires Ascending(es) && k <= i < |es|
    requires forall j :: k <= j <= i ==> es[j].name !in applied
    requires db.versions == Names(es[..k]) && db.schema == CleanSchema(es, s, k)
    ensures var (after, ok) := ApplyFrom(db, es, applied, k, LoseAt(i));
      && !ok && after.versions == Names(es[..i]) && after.schema == CleanSchema(es, s, i + 1)
      && |after.executed| > 0 && after.executed[|after.executed| - 1] == i
    decreases i - k
  {
    hide Names, Less;
    assert StepAt(LoseAt(i), k) == StepFaults(true, true, k != i);
    NamesOfPrefix(es, k, k);
    if k < i {
      var done := db.(schema := es[k].body(db.schema), executed := db.executed + [k]);
      LosesRecord(done.(versions := done.versions + {es[k].name}), es, applied, s, k + 1, i);
    }
  }

  /** A first run that loses the record of entry `i`. */
  lemma FirstLoss<S>(files: seq<Migration<S>>, s: S, i: nat)
    requires NoDuplicates(files) && i < |SortByName(files)|
    ensures var es, db := SortByName(files), Migrated(files, s, [LoseAt(i)]).0;
      && db.versions == Names(es[..i]) && db.schema == CleanSchema(es, s, i + 1)
  {
    var es, p := SortByName(files), LoseAt(i);
    SortIsOrdered(files);
    assert Names(es[..0]) == {};
    LosesRecord(Db({}, s, []), es, {}, s, 0, i);
    assert [p][..0] == [];
    assert RunAll(Db({}, s, []), files, [p]) == RunOnce(Db({}, s, []), files, p);
  }

  /** Losing the record of entry `i` twice executes its body twice. */
  lemma SecondLoss<S>(files: seq<Migration<S>>, s: S, i: nat)
    requires NoDuplicates(files) && i < |SortByName(files)|
    ensures var es, db := SortByName(files), Migrated(files, s, [LoseAt(i), LoseAt(i)]).0;
      && db.schema == es[i].body(CleanSchema(es, s, i + 1))
      && |db.executed| > 0 && db.executed[|db.executed| - 1] == i
  {
    var es, p := SortByName(files), LoseAt(i);
    SortIsOrdered(files);
    FirstLoss(files, s, i);
    var db := Migrated(files, s, [p]).0;
    SkipsApplied(db, es, i, 0, p);
    NamesOfPrefix(es, i, i);
    assert StepAt(p, i) == StepFaults(true, true, false);
    assert [p, p][..1] == [p];
    assert Migrated(files, s, [p, p]) == RunOnce(db, files, p);
  }

  ghost predicate SeriesIsClean<S>(files: seq<Migration<S>>, s: S, ps: seq<Plan>) {
    AtCleanPoint(Migrated(files, s, ps).0, SortByName(files), s)
  }

  /**
   * Resumability, exactly: every series of runs, however it fails, leaves the
   * schema a clean run has at that point, if and only if every body is repeatable
   * where a clean run executes it.
   */
  lemma ResumesCleanlyIff<S>(files: seq<Migration<S>>, s: S)
    requires NoDuplicates(files)
    ensures (forall ps :: SeriesIsClean(files, s, ps)) <==> Repeatable(SortByName(files), s)
  {
    var es := SortByName(files);
    if Repeatable(es, s) {
      forall ps ensures SeriesIsClean(files, s, ps) {
        var k := SeriesStaysOnCourse(files, s, ps);
        var db := Migrated(files, s, ps).0;
        if db.executed != [] { StairsCollapse(es, s, db.executed, k); }
      }
    } else {
      var i :| 0 <= i < |es| && es[i].body(CleanSchema(es, s, i + 1)) != CleanSchema(es, s, i + 1);
      SecondLoss(files, s, i);
      assert !SeriesIsClean(files, s, [LoseAt(i), LoseAt(i)]);
    }
  }

  lemma SuccessIsClean<S>(files: seq<Migration<S>>, s: S, ps: seq<Plan>)
    requires NoDuplicates(files) && Repeatable(SortByName(files), s)
    requires Migrated(files, s, ps).1
    ensures var es, db := SortByName(files), Migrated(files, s, ps).0;
            db.versions == Names(files) && db.schema == CleanSchema(es, s, |es|)
  {
    hide SortByName, RunAll, Names, Less;
    var es, db := SortByName(files), Migrated(files, s, ps).0;
    SortIsOrdered(files);
    var k := SeriesStaysOnCourse(files, s, ps);
    assert es[..|es|] == es;
    if es != [] { StairsCollapse(es, s, db.executed, k); }
  }

  /**
   * Convergence: with such bodies, any series of runs ending in success leaves
   * versions and schema as a single run in which nothing fails.
   */
  lemma MigrationConverges<S>(files: seq<Migration<S>>, s: S, ps: seq<Plan>)
    requires NoDuplicates(files) && Repeatable(SortByName(files), s)
    requires Migrated(files, s, ps).1
    ensures var (db, clean) := (Migrated(files, s, ps).0, RunOnce(Db({}, s, []), files, SMOOTH));
            clean.1 && db.versions == clean.0.versions && db.schema == clean.0.schema
  {
    SuccessIsClean(files, s, ps);
    SmoothRunSucceeds(Db({}, s, []), SortByName(files), {}, 0);
    assert [SMOOTH][..0] == [];
    assert RunAll(Db({}, s, []), files, [SMOOTH]) == RunOnce(Db({}, s, []), files, SMOOTH);
    SuccessIsClean(files, s, [SMOOTH]);
  }

  ghost predicate Idempotent<S(!new)>(es: seq<Migration<S>>) {
    forall i, s :: 0 <= i < |es| ==> es[i].body(es[i].body(s)) == es[i].body(s)
  }

  /** Bodies that are idempotent on every schema are repeatable from any start. */
  lemma IdempotentConverges<S(!new)>(files: seq<Migration<S>>, s: S, ps: seq<Plan>)
    requires NoDuplicates(files) && Idempotent(SortByName(files))
    requires Migrated(files, s, ps).1
    ensures var (db, clean) := (Migrated(files, s, ps).0, RunOnce(Db({}, s, []), files, SMOOTH));
            clean.1 && db.versions == clean.0.versions && db.schema == clean.0.schema
  {
    var es := SortByName(files);
    forall i | 0 <= i < |es| ensures es[i].body(CleanSchema(es, s, i + 1)) == CleanSchema(es, s, i + 1) {
      assert CleanSchema(es, s, i + 1) == es[i].body(CleanSchema(es, s, i));
    }
    MigrationConverges(files, s, ps);
  }

  // ---- every release of the files ----

  lemma {:induction false} SortedStays<S>(es: seq<Migration<S>>)
    requires Ascending(es)
    ensures SortByName(es) == es
    decreases |es|
  {
    if es != [] {
      SortedStays(es[1..]);
      if |es| > 1 { assert Less(es[0].name, es[1].name); }
    }
  }

  lemma {:induction false} CleanOfPrefix<S>(es: seq<Migration<S>>, s: S, k: nat, n: nat)
    requires n <= k <= |es|
    ensures CleanSchema(es[..k], s, n) == CleanSchema(es, s, n)
    decreases n
  {
    if n > 0 { CleanOfPrefix(es, s, k, n - 1); }
  }

  lemma AscendingIsFree<S>(es: seq<Migration<S>>)
    requires Ascending(es)
    ensures NoDuplicates(es)
  {
    forall i, j | 0 <= i < j < |es| ensures es[i].name != es[j].name { LessIsTotal(es[i].name, es[j].name); }
  }

  /** A series on the first `k` files, if it ends in success, ends with the schema of a clean run on them. */
  ghost predicate ReleaseConverges<S>(es: seq<Migration<S>>, s: S, k: nat, ps: seq<Plan>)
    requires k <= |es|
  {
    Migrated(es[..k], s, ps).1 ==> Migrated(es[..k], s, ps).0.schema == CleanSchema(es, s, k)
  }

  /** On a release that ends with entry `i`, losing its record once makes the next run repeat its body. */
  lemma LostRecordRepeats<S>(es: seq<Migration<S>>, s: S, i: nat)
    requires Ascending(es) && i < |es|
    ensures var (db, ok) := Migrated(es[..i + 1], s, [LoseAt(i), SMOOTH]);
            ok && db.schema == es[i].body(CleanSchema(es, s, i + 1))
  {
    hide Less, Names, SortByName;
    var fs := es[..i + 1];
    SortedStays(fs);
    AscendingIsFree(fs);
    FirstLoss(fs, s, i);
    CleanOfPrefix(es, s, i + 1, i + 1);
    var db := Migrated(fs, s, [LoseAt(i)]).0;
    SkipsApplied(db, fs, i, 0, SMOOTH);
    NamesOfPrefix(fs, i, i);
    assert [LoseAt(i), SMOOTH][..1] == [LoseAt(i)];
    assert Migrated(fs, s, [LoseAt(i), SMOOTH]) == RunOnce(db, fs, SMOOTH);
    var done := db.(schema := fs[i].body(db.schema), executed := db.executed + [i]);
    assert StepAt(SMOOTH, i) == StepFaults(true, true, true);
    assert ApplyFrom(db, fs, db.versions, i, SMOOTH) == (done.(versions := done.versions + {fs[i].name}), true);
  }

  /**
   * Convergence, exactly: on every release, which is to say on every prefix of the
   * sorted files, each series of runs ending in success leaves the schema of one
   * clean run, if and only if every body is repeatable where a clean run executes
   * it.
   */
  lemma ConvergesIff<S>(es: seq<Migration<S>>, s: S)
    requires Ascending(es)
    ensures (forall k: nat, ps :: k <= |es| ==> ReleaseConverges(es, s, k, ps)) <==> Repeatable(es, s)
  {
    if Repeatable(es, s) {
      forall k: nat, ps | k <= |es| ensures ReleaseConverges(es, s, k, ps) {
        RepeatablePrefix(es, s, k);
        SortedStays(es[..k]);
        AscendingIsFree(es[..k]);
        CleanOfPrefix(es, s, k, k);
        if Migrated(es[..k], s, ps).1 { SuccessIsClean(es[..k], s, ps); }
      }
    } else {
      var i :| 0 <= i < |es| && es[i].body(CleanSchema(es, s, i + 1)) != CleanSchema(es, s, i + 1);
      LostRecordRepeats(es, s, i);
      assert !ReleaseConverges(es, s, i + 1, [LoseAt(i), SMOOTH]);
    }
  }

  lemma RepeatablePrefix<S>(es: seq<Migration<S>>, s: S, k: nat)
    requires Repeatable(es, s) && k <= |es|
    ensures Repeatable(es[..k], s)
  {
    forall i | 0 <= i < k ensures es[..k][i].body(CleanSchema(es[..k], s, i + 1)) == CleanSchema(es[..k], s, i + 1) {
      CleanOfPrefix(es, s, k, i + 1);
      assert es[i].body(CleanSchema(es, s, i + 1)) == CleanSchema(es, s, i + 1);
    }
  }
}
