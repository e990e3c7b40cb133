/**
 * The two drain loops: internal/sweeper/sweeper.go (one tick of the background
 * reaper) and cmd/sweep.go (the one-shot command). Each calls PurgeExpired until
 * a batch comes back short.
 */
module Sweep {
  import opened Prelude
  import opened Files
  import opened Stores
  import S = Serial
  import opened Serial
  import opened Refinement
  import opened Ledger
  import opened Service

  /** What the environment does around one purge: time passes first, then calls may fail. */
  datatype Round = Round(lag: nat, faults: PurgeFaults)

  function RoundAt(plan: seq<Round>, i: nat): Round {
    if i < |plan| then plan[i] else Round(0, PurgeFaults(true, []))
  }

  /** A purge that can fail: its query, or one of its row removals. */
  predicate CanFail(q: PurgeFaults) {
    !q.queryOk || exists j :: 0 <= j < |q.items| && !q.items[j].rowOk
  }

  /** Some of the first `calls` purges could fail. */
  ghost predicate SomeCanFail(plan: seq<Round>, calls: nat) {
    exists i :: 0 <= i < calls && CanFail(RoundAt(plan, i).faults)
  }

  /** Nothing but removals of rows the sweep query selects by `now`, each of them counted. */
  ghost predicate Removals(before: map<Id, File>, after: map<Id, File>, total: nat, now: Time) {
    && after.Keys <= before.Keys
    && (forall id :: id in after ==> after[id] == before[id])
    && (forall id :: id in before && id !in after ==> SweepSelects(before[id], now))
    && |before| == |after| + total
  }

  /** No row left that a sweep query made at `asked` would select. */
  ghost predicate FullyDrained(rows: map<Id, File>, asked: Time) {
    forall id :: id in rows ==> !SweepSelects(rows[id], asked)
  }

  lemma PickIsSelected(st: Stores, batch: int, picks: seq<Id>, id: Id)
    requires Selection(st, batch, picks)
    ensures id in picks ==> id in st.rows && SweepSelects(st.rows[id], st.now)
    ensures |picks| < batch && id in st.rows && SweepSelects(st.rows[id], st.now) ==> id in picks
  {
    hide SweepSelects;
    if id in picks { assert id in Expirees(st); }
    if id in st.rows && SweepSelects(st.rows[id], st.now) { assert id in Expirees(st); }
  }

  /** The first `n` selected rows are gone. */
  lemma PrefixRemoved(st: Stores, batch: int, picks: seq<Id>, n: nat, rows: map<Id, File>)
    requires Selection(st, batch, picks) && n <= |picks|
    requires rows == st.rows - IdSet(picks[0..n]) && |rows| == |st.rows| - n
    ensures Removals(st.rows, rows, n, st.now)
    ensures n == |picks| < batch ==> FullyDrained(rows, st.now)
  {
    hide SweepSelects, Selection;
    forall id | id in st.rows && id !in rows ensures SweepSelects(st.rows[id], st.now) {
      assert id in picks[0..n];
      PickIsSelected(st, batch, picks, id);
    }
    if n == |picks| < batch {
      assert picks[0..n] == picks;
      forall id | id in rows ensures !SweepSelects(rows[id], st.now) {
        PickIsSelected(st, batch, picks, id);
      }
    }
  }

  /** One call of PurgeExpired, seen by the loop around it. */
  lemma OneRound(st: Stores, batch: int, picks: seq<Id>, q: PurgeFaults)
    requires Queried(batch, q) ==> Selection(st, batch, picks)
    ensures var (s, n, e) := S.Purge(st, batch, picks, q);
      && Removals(st.rows, s.rows, n, st.now)
      && s.now >= st.now
      && (n > 0 ==> n <= batch)
      && (e == None && n < batch ==> FullyDrained(s.rows, st.now))
      && (batch < 0 ==> e != None)
      && (e != None ==> e == Some(Backend) && (batch < 0 || CanFail(q)))
      && (e == None ==> q.queryOk)
  {
    hide SweepSelects, PurgeFrom, Selection, Distinct, Removals, FullyDrained;
    if Queried(batch, q) {
      PicksAreRows(st, batch, picks);
      PurgeRemoves(st, picks, 0, q);
      var (s, n, e) := PurgeFrom(st, picks, 0, q);
      PrefixRemoved(st, batch, picks, n, s.rows);
      FailsAtAnItem(st, picks, 0, q);
    } else {
      NothingRemoved(st.rows, st.now);
    }
  }

  /** The loop of a purge fails exactly at a row removal that does. */
  lemma {:induction false} FailsAtAnItem(st: Stores, picks: seq<Id>, i: nat, q: PurgeFaults)
    requires i <= |picks| && Distinct(picks)
    requires forall j :: i <= j < |picks| ==> picks[j] in st.rows
    ensures var (s, n, e) := PurgeFrom(st, picks, i, q);
      && i <= n <= |picks|
      && (if n == |picks| then e == None else e == Some(Backend) && !ItemFaults(q, n).rowOk)
    decreases |picks| - i
  {
    hide PurgeFrom, Remove;
    if i == |picks| {
      PurgeStops(st, picks, q);
    } else {
      var id, d := picks[i], ItemFaults(q, i);
      PurgeTurns(st, picks, i, q);
      if d.rowOk { FailsAtAnItem(Remove(st, id, st.rows[id].storageKey, d, FileExpired, id), picks, i + 1, q); }
    }
  }

  lemma Compose(a: map<Id, File>, b: map<Id, File>, c: map<Id, File>, n: nat, m: nat, now: Time, later: Time)
    requires now <= later
    requires Removals(a, b, n, now) && Removals(b, c, m, later)
    ensures Removals(a, c, n + m, later)
  {
    hide SweepSelects;
    forall id | id in a && id !in c ensures SweepSelects(a[id], later) {
      if id !in b { SelectedForGood(a[id], now, later); }
    }
  }

  lemma SelectedForGood(row: File, now: Time, later: Time)
    requires now <= later && SweepSelects(row, now)
    ensures SweepSelects(row, later)
  {
  }

  lemma NothingRemoved(rows: map<Id, File>, now: Time)
    ensures Removals(rows, rows, 0, now)
  {
  }

  lemma Shrinks(before: map<Id, File>, after: map<Id, File>, n: nat, now: Time)
    requires Removals(before, after, n, now)
    ensures |before| == |after| + n
  {
  }

  lemma ProductOrder(a: nat, b: nat, c: nat)
    requires a * c < b * c
    ensures a < b
  {
  }

  /** `calls` full batches out of `rows` rows. */
  lemma FullBatches(calls: nat, batch: int, total: nat, rows: nat)
    requires batch >= 1 && calls * batch == total <= rows
    ensures calls <= rows / batch
  {
    ProductOrder(calls, rows / batch + 1, batch);
  }

  class Sweeper {
    const purger: Service
    const batch: int

    constructor (purger: Service, batch: int)
      ensures this.purger == purger && this.batch == batch
    {
      this.purger := purger;
      this.batch := batch;
    }

    /**
     * Nobody else touches the stores meanwhile; `asked` is the time of the last
     * query. A batch of zero is excluded: see ZeroBatchSpins.
     */
    method Sweep(plan: seq<Round>) returns (total: nat, err: Option<Error>, calls: nat, ghost asked: Time)
      requires batch != 0
      modifies purger.repo, purger.store, purger.cache, purger.events, purger.clock
      ensures old(purger.clock.now) <= asked <= purger.clock.now
      ensures Removals(old(purger.repo.rows), purger.repo.rows, total, asked)
      ensures batch >= 1 ==> calls <= |old(purger.repo.rows)| / batch + 1
      ensures err == None ==> FullyDrained(purger.repo.rows, asked)
      ensures batch < 0 ==> err != None && total == 0
      ensures err != None ==> err == Some(Backend) && (batch < 0 || SomeCanFail(plan, calls))
      ensures err == None ==> forall i :: 0 <= i < calls ==> RoundAt(plan, i).faults.queryOk
    {
      hide CanFail, Removals, SweepSelects, FullyDrained, S.Purge;
      total, calls, asked := 0, 0, purger.clock.now;
      NothingRemoved(purger.repo.rows, asked);
      while true
        invariant old(purger.clock.now) <= asked <= purger.clock.now
        invariant Removals(old(purger.repo.rows), purger.repo.rows, total, asked)
        invariant total == calls * batch
        invariant batch < 0 ==> calls == 0
        invariant forall i :: 0 <= i < calls ==> RoundAt(plan, i).faults.queryOk
        decreases |purger.repo.rows|
      {
        var round := RoundAt(plan, calls);
        purger.clock.Pass(round.lag);
        ghost var before := purger.Snap();
        var n, e, picks := purger.PurgeExpired(batch, round.faults);
        OneRound(before, batch, picks, round.faults);
        Compose(old(purger.repo.rows), before.rows, purger.repo.rows, total, n, asked, before.now);
        Shrinks(old(purger.repo.rows), before.rows, total, asked);
        asked := before.now;
        if batch >= 1 { FullBatches(calls, batch, total, |old(purger.repo.rows)|); }
        total := total + n;
        calls := calls + 1;
        if e != None { return total, e, calls, asked; }
        Shrinks(before.rows, purger.repo.rows, n, before.now);
        if n < batch { break; }
      }
      err := None;
    }
  }

  /** `dropcrate sweep`: prints the total, or fails with the error of the purge that failed. */
  method SweepCommand(svc: Service, sweepBatch: int, plan: seq<Round>)
    returns (r: Result<nat, Error>, ghost total: nat, calls: nat, ghost asked: Time)
    requires sweepBatch != 0
    modifies svc.repo, svc.store, svc.cache, svc.events, svc.clock
    ensures old(svc.clock.now) <= asked <= svc.clock.now
    ensures Removals(old(svc.repo.rows), svc.repo.rows, total, asked)
    ensures sweepBatch >= 1 ==> calls <= |old(svc.repo.rows)| / sweepBatch + 1
    ensures r.Ok? ==> r.value == total && FullyDrained(svc.repo.rows, asked)
    ensures sweepBatch < 0 ==> r.Err?
    ensures r.Err? ==> r.error == Backend && (sweepBatch < 0 || SomeCanFail(plan, calls))
    ensures r.Ok? ==> forall i :: 0 <= i < calls ==> RoundAt(plan, i).faults.queryOk
  {
    hide CanFail, Removals, SweepSelects, FullyDrained, S.Purge;
    var sum: nat := 0;
    total, calls, asked := 0, 0, svc.clock.now;
    NothingRemoved(svc.repo.rows, asked);
    while true
      invariant old(svc.clock.now) <= asked <= svc.clock.now
      invariant Removals(old(svc.repo.rows), svc.repo.rows, total, asked)
      invariant sum == total == calls * sweepBatch
      invariant sweepBatch < 0 ==> calls == 0
      invariant forall i :: 0 <= i < calls ==> RoundAt(plan, i).faults.queryOk
      decreases |svc.repo.rows|
    {
      var round := RoundAt(plan, calls);
      svc.clock.Pass(round.lag);
      ghost var before := svc.Snap();
      var n, e, picks := svc.PurgeExpired(sweepBatch, round.faults);
      OneRound(before, sweepBatch, picks, round.faults);
      Compose(old(svc.repo.rows), before.rows, svc.repo.rows, total, n, asked, before.now);
      Shrinks(old(svc.repo.rows), before.rows, total, asked);
      asked := before.now;
      if sweepBatch >= 1 { FullBatches(calls, sweepBatch, total, |old(svc.repo.rows)|); }
      sum := sum + n;
      total := total + n;
      calls := calls + 1;
      if e != None { return Err(e.value), total, calls, asked; }
      Shrinks(before.rows, svc.repo.rows, n, before.now);
      if n < sweepBatch { break; }
    }
    r := Ok(sum);
  }

  /** In these rounds of either loop, whatever the queries answered, it has neither changed anything nor ended. */
  ghost predicate SpinsOn(st: Stores, batch: int, rounds: seq<Round>)
    decreases |rounds|
  {
    rounds != [] ==>
      var late, q := Later(st, rounds[0].lag), rounds[0].faults;
      forall picks | Queried(batch, q) ==> Selection(late, batch, picks) ::
        var (s, n, e) := S.Purge(late, batch, picks, q);
        s == late && e == None && n >= batch && SpinsOn(s, batch, rounds[1..])
  }

  /** With a batch of zero neither loop ever ends nor removes a row, unless a query fails. */
  lemma {:induction false} ZeroBatchSpins(st: Stores, rounds: seq<Round>)
    requires forall i :: 0 <= i < |rounds| ==> rounds[i].faults.queryOk
    ensures SpinsOn(st, 0, rounds)
    decreases |rounds|
  {
    hide Selection;
    if rounds != [] {
      var late, q := Later(st, rounds[0].lag), rounds[0].faults;
      forall picks | Queried(0, q) ==> Selection(late, 0, picks)
        ensures S.Purge(late, 0, picks, q) == (late, 0, None)
      {
        PicksAreRows(late, 0, picks);
      }
      ZeroBatchSpins(late, rounds[1..]);
    }
  }
}
