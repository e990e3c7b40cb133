/**
 * How long a removed file can still be answered from the cache: entries for it
 * are only ever set by calls that read or inserted its row while it existed, and
 * once no such call is in flight the last entry is gone after one cache TTL.
 */
module Staleness {
  import opened Files
  import opened Stores
  import opened Machine
  import opened Invariant
  import opened Guarantees

  /** The thread is about to cache a record of `id`. */
  predicate SetPending(th: Thread, id: Id) {
    (th.UpSet? && th.f.id == id) || (th.LkSet? && th.id == id)
  }

  /** The file existed once and its row is gone. */
  predicate Removed(w: World, id: Id) {
    id in w.hist.inserted && id !in w.st.rows
  }

  predicate SameEntry(w: World, v: World, id: Id) {
    id in v.st.cache ==> id in w.st.cache && v.st.cache[id] == w.st.cache[id]
  }

  /** No call is about to cache a record of the removed file. */
  ghost predicate Settled(w: World, id: Id) {
    Removed(w, id) && forall t :: t in w.threads ==> !SetPending(w.threads[t], id)
  }

  // ---- one step ----

  /** What happens to rows and cache of a removed id in a step of one thread. */
  ghost predicate Retreats(w: World, v: World, t: Tid, id: Id) {
    && t in w.threads && t in v.threads
    && Removed(v, id)
    && (SetPending(v.threads[t], id) ==> SetPending(w.threads[t], id))
    && (!SetPending(w.threads[t], id) ==> SameEntry(w, v, id))
  }

  lemma UploadRetreats(cfg: Config, w: World, t: Tid, ok: bool, id: Id)
    requires Inv(cfg, w) && Removed(w, id)
    requires t in w.threads && InUpload(w.threads[t])
    requires w.threads[t].UpPut? && ok ==> Taken(w.threads[t].input).Some?
    ensures Retreats(w, MoveUpload(cfg, w, t, ok), t, id)
  {
    hide ThreadsOk, RowsOk, InsertedOk, BlobsOk, CacheOk, HistoryOk, KeyOf, IdOf, ThreadOk, Sound;
    MoverOk(cfg, w, t);
    if w.threads[t].UpInsert? { DraftFacts(cfg, w, t, w.threads[t]); }
  }

  lemma LookupRetreats(cfg: Config, w: World, t: Tid, ok: bool, id: Id)
    requires Inv(cfg, w) && Removed(w, id)
    requires t in w.threads && InLookup(w.threads[t])
    ensures Retreats(w, MoveLookup(cfg, w, t, ok), t, id)
  {
    hide ThreadsOk, RowsOk, InsertedOk, BlobsOk, CacheOk, HistoryOk, KeyOf, IdOf,
      UploadThreadOk, DeleteThreadOk, PurgeThreadOk;
    MoverOk(cfg, w, t);
  }

  lemma DeleteRetreats(w: World, t: Tid, ok: bool, id: Id)
    requires Removed(w, id)
    requires t in w.threads && InDelete(w.threads[t])
    ensures Retreats(w, MoveDelete(w, t, ok), t, id)
  {
    hide KeyOf, IdOf;
  }

  lemma PurgeRetreats(w: World, t: Tid, ok: bool, picks: seq<Id>, id: Id)
    requires Removed(w, id)
    requires t in w.threads && InPurge(w.threads[t])
    requires w.threads[t].PgQuery? && ok ==> Selection(w.st, w.threads[t].batch, picks)
    ensures Retreats(w, MovePurge(w, t, ok, picks), t, id)
  {
    hide KeyOf, IdOf;
  }

  /**
   * Once a row is gone it stays gone, no call starts to cache its record any
   * more, and an entry changes only by the hand of a call that was already about
   * to set it.
   */
  lemma RemovedStep(cfg: Config, w: World, a: Action, id: Id)
    requires Inv(cfg, w) && Removed(w, id)
    requires Enabled(cfg, w, a)
    ensures var v := Next(cfg, w, a);
      && Removed(v, id)
      && (forall t :: t in v.threads && SetPending(v.threads[t], id) ==> t in w.threads && SetPending(w.threads[t], id))
      && (SameEntry(w, v, id) || (a.Move? && SetPending(w.threads[a.t], id)))
  {
    hide Inv, MoveUpload, MoveLookup, MoveDelete, MovePurge, Selection, KeyOf, IdOf, NewRecord;
    if a.Move? {
      var t := a.t;
      var th, v := w.threads[t], Next(cfg, w, a);
      assert Retreats(w, v, t, id) by {
        if InUpload(th) { UploadRetreats(cfg, w, t, a.ok, id); }
        else if InLookup(th) { LookupRetreats(cfg, w, t, a.ok, id); }
        else if InDelete(th) { DeleteRetreats(w, t, a.ok, id); }
        else { PurgeRetreats(w, t, a.ok, a.picks, id); }
      }
      forall s | s in v.threads && SetPending(v.threads[s], id) ensures s in w.threads && SetPending(w.threads[s], id) {
        if s != t { OthersStand(cfg, w, a, s); }
      }
    }
  }

  // ---- whole runs ----

  lemma {:induction false} SettledRun(cfg: Config, w: World, acts: seq<Action>, v: World, id: Id)
    requires Inv(cfg, w)
    requires Settled(w, id)
    requires Leads(cfg, w, acts, v)
    ensures Settled(v, id) && SameEntry(w, v, id)
    decreases |acts|
  {
    hide Inv, Enabled, Next, SetPending;
    if acts != [] {
      RemovedStep(cfg, w, acts[0], id);
      if acts[0].Move? { EnabledMoves(cfg, w, acts[0]); }
      StepKeeps(cfg, w, acts[0]);
      SettledRun(cfg, Next(cfg, w, acts[0]), acts[1..], v, id);
    }
  }

  lemma EnabledMoves(cfg: Config, w: World, a: Action)
    requires Enabled(cfg, w, a) && a.Move?
    ensures a.t in w.threads
  {
  }

  /** No entry outlives the clock by more than the cache TTL. */
  ghost predicate LapsesSoon(cfg: Config, w: World) {
    forall id :: id in w.st.cache ==>
      w.st.cache[id].lapse.Some? && w.st.cache[id].lapse.value <= w.st.now + cfg.cacheTTL
  }

  lemma LapsesStep(cfg: Config, w: World, a: Action)
    requires cfg.cacheTTL > 0 && LapsesSoon(cfg, w)
    requires Enabled(cfg, w, a)
    ensures LapsesSoon(cfg, Next(cfg, w, a))
  {
    hide Selection, NewRecord, KeyOf, IdOf, Oversized, Taken, PurgeLoop, DeleteEnds;
  }

  lemma {:induction false} LapsesRun(cfg: Config, w: World, acts: seq<Action>, v: World)
    requires cfg.cacheTTL > 0 && LapsesSoon(cfg, w)
    requires Leads(cfg, w, acts, v)
    ensures LapsesSoon(cfg, v)
    decreases |acts|
  {
    hide Enabled, Next, LapsesSoon;
    if acts != [] {
      LapsesStep(cfg, w, acts[0]);
      LapsesRun(cfg, Next(cfg, w, acts[0]), acts[1..], v);
    }
  }

  /** The thread is not a lookup that holds a record of `id` or has answered with one. */
  predicate Unanswered(th: Thread, id: Id) {
    !((th.LkSet? || th.LkCheck? || th.LkFetch? || th.LkFound? || th.LkDownloaded? || th.LkNoBlob?) && th.id == id)
  }

  lemma UnansweredStep(cfg: Config, w: World, a: Action, t: Tid, id: Id)
    requires Enabled(cfg, w, a)
    requires Removed(w, id) && !Live(w.st, id)
    requires t in w.threads ==> Unanswered(w.threads[t], id)
    ensures t in Next(cfg, w, a).threads ==> Unanswered(Next(cfg, w, a).threads[t], id)
  {
    hide Selection, NewRecord, KeyOf, IdOf, Oversized, Taken, MoveUpload, MovePurge;
    if a.Move? {
      if a.t != t { OthersStand(cfg, w, a, t); }
      else if InUpload(w.threads[t]) { UploadsStayUploads(cfg, w, t, a.ok); }
      else if !InLookup(w.threads[t]) && !InDelete(w.threads[t]) { PurgesStayPurges(w, t, a.ok, a.picks); }
    }
  }

  lemma UploadsStayUploads(cfg: Config, w: World, t: Tid, ok: bool)
    requires t in w.threads && InUpload(w.threads[t])
    requires w.threads[t].UpPut? && ok ==> Taken(w.threads[t].input).Some?
    ensures var v := MoveUpload(cfg, w, t, ok);
            t in v.threads && (InUpload(v.threads[t]) || v.threads[t].UpReturned? || v.threads[t].UpFailed?)
  {
  }

  lemma PurgesStayPurges(w: World, t: Tid, ok: bool, picks: seq<Id>)
    requires t in w.threads && InPurge(w.threads[t])
    requires w.threads[t].PgQuery? && ok ==> Selection(w.st, w.threads[t].batch, picks)
    ensures var v := MovePurge(w, t, ok, picks); t in v.threads && (InPurge(v.threads[t]) || v.threads[t].PgReturned?)
  {
  }

  lemma {:induction false} UnansweredRun(cfg: Config, w: World, acts: seq<Action>, v: World, t: Tid, id: Id,
                                         deadline: Time)
    requires Inv(cfg, w) && Settled(w, id)
    requires id in w.st.cache ==> w.st.cache[id].lapse.Some? && w.st.cache[id].lapse.value <= deadline
    requires w.st.now > deadline
    requires Leads(cfg, w, acts, v)
    requires t in w.threads ==> Unanswered(w.threads[t], id)
    ensures t in v.threads ==> Unanswered(v.threads[t], id)
    decreases |acts|
  {
    hide Inv, Enabled, Next, SetPending, Unanswered;
    if acts != [] {
      var u := Next(cfg, w, acts[0]);
      UnansweredStep(cfg, w, acts[0], t, id);
      SettledRun(cfg, w, [acts[0]], u, id);
      StepKeeps(cfg, w, acts[0]);
      StepGrows(cfg, w, acts[0]);
      UnansweredRun(cfg, u, acts[1..], v, t, id, deadline);
    }
  }

  /**
   * Bounded staleness. With a positive cache TTL, take a world in which the row
   * of `id` is gone and no call is about to cache its record. One TTL later no
   * entry for it is live, and a lookup begun from then on never finds the file,
   * in any continuation.
   */
  lemma BoundedStaleness(cfg: Config, w: World, first: seq<Action>, v: World, more: seq<Action>, x: World, t: Tid,
                         id: Id)
    requires cfg.cacheTTL > 0
    requires Reachable(cfg, w)
    requires Settled(w, id)
    requires Leads(cfg, w, first, v) && v.st.now > w.st.now + cfg.cacheTTL
    requires Leads(cfg, v, more, x)
    ensures Settled(v, id) && !Live(v.st, id)
    ensures Settled(x, id) && !Live(x.st, id)
    ensures t in x.threads && t !in v.threads ==> Unanswered(x.threads[t], id)
  {
    hide Inv, Unanswered, SetPending;
    ReachableInv(cfg, w);
    var start: Time, acts :| Leads(cfg, Initial(start), acts, w);
    LapsesRun(cfg, Initial(start), acts, w);
    SettledRun(cfg, w, first, v, id);
    RunKeeps(cfg, w, first, v);
    SettledRun(cfg, v, more, x, id);
    RunGrows(cfg, v, more, x);
    if t !in v.threads { UnansweredRun(cfg, v, more, x, t, id, w.st.now + cfg.cacheTTL); }
  }

  /**
   * "Cached implies stored", exactly: after the row of `id` is gone its record can
   * still be, or become, a live entry if and only if it is one now or some call is
   * about to cache it.
   */
  lemma StaleEntryIff(cfg: Config, w: World, id: Id)
    requires Reachable(cfg, w) && Removed(w, id)
    ensures (exists v :: Reaches(cfg, w, v) && Live(v.st, id)) <==>
            Live(w.st, id) || exists t :: t in w.threads && SetPending(w.threads[t], id)
  {
    hide Inv, Live, SetPending, KeyOf, IdOf;
    ReachableInv(cfg, w);
    if Live(w.st, id) {
      var acts, v := Stays(cfg, w);
      assert Reaches(cfg, w, v) && Live(v.st, id);
    } else if exists t :: t in w.threads && SetPending(w.threads[t], id) {
      var t :| t in w.threads && SetPending(w.threads[t], id);
      var acts, v := Caches(cfg, w, t, id);
      assert Reaches(cfg, w, v) && Live(v.st, id);
    } else {
      forall v | Reaches(cfg, w, v) ensures !Live(v.st, id) {
        var acts :| Leads(cfg, w, acts, v);
        SettledRun(cfg, w, acts, v, id);
        RunGrows(cfg, w, acts, v);
        LapsedForGood(w, v, id);
      }
    }
  }

  lemma Caches(cfg: Config, w: World, t: Tid, id: Id) returns (acts: seq<Action>, v: World)
    requires Inv(cfg, w)
    requires t in w.threads && SetPending(w.threads[t], id)
    ensures Leads(cfg, w, acts, v) && Live(v.st, id)
  {
    hide Leads, ThreadsOk, RowsOk, InsertedOk, BlobsOk, CacheOk, HistoryOk, KeyOf, IdOf,
      UploadThreadOk, DeleteThreadOk, PurgeThreadOk;
    MoverOk(cfg, w, t);
    acts, v := Stays(cfg, w);
    if w.threads[t].UpSet? {
      acts, v := UploadActs(cfg, w, acts, v, t, true);
    } else {
      acts, v := LookupActs(cfg, w, acts, v, t, true);
    }
  }

  lemma LapsedForGood(w: World, v: World, id: Id)
    requires !Live(w.st, id) && SameEntry(w, v, id) && w.st.now <= v.st.now
    ensures !Live(v.st, id)
  {
  }

  // ---- a Delete that returned ----

  /** If `t` is a Delete of `id` that returned without an error, the row is gone. */
  predicate Final(w: World, t: Tid, id: Id) {
    t in w.threads && w.threads[t] == DelReturned(id, true) ==> Removed(w, id)
  }

  lemma FinalStep(cfg: Config, w: World, a: Action, t: Tid, id: Id)
    requires Inv(cfg, w) && Enabled(cfg, w, a)
    requires id in w.hist.inserted && Final(w, t, id)
    ensures Final(Next(cfg, w, a), t, id)
  {
    hide Inv, MoveUpload, MoveLookup, MoveDelete, MovePurge, Selection, KeyOf, IdOf, NewRecord;
    RecordsStay(cfg, w, a);
    if Removed(w, id) {
      RemovedStep(cfg, w, a, id);
    } else if a.Move? && a.t != t {
      OthersStand(cfg, w, a, t);
    } else if a.Move? {
      if InUpload(w.threads[t]) { UploadsStayUploads(cfg, w, t, a.ok); }
      else if InLookup(w.threads[t]) { LookupsReturnNothing(cfg, w, t, a.ok, id); }
      else if InDelete(w.threads[t]) { DeleteReturns(cfg, w, t, a.ok, id); }
      else { PurgesStayPurges(w, t, a.ok, a.picks); }
    }
  }

  lemma LookupsReturnNothing(cfg: Config, w: World, t: Tid, ok: bool, id: Id)
    requires t in w.threads && InLookup(w.threads[t])
    ensures MoveLookup(cfg, w, t, ok).threads[t] != DelReturned(id, true)
  {
    hide Live, SetCache;
  }

  lemma DeleteReturns(cfg: Config, w: World, t: Tid, ok: bool, id: Id)
    requires Inv(cfg, w)
    requires t in w.threads && InDelete(w.threads[t])
    ensures MoveDelete(w, t, ok).threads[t] == DelReturned(id, true) ==> id !in MoveDelete(w, t, ok).st.rows
  {
    hide ThreadsOk, RowsOk, InsertedOk, BlobsOk, CacheOk, HistoryOk, KeyOf, IdOf,
      UploadThreadOk, LookupThreadOk, PurgeThreadOk;
    MoverOk(cfg, w, t);
  }

  lemma {:induction false} FinalRun(cfg: Config, w: World, acts: seq<Action>, v: World, t: Tid, id: Id)
    requires Inv(cfg, w) && Leads(cfg, w, acts, v)
    requires id in w.hist.inserted && Final(w, t, id)
    ensures Final(v, t, id)
    decreases |acts|
  {
    hide Inv, Enabled, Next, Final;
    if acts != [] {
      StepKeeps(cfg, w, acts[0]);
      RecordsStay(cfg, w, acts[0]);
      FinalStep(cfg, w, acts[0], t, id);
      FinalRun(cfg, Next(cfg, w, acts[0]), acts[1..], v, t, id);
    }
  }

  lemma {:induction false} RemovedRun(cfg: Config, w: World, acts: seq<Action>, v: World, id: Id)
    requires Inv(cfg, w) && Leads(cfg, w, acts, v)
    requires Removed(w, id)
    ensures Removed(v, id)
    decreases |acts|
  {
    hide Inv, Enabled, Next, Removed, SetPending;
    if acts != [] {
      StepKeeps(cfg, w, acts[0]);
      RemovedStep(cfg, w, acts[0], id);
      RemovedRun(cfg, Next(cfg, w, acts[0]), acts[1..], v, id);
    }
  }

  /** In `z` no entry for `id` is live, and no lookup begun since `y` has found it. */
  ghost predicate Forgotten(y: World, z: World, id: Id) {
    !Live(z.st, id) && forall t :: t in z.threads && t !in y.threads ==> Unanswered(z.threads[t], id)
  }

  /** One cache TTL after `x`, and ever after, the file is forgotten. */
  ghost predicate ForgottenAfterTTL(cfg: Config, x: World, id: Id) {
    forall y, z :: Reaches(cfg, x, y) && y.st.now > x.st.now + cfg.cacheTTL && Reaches(cfg, y, z) ==>
      Forgotten(y, z, id)
  }

  /**
   * A successful Delete is final. If a Delete of an inserted file, begun in `w` or
   * later, has returned without an error, the row is gone in every continuation;
   * and once no call is about to cache the record any more, a positive cache TTL
   * is enough for the file to be forgotten.
   */
  lemma DeleteIsFinal(cfg: Config, w: World, acts: seq<Action>, v: World, t: Tid, id: Id, more: seq<Action>, x: World)
    requires Reachable(cfg, w) && id in w.hist.inserted
    requires t !in w.threads
    requires Leads(cfg, w, acts, v) && t in v.threads && v.threads[t] == DelReturned(id, true)
    requires Leads(cfg, v, more, x)
    ensures Removed(x, id)
    ensures Settled(x, id) && cfg.cacheTTL > 0 ==> ForgottenAfterTTL(cfg, x, id)
  {
    hide Inv, Reachable, Unanswered, Live, Settled, Enabled, Next;
    ReachableInv(cfg, w);
    FinalRun(cfg, w, acts, v, t, id);
    RunKeeps(cfg, w, acts, v);
    RemovedRun(cfg, v, more, x, id);
    ReachesOn(cfg, w, acts, v);
    ReachesOn(cfg, v, more, x);
    if Settled(x, id) && cfg.cacheTTL > 0 {
      forall y, z | Reaches(cfg, x, y) && y.st.now > x.st.now + cfg.cacheTTL && Reaches(cfg, y, z)
        ensures Forgotten(y, z, id)
      {
        var wait :| Leads(cfg, x, wait, y);
        var rest :| Leads(cfg, y, rest, z);
        forall s ensures !Live(z.st, id) && (s in z.threads && s !in y.threads ==> Unanswered(z.threads[s], id)) {
          BoundedStaleness(cfg, x, wait, y, rest, z, s, id);
        }
      }
    }
  }
}
