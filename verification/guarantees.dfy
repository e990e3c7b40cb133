/**
 * What the interleaved machine guarantees in every reachable world, whatever
 * the schedule and whichever calls fail.
 */
module Guarantees {
  import opened Prelude
  import opened Files
  import opened Stores
  import opened Machine
  import opened Invariant

  // ---- history is append-only ----

  lemma StepGrows(cfg: Config, w: World, a: Action)
    requires Enabled(cfg, w, a)
    ensures var v := Next(cfg, w, a);
      && w.st.now <= v.st.now
      && w.hist.deleteAsked <= v.hist.deleteAsked
      && w.threads.Keys <= v.threads.Keys
  {
    hide Selection, NewRecord, KeyOf, IdOf, MoveUpload, MoveLookup, MoveDelete, MovePurge;
  }

  lemma UploadGrows(cfg: Config, w: World, t: Tid, ok: bool)
    requires t in w.threads && InUpload(w.threads[t])
    requires w.threads[t].UpPut? && ok ==> Taken(w.threads[t].input).Some?
    requires w.threads[t].UpInsert? ==> w.threads[t].f.id !in w.hist.inserted
    ensures HistoryGrows(w.hist, MoveUpload(cfg, w, t, ok).hist)
  {
  }

  lemma RemovalGrows(w: World, t: Tid, ok: bool, picks: seq<Id>)
    requires t in w.threads
    ensures InDelete(w.threads[t]) ==> HistoryGrows(w.hist, MoveDelete(w, t, ok).hist)
    ensures InPurge(w.threads[t]) && (w.threads[t].PgQuery? && ok ==> Selection(w.st, w.threads[t].batch, picks)) ==>
              HistoryGrows(w.hist, MovePurge(w, t, ok, picks).hist)
  {
    hide Selection, PurgeLoop, DeleteEnds;
  }

  /** A record, once inserted, stays on record unchanged, and nobody inserts under its id again. */
  lemma RecordsStay(cfg: Config, w: World, a: Action)
    requires Inv(cfg, w)
    requires Enabled(cfg, w, a)
    ensures HistoryGrows(w.hist, Next(cfg, w, a).hist)
  {
    hide ThreadsOk, RowsOk, InsertedOk, BlobsOk, CacheOk, HistoryOk, Selection, NewRecord, KeyOf, IdOf, ThreadOk,
      MoveUpload, MoveLookup, MoveDelete, MovePurge;
    if a.Move? {
      if w.threads[a.t].UpInsert? {
        MoverOk(cfg, w, a.t);
        DraftFacts(cfg, w, a.t, w.threads[a.t]);
      }
      if InUpload(w.threads[a.t]) { UploadGrows(cfg, w, a.t, a.ok); }
      RemovalGrows(w, a.t, a.ok, a.picks);
    } else {
      OwnersRun(cfg, w);
    }
  }

  lemma {:induction false} RunGrows(cfg: Config, w: World, acts: seq<Action>, v: World)
    requires Inv(cfg, w)
    requires Leads(cfg, w, acts, v)
    ensures HistoryGrows(w.hist, v.hist) && w.st.now <= v.st.now && w.threads.Keys <= v.threads.Keys
    decreases |acts|
  {
    hide Inv, Enabled, Next;
    if acts != [] {
      StepKeeps(cfg, w, acts[0]);
      StepGrows(cfg, w, acts[0]);
      RecordsStay(cfg, w, acts[0]);
      RunGrows(cfg, Next(cfg, w, acts[0]), acts[1..], v);
    }
  }

  // ---- record integrity ----

  /** The record inserted under `id` is the one its upload was asked for. */
  ghost predicate Faithful(cfg: Config, w: World, id: Id) {
    && id in w.hist.inserted && id in w.hist.sent && id in w.hist.begun && w.hist.begun[id] <= w.st.now
    && Taken(w.hist.sent[id]).Some?
    && Requested(cfg, w.hist.inserted[id], id, w.hist.sent[id], Taken(w.hist.sent[id]).value, w.hist.begun[id])
  }

  /** `f` is the record inserted under `id`, exactly or to the second. */
  predicate Is(w: World, f: File, id: Id) {
    id in w.hist.inserted && Image(f, w.hist.inserted[id]) && Agrees(f, w.hist.inserted[id])
  }

  /** What a call may hand to its caller about `id`. */
  ghost predicate Truthful(w: World, th: Thread) {
    match th
    case UpReturned(f) => f.id in w.hist.inserted && f == w.hist.inserted[f.id]
    case LkFound(id, f, at) => Is(w, f, id) && at <= w.st.now && !Expired(f, at)
    case LkDownloaded(id, f, at, bytes) =>
      && Is(w, f, id) && at <= w.st.now && !Expired(f, at)
      && id in w.hist.sent && Taken(w.hist.sent[id]) == Some(bytes)
    case _ => true
  }

  /**
   * Every row, cache entry and answer about an id carries the one record inserted
   * under it, which is the record asked for; every answer was unexpired when
   * checked, even if it came from a stale cache; every blob is the bytes sent.
   */
  lemma RecordIntegrity(cfg: Config, w: World)
    requires Reachable(cfg, w)
    ensures forall id :: id in w.st.rows ==>
              Faithful(cfg, w, id) && Is(w, w.st.rows[id], id) && WholeSeconds(w.st.rows[id])
    ensures forall id :: id in w.st.cache ==> Faithful(cfg, w, id) && Is(w, w.st.cache[id].file, id)
    ensures forall t :: t in w.threads ==> Truthful(w, w.threads[t])
    ensures forall id :: id in w.hist.inserted ==> Faithful(cfg, w, id)
    ensures forall id :: id in w.hist.inserted && KeyOf(id) in w.st.blobs ==>
              id in w.hist.sent && Taken(w.hist.sent[id]) == Some(w.st.blobs[KeyOf(id)])
  {
    hide KeyOf, IdOf, ThreadsOk, Accounted, ThreadOk;
    ReachableInv(cfg, w);
    forall id | id in w.hist.inserted ensures Faithful(cfg, w, id) {
      InsertedIsFaithful(cfg, w, id);
    }
    forall id | id in w.st.rows ensures Is(w, w.st.rows[id], id) && WholeSeconds(w.st.rows[id]) {
      StoredAgrees(w.hist.inserted[id]);
    }
    forall id | id in w.st.cache ensures Is(w, w.st.cache[id].file, id) {
      ImageAgrees(w.st.cache[id].file, w.hist.inserted[id]);
    }
    forall t | t in w.threads ensures Truthful(w, w.threads[t]) {
      MoverOk(cfg, w, t);
      ThreadIsTruthful(cfg, w, t);
    }
    forall id | id in w.hist.inserted && KeyOf(id) in w.st.blobs
      ensures Taken(w.hist.sent[id]) == Some(w.st.blobs[KeyOf(id)])
    {
      assert IdOf(KeyOf(id)) == id;
    }
  }

  lemma InsertedIsFaithful(cfg: Config, w: World, id: Id)
    requires Inv(cfg, w) && id in w.hist.inserted
    ensures Faithful(cfg, w, id)
  {
    hide KeyOf, IdOf, ThreadsOk, RowsOk, BlobsOk, CacheOk, NewRecord, Requested;
    assert InsertedRecordOk(cfg, w, id);
    RecordIsRequested(cfg, id, w.hist.sent[id], w.hist.begun[id]);
  }

  lemma ThreadIsTruthful(cfg: Config, w: World, t: Tid)
    requires t in w.threads && ThreadOk(cfg, w, t, w.threads[t])
    ensures Truthful(w, w.threads[t])
  {
    hide Image, Agrees;
    var th := w.threads[t];
    if th.LkFound? || th.LkDownloaded? { ImageAgrees(th.f, w.hist.inserted[th.id]); }
  }

  // ---- no orphans ----

  /** The upload that drew `id` is still between Put and the end of Insert or rollback. */
  ghost predicate UploadInFlight(w: World, id: Id) {
    exists t :: t in w.threads && PreCommit(w.threads[t], id)
  }

  /**
   * A blob without a row belongs to an upload in flight or to an id whose
   * store.Delete failed once; a row without a blob has a Delete or purge begun,
   * which is to say its removal was asked for or its lifetime is over.
   */
  lemma NoOrphans(cfg: Config, w: World)
    requires Reachable(cfg, w)
    ensures forall k :: k in w.st.blobs ==>
      && k == KeyOf(IdOf(k))
      && (IdOf(k) in w.st.rows || IdOf(k) in w.hist.failed || UploadInFlight(w, IdOf(k)))
    ensures forall id :: id in w.st.rows && KeyOf(id) !in w.st.blobs ==> id in w.hist.reclaimed && Doomed(w, id)
  {
    hide KeyOf, IdOf, ThreadsOk, RowsOk, CacheOk;
    ReachableInv(cfg, w);
    forall k | k in w.st.blobs && IdOf(k) !in w.st.rows && IdOf(k) !in w.hist.failed
      ensures UploadInFlight(w, IdOf(k))
    {
      assert Accounted(w, IdOf(k));
    }
    forall id | id in w.st.rows && KeyOf(id) !in w.st.blobs ensures id in w.hist.reclaimed && Doomed(w, id) {
      RowFacts(cfg, w, id);
      assert InsertedRecordOk(cfg, w, id);
    }
  }

  // ---- durability ----

  /** The row and the bytes of `id` are in place. */
  ghost predicate Intact(w: World, id: Id) {
    && id in w.hist.inserted && id in w.hist.sent
    && id in w.st.rows && w.st.rows[id] == Stored(w.hist.inserted[id])
    && KeyOf(id) in w.st.blobs && Taken(w.hist.sent[id]) == Some(w.st.blobs[KeyOf(id)])
  }

  lemma NotDoomedIsIntact(cfg: Config, w: World, id: Id)
    requires Inv(cfg, w)
    requires id in w.hist.inserted && !Doomed(w, id)
    ensures Intact(w, id)
  {
    hide KeyOf, IdOf, ThreadsOk, CacheOk, Accounted;
    assert InsertedRecordOk(cfg, w, id);
    assert IdOf(KeyOf(id)) == id;
  }

  /** The thread tells no caller that `id` is missing. */
  predicate Serves(th: Thread, id: Id) {
    th != LkNotFound(id) && th != LkNoBlob(id)
  }

  lemma ServesLookup(cfg: Config, w: World, t: Tid, ok: bool, id: Id)
    requires Inv(cfg, w)
    requires t in w.threads && InLookup(w.threads[t])
    requires id in w.hist.inserted && !Doomed(w, id)
    ensures var v := MoveLookup(cfg, w, t, ok); t in v.threads ==> Serves(v.threads[t], id)
  {
    hide Inv, ThreadOk, Doomed, KeyOf, IdOf, Live;
    var th := w.threads[t];
    NotDoomedIsIntact(cfg, w, id);
    if th.LkFetch? && th.id == id {
      MoverOk(cfg, w, t);
      FetchHolds(cfg, w, t);
      BlobFacts(cfg, w, id, th.f);
      NotReclaimed(cfg, w, id);
    }
  }

  lemma FetchHolds(cfg: Config, w: World, t: Tid)
    requires t in w.threads && w.threads[t].LkFetch? && ThreadOk(cfg, w, t, w.threads[t])
    ensures HoldsOk(w, w.threads[t].id, w.threads[t].f)
  {
  }

  /** A delete in progress concerns a doomed file. */
  lemma ServesDelete(cfg: Config, w: World, t: Tid, ok: bool, id: Id)
    requires Inv(cfg, w)
    requires t in w.threads && InDelete(w.threads[t])
    requires id in w.hist.inserted && !Doomed(w, id)
    ensures var v := MoveDelete(w, t, ok); t in v.threads ==> Serves(v.threads[t], id)
  {
    hide ThreadsOk, RowsOk, InsertedOk, BlobsOk, CacheOk, HistoryOk, KeyOf, IdOf,
      UploadThreadOk, LookupThreadOk, PurgeThreadOk, Doomed;
    MoverOk(cfg, w, t);
    if w.threads[t].DelRead? && w.threads[t].id in w.st.rows { RowFacts(cfg, w, w.threads[t].id); }
  }

  lemma ServesStep(cfg: Config, w: World, a: Action, t: Tid, id: Id)
    requires Inv(cfg, w)
    requires Enabled(cfg, w, a)
    requires id in w.hist.inserted && !Doomed(w, id)
    requires t in w.threads ==> Serves(w.threads[t], id)
    ensures var v := Next(cfg, w, a); t in v.threads ==> Serves(v.threads[t], id)
  {
    hide Inv, Doomed, Selection, NewRecord, KeyOf, IdOf, MoveLookup, MoveDelete;
    if a.Move? && a.t == t {
      if InLookup(w.threads[t]) { ServesLookup(cfg, w, t, a.ok, id); }
      if InDelete(w.threads[t]) { ServesDelete(cfg, w, t, a.ok, id); }
    } else if a.Move? {
      OthersStand(cfg, w, a, t);
    }
  }

  lemma OthersStand(cfg: Config, w: World, a: Action, t: Tid)
    requires Enabled(cfg, w, a) && a.Move? && a.t != t
    ensures var v := Next(cfg, w, a);
            (t in v.threads <==> t in w.threads) && (t in w.threads ==> v.threads[t] == w.threads[t])
  {
    hide Selection, NewRecord, KeyOf, IdOf, MoveUpload, MoveLookup, MoveDelete, MovePurge;
  }

  lemma NonMoveStands(cfg: Config, w: World, a: Action, t: Tid)
    requires Enabled(cfg, w, a) && !a.Move?
    requires t in w.threads
    ensures t in Next(cfg, w, a).threads && Next(cfg, w, a).threads[t] == w.threads[t]
  {
  }

  lemma NotReclaimed(cfg: Config, w: World, id: Id)
    requires Inv(cfg, w) && !Doomed(w, id)
    ensures id !in w.hist.reclaimed
  {
    hide ThreadsOk, RowsOk, InsertedOk, BlobsOk, CacheOk;
  }

  lemma {:induction false} ServesRun(cfg: Config, w: World, acts: seq<Action>, v: World, t: Tid, id: Id)
    requires Inv(cfg, w)
    requires Leads(cfg, w, acts, v)
    requires id in w.hist.inserted && !Doomed(v, id)
    requires t in w.threads ==> Serves(w.threads[t], id)
    ensures t in v.threads ==> Serves(v.threads[t], id)
    decreases |acts|
  {
    hide Inv, Enabled, Next, Serves, Doomed;
    if acts != [] {
      var u := Next(cfg, w, acts[0]);
      StepKeeps(cfg, w, acts[0]);
      RecordsStay(cfg, w, acts[0]);
      StepGrows(cfg, w, acts[0]);
      RunGrows(cfg, u, acts[1..], v);
      if Doomed(w, id) { DoomedIsForGood(w, v, id); }
      ServesStep(cfg, w, acts[0], t, id);
      ServesRun(cfg, u, acts[1..], v, t, id);
    }
  }

  /**
   * Once an upload has returned `f`, then as long as no client has asked for its
   * deletion and neither image of the record has expired, row and bytes are in
   * place, and no call begun since has been told that the file is missing.
   */
  lemma StaysAvailable(cfg: Config, w: World, u: Tid, acts: seq<Action>, v: World, t: Tid)
    requires Reachable(cfg, w)
    requires u in w.threads && w.threads[u].UpReturned?
    requires t !in w.threads
    requires Leads(cfg, w, acts, v)
    requires !Doomed(v, w.threads[u].f.id)
    ensures var f := w.threads[u].f;
      && Intact(v, f.id) && v.hist.inserted[f.id] == f
      && (t in v.threads ==> Serves(v.threads[t], f.id))
  {
    hide Inv, Leads, KeyOf, IdOf, ThreadOk, Doomed;
    var f := w.threads[u].f;
    ReachableInv(cfg, w);
    MoverOk(cfg, w, u);
    ReturnedIsCommitted(cfg, w, u);
    RunKeeps(cfg, w, acts, v);
    RunGrows(cfg, w, acts, v);
    NotDoomedIsIntact(cfg, v, f.id);
    if t in v.threads { ServesRun(cfg, w, acts, v, t, f.id); }
  }

  /** A Metadata or Download of `id`: under way, ended by a failing read, or answered with a record. */
  predicate LookupOf(th: Thread, id: Id, dl: bool) {
    match th
    case LkGet(i, d) => i == id && d == dl
    case LkRead(i, d) => i == id && d == dl
    case LkSet(i, _, d) => i == id && d == dl
    case LkCheck(i, _, d) => i == id && d == dl
    case LkFetch(i, _, _) => i == id && dl
    case LkFound(i, _, _) => i == id && !dl
    case LkDownloaded(i, _, _, _) => i == id && dl
    case LkFailed(i) => i == id
    case _ => false
  }

  lemma LookupProceeds(cfg: Config, w: World, t: Tid, ok: bool, id: Id, dl: bool)
    requires Inv(cfg, w)
    requires t in w.threads && InLookup(w.threads[t]) && LookupOf(w.threads[t], id, dl)
    requires id in w.hist.inserted && !Doomed(w, id)
    ensures LookupOf(MoveLookup(cfg, w, t, ok).threads[t], id, dl)
  {
    hide ThreadsOk, RowsOk, InsertedOk, BlobsOk, CacheOk, HistoryOk, KeyOf, IdOf,
      UploadThreadOk, DeleteThreadOk, PurgeThreadOk, Live;
    NotDoomedIsIntact(cfg, w, id);
    MoverOk(cfg, w, t);
    if w.threads[t].LkFetch? {
      BlobFacts(cfg, w, id, w.threads[t].f);
      NotReclaimed(cfg, w, id);
    }
  }

  lemma {:induction false} LookupRun(cfg: Config, w: World, acts: seq<Action>, v: World, t: Tid, id: Id, dl: bool)
    requires Inv(cfg, w)
    requires Leads(cfg, w, acts, v)
    requires id in w.hist.inserted && !Doomed(v, id)
    requires t in w.threads && LookupOf(w.threads[t], id, dl)
    ensures t in v.threads && LookupOf(v.threads[t], id, dl)
    decreases |acts|
  {
    hide Inv, Enabled, Next, LookupOf, Doomed;
    if acts != [] {
      var a, u := acts[0], Next(cfg, w, acts[0]);
      StepKeeps(cfg, w, a);
      RecordsStay(cfg, w, a);
      StepGrows(cfg, w, a);
      RunGrows(cfg, u, acts[1..], v);
      if Doomed(w, id) { DoomedIsForGood(w, v, id); }
      LookupStep(cfg, w, a, t, id, dl);
      LookupRun(cfg, u, acts[1..], v, t, id, dl);
    }
  }

  lemma LookupStep(cfg: Config, w: World, a: Action, t: Tid, id: Id, dl: bool)
    requires Inv(cfg, w) && Enabled(cfg, w, a)
    requires id in w.hist.inserted && !Doomed(w, id)
    requires t in w.threads && LookupOf(w.threads[t], id, dl)
    ensures t in Next(cfg, w, a).threads && LookupOf(Next(cfg, w, a).threads[t], id, dl)
  {
    hide Inv, Doomed, Selection, NewRecord, KeyOf, IdOf, MoveUpload, MoveLookup, MoveDelete, MovePurge;
    if a.Move? && a.t == t {
      LookupProceeds(cfg, w, t, a.ok, id, dl);
    } else if a.Move? {
      OthersStand(cfg, w, a, t);
    } else {
      NonMoveStands(cfg, w, a, t);
    }
  }

  /**
   * Durability. Once an upload has returned `f`, take any lookup of it begun since,
   * and any later moment at which no client has asked for its deletion and neither
   * image of the record has expired. Row and bytes are in place, and the lookup is
   * still under way, was ended by a failing read, or has returned the record as
   * inserted and, if it is a Download, exactly the bytes sent.
   */
  lemma Durability(cfg: Config, w: World, u: Tid, first: seq<Action>, x: World, t: Tid, dl: bool,
                   more: seq<Action>, v: World)
    requires Reachable(cfg, w)
    requires u in w.threads && w.threads[u].UpReturned?
    requires Leads(cfg, w, first, x) && t !in x.threads
    requires Leads(cfg, BeginCall(cfg, x, t, ReqLookup(w.threads[u].f.id, dl)), more, v)
    requires !Doomed(v, w.threads[u].f.id)
    ensures var f := w.threads[u].f;
      && Intact(v, f.id) && v.hist.inserted[f.id] == f
      && t in v.threads && LookupOf(v.threads[t], f.id, dl)
      && (v.threads[t].LkFound? ==> Image(v.threads[t].f, f) && Agrees(v.threads[t].f, f))
      && (v.threads[t].LkDownloaded? ==>
            Image(v.threads[t].f, f) && Agrees(v.threads[t].f, f) &&
            Taken(v.hist.sent[f.id]) == Some(v.threads[t].bytes))
  {
    hide Inv, Leads, KeyOf, IdOf, ThreadOk, Doomed;
    var f, y := w.threads[u].f, BeginCall(cfg, x, t, ReqLookup(w.threads[u].f.id, dl));
    ReachableInv(cfg, w);
    MoverOk(cfg, w, u);
    ReturnedIsCommitted(cfg, w, u);
    RunKeeps(cfg, w, first, x);
    RunGrows(cfg, w, first, x);
    BeginKeeps(cfg, x, t, ReqLookup(f.id, dl));
    RunKeeps(cfg, y, more, v);
    RunGrows(cfg, y, more, v);
    NotDoomedIsIntact(cfg, v, f.id);
    LookupRun(cfg, y, more, v, t, f.id, dl);
    MoverOk(cfg, v, t);
    ThreadIsTruthful(cfg, v, t);
  }

  lemma ReturnedIsCommitted(cfg: Config, w: World, t: Tid)
    requires t in w.threads && w.threads[t].UpReturned? && ThreadOk(cfg, w, t, w.threads[t])
    ensures CommittedOk(w, t, w.threads[t].f)
  {
  }

  /** A lookup fails with an error only on a step in which its own call failed. */
  lemma FailsOnlyOnAFault(cfg: Config, w: World, a: Action, t: Tid)
    requires Enabled(cfg, w, a)
    requires t in w.threads ==> !w.threads[t].LkFailed?
    requires t in Next(cfg, w, a).threads && Next(cfg, w, a).threads[t].LkFailed?
    ensures a.Move? && a.t == t && !a.ok && (w.threads[t].LkRead? || w.threads[t].LkFetch?)
  {
    hide Selection, NewRecord, KeyOf, IdOf;
  }

  /**
   * The other half of durability: while the file is not doomed, a Download whose
   * two reads succeed does return it, whatever the cache does.
   */
  lemma DownloadCompletes(cfg: Config, w: World, t: Tid, id: Id) returns (acts: seq<Action>, v: World)
    requires Inv(cfg, w)
    requires id in w.hist.inserted && !Doomed(w, id)
    requires t !in w.threads
    ensures Leads(cfg, w, acts, v) && v.st == w.st
    ensures t in v.threads
    ensures v.threads[t] == LkDownloaded(id, Stored(w.hist.inserted[id]), w.st.now, w.st.blobs[KeyOf(id)])
    ensures Taken(w.hist.sent[id]) == Some(w.st.blobs[KeyOf(id)])
  {
    hide Inv, Leads, Next, Enabled, KeyOf, IdOf, Doomed;
    NotDoomedIsIntact(cfg, w, id);
    RowFacts(cfg, w, id);
    var row := w.st.rows[id];
    NotDoomedIsAlive(w, id);
    acts, v := Stays(cfg, w);
    acts, v := Starts(cfg, w, acts, v, t, ReqLookup(id, true));
    acts, v := LookupActs(cfg, w, acts, v, t, false);
    acts, v := LookupActs(cfg, w, acts, v, t, true);
    acts, v := LookupActs(cfg, w, acts, v, t, false);
    acts, v := LookupActs(cfg, w, acts, v, t, true);
    acts, v := LookupActs(cfg, w, acts, v, t, true);
  }

  lemma NotDoomedIsAlive(w: World, id: Id)
    requires id in w.hist.inserted && !Doomed(w, id)
    ensures !Expired(Stored(w.hist.inserted[id]), w.st.now)
  {
  }
}
