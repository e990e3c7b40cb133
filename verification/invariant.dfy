/**
 * The inductive invariant of the interleaved machine. Ids are drawn once and
 * records are never updated, so everything a thread, a row or a cache entry
 * holds about an id can be traced to the one record inserted under it.
 */
module Invariant {
  import opened Prelude
  import opened Files
  import opened Stores
  import opened Machine

  // ---- vocabulary ----

  /** `f` is the record inserted under its id, or that record as the table gives it back. */
  predicate Known(h: History, f: File) {
    f.id in h.inserted && Image(f, h.inserted[f.id])
  }

  /** Removal of the file is legitimate: a client asked for it, or its lifetime is over. */
  predicate Doomed(w: World, id: Id) {
    || id in w.hist.deleteAsked
    || (id in w.hist.inserted && Lapsed(w.hist.inserted[id], w.st.now))
  }

  /** Upload thread between drawing `id` and the end of Insert or of the rollback. */
  predicate PreCommit(th: Thread, id: Id) {
    (th.UpPut? || th.UpTooBig? || th.UpInsert? || th.UpRollback?) && th.f.id == id
  }

  /** Someone still answers for a blob stored under `id`. */
  predicate Accounted(w: World, id: Id) {
    || id in w.st.rows
    || id in w.hist.failed
    || (id in w.hist.owner && w.hist.owner[id] in w.threads && PreCommit(w.threads[w.hist.owner[id]], id))
  }

  /** The blob of `id` is gone, unless removing it failed at some point. */
  predicate Emptied(w: World, id: Id) {
    id in w.hist.reclaimed && (KeyOf(id) in w.st.blobs ==> id in w.hist.failed)
  }

  predicate TargetOk(w: World, g: Target) {
    g.key == KeyOf(g.id) && g.id in w.hist.inserted && Expired(w.hist.inserted[g.id], w.st.now)
  }

  predicate TargetsOk(w: World, gs: seq<Target>) {
    forall i :: 0 <= i < |gs| ==> TargetOk(w, gs[i])
  }

  // ---- the parts of the invariant ----

  predicate Sound(cfg: Config, h: History, f: File, size: int) {
    && f.id in h.sent && f.id in h.begun
    && f == NewRecord(cfg, f.id, h.sent[f.id], h.begun[f.id]).(size := size)
  }

  predicate SoundPut(cfg: Config, h: History, f: File) {
    f.id in h.sent && Taken(h.sent[f.id]).Some? && Sound(cfg, h, f, |Taken(h.sent[f.id]).value|)
  }

  predicate UploadOk(cfg: Config, w: World, t: Tid, th: Thread)
    requires th.UpPut? || th.UpTooBig? || th.UpInsert? || th.UpRollback?
  {
    var f, h := th.f, w.hist;
    && f.id in h.owner && h.owner[f.id] == t
    && f.id !in h.inserted
    && (if th.UpPut? then
          f.id in h.sent && h.sent[f.id] == th.input && Sound(cfg, h, f, th.input.size) && f.storageKey !in w.st.blobs
        else SoundPut(cfg, h, f))
    && (th.UpInsert? ==> f.storageKey in w.st.blobs && !Oversized(cfg, f.size))
  }

  predicate DeleteOk(w: World, id: Id, f: File) {
    Known(w.hist, f) && f.id == id && f.storageKey == KeyOf(id) && Doomed(w, id)
  }

  predicate CommittedOk(w: World, t: Tid, f: File) {
    f.id in w.hist.inserted && w.hist.inserted[f.id] == f && f.id in w.hist.owner && w.hist.owner[f.id] == t
  }

  predicate UploadThreadOk(cfg: Config, w: World, t: Tid, th: Thread) {
    match th
    case UpPut(f, _) => UploadOk(cfg, w, t, th)
    case UpTooBig(f) => UploadOk(cfg, w, t, th)
    case UpInsert(f) => UploadOk(cfg, w, t, th)
    case UpRollback(f) => UploadOk(cfg, w, t, th)
    case UpSet(f) => CommittedOk(w, t, f)
    case UpPublish(f) => CommittedOk(w, t, f)
    case UpReturned(f) => CommittedOk(w, t, f)
    case _ => true
  }

  predicate HoldsOk(w: World, id: Id, f: File) {
    Known(w.hist, f) && f.id == id
  }

  predicate CheckedOk(w: World, id: Id, f: File, at: Time) {
    HoldsOk(w, id, f) && at <= w.st.now && !Expired(f, at)
  }

  predicate SentOk(w: World, id: Id, bytes: Bytes) {
    id in w.hist.sent && Taken(w.hist.sent[id]) == Some(bytes)
  }

  predicate LookupThreadOk(w: World, th: Thread) {
    match th
    case LkSet(id, f, _) => HoldsOk(w, id, f)
    case LkCheck(id, f, _) => HoldsOk(w, id, f)
    case LkFetch(id, f, at) => CheckedOk(w, id, f, at)
    case LkFound(id, f, at) => CheckedOk(w, id, f, at)
    case LkDownloaded(id, f, at, bytes) => CheckedOk(w, id, f, at) && SentOk(w, id, bytes)
    case LkNoBlob(id) => id in w.hist.reclaimed
    case _ => true
  }

  predicate DeleteThreadOk(w: World, th: Thread) {
    match th
    case DelRead(id, _) => Doomed(w, id)
    case DelBlob(id, f, _) => DeleteOk(w, id, f)
    case DelCache(id, f, _) => DeleteOk(w, id, f) && Emptied(w, id)
    case DelRow(id, f, _) => DeleteOk(w, id, f) && Emptied(w, id)
    case DelPublish(id, f, _) => DeleteOk(w, id, f) && id !in w.st.rows
    case _ => true
  }

  predicate PurgeThreadOk(w: World, th: Thread) {
    match th
    case PgBlob(cur, rest, _) => TargetOk(w, cur) && TargetsOk(w, rest)
    case PgCache(cur, rest, _) => TargetOk(w, cur) && TargetsOk(w, rest) && Emptied(w, cur.id)
    case PgRow(cur, rest, _) => TargetOk(w, cur) && TargetsOk(w, rest) && Emptied(w, cur.id)
    case PgPublish(cur, rest, _) => TargetOk(w, cur) && TargetsOk(w, rest) && cur.id !in w.st.rows
    case _ => true
  }

  predicate ThreadOk(cfg: Config, w: World, t: Tid, th: Thread) {
    && UploadThreadOk(cfg, w, t, th)
    && LookupThreadOk(w, th)
    && DeleteThreadOk(w, th)
    && PurgeThreadOk(w, th)
  }

  ghost predicate ThreadsOk(cfg: Config, w: World) {
    forall t :: t in w.threads ==> ThreadOk(cfg, w, t, w.threads[t])
  }

  /** Rows are the inserted records, as the table keeps them. */
  ghost predicate RowsOk(w: World) {
    forall id :: id in w.st.rows ==>
      && id in w.hist.inserted
      && w.st.rows[id] == Stored(w.hist.inserted[id])
  }

  /** An inserted record is the one its upload built; only a reclaimed id loses its blob, only a doomed one its row. */
  predicate InsertedRecordOk(cfg: Config, w: World, id: Id)
    requires id in w.hist.inserted
  {
    var f := w.hist.inserted[id];
    && f.id == id
    && SoundPut(cfg, w.hist, f) && !Oversized(cfg, f.size)
    && (id in w.st.rows || Doomed(w, id))
    && (KeyOf(id) in w.st.blobs || id in w.hist.reclaimed)
  }

  ghost predicate InsertedOk(cfg: Config, w: World) {
    forall id :: id in w.hist.inserted ==> InsertedRecordOk(cfg, w, id)
  }

  ghost predicate BlobsOk(w: World) {
    forall k :: k in w.st.blobs ==>
      && k == KeyOf(IdOf(k))
      && IdOf(k) in w.hist.sent
      && Taken(w.hist.sent[IdOf(k)]) == Some(w.st.blobs[k])
      && Accounted(w, IdOf(k))
  }

  ghost predicate CacheOk(w: World) {
    forall id :: id in w.st.cache ==> w.st.cache[id].file.id == id && Known(w.hist, w.st.cache[id].file)
  }

  ghost predicate HistoryOk(w: World) {
    && w.hist.owner.Keys == w.hist.sent.Keys == w.hist.begun.Keys
    && (forall id :: id in w.hist.begun ==> w.hist.begun[id] <= w.st.now)
    && (forall id :: id in w.hist.owner ==> w.hist.owner[id] in w.threads)
    && (forall id :: id in w.hist.reclaimed ==> id in w.hist.inserted && Doomed(w, id))
  }

  ghost predicate Inv(cfg: Config, w: World) {
    && ThreadsOk(cfg, w)
    && RowsOk(w)
    && InsertedOk(cfg, w)
    && BlobsOk(w)
    && CacheOk(w)
    && HistoryOk(w)
  }

  // ---- what a step of one thread can change ----

  predicate HistoryGrows(h: History, k: History) {
    && h.sent.Keys <= k.sent.Keys && (forall id :: id in h.sent ==> k.sent[id] == h.sent[id])
    && h.owner.Keys <= k.owner.Keys && (forall id :: id in h.owner ==> k.owner[id] == h.owner[id])
    && h.begun.Keys <= k.begun.Keys && (forall id :: id in h.begun ==> k.begun[id] == h.begun[id])
    && h.inserted.Keys <= k.inserted.Keys && (forall id :: id in h.inserted ==> k.inserted[id] == h.inserted[id])
    && h.deleteAsked <= k.deleteAsked
    && h.reclaimed <= k.reclaimed
    && h.failed <= k.failed
  }

  lemma DoomedIsForGood(w: World, v: World, id: Id)
    requires HistoryGrows(w.hist, v.hist) && w.st.now <= v.st.now
    requires Doomed(w, id)
    ensures Doomed(v, id)
  {
  }

  /** The upload of `id` is run by one of `movers` and has not inserted its record. */
  predicate Draft(w: World, movers: set<Tid>, id: Id) {
    id in w.hist.owner && w.hist.owner[id] in movers && id !in w.hist.inserted
  }

  /**
   * A step of one of `movers` (none for the environment): history and clock only
   * grow, and new records, rows and blobs, as well as the loss of a blob that was
   * never inserted, concern the movers' own uploads only.
   */
  ghost predicate Footprint(w: World, v: World, movers: set<Tid>) {
    && HistoryGrows(w.hist, v.hist)
    && w.st.now <= v.st.now
    && (forall id :: id in v.hist.inserted && id !in w.hist.inserted ==> Draft(w, movers, id))
    && (forall id :: id in v.st.rows && id !in w.st.rows ==> Draft(w, movers, id))
    && (forall k :: k in v.st.blobs && k !in w.st.blobs ==> Draft(w, movers, IdOf(k)))
    && (forall k :: k in w.st.blobs && k !in v.st.blobs ==>
          IdOf(k) in w.hist.inserted || Draft(w, movers, IdOf(k)))
  }

  /** Threads other than the movers keep their part of the invariant. */
  lemma ThreadFrame(cfg: Config, w: World, v: World, movers: set<Tid>, t: Tid, th: Thread)
    requires Footprint(w, v, movers)
    requires t !in movers
    requires ThreadOk(cfg, w, t, th)
    ensures ThreadOk(cfg, v, t, th)
  {
    if th.UpPut? || th.UpTooBig? || th.UpInsert? || th.UpRollback? {
      assert IdOf(th.f.storageKey) == th.f.id;
    }
  }

  lemma OthersKeep(cfg: Config, w: World, v: World, movers: set<Tid>)
    requires Footprint(w, v, movers)
    requires ThreadsOk(cfg, w)
    ensures forall t :: t in w.threads && t !in movers ==> ThreadOk(cfg, v, t, w.threads[t])
  {
    forall t | t in w.threads && t !in movers ensures ThreadOk(cfg, v, t, w.threads[t]) {
      ThreadFrame(cfg, w, v, movers, t, w.threads[t]);
    }
  }

  lemma InsertedFrame(cfg: Config, w: World, v: World)
    requires InsertedOk(cfg, w)
    requires HistoryGrows(w.hist, v.hist) && w.hist.inserted == v.hist.inserted && w.st.now <= v.st.now
    requires forall id :: id in w.st.rows && id !in v.st.rows ==> Doomed(v, id)
    requires forall id :: id in w.hist.inserted && KeyOf(id) in w.st.blobs && KeyOf(id) !in v.st.blobs ==>
               id in v.hist.reclaimed
    ensures InsertedOk(cfg, v)
  {
    forall id | id in v.hist.inserted ensures InsertedRecordOk(cfg, v, id) {
      assert InsertedRecordOk(cfg, w, id);
    }
  }

  lemma BlobsFrame(w: World, v: World)
    requires BlobsOk(w)
    requires HistoryGrows(w.hist, v.hist)
    requires forall k :: k in v.st.blobs ==> k in w.st.blobs && v.st.blobs[k] == w.st.blobs[k]
    requires forall k :: k in v.st.blobs && Accounted(w, IdOf(k)) ==> Accounted(v, IdOf(k))
    ensures BlobsOk(v)
  {
  }

  lemma RecordsFrame(w: World, v: World)
    requires RowsOk(w) && CacheOk(w)
    requires w.hist.inserted == v.hist.inserted && v.st.cache == w.st.cache
    requires forall id :: id in v.st.rows ==> id in w.st.rows && v.st.rows[id] == w.st.rows[id]
    ensures RowsOk(v) && CacheOk(v)
  {
  }

  lemma HistoryFrame(w: World, v: World)
    requires HistoryOk(w)
    requires HistoryGrows(w.hist, v.hist) && w.st.now <= v.st.now && w.threads.Keys <= v.threads.Keys
    requires w.hist.owner == v.hist.owner && w.hist.sent == v.hist.sent && w.hist.begun == v.hist.begun
    requires forall id :: id in v.hist.reclaimed ==>
               id in w.hist.reclaimed || (id in v.hist.inserted && Doomed(v, id))
    ensures HistoryOk(v)
  {
  }

  // ---- one lemma for each kind of effect ----

  /** A step that leaves rows, blobs and history alone. */
  lemma QuietKeeps(cfg: Config, w: World, t: Tid, th: Thread, st: Stores)
    requires Inv(cfg, w)
    requires t in w.threads
    requires st.rows == w.st.rows && st.blobs == w.st.blobs && st.now == w.st.now
    requires CacheOk(To(w, t, th, st, w.hist))
    requires ThreadOk(cfg, To(w, t, th, st, w.hist), t, th)
    requires forall id :: PreCommit(w.threads[t], id) ==> PreCommit(th, id) || KeyOf(id) !in st.blobs
    ensures Inv(cfg, To(w, t, th, st, w.hist))
  {
    hide ThreadOk, KeyOf, IdOf, InsertedOk, CacheOk;
    var v := To(w, t, th, st, w.hist);
    assert ThreadsOk(cfg, v) by { OthersKeep(cfg, w, v, {t}); }
    InsertedFrame(cfg, w, v);
    forall k | k in v.st.blobs ensures Accounted(w, IdOf(k)) ==> Accounted(v, IdOf(k)) {
      assert k == KeyOf(IdOf(k));
    }
    BlobsFrame(w, v);
  }

  /** What the invariant says of an upload that has not inserted its record. */
  lemma DraftFacts(cfg: Config, w: World, t: Tid, th: Thread)
    requires ThreadOk(cfg, w, t, th)
    requires th.UpPut? || th.UpTooBig? || th.UpInsert? || th.UpRollback?
    ensures Draft(w, {t}, th.f.id)
    ensures th.f.id in w.hist.sent && th.f.storageKey == KeyOf(th.f.id)
    ensures if th.UpPut? then w.hist.sent[th.f.id] == th.input && th.f.storageKey !in w.st.blobs
            else SoundPut(cfg, w.hist, th.f)
    ensures th.UpInsert? ==> th.f.storageKey in w.st.blobs && !Oversized(cfg, th.f.size)
  {
  }

  /** A call that has given up holds nothing. */
  lemma NoClaim(cfg: Config, w: World, t: Tid)
    ensures ThreadOk(cfg, w, t, UpFailed)
  {
  }

  /** store.Delete on the blob of an upload that will not complete. */
  lemma DiscardKeeps(cfg: Config, w: World, t: Tid, ok: bool)
    requires Inv(cfg, w)
    requires t in w.threads && (w.threads[t].UpTooBig? || w.threads[t].UpRollback?)
    ensures Inv(cfg, RemoveBlob(w, t, w.threads[t].f.id, w.threads[t].f.storageKey, ok, UpFailed))
  {
    hide ThreadOk, KeyOf, IdOf, InsertedOk, BlobsOk, RowsOk, CacheOk, HistoryOk, Sound, SoundPut;
    var id := w.threads[t].f.id;
    var v := RemoveBlob(w, t, id, w.threads[t].f.storageKey, ok, UpFailed);
    MoverOk(cfg, w, t);
    DraftFacts(cfg, w, t, w.threads[t]);
    RecordsFrame(w, v);
    HistoryFrame(w, v);
    assert ThreadsOk(cfg, v) by {
      OthersKeep(cfg, w, v, {t});
      NoClaim(cfg, v, t);
    }
    assert InsertedOk(cfg, v) by {
      assert forall i :: KeyOf(i) == KeyOf(id) ==> IdOf(KeyOf(i)) == id;
      InsertedFrame(cfg, w, v);
    }
    DiscardBlobs(w, t, ok);
  }

  lemma DiscardBlobs(w: World, t: Tid, ok: bool)
    requires BlobsOk(w)
    requires t in w.threads && (w.threads[t].UpTooBig? || w.threads[t].UpRollback?)
    requires w.threads[t].f.storageKey == KeyOf(w.threads[t].f.id)
    ensures BlobsOk(RemoveBlob(w, t, w.threads[t].f.id, w.threads[t].f.storageKey, ok, UpFailed))
  {
    hide KeyOf, IdOf, BlobsOk;
    var id := w.threads[t].f.id;
    var v := RemoveBlob(w, t, id, w.threads[t].f.storageKey, ok, UpFailed);
    assert forall i :: PreCommit(w.threads[t], i) ==> i == id;
    forall k | k in v.st.blobs ensures Accounted(w, IdOf(k)) ==> Accounted(v, IdOf(k)) {
      KeyFacts(w, k);
    }
    BlobsFrame(w, v);
  }

  lemma KeyFacts(w: World, k: Key)
    requires BlobsOk(w) && k in w.st.blobs
    ensures k == KeyOf(IdOf(k))
  {
    hide KeyOf, IdOf;
  }

  /** store.Delete by a delete or a purge. */
  lemma ReclaimKeeps(cfg: Config, w: World, t: Tid, id: Id, ok: bool, th: Thread)
    requires Inv(cfg, w)
    requires t in w.threads && forall i :: !PreCommit(w.threads[t], i)
    requires id in w.hist.inserted && Doomed(w, id)
    requires ThreadOk(cfg, ReclaimBlob(w, t, id, KeyOf(id), ok, th), t, th)
    ensures Inv(cfg, ReclaimBlob(w, t, id, KeyOf(id), ok, th))
  {
    hide ThreadOk, KeyOf, IdOf, InsertedOk, BlobsOk, RowsOk, CacheOk, HistoryOk;
    var v := ReclaimBlob(w, t, id, KeyOf(id), ok, th);
    RecordsFrame(w, v);
    HistoryFrame(w, v);
    assert ThreadsOk(cfg, v) by { OthersKeep(cfg, w, v, {t}); }
    assert InsertedOk(cfg, v) by {
      assert forall i :: KeyOf(i) == KeyOf(id) ==> IdOf(KeyOf(i)) == id;
      InsertedFrame(cfg, w, v);
    }
    assert BlobsOk(v) by { BlobsFrame(w, v); }
  }

  /** repo.Delete for an id whose blob has been dealt with. */
  lemma RowRemovalKeeps(cfg: Config, w: World, t: Tid, id: Id, th: Thread)
    requires Inv(cfg, w)
    requires t in w.threads && forall i :: !PreCommit(w.threads[t], i)
    requires id in w.hist.inserted && Doomed(w, id) && Emptied(w, id)
    requires ThreadOk(cfg, To(w, t, th, DropRow(w.st, id), w.hist), t, th)
    ensures Inv(cfg, To(w, t, th, DropRow(w.st, id), w.hist))
  {
    hide ThreadOk, KeyOf, IdOf, InsertedOk, BlobsOk, RowsOk, CacheOk, HistoryOk;
    var v := To(w, t, th, DropRow(w.st, id), w.hist);
    RecordsFrame(w, v);
    HistoryFrame(w, v);
    assert ThreadsOk(cfg, v) by { OthersKeep(cfg, w, v, {t}); }
    assert InsertedOk(cfg, v) by { InsertedFrame(cfg, w, v); }
    assert BlobsOk(v) by {
      forall k | k in v.st.blobs ensures Accounted(w, IdOf(k)) ==> Accounted(v, IdOf(k)) {
        KeyFacts(w, k);
      }
      BlobsFrame(w, v);
    }
  }

  lemma PutMover(cfg: Config, w: World, t: Tid)
    requires t in w.threads && w.threads[t].UpPut? && Taken(w.threads[t].input).Some?
    requires ThreadOk(cfg, w, t, w.threads[t])
    ensures var v := MoveUpload(cfg, w, t, true);
            ThreadOk(cfg, v, t, v.threads[t])
  {
  }

  lemma PutKeeps(cfg: Config, w: World, t: Tid)
    requires Inv(cfg, w)
    requires t in w.threads && w.threads[t].UpPut? && Taken(w.threads[t].input).Some?
    ensures Inv(cfg, MoveUpload(cfg, w, t, true))
  {
    hide ThreadOk, KeyOf, IdOf, InsertedOk, BlobsOk, RowsOk, CacheOk, HistoryOk, Sound;
    var v, f := MoveUpload(cfg, w, t, true), w.threads[t].f;
    DraftFacts(cfg, w, t, w.threads[t]);
    RecordsFrame(w, v);
    HistoryFrame(w, v);
    assert ThreadsOk(cfg, v) by {
      OthersKeep(cfg, w, v, {t});
      PutMover(cfg, w, t);
    }
    assert InsertedOk(cfg, v) by { InsertedFrame(cfg, w, v); }
    PutBlobs(w, t, v, f.id, Taken(w.threads[t].input).value);
  }

  /** A blob put by the upload that drew its id, which goes on answering for it. */
  lemma PutBlobs(w: World, t: Tid, v: World, id: Id, bytes: Bytes)
    requires BlobsOk(w)
    requires t in w.threads && (forall i :: PreCommit(w.threads[t], i) <==> i == id)
    requires t in v.threads && v.threads == w.threads[t := v.threads[t]] && PreCommit(v.threads[t], id)
    requires v.hist == w.hist && v.st == PutBlob(w.st, KeyOf(id), bytes)
    requires id in w.hist.owner && w.hist.owner[id] == t
    requires id in w.hist.sent && Taken(w.hist.sent[id]) == Some(bytes)
    ensures BlobsOk(v)
  {
    hide KeyOf, IdOf, Taken;
    assert IdOf(KeyOf(id)) == id;
    forall k | k in v.st.blobs && k != KeyOf(id) ensures Accounted(v, IdOf(k)) {
      assert Accounted(w, IdOf(k));
    }
  }

  lemma CommittedHolds(cfg: Config, w: World, t: Tid, f: File)
    requires CommittedOk(w, t, f)
    ensures ThreadOk(cfg, w, t, UpSet(f))
  {
  }

  lemma SoundPutFrame(cfg: Config, h: History, k: History, f: File)
    requires SoundPut(cfg, h, f)
    requires h.sent == k.sent && h.begun == k.begun
    ensures SoundPut(cfg, k, f)
  {
  }

  lemma InsertKeeps(cfg: Config, w: World, t: Tid)
    requires Inv(cfg, w)
    requires t in w.threads && w.threads[t].UpInsert? && w.threads[t].f.id !in w.st.rows
    ensures Inv(cfg, MoveUpload(cfg, w, t, true))
  {
    hide ThreadOk, KeyOf, IdOf, InsertedOk, BlobsOk, RowsOk, CacheOk, HistoryOk, SoundPut;
    var v, f := MoveUpload(cfg, w, t, true), w.threads[t].f;
    DraftFacts(cfg, w, t, w.threads[t]);
    HistoryFrame(w, v);
    assert ThreadsOk(cfg, v) by {
      OthersKeep(cfg, w, v, {t});
      CommittedHolds(cfg, v, t, f);
    }
    assert BlobsOk(v) by {
      assert forall i :: PreCommit(w.threads[t], i) ==> i == f.id;
      BlobsFrame(w, v);
    }
    InsertRecords(cfg, w, v, f);
  }

  /** Insert adds one record and its row. */
  lemma InsertRecords(cfg: Config, w: World, v: World, f: File)
    requires RowsOk(w) && CacheOk(w) && InsertedOk(cfg, w)
    requires SoundPut(cfg, w.hist, f) && !Oversized(cfg, f.size)
    requires KeyOf(f.id) in w.st.blobs && f.id !in w.hist.inserted
    requires v.hist == w.hist.(inserted := w.hist.inserted[f.id := f]) && v.st == InsertRow(w.st, f)
    ensures RowsOk(v) && CacheOk(v) && InsertedOk(cfg, v)
  {
    hide KeyOf, IdOf, SoundPut, Stored;
    forall id | id in v.hist.inserted ensures InsertedRecordOk(cfg, v, id) {
      assert id != f.id ==> InsertedRecordOk(cfg, w, id);
      SoundPutFrame(cfg, w.hist, v.hist, v.hist.inserted[id]);
    }
  }

  // ---- it is inductive ----

  /** An id not drawn before has left no trace. */
  lemma FreshFacts(cfg: Config, w: World, id: Id)
    requires Inv(cfg, w)
    requires id !in w.hist.owner
    ensures KeyOf(id) !in w.st.blobs && id !in w.hist.inserted
  {
    hide ThreadsOk, RowsOk, CacheOk, KeyOf, IdOf, Accounted;
    assert id in w.hist.inserted ==> InsertedRecordOk(cfg, w, id);
    assert KeyOf(id) in w.st.blobs ==> IdOf(KeyOf(id)) in w.hist.sent;
  }

  lemma BeginMover(cfg: Config, w: World, t: Tid, req: Request)
    requires Inv(cfg, w)
    requires Enabled(cfg, w, Begin(t, req))
    ensures var v := Next(cfg, w, Begin(t, req));
            ThreadOk(cfg, v, t, v.threads[t])
  {
    hide ThreadsOk, RowsOk, InsertedOk, BlobsOk, CacheOk, HistoryOk, KeyOf, IdOf;
    if req.ReqUpload? { FreshFacts(cfg, w, req.id); }
  }

  /** A new thread, with nothing but the history of draws and requests extended. */
  lemma SpawnKeeps(cfg: Config, w: World, t: Tid, v: World)
    requires Inv(cfg, w)
    requires t !in w.threads && t in v.threads && v.threads == w.threads[t := v.threads[t]]
    requires v.st == w.st && HistoryGrows(w.hist, v.hist) && w.hist.inserted == v.hist.inserted
    requires ThreadOk(cfg, v, t, v.threads[t]) && HistoryOk(v)
    ensures Inv(cfg, v)
  {
    hide ThreadOk, KeyOf, IdOf, InsertedOk, BlobsOk, HistoryOk;
    assert ThreadsOk(cfg, v) by { OthersKeep(cfg, w, v, {}); }
    assert InsertedOk(cfg, v) by { InsertedFrame(cfg, w, v); }
    assert BlobsOk(v) by {
      OwnersRun(cfg, w);
      BlobsFrame(w, v);
    }
  }

  lemma OwnersRun(cfg: Config, w: World)
    requires Inv(cfg, w)
    ensures w.hist.owner.Keys == w.hist.sent.Keys == w.hist.begun.Keys
    ensures forall id :: id in w.hist.owner ==> w.hist.owner[id] in w.threads
  {
    hide ThreadsOk, RowsOk, InsertedOk, BlobsOk, CacheOk;
  }

  /** A draw or a request is all that a new call adds to the history. */
  lemma BeginHistory(cfg: Config, w: World, t: Tid, req: Request)
    requires HistoryOk(w)
    requires Enabled(cfg, w, Begin(t, req))
    ensures var v := BeginCall(cfg, w, t, req);
            HistoryOk(v) && HistoryGrows(w.hist, v.hist) && w.hist.inserted == v.hist.inserted
  {
    hide NewRecord, Oversized, Doomed, HistoryOk;
    var v := BeginCall(cfg, w, t, req);
    if req.ReqUpload? {
      DrawHistory(w, v, t, req.id, req.input);
    } else {
      assert forall id :: id in w.hist.reclaimed ==> id in w.hist.reclaimed;
      HistoryFrame(w, v);
    }
  }

  function Drawn(h: History, id: Id, input: UploadInput, t: Tid, at: Time): History {
    h.(sent := h.sent[id := input], owner := h.owner[id := t], begun := h.begun[id := at])
  }

  lemma DrawGrows(h: History, id: Id, input: UploadInput, t: Tid, at: Time)
    requires id !in h.sent && id !in h.owner && id !in h.begun
    ensures HistoryGrows(h, Drawn(h, id, input, t, at))
  {
  }

  lemma DrawHistory(w: World, v: World, t: Tid, id: Id, input: UploadInput)
    requires HistoryOk(w) && id !in w.hist.owner
    requires w.threads.Keys <= v.threads.Keys && t in v.threads && v.st == w.st
    requires v.hist == Drawn(w.hist, id, input, t, w.st.now)
    ensures HistoryOk(v) && HistoryGrows(w.hist, v.hist)
  {
    hide Doomed, HistoryGrows;
    assert id !in w.hist.sent && id !in w.hist.begun;
    DrawGrows(w.hist, id, input, t, w.st.now);
    var keys := w.hist.owner.Keys + {id};
    assert v.hist.owner.Keys == keys && v.hist.sent.Keys == keys && v.hist.begun.Keys == keys;
    forall i | i in v.hist.reclaimed ensures i in v.hist.inserted && Doomed(v, i) {
      DoomedIsForGood(w, v, i);
    }
  }

  lemma BeginKeeps(cfg: Config, w: World, t: Tid, req: Request)
    requires Inv(cfg, w)
    requires Enabled(cfg, w, Begin(t, req))
    ensures Inv(cfg, Next(cfg, w, Begin(t, req)))
  {
    hide ThreadOk, ThreadsOk, RowsOk, InsertedOk, BlobsOk, CacheOk, HistoryOk, HistoryGrows, KeyOf, IdOf, NewRecord;
    BeginMover(cfg, w, t, req);
    BeginHistory(cfg, w, t, req);
    SpawnKeeps(cfg, w, t, BeginCall(cfg, w, t, req));
  }

  lemma EnvironmentKeeps(cfg: Config, w: World, a: Action)
    requires Inv(cfg, w)
    requires a.Tick? || a.Evict?
    ensures Inv(cfg, Next(cfg, w, a))
  {
    hide ThreadOk, KeyOf, IdOf, InsertedOk, BlobsOk, HistoryOk, InsertedRecordOk;
    var v := Next(cfg, w, a);
    HistoryFrame(w, v);
    assert ThreadsOk(cfg, v) by { OthersKeep(cfg, w, v, {}); }
    assert InsertedOk(cfg, v) by { InsertedFrame(cfg, w, v); }
    assert BlobsOk(v) by { BlobsFrame(w, v); }
  }

  lemma UploadKeeps(cfg: Config, w: World, t: Tid, ok: bool)
    requires Inv(cfg, w)
    requires t in w.threads && InUpload(w.threads[t])
    requires w.threads[t].UpPut? && ok ==> Taken(w.threads[t].input).Some?
    ensures Inv(cfg, MoveUpload(cfg, w, t, ok))
  {
    hide ThreadOk, KeyOf, IdOf, ThreadsOk, InsertedOk, BlobsOk, CacheOk, RowsOk, HistoryOk;
    var th := w.threads[t];
    if th.UpTooBig? || th.UpRollback? {
      DiscardKeeps(cfg, w, t, ok);
    } else if th.UpPut? && ok {
      PutKeeps(cfg, w, t);
    } else if th.UpInsert? && ok && th.f.id !in w.st.rows {
      InsertKeeps(cfg, w, t);
    } else {
      UploadQuietMover(cfg, w, t, ok);
      var v := MoveUpload(cfg, w, t, ok);
      QuietKeeps(cfg, w, t, v.threads[t], v.st);
    }
  }

  lemma UploadThreadSuffices(cfg: Config, w: World, t: Tid, th: Thread)
    requires InUpload(th) || th.UpReturned? || th.UpFailed?
    requires UploadThreadOk(cfg, w, t, th)
    ensures ThreadOk(cfg, w, t, th)
  {
  }

  lemma UploadQuietMover(cfg: Config, w: World, t: Tid, ok: bool)
    requires Inv(cfg, w)
    requires t in w.threads
    requires var th := w.threads[t];
             || th.UpSet? || th.UpPublish?
             || (th.UpPut? && !ok)
             || (th.UpInsert? && !(ok && th.f.id !in w.st.rows))
    ensures var v := MoveUpload(cfg, w, t, ok);
            && ThreadOk(cfg, v, t, v.threads[t])
            && CacheOk(v)
            && (forall id :: PreCommit(w.threads[t], id) ==> PreCommit(v.threads[t], id) || KeyOf(id) !in w.st.blobs)
  {
    hide ThreadsOk, RowsOk, InsertedOk, BlobsOk, CacheOk, HistoryOk, KeyOf, IdOf,
      LookupThreadOk, DeleteThreadOk, PurgeThreadOk, Sound;
    var th, v := w.threads[t], MoveUpload(cfg, w, t, ok);
    MoverOk(cfg, w, t);
    if th.UpSet? || th.UpPublish? {
      assert HoldsOk(w, th.f.id, th.f);
    } else {
      DraftFacts(cfg, w, t, th);
    }
    UploadThreadSuffices(cfg, v, t, v.threads[t]);
    CacheFrame(w, v);
  }

  lemma MoverOk(cfg: Config, w: World, t: Tid)
    requires Inv(cfg, w) && t in w.threads
    ensures ThreadOk(cfg, w, t, w.threads[t])
  {
    hide ThreadOk, RowsOk, InsertedOk, BlobsOk, CacheOk, HistoryOk;
  }

  /** What a repository read returns. */
  lemma RowFacts(cfg: Config, w: World, id: Id)
    requires Inv(cfg, w) && id in w.st.rows
    ensures HoldsOk(w, id, w.st.rows[id]) && w.st.rows[id].storageKey == KeyOf(id)
  {
    hide ThreadsOk, BlobsOk, CacheOk, HistoryOk, KeyOf, IdOf;
    assert InsertedRecordOk(cfg, w, id);
  }

  /** What store.Get returns to a lookup that holds a record of `id`. */
  lemma BlobFacts(cfg: Config, w: World, id: Id, f: File)
    requires Inv(cfg, w) && HoldsOk(w, id, f)
    ensures if f.storageKey in w.st.blobs then SentOk(w, id, w.st.blobs[f.storageKey]) else id in w.hist.reclaimed
  {
    hide ThreadsOk, CacheOk, HistoryOk, KeyOf, IdOf, Accounted;
    assert InsertedRecordOk(cfg, w, id);
    assert f.storageKey == KeyOf(id);
  }

  /** What a cache hit returns; a Set by a thread that knows its record keeps it that way. */
  lemma CacheFacts(cfg: Config, w: World, id: Id)
    requires Inv(cfg, w) && id in w.st.cache
    ensures HoldsOk(w, id, w.st.cache[id].file)
  {
    hide ThreadsOk, RowsOk, InsertedOk, BlobsOk, HistoryOk;
  }

  lemma CacheFrame(w: World, v: World)
    requires CacheOk(w) && w.hist.inserted == v.hist.inserted
    requires forall id :: id in v.st.cache ==>
               || (id in w.st.cache && w.st.cache[id] == v.st.cache[id])
               || HoldsOk(v, id, v.st.cache[id].file)
    ensures CacheOk(v)
  {
  }

  lemma LookupThreadSuffices(cfg: Config, w: World, t: Tid, th: Thread)
    requires !(InUpload(th) || th.UpReturned? || InPurge(th))
    requires LookupThreadOk(w, th) && DeleteThreadOk(w, th)
    ensures ThreadOk(cfg, w, t, th)
  {
  }

  lemma LookupMover(cfg: Config, w: World, t: Tid, ok: bool)
    requires t in w.threads && InLookup(w.threads[t])
    requires Inv(cfg, w)
    ensures var v := MoveLookup(cfg, w, t, ok);
            ThreadOk(cfg, v, t, v.threads[t])
  {
    hide ThreadsOk, RowsOk, InsertedOk, BlobsOk, CacheOk, HistoryOk, KeyOf, IdOf, UploadThreadOk, PurgeThreadOk, Live;
    var th, v := w.threads[t], MoveLookup(cfg, w, t, ok);
    MoverOk(cfg, w, t);
    if th.LkGet? && Live(w.st, th.id) { LiveIsCached(w.st, th.id); CacheFacts(cfg, w, th.id); }
    if th.LkRead? && th.id in w.st.rows { RowFacts(cfg, w, th.id); }
    if th.LkFetch? { BlobFacts(cfg, w, th.id, th.f); }
    LookupThreadSuffices(cfg, v, t, v.threads[t]);
  }

  lemma LookupCaches(cfg: Config, w: World, t: Tid, ok: bool)
    requires t in w.threads && InLookup(w.threads[t])
    requires Inv(cfg, w)
    ensures CacheOk(MoveLookup(cfg, w, t, ok))
  {
    hide ThreadsOk, RowsOk, InsertedOk, BlobsOk, CacheOk, HistoryOk, KeyOf, IdOf,
      UploadThreadOk, DeleteThreadOk, PurgeThreadOk, Live, LapseAt, Image;
    MoverOk(cfg, w, t);
    CacheFrame(w, MoveLookup(cfg, w, t, ok));
  }

  lemma LiveIsCached(st: Stores, id: Id)
    requires Live(st, id)
    ensures id in st.cache
  {
  }

  lemma LookupKeeps(cfg: Config, w: World, t: Tid, ok: bool)
    requires Inv(cfg, w)
    requires t in w.threads && InLookup(w.threads[t])
    ensures Inv(cfg, MoveLookup(cfg, w, t, ok))
  {
    hide ThreadOk, ThreadsOk, RowsOk, InsertedOk, BlobsOk, CacheOk, HistoryOk;
    LookupMover(cfg, w, t, ok);
    LookupCaches(cfg, w, t, ok);
    var v := MoveLookup(cfg, w, t, ok);
    QuietKeeps(cfg, w, t, v.threads[t], v.st);
  }

  lemma DeleteThreadSuffices(cfg: Config, w: World, t: Tid, th: Thread)
    requires InDelete(th) || th.DelReturned? || th.LkNotFound?
    requires DeleteThreadOk(w, th)
    ensures ThreadOk(cfg, w, t, th)
  {
  }

  lemma DeleteMover(cfg: Config, w: World, t: Tid, ok: bool)
    requires t in w.threads && InDelete(w.threads[t])
    requires Inv(cfg, w)
    ensures var th, v := w.threads[t], MoveDelete(w, t, ok);
      && ThreadOk(cfg, v, t, v.threads[t]) && CacheOk(v)
      && (th.DelBlob? || th.DelRow? ==>
            th.id in w.hist.inserted && Doomed(w, th.id) && th.f.storageKey == KeyOf(th.id))
      && (th.DelRow? ==> Emptied(w, th.id))
  {
    hide ThreadsOk, RowsOk, InsertedOk, BlobsOk, CacheOk, HistoryOk, KeyOf, IdOf, UploadThreadOk, LookupThreadOk,
      PurgeThreadOk;
    var th, v := w.threads[t], MoveDelete(w, t, ok);
    MoverOk(cfg, w, t);
    if th.DelRead? {
      if th.id in w.st.rows { RowFacts(cfg, w, th.id); }
      DeleteThreadSuffices(cfg, v, t, v.threads[t]);
    } else {
      assert DeleteOk(w, th.id, th.f);
      DeleteThreadSuffices(cfg, v, t, v.threads[t]);
    }
    CacheFrame(w, v);
  }

  lemma DeleteKeeps(cfg: Config, w: World, t: Tid, ok: bool)
    requires Inv(cfg, w)
    requires t in w.threads && InDelete(w.threads[t])
    ensures Inv(cfg, MoveDelete(w, t, ok))
  {
    hide ThreadOk, ThreadsOk, RowsOk, InsertedOk, BlobsOk, CacheOk, HistoryOk;
    DeleteMover(cfg, w, t, ok);
    var th, v := w.threads[t], MoveDelete(w, t, ok);
    if th.DelBlob? {
      ReclaimKeeps(cfg, w, t, th.id, ok, v.threads[t]);
    } else if th.DelRow? && ok {
      RowRemovalKeeps(cfg, w, t, th.id, v.threads[t]);
    } else {
      QuietKeeps(cfg, w, t, v.threads[t], v.st);
    }
  }

  /** Every selected row is doomed: the sweep query never selects early. */
  lemma SelectionFacts(cfg: Config, w: World, limit: int, picks: seq<Id>)
    requires Inv(cfg, w)
    requires Selection(w.st, limit, picks)
    ensures forall i :: 0 <= i < |picks| ==> picks[i] in w.st.rows
    ensures TargetsOk(w, Targets(w.st, picks))
  {
    hide ThreadsOk, BlobsOk, CacheOk, HistoryOk, KeyOf, IdOf;
    assert forall i :: 0 <= i < |picks| ==> picks[i] in Expirees(w.st);
    forall i | 0 <= i < |picks| ensures TargetOk(w, Targets(w.st, picks)[i]) {
      RowFacts(cfg, w, picks[i]);
      SweepIsSound(w.hist.inserted[picks[i]], w.st.now);
    }
  }

  lemma PurgeThreadSuffices(cfg: Config, w: World, t: Tid, th: Thread)
    requires InPurge(th) || th.PgReturned?
    requires PurgeThreadOk(w, th)
    ensures ThreadOk(cfg, w, t, th)
  {
  }

  lemma PurgeMover(cfg: Config, w: World, t: Tid, ok: bool, picks: seq<Id>)
    requires t in w.threads && InPurge(w.threads[t])
    requires Inv(cfg, w)
    requires w.threads[t].PgQuery? && ok ==> Selection(w.st, w.threads[t].batch, picks)
    ensures var th, v := w.threads[t], MovePurge(w, t, ok, picks);
      && ThreadOk(cfg, v, t, v.threads[t]) && CacheOk(v)
      && (th.PgBlob? || th.PgRow? ==>
            th.cur.id in w.hist.inserted && Doomed(w, th.cur.id) && th.cur.key == KeyOf(th.cur.id))
      && (th.PgRow? ==> Emptied(w, th.cur.id))
  {
    hide ThreadsOk, RowsOk, InsertedOk, BlobsOk, CacheOk, HistoryOk, KeyOf, IdOf, Selection,
      UploadThreadOk, LookupThreadOk, DeleteThreadOk;
    var th, v := w.threads[t], MovePurge(w, t, ok, picks);
    MoverOk(cfg, w, t);
    if th.PgQuery? && ok { SelectionFacts(cfg, w, th.batch, picks); }
    assert PurgeThreadOk(v, v.threads[t]);
    PurgeThreadSuffices(cfg, v, t, v.threads[t]);
    CacheFrame(w, v);
  }

  lemma PurgeKeeps(cfg: Config, w: World, t: Tid, ok: bool, picks: seq<Id>)
    requires Inv(cfg, w)
    requires t in w.threads && InPurge(w.threads[t])
    requires w.threads[t].PgQuery? && ok ==> Selection(w.st, w.threads[t].batch, picks)
    ensures Inv(cfg, MovePurge(w, t, ok, picks))
  {
    hide ThreadOk, ThreadsOk, RowsOk, InsertedOk, BlobsOk, CacheOk, HistoryOk;
    PurgeMover(cfg, w, t, ok, picks);
    var th, v := w.threads[t], MovePurge(w, t, ok, picks);
    if th.PgBlob? {
      ReclaimKeeps(cfg, w, t, th.cur.id, ok, v.threads[t]);
    } else if th.PgRow? && ok {
      RowRemovalKeeps(cfg, w, t, th.cur.id, v.threads[t]);
    } else {
      QuietKeeps(cfg, w, t, v.threads[t], v.st);
    }
  }

  // ---- every reachable world ----

  lemma StepKeeps(cfg: Config, w: World, a: Action)
    requires Inv(cfg, w)
    requires Enabled(cfg, w, a)
    ensures Inv(cfg, Next(cfg, w, a))
  {
    hide ThreadsOk, RowsOk, InsertedOk, BlobsOk, CacheOk, HistoryOk, Selection,
      MoveUpload, MoveLookup, MoveDelete, MovePurge, BeginCall;
    match a
    case Begin(t, req) => BeginKeeps(cfg, w, t, req);
    case Tick(_) => EnvironmentKeeps(cfg, w, a);
    case Evict(_) => EnvironmentKeeps(cfg, w, a);
    case Move(t, ok, picks) =>
      var th := w.threads[t];
      if InUpload(th) { UploadKeeps(cfg, w, t, ok); }
      else if InLookup(th) { LookupKeeps(cfg, w, t, ok); }
      else if InDelete(th) { DeleteKeeps(cfg, w, t, ok); }
      else { PurgeKeeps(cfg, w, t, ok, picks); }
  }

  lemma {:induction false} RunKeeps(cfg: Config, w: World, acts: seq<Action>, v: World)
    requires Inv(cfg, w)
    requires Leads(cfg, w, acts, v)
    ensures Inv(cfg, v)
    decreases |acts|
  {
    hide Inv, Enabled, Next;
    if acts != [] {
      StepKeeps(cfg, w, acts[0]);
      RunKeeps(cfg, Next(cfg, w, acts[0]), acts[1..], v);
    }
  }

  lemma ReachableInv(cfg: Config, w: World)
    requires Reachable(cfg, w)
    ensures Inv(cfg, w)
  {
    var start: Time, acts :| Leads(cfg, Initial(start), acts, w);
    RunKeeps(cfg, Initial(start), acts, w);
  }
}
