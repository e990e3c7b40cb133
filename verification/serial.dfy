/**
 * Each use case run from start to end without interference, as a function of
 * the stores and of the environment's choices: which dependency calls fail, how
 * much time passes, which rows a LIMIT-ed query returns. Service proves its
 * methods equal to these functions; SerialRuns proves each of them to be a run
 * of the interleaved machine.
 */
module Serial {
  import opened Prelude
  import opened Files
  import opened Stores

  datatype Error = NotFound | TooLarge | Backend

  // ---- the environment's choices for one call ----

  /** `putLag` is the time from the record's creation to cache.Set, `lag` that from there to the publish. */
  datatype UploadFaults =
    UploadFaults(putOk: bool, putLag: nat, insertOk: bool, rollbackOk: bool, setOk: bool, lag: nat)

  /** `lag` is the time the removal of one file takes. */
  datatype DeleteFaults = DeleteFaults(readOk: bool, blobOk: bool, cacheOk: bool, lag: nat, rowOk: bool)

  /** `readLag` is the time from cache.Get to cache.Set, `lag` that from there to the expiry check. */
  datatype LookupFaults =
    LookupFaults(hitOk: bool, readLag: nat, readOk: bool, setOk: bool, lag: nat, reap: DeleteFaults, fetchOk: bool)

  datatype PurgeFaults = PurgeFaults(queryOk: bool, items: seq<DeleteFaults>)

  const NO_FAULTS := DeleteFaults(true, true, true, 0, true)

  function ItemFaults(q: PurgeFaults, i: nat): DeleteFaults {
    if i < |q.items| then q.items[i] else NO_FAULTS
  }

  // ---- Upload ----

  function Later(st: Stores, lag: nat): Stores {
    st.(now := st.now + lag)
  }

  function Discard(st: Stores, k: Key, ok: bool): Stores {
    if ok then DropBlob(st, k) else st
  }

  function Upload(cfg: Config, st: Stores, id: Id, input: UploadInput, q: UploadFaults): (Stores, Result<File, Error>) {
    if Oversized(cfg, input.size) then (st, Err(TooLarge))
    else if !q.putOk || Taken(input).None? then (st, Err(Backend))
    else
      var bytes := Taken(input).value;
      var f := NewRecord(cfg, id, input, st.now).(size := |bytes|);
      var put := PutBlob(st, f.storageKey, bytes);
      if Oversized(cfg, |bytes|) then (Discard(put, f.storageKey, q.rollbackOk), Err(TooLarge))
      else if !q.insertOk || id in st.rows then (Discard(put, f.storageKey, q.rollbackOk), Err(Backend))
      else
        var row := InsertRow(Later(put, q.putLag), f);
        var cached := if q.setOk then SetCache(row, cfg.cacheTTL, f) else row;
        (Publish(Later(cached, q.lag), FileUploaded, id), Ok(f))
  }

  /**
   * What an upload answers, in terms of what was asked for: a record as requested
   * whose bytes are stored, or the reason why not.
   */
  predicate Answered(cfg: Config, st: Stores, id: Id, input: UploadInput, q: UploadFaults, s: Stores,
                     r: Result<File, Error>)
  {
    match r
    case Ok(f) =>
      && !OverLimit(cfg, input) && q.putOk && q.insertOk && id !in st.rows
      && f.storageKey in s.blobs && Requested(cfg, f, id, input, s.blobs[f.storageKey], st.now)
    case Err(TooLarge) => OverLimit(cfg, input)
    case Err(Backend) => !q.putOk || input.size > |input.body| || !q.insertOk || id in st.rows
    case Err(NotFound) => false
  }

  lemma UploadAnswers(cfg: Config, st: Stores, id: Id, input: UploadInput, q: UploadFaults)
    ensures var (s, r) := Upload(cfg, st, id, input, q); Answered(cfg, st, id, input, q, s, r)
  {
    hide KeyOf, IdOf, NewRecord, Stored, LapseAt, Taken, Oversized, Requested, OverLimit;
    OverLimitIff(cfg, input);
    if Taken(input).Some? {
      TakenIff(input, Taken(input).value);
      if !Oversized(cfg, |Taken(input).value|) { RecordIsRequested(cfg, id, input, st.now); }
    } else {
      TakenIff(input, []);
    }
  }

  // ---- Delete ----

  /** store.Delete and cache.Delete, whose errors are dropped. */
  function Reclaim(st: Stores, id: Id, k: Key, q: DeleteFaults): Stores {
    var noBlob := Discard(st, k, q.blobOk);
    Later(if q.cacheOk then DropCache(noBlob, id) else noBlob, q.lag)
  }

  /** What Delete and PurgeExpired do to one file they found: its blob, its entry, its row, and an event on `named`. */
  function Remove(st: Stores, id: Id, k: Key, q: DeleteFaults, kind: Kind, named: Id): Stores {
    var gone := Reclaim(st, id, k, q);
    if q.rowOk then Publish(DropRow(gone, id), kind, named) else gone
  }

  function Delete(st: Stores, id: Id, q: DeleteFaults): (Stores, Option<Error>) {
    if !q.readOk then (st, Some(Backend))
    else if id !in st.rows then (st, None)
    else
      var f := st.rows[id];
      (Remove(st, id, f.storageKey, q, FileDeleted, f.id), if q.rowOk then None else Some(Backend))
  }

  // ---- Metadata and Download ----

  /** The record a lookup works with, and the stores after finding it. */
  function Find(cfg: Config, st: Stores, id: Id, q: LookupFaults): (Stores, Result<File, Error>) {
    var later := Later(st, q.readLag);
    if q.hitOk && Live(st, id) then (later, Ok(st.cache[id].file))
    else if !q.readOk then (later, Err(Backend))
    else if id !in st.rows then (later, Err(NotFound))
    else (if q.setOk then SetCache(later, cfg.cacheTTL, st.rows[id]) else later, Ok(st.rows[id]))
  }

  function Metadata(cfg: Config, st: Stores, id: Id, q: LookupFaults): (Stores, Result<File, Error>) {
    var (found, r) := Find(cfg, st, id, q);
    var late := Later(found, q.lag);
    if r.Err? then (late, r)
    else if Expired(r.value, late.now) then (Delete(late, id, q.reap).0, Err(NotFound))
    else (late, r)
  }

  function Download(cfg: Config, st: Stores, id: Id, q: LookupFaults): (Stores, Result<(File, Bytes), Error>) {
    var (after, r) := Metadata(cfg, st, id, q);
    if r.Err? then (after, Err(r.error))
    else if q.fetchOk && r.value.storageKey in after.blobs then (after, Ok((r.value, after.blobs[r.value.storageKey])))
    else (after, Err(Backend))
  }

  /** The answer to a lookup begun at `at`, cache.Get working and the row read failing; `f` was cached at `cachedAt`. */
  predicate FromCache(cfg: Config, f: File, cachedAt: Time, at: Time, q: LookupFaults, r: Result<File, Error>) {
    if cfg.cacheTTL > 0 && at > cachedAt + cfg.cacheTTL then r == Err(Backend)
    else if Expired(f, at + q.readLag + q.lag) then r == Err(NotFound)
    else r == Ok(f)
  }

  lemma CacheAnswers(cfg: Config, st: Stores, f: File, dt: nat, q: LookupFaults)
    requires q.hitOk && !q.readOk
    ensures var s := Later(SetCache(st, cfg.cacheTTL, f), dt);
            FromCache(cfg, f, st.now, s.now, q, Metadata(cfg, s, f.id, q).1)
  {
    hide Live, Delete;
    CachedThrough(st, cfg.cacheTTL, f, dt);
  }

  /** A successful upload fills the cache: for one cache TTL its record is answered even if the table is down. */
  lemma UploadFillsCache(cfg: Config, st: Stores, id: Id, input: UploadInput, up: UploadFaults, dt: nat,
                         q: LookupFaults)
    requires Upload(cfg, st, id, input, up).1.Ok? && up.setOk
    requires q.hitOk && !q.readOk
    ensures var (s, r) := Upload(cfg, st, id, input, up);
            FromCache(cfg, r.value, st.now + up.putLag, s.now + dt, q, Metadata(cfg, Later(s, dt), id, q).1)
  {
    hide KeyOf, IdOf, ExpiryFor, DefaultString, Stored, Live, LapseAt, Delete, Taken, Oversized;
    var (s, r) := Upload(cfg, st, id, input, up);
    var put := s.(now := st.now + up.putLag);
    CacheAnswers(cfg, put, r.value, up.lag + dt, q);
    assert put.cache[id := Entry(r.value, LapseAt(cfg.cacheTTL, put.now))] == s.cache;
    SameAnswer(cfg, Later(SetCache(put, cfg.cacheTTL, r.value), up.lag + dt), Later(s, dt), id, q);
  }

  /** So does a lookup that read the row. */
  lemma LookupFillsCache(cfg: Config, st: Stores, id: Id, first: LookupFaults, dt: nat, q: LookupFaults)
    requires !(first.hitOk && Live(st, id)) && first.readOk && id in st.rows && st.rows[id].id == id && first.setOk
    requires Metadata(cfg, st, id, first).1.Ok?
    requires q.hitOk && !q.readOk
    ensures var (s, r) := Metadata(cfg, st, id, first);
            FromCache(cfg, r.value, st.now + first.readLag, s.now + dt, q, Metadata(cfg, Later(s, dt), id, q).1)
  {
    hide Live, LapseAt, Delete;
    var (s, r) := Metadata(cfg, st, id, first);
    var put := s.(now := st.now + first.readLag);
    CacheAnswers(cfg, put, r.value, first.lag + dt, q);
    assert put.cache[id := Entry(r.value, LapseAt(cfg.cacheTTL, put.now))] == s.cache;
    SameAnswer(cfg, Later(SetCache(put, cfg.cacheTTL, r.value), first.lag + dt), Later(s, dt), id, q);
  }

  lemma SameAnswer(cfg: Config, st: Stores, s: Stores, id: Id, q: LookupFaults)
    requires st.now == s.now && st.cache == s.cache && st.rows == s.rows
    ensures Metadata(cfg, st, id, q).1 == Metadata(cfg, s, id, q).1
  {
    hide LapseAt;
  }

  // ---- PurgeExpired ----

  /** The loop over the selected rows from the `i`-th on; `i` have been purged. */
  function PurgeFrom(st: Stores, picks: seq<Id>, i: nat, q: PurgeFaults): (Stores, nat, Option<Error>)
    requires i <= |picks|
    requires forall j :: i <= j < |picks| ==> picks[j] in st.rows
    requires Distinct(picks)
    decreases |picks| - i
  {
    if i == |picks| then (st, i, None)
    else
      var id, d := picks[i], ItemFaults(q, i);
      var next := Remove(st, id, st.rows[id].storageKey, d, FileExpired, id);
      if d.rowOk then PurgeFrom(next, picks, i + 1, q) else (next, i, Some(Backend))
  }

  /** A query that is refused (a negative LIMIT) or fails selects nothing. */
  predicate Queried(batch: int, q: PurgeFaults) {
    q.queryOk && batch >= 0
  }

  function Purge(st: Stores, batch: int, picks: seq<Id>, q: PurgeFaults): (Stores, nat, Option<Error>)
    requires Queried(batch, q) ==> Selection(st, batch, picks)
  {
    if !Queried(batch, q) then (st, 0, Some(Backend))
    else
      assert forall i :: 0 <= i < |picks| ==> picks[i] in Expirees(st);
      PurgeFrom(st, picks, 0, q)
  }

  /** A sweep query looks at rows and time only. */
  lemma SelectionOfRows(st: Stores, limit: int, picks: seq<Id>)
    requires Selection(Empty(st.now).(rows := st.rows), limit, picks)
    ensures Selection(st, limit, picks)
  {
    assert Expirees(Empty(st.now).(rows := st.rows)) == Expirees(st);
  }

  /** What it answers are distinct rows of the table. */
  lemma PicksAreRows(st: Stores, limit: int, picks: seq<Id>)
    requires Selection(st, limit, picks)
    ensures |picks| <= limit
    ensures Distinct(picks) && forall i :: 0 <= i < |picks| ==> picks[i] in st.rows
  {
    assert forall i :: 0 <= i < |picks| ==> picks[i] in Expirees(st);
  }

  /** One turn of PurgeExpired's loop, and what is left after the last one. */
  lemma PurgeTurns(st: Stores, picks: seq<Id>, i: nat, q: PurgeFaults)
    requires i < |picks| && Distinct(picks)
    requires forall j :: i <= j < |picks| ==> picks[j] in st.rows
    ensures var id, d := picks[i], ItemFaults(q, i);
            var next := Remove(st, id, st.rows[id].storageKey, d, FileExpired, id);
            if !d.rowOk then PurgeFrom(st, picks, i, q) == (next, i, Some(Backend))
            else
              && (forall j :: i < j < |picks| ==> picks[j] in next.rows && next.rows[picks[j]] == st.rows[picks[j]])
              && PurgeFrom(st, picks, i, q) == PurgeFrom(next, picks, i + 1, q)
  {
  }

  lemma PurgeStops(st: Stores, picks: seq<Id>, q: PurgeFaults)
    requires Distinct(picks)
    ensures PurgeFrom(st, picks, |picks|, q) == (st, |picks|, None)
  {
  }
}
