/** internal/service/service.go: the use cases over the three stores, each proved equal to its function in Serial. */
module Service {
  import opened Prelude
  import opened Files
  import opened Stores
  import opened Backends
  import S = Serial
  import opened Serial

  lemma RecordIsNamed(cfg: Config, id: Id, input: UploadInput, now: Time)
    ensures NewRecord(cfg, id, input, now).id == id
  {
  }

  class Service {
    const repo: Repository
    const store: BlobStore
    const cache: MetadataCache
    const events: Publisher
    const clock: Clock
    const ids: IdSource
    const baseTTL: Time
    const maxUpload: int

    constructor (start: Time, baseTTL: Time, maxUpload: int, cacheTTL: Time)
      ensures Valid() && fresh({repo, store, cache, events, clock, ids})
      ensures Snap() == Empty(start) && ids.used == {}
      ensures Cfg() == Config(baseTTL, maxUpload, cacheTTL)
    {
      repo := new Repository();
      store := new BlobStore();
      cache := new MetadataCache(cacheTTL);
      events := new Publisher();
      clock := new Clock(start);
      ids := new IdSource();
      this.baseTTL := baseTTL;
      this.maxUpload := maxUpload;
    }

    ghost predicate Valid()
      reads ids
    {
      ids.Valid()
    }

    function Cfg(): Config {
      Config(baseTTL, maxUpload, cache.ttl)
    }

    /** The state of all stores. */
    ghost function Snap(): Stores
      reads repo, store, cache, events, clock
    {
      Stores(repo.rows, store.blobs, cache.entries, events.log, clock.now)
    }

    method Upload(input: UploadInput, q: UploadFaults) returns (r: Result<File, Error>, ghost id: Id)
      requires Valid()
      modifies repo, store, cache, events, clock, ids
      ensures Valid()
      ensures (Snap(), r) == S.Upload(Cfg(), old(Snap()), id, input, q)
      ensures Answered(Cfg(), old(Snap()), id, input, q, Snap(), r)
      ensures if Oversized(Cfg(), input.size) then ids.used == old(ids.used)
              else id !in old(ids.used) && ids.used == old(ids.used) + {id}
    {
      hide KeyOf, IdOf, NewRecord, Stored, LapseAt, Oversized, Taken, IdSource.Valid, Answered;
      id := "";
      if Oversized(Cfg(), input.size) {
        UploadAnswers(Cfg(), Snap(), id, input, q);
        return Err(TooLarge), id;
      }
      var drawn := ids.NewString();
      id := drawn;
      UploadAnswers(Cfg(), old(Snap()), id, input, q);
      var f := NewRecord(Cfg(), drawn, input, clock.now);
      RecordIsNamed(Cfg(), drawn, input, clock.now);
      var put := store.Put(f.storageKey, input, q.putOk);
      if put.Err? { return Err(put.error), id; }
      f := f.(size := put.value);
      if Oversized(Cfg(), put.value) {
        store.Delete(f.storageKey, q.rollbackOk);
        return Err(TooLarge), id;
      }
      var err := repo.Insert(f, q.insertOk);
      if err.Some? {
        store.Delete(f.storageKey, q.rollbackOk);
        return Err(err.value), id;
      }
      clock.Pass(q.putLag);
      cache.Set(f, clock.now, q.setOk);
      clock.Pass(q.lag);
      events.Publish(Event(FileUploaded, f.id, clock.now));
      r := Ok(f);
    }

    method Metadata(id: Id, q: LookupFaults) returns (r: Result<File, Error>)
      modifies repo, store, cache, events, clock
      ensures (Snap(), r) == S.Metadata(Cfg(), old(Snap()), id, q)
    {
      var hit := cache.Get(id, clock.now, q.hitOk);
      clock.Pass(q.readLag);
      var f: File;
      if hit.Some? {
        f := hit.value;
      } else {
        r := repo.GetByID(id, q.readOk);
        if r.Err? {
          clock.Pass(q.lag);
          return;
        }
        f := r.value;
        cache.Set(f, clock.now, q.setOk);
      }
      clock.Pass(q.lag);
      if Expired(f, clock.now) {
        var dropped := Delete(id, q.reap);
        return Err(NotFound);
      }
      r := Ok(f);
    }

    method Download(id: Id, q: LookupFaults) returns (r: Result<(File, Bytes), Error>)
      modifies repo, store, cache, events, clock
      ensures (Snap(), r) == S.Download(Cfg(), old(Snap()), id, q)
    {
      var m := Metadata(id, q);
      if m.Err? { return Err(m.error); }
      var obj := store.Get(m.value.storageKey, q.fetchOk);
      if obj.Err? { return Err(obj.error); }
      r := Ok((m.value, obj.value));
    }

    method Delete(id: Id, q: DeleteFaults) returns (err: Option<Error>)
      modifies repo, store, cache, events, clock
      ensures (Snap(), err) == S.Delete(old(Snap()), id, q)
    {
      var r := repo.GetByID(id, q.readOk);
      if r.Err? { return if r.error == NotFound then None else Some(r.error); }
      var f := r.value;
      store.Delete(f.storageKey, q.blobOk);
      cache.Delete(id, q.cacheOk);
      clock.Pass(q.lag);
      err := repo.Delete(id, q.rowOk);
      if err.Some? { return; }
      events.Publish(Event(FileDeleted, f.id, clock.now));
    }

    /** `picks` is the answer the sweep query gave. */
    method PurgeExpired(batch: int, q: PurgeFaults) returns (purged: nat, err: Option<Error>, ghost picks: seq<Id>)
      modifies repo, store, cache, events, clock
      ensures Queried(batch, q) ==> Selection(old(Snap()), batch, picks)
      ensures (Snap(), purged, err) == S.Purge(old(Snap()), batch, picks, q)
    {
      hide PurgeFrom, Selection, Distinct, Expirees;
      purged := 0;
      var answer;
      answer, picks := repo.StorageKeysExpiredBefore(batch, clock.now, q.queryOk);
      if answer.Err? { return 0, Some(answer.error), picks; }
      var expired := answer.value;
      ghost var start := Snap();
      SelectionOfRows(start, batch, picks);
      PicksAreRows(start, batch, picks);
      while purged < |expired|
        invariant purged <= |expired| == |picks|
        invariant forall i :: purged <= i < |picks| ==>
                    picks[i] in repo.rows && expired[i] == (picks[i], repo.rows[picks[i]].storageKey)
        invariant PurgeFrom(Snap(), picks, purged, q) == PurgeFrom(start, picks, 0, q)
      {
        var (id, k) := expired[purged];
        var d := ItemFaults(q, purged);
        PurgeTurns(Snap(), picks, purged, q);
        store.Delete(k, d.blobOk);
        cache.Delete(id, d.cacheOk);
        clock.Pass(d.lag);
        var e := repo.Delete(id, d.rowOk);
        if e.Some? { return purged, e, picks; }
        events.Publish(Event(FileExpired, id, clock.now));
        purged := purged + 1;
      }
      PurgeStops(Snap(), picks, q);
      err := None;
    }
  }
}
