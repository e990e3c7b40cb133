/**
 * The dependencies the service holds, as objects that update their state in
 * place. Whether a call fails is the caller's `ok` argument: proofs range over
 * every value of it. A failed call has no effect.
 */
module Backends {
  import opened Prelude
  import opened Files
  import opened Stores
  import opened Serial

  /** internal/files/repository.go over the `files` table. */
  class Repository {
    var rows: map<Id, File>

    constructor ()
      ensures rows == map[]
    {
      rows := map[];
    }

    /** A key that is in use is refused. */
    method Insert(f: File, ok: bool) returns (err: Option<Error>)
      modifies this
      ensures if ok && f.id !in old(rows) then err == None && rows == old(rows)[f.id := Stored(f)]
              else err == Some(Backend) && rows == old(rows)
      ensures err == None ==> f.id in rows && Agrees(rows[f.id], f) && WholeSeconds(rows[f.id])
    {
      if !ok || f.id in rows { return Some(Backend); }
      StoredAgrees(f);
      rows := rows[f.id := Stored(f)];
      err := None;
    }

    method GetByID(id: Id, ok: bool) returns (r: Result<File, Error>)
      ensures r == if !ok then Err(Backend) else if id in rows then Ok(rows[id]) else Err(NotFound)
    {
      if !ok { return Err(Backend); }
      if id !in rows { return Err(NotFound); }
      r := Ok(rows[id]);
    }

    /** Deleting a missing id is not an error. */
    method Delete(id: Id, ok: bool) returns (err: Option<Error>)
      modifies this
      ensures if ok then err == None && rows == old(rows) - {id} else err == Some(Backend) && rows == old(rows)
    {
      if !ok { return Some(Backend); }
      rows := rows - {id};
      err := None;
    }

    /** Reads the answer row by row; which of the expired rows come first is up to the database. */
    method StorageKeysExpiredBefore(limit: int, now: Time, ok: bool)
      returns (r: Result<seq<(Id, Key)>, Error>, ghost picks: seq<Id>)
      ensures r.Ok? <==> ok && limit >= 0
      ensures r.Err? ==> r.error == Backend
      ensures r.Ok? ==> Selection(Empty(now).(rows := rows), limit, picks)
      ensures r.Ok? ==> |r.value| == |picks|
      ensures r.Ok? ==>
                forall i :: 0 <= i < |picks| ==>
                  picks[i] in rows && r.value[i] == (picks[i], rows[picks[i]].storageKey)
    {
      picks := [];
      if !ok || limit < 0 { return Err(Backend), []; }
      var left := set id | id in rows && SweepSelects(rows[id], now);
      ghost var all := left;
      var out := [];
      while |out| < limit && left != {}
        invariant |out| == |picks| <= limit
        invariant Distinct(picks)
        invariant all == Expirees(Empty(now).(rows := rows))
        invariant forall id :: id in all <==> id in left || id in picks
        invariant forall i :: 0 <= i < |picks| ==>
                    picks[i] in all && picks[i] !in left && out[i] == (picks[i], rows[picks[i]].storageKey)
        decreases left
      {
        var id :| id in left;
        left := left - {id};
        out := out + [(id, rows[id].storageKey)];
        picks := picks + [id];
      }
      r := Ok(out);
    }
  }

  /** internal/cache/redis.go: every error is dropped, so a failed Get is a miss. */
  class MetadataCache {
    const ttl: Time
    var entries: map<Id, Entry>

    constructor (ttl: Time)
      ensures this.ttl == ttl && entries == map[]
    {
      this.ttl := ttl;
      entries := map[];
    }

    method Get(id: Id, now: Time, ok: bool) returns (r: Option<File>)
      ensures r == if ok && Live(Stores(map[], map[], entries, [], now), id) then Some(entries[id].file) else None
    {
      if ok && id in entries && (entries[id].lapse == None || now <= entries[id].lapse.value) {
        return Some(entries[id].file);
      }
      r := None;
    }

    method Set(f: File, now: Time, ok: bool)
      modifies this
      ensures entries == if ok then old(entries)[f.id := Entry(f, LapseAt(ttl, now))] else old(entries)
      ensures ok ==> f.id in entries && entries[f.id].file == f
      ensures ok ==> forall t :: now <= t ==>
                (Live(Empty(t).(cache := entries), f.id) <==> (ttl > 0 ==> t <= now + ttl))
    {
      if ok { entries := entries[f.id := Entry(f, LapseAt(ttl, now))]; }
    }

    method Delete(id: Id, ok: bool)
      modifies this
      ensures entries == if ok then old(entries) - {id} else old(entries)
    {
      if ok { entries := entries - {id}; }
    }
  }

  /** internal/storage/storage.go: Put succeeds only after reading EOF, or all of a declared size. */
  class BlobStore {
    var blobs: map<Key, Bytes>

    constructor ()
      ensures blobs == map[]
    {
      blobs := map[];
    }

    method Put(k: Key, input: UploadInput, ok: bool) returns (r: Result<nat, Error>)
      modifies this
      ensures if ok && Taken(input).Some?
              then blobs == old(blobs)[k := Taken(input).value] && r == Ok(|Taken(input).value|)
              else blobs == old(blobs) && r == Err(Backend)
    {
      if !ok || Taken(input).None? { return Err(Backend); }
      blobs := blobs[k := Taken(input).value];
      r := Ok(|Taken(input).value|);
    }

    method Get(k: Key, ok: bool) returns (r: Result<Bytes, Error>)
      ensures r == if ok && k in blobs then Ok(blobs[k]) else Err(Backend)
    {
      if ok && k in blobs { return Ok(blobs[k]); }
      r := Err(Backend);
    }

    method Delete(k: Key, ok: bool)
      modifies this
      ensures blobs == if ok then old(blobs) - {k} else old(blobs)
    {
      if ok { blobs := blobs - {k}; }
    }
  }

  /** internal/events/publisher.go: publishing never fails its caller. */
  class Publisher {
    var log: seq<Event>

    constructor ()
      ensures log == []
    {
      log := [];
    }

    method Publish(e: Event)
      modifies this
      ensures log == old(log) + [e]
    {
      log := log + [e];
    }
  }

  /** One monotone clock for the process, the cache and the database. */
  class Clock {
    var now: Time

    constructor (start: Time)
      ensures now == start
    {
      now := start;
    }

    method Pass(lag: nat)
      modifies this
      ensures now == old(now) + lag
    {
      now := now + lag;
    }
  }

  /** Draws ids that were never drawn before; nothing else about them is used. */
  class IdSource {
    var next: nat
    ghost var used: set<Id>

    ghost predicate Valid()
      reads this
    {
      forall id :: id in used ==> |id| < next
    }

    constructor ()
      ensures Valid() && used == {}
    {
      next := 0;
      used := {};
    }

    method NewString() returns (id: Id)
      requires Valid()
      modifies this
      ensures Valid() && id !in old(used) && used == old(used) + {id}
    {
      id := seq(next, _ => 'x');
      next := next + 1;
      used := used + {id};
    }
  }
}
