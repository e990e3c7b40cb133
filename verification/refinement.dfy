/**
 * Run one call after the other, the three stores behave like one plain map from
 * ids to a record and its bytes, with expiry and without a cache, provided a
 * Delete or reap leaves nothing of the file that could still be read as alive: no
 * entry beside a removed row, no row without its bytes. Failing puts, inserts,
 * reads and blob removals, lost cache writes, spontaneous evictions and failures
 * of any kind in a purge are all allowed.
 */
module Refinement {
  import opened Prelude
  import opened Files
  import opened Stores
  import S = Serial
  import opened Serial

  // ---- calls and what their callers see ----

  datatype Call =
    | DoUpload(id: Id, input: UploadInput, up: UploadFaults)
    | DoMetadata(id: Id, lk: LookupFaults)
    | DoDownload(id: Id, lk: LookupFaults)
    | DoDelete(id: Id, del: DeleteFaults)
    | DoPurge(batch: int, picks: seq<Id>, pg: PurgeFaults)
    | Evicted(id: Id)
    | Passed(lag: nat)

  datatype Reply =
    | RecordIs(r: Result<File, Error>)
    | ObjectIs(o: Result<(File, Bytes), Error>)
    | DeletedIs(err: Option<Error>)
    | PurgedIs(n: nat, err: Option<Error>)
    | Silent

  /** Ids are drawn once, and a sweep query answers with rows it may answer with. */
  predicate Admissible(st: Stores, used: set<Id>, c: Call) {
    && (c.DoUpload? ==> c.id !in used)
    && (c.DoPurge? && Queried(c.batch, c.pg) ==> Selection(st, c.batch, c.picks))
  }

  function UsedAfter(used: set<Id>, c: Call): set<Id> {
    if c.DoUpload? then used + {c.id} else used
  }

  function Exec(cfg: Config, st: Stores, c: Call): (Stores, Reply)
    requires c.DoPurge? && Queried(c.batch, c.pg) ==> Selection(st, c.batch, c.picks)
  {
    match c
    case DoUpload(id, input, q) => var (s, r) := S.Upload(cfg, st, id, input, q); (s, RecordIs(r))
    case DoMetadata(id, q) => var (s, r) := S.Metadata(cfg, st, id, q); (s, RecordIs(r))
    case DoDownload(id, q) => var (s, r) := S.Download(cfg, st, id, q); (s, ObjectIs(r))
    case DoDelete(id, q) => var (s, e) := S.Delete(st, id, q); (s, DeletedIs(e))
    case DoPurge(batch, picks, q) => var (s, n, e) := S.Purge(st, batch, picks, q); (s, PurgedIs(n, e))
    case Evicted(id) => (DropCache(st, id), Silent)
    case Passed(lag) => (Later(st, lag), Silent)
  }

  // ---- the plain map ----

  datatype Kept = Kept(file: File, bytes: Bytes)

  type Shelf = map<Id, Kept>

  /** The instant of the expiry check of a lookup begun at `now`. */
  function CheckedAt(now: Time, q: LookupFaults): Time {
    now + q.readLag + q.lag
  }

  /** What the caller of a lookup of `id`, checked at `t`, may see, and the shelf afterwards. */
  predicate LookupAllowed(a: Shelf, id: Id, t: Time, q: LookupFaults, r: Result<File, Error>, b: Shelf) {
    match r
    case Ok(g) => b == a && id in a && Image(g, a[id].file) && Agrees(g, a[id].file) && !Expired(g, t)
    case Err(NotFound) =>
      || (id !in a && b == a)
      || (id in a && Lapsed(a[id].file, t) && (b == a || b == a - {id}))
    case Err(Backend) => b == a && !q.readOk
    case Err(TooLarge) => false
  }

  predicate UploadAllowed(cfg: Config, a: Shelf, now: Time, c: Call, r: Result<File, Error>, b: Shelf)
    requires c.DoUpload?
  {
    match r
    case Ok(f) =>
      && c.id !in a && c.id in b && b == a[c.id := Kept(f, b[c.id].bytes)]
      && Requested(cfg, f, c.id, c.input, b[c.id].bytes, now) && !OverLimit(cfg, c.input)
    case Err(TooLarge) => b == a && OverLimit(cfg, c.input)
    case Err(Backend) => b == a && (!c.up.putOk || c.input.size > |c.input.body| || !c.up.insertOk)
    case Err(NotFound) => false
  }

  /** The plain map's rules: call `c`, made at `now`, may be answered by `r` and leave `b`. */
  predicate Allowed(cfg: Config, a: Shelf, now: Time, c: Call, r: Reply, b: Shelf) {
    match c
    case DoUpload(_, _, _) => r.RecordIs? && UploadAllowed(cfg, a, now, c, r.r, b)
    case DoMetadata(id, q) => r.RecordIs? && LookupAllowed(a, id, CheckedAt(now, q), q, r.r, b)
    case DoDownload(id, q) =>
      && r.ObjectIs?
      && (match r.o
          case Ok((g, bytes)) => LookupAllowed(a, id, CheckedAt(now, q), q, Ok(g), b) && id in a && bytes == a[id].bytes
          case Err(Backend) => b == a && (!q.readOk || !q.fetchOk)
          case Err(e) => LookupAllowed(a, id, CheckedAt(now, q), q, Err(e), b))
    case DoDelete(id, q) =>
      && r.DeletedIs?
      && if r.err == None then b == a - {id} else r.err == Some(Backend) && b == a && !(q.readOk && q.rowOk)
    case DoPurge(batch, picks, q) =>
      && r.PurgedIs?
      && if !Queried(batch, q) then r == PurgedIs(0, Some(Backend)) && b == a
         else
           && r.n <= |picks| <= batch
           && (forall i :: 0 <= i < |picks| ==> picks[i] in a && Expired(a[picks[i]].file, now))
           && b == a - IdSet(picks[..r.n])
           && (if r.n == |picks| then r.err == None else r.err == Some(Backend) && !ItemFaults(q, r.n).rowOk)
    case Evicted(_) => r == Silent && b == a
    case Passed(_) => r == Silent && b == a
  }

  function IdSet(ids: seq<Id>): set<Id> {
    set id | id in ids
  }

  lemma IdSetCons(picks: seq<Id>, i: nat, n: nat)
    requires i < n <= |picks|
    ensures IdSet(picks[i..n]) == {picks[i]} + IdSet(picks[i + 1..n])
  {
    assert picks[i..n] == [picks[i]] + picks[i + 1..n];
  }

  lemma IdSetNone(picks: seq<Id>, i: nat)
    requires i <= |picks|
    ensures IdSet(picks[i..i]) == {}
  {
  }

  lemma DropTwice<V>(m: map<Id, V>, id: Id, ids: set<Id>)
    ensures m - {id} - ids == m - ({id} + ids)
  {
  }

  datatype Seen = Seen(at: Time, call: Call, reply: Reply)

  /** The plain map can answer the whole conversation. */
  ghost predicate Explained(cfg: Config, a: Shelf, talk: seq<Seen>)
    decreases |talk|
  {
    talk != [] ==>
      exists b :: Allowed(cfg, a, talk[0].at, talk[0].call, talk[0].reply, b) && Explained(cfg, b, talk[1..])
  }

  ghost predicate Lawful(cfg: Config, st: Stores, used: set<Id>, calls: seq<Call>)
    decreases |calls|
  {
    calls != [] ==>
      && Admissible(st, used, calls[0])
      && Lawful(cfg, Exec(cfg, st, calls[0]).0, UsedAfter(used, calls[0]), calls[1..])
  }

  ghost function Conversation(cfg: Config, st: Stores, used: set<Id>, calls: seq<Call>): seq<Seen>
    requires Lawful(cfg, st, used, calls)
    decreases |calls|
  {
    if calls == [] then []
    else
      var (s, r) := Exec(cfg, st, calls[0]);
      [Seen(st.now, calls[0], r)] + Conversation(cfg, s, UsedAfter(used, calls[0]), calls[1..])
  }

  // ---- removals that leave nothing alive behind ----

  /** The cache does not answer with a living record of `id`. */
  predicate Faded(st: Stores, id: Id) {
    Live(st, id) ==> Expired(st.cache[id].file, st.now)
  }

  /** Nothing that can be read about `id` is alive. */
  predicate Dark(st: Stores, id: Id)
    requires id in st.rows
  {
    Expired(st.rows[id], st.now) && Faded(st, id)
  }

  /**
   * The removal of `id` under faults `q` leaves no living entry beside a removed
   * row, and no living image beside a removed blob.
   */
  predicate Harmless(st: Stores, id: Id, q: DeleteFaults)
    requires id in st.rows
  {
    var late := Later(st, q.lag);
    if q.rowOk then q.cacheOk || Faded(late, id)
    else !q.blobOk || (Expired(late.rows[id], late.now) && (q.cacheOk || Faded(late, id)))
  }

  predicate SafeDelete(st: Stores, id: Id, q: DeleteFaults) {
    q.readOk && id in st.rows ==> Harmless(st, id, q)
  }

  /** The lookup reaps nothing, or harmlessly. */
  predicate SafeLookup(cfg: Config, st: Stores, id: Id, q: LookupFaults) {
    var (found, r) := Find(cfg, st, id, q);
    var late := Later(found, q.lag);
    r.Ok? && Expired(r.value, late.now) ==> SafeDelete(late, id, q.reap)
  }

  /** The proviso on a call made in `st`; uploads and purges need none. */
  predicate Safe(cfg: Config, st: Stores, c: Call) {
    match c
    case DoMetadata(id, q) => SafeLookup(cfg, st, id, q)
    case DoDownload(id, q) => SafeLookup(cfg, st, id, q)
    case DoDelete(id, q) => SafeDelete(st, id, q)
    case _ => true
  }

  ghost predicate SafeRun(cfg: Config, st: Stores, used: set<Id>, calls: seq<Call>)
    requires Lawful(cfg, st, used, calls)
    decreases |calls|
  {
    calls != [] ==>
      && Safe(cfg, st, calls[0])
      && SafeRun(cfg, Exec(cfg, st, calls[0]).0, UsedAfter(used, calls[0]), calls[1..])
  }

  /** In terms of faults alone: with the row goes the entry; if the row stays, so does the blob. */
  predicate CleanDelete(q: DeleteFaults) {
    q.readOk ==> if q.rowOk then q.cacheOk else !q.blobOk
  }

  predicate Clean(c: Call) {
    match c
    case DoMetadata(_, q) => CleanDelete(q.reap)
    case DoDownload(_, q) => CleanDelete(q.reap)
    case DoDelete(_, q) => CleanDelete(q)
    case _ => true
  }

  // ---- the simulation ----

  /** Row and blob of `id` hold what the shelf holds; only a dark row may lack its blob. */
  predicate Held(st: Stores, id: Id, k: Kept) {
    && k.file.id == id && k.file.storageKey == KeyOf(id)
    && id in st.rows && st.rows[id] == Stored(k.file)
    && (if KeyOf(id) in st.blobs then st.blobs[KeyOf(id)] == k.bytes else Dark(st, id))
  }

  predicate EntryOk(st: Stores, a: Shelf, id: Id)
    requires id in st.cache
  {
    if id in a then Image(st.cache[id].file, a[id].file) else Faded(st, id)
  }

  /** The shelf holds what rows and blobs hold, and the cache knows nothing else that is alive. */
  ghost predicate Sim(st: Stores, a: Shelf, used: set<Id>) {
    && a.Keys == st.rows.Keys && a.Keys <= used && st.cache.Keys <= used
    && (forall id :: id in a ==> Held(st, id, a[id]))
    && (forall id :: id in st.cache ==> EntryOk(st, a, id))
  }

  predicate SameFor(st: Stores, s: Stores, id: Id) {
    && st.now <= s.now
    && (id in st.rows ==> id in s.rows && s.rows[id] == st.rows[id])
    && (KeyOf(id) in s.blobs <==> KeyOf(id) in st.blobs)
    && (KeyOf(id) in s.blobs ==> s.blobs[KeyOf(id)] == st.blobs[KeyOf(id)])
    && (id in s.cache ==> id in st.cache && s.cache[id] == st.cache[id])
  }

  /** What is expired or lapsed stays so. */
  lemma FadedStays(st: Stores, s: Stores, id: Id)
    requires Faded(st, id) && st.now <= s.now
    requires id in s.cache ==> id in st.cache && s.cache[id] == st.cache[id]
    ensures Faded(s, id)
  {
  }

  lemma HeldStays(st: Stores, s: Stores, id: Id, k: Kept)
    requires Held(st, id, k) && SameFor(st, s, id)
    ensures Held(s, id, k)
  {
    hide KeyOf, IdOf, Stored, Faded;
    if KeyOf(id) !in st.blobs { FadedStays(st, s, id); }
  }

  /** What an upload does under its own key, before Insert, is invisible. */
  lemma DraftIsInvisible(st: Stores, a: Shelf, used: set<Id>, id: Id, blobs: map<Key, Bytes>)
    requires Sim(st, a, used) && id !in used
    requires forall k :: k != KeyOf(id) ==> (k in st.blobs <==> k in blobs)
    requires forall k :: k != KeyOf(id) && k in st.blobs ==> blobs[k] == st.blobs[k]
    ensures Sim(st.(blobs := blobs), a, used)
  {
    hide IdOf, KeyOf, Image, Stored, Held, Faded;
    var s := st.(blobs := blobs);
    forall i | i in a ensures Held(s, i, a[i]) {
      assert KeyOf(i) == KeyOf(id) ==> IdOf(KeyOf(i)) == id;
      HeldStays(st, s, i, a[i]);
    }
    forall i | i in s.cache ensures EntryOk(s, a, i) {
      assert EntryOk(st, a, i);
      if i !in a { FadedStays(st, s, i); }
    }
  }

  /** Before Insert an upload only works under its own key; after it, all three stores have the record. */
  lemma UploadEffect(cfg: Config, st: Stores, id: Id, input: UploadInput, q: UploadFaults)
    requires id !in st.cache
    ensures var (s, r) := S.Upload(cfg, st, id, input, q);
      && (forall k :: k != KeyOf(id) ==> (k in st.blobs <==> k in s.blobs))
      && (forall k :: k != KeyOf(id) && k in st.blobs ==> s.blobs[k] == st.blobs[k])
      && st.now <= s.now
      && match r
         case Err(_) => s == st.(blobs := s.blobs)
         case Ok(f) =>
           && f.id == id && f.storageKey == KeyOf(id) && f.storageKey in s.blobs
           && Taken(input) == Some(s.blobs[f.storageKey])
           && s.rows == st.rows[id := Stored(f)]
           && (forall i :: i in s.cache ==>
                 if i == id then s.cache[i].file == f else i in st.cache && s.cache[i] == st.cache[i])
  {
    hide IdOf, KeyOf, Stored, ExpiryFor, DefaultString, LapseAt, Taken, Oversized;
  }

  lemma UploadRefines(cfg: Config, st: Stores, a: Shelf, used: set<Id>, c: Call) returns (b: Shelf)
    requires c.DoUpload?
    requires Sim(st, a, used) && Admissible(st, used, c)
    ensures var (s, r) := Exec(cfg, st, c);
      && Sim(s, b, UsedAfter(used, c)) && Allowed(cfg, a, st.now, c, r, b)
  {
    hide IdOf, KeyOf, S.Upload, Held, Image, Stored, Taken, Oversized;
    var (s, r) := S.Upload(cfg, st, c.id, c.input, c.up);
    UploadEffect(cfg, st, c.id, c.input, c.up);
    DraftIsInvisible(st, a, used, c.id, s.blobs);
    b := a;
    if r.Ok? {
      b := a[c.id := Kept(r.value, Taken(c.input).value)];
      ShelvesUpload(st.(blobs := s.blobs), a, used, r.value, Taken(c.input).value, s);
    }
    UploadIsAllowed(cfg, st, a, used, c, b);
  }

  lemma UploadIsAllowed(cfg: Config, st: Stores, a: Shelf, used: set<Id>, c: Call, b: Shelf)
    requires c.DoUpload? && c.id !in used && a.Keys == st.rows.Keys <= used
    requires var r := S.Upload(cfg, st, c.id, c.input, c.up).1;
             b == if r.Ok? then a[c.id := Kept(r.value, Taken(c.input).value)] else a
    ensures UploadAllowed(cfg, a, st.now, c, S.Upload(cfg, st, c.id, c.input, c.up).1, b)
  {
    hide IdOf, KeyOf, S.Upload, Taken, Requested, OverLimit;
    var (s, r) := S.Upload(cfg, st, c.id, c.input, c.up);
    UploadAnswers(cfg, st, c.id, c.input, c.up);
    if r.Ok? {
      UploadStores(cfg, st, c.id, c.input, c.up);
    }
  }

  /** The bytes kept are the bytes stored. */
  lemma UploadStores(cfg: Config, st: Stores, id: Id, input: UploadInput, q: UploadFaults)
    requires S.Upload(cfg, st, id, input, q).1.Ok?
    ensures var (s, r) := S.Upload(cfg, st, id, input, q);
            r.value.storageKey in s.blobs && Taken(input) == Some(s.blobs[r.value.storageKey])
  {
    hide IdOf, KeyOf, Stored, ExpiryFor, DefaultString, LapseAt, Taken, Oversized;
  }

  /** Insert, Set and publish of a record whose blob is in place. */
  lemma ShelvesUpload(st: Stores, a: Shelf, used: set<Id>, f: File, bytes: Bytes, s: Stores)
    requires Sim(st, a, used) && f.id !in used && f.storageKey == KeyOf(f.id)
    requires f.storageKey in st.blobs && st.blobs[f.storageKey] == bytes
    requires s.rows == st.rows[f.id := Stored(f)] && s.blobs == st.blobs && st.now <= s.now
    requires forall id :: id in s.cache ==>
               if id == f.id then s.cache[id].file == f else id in st.cache && s.cache[id] == st.cache[id]
    ensures Sim(s, a[f.id := Kept(f, bytes)], used + {f.id})
  {
    hide IdOf, KeyOf, Stored, Faded;
    var b := a[f.id := Kept(f, bytes)];
    assert f.id !in st.cache;
    forall i | i in b ensures Held(s, i, b[i]) {
      if i != f.id { HeldStays(st, s, i, a[i]); }
    }
    forall i | i in s.cache ensures EntryOk(s, b, i) {
      if i != f.id {
        assert EntryOk(st, a, i);
        if i !in a { FadedStays(st, s, i); }
      }
    }
  }

  /** A harmless removal of one shelved file, as Delete and PurgeExpired do it. */
  lemma RemovalRefines(st: Stores, a: Shelf, used: set<Id>, id: Id, q: DeleteFaults, kind: Kind)
    requires Sim(st, a, used) && id in a && Harmless(st, id, q)
    ensures Sim(Remove(st, id, KeyOf(id), q, kind, id), if q.rowOk then a - {id} else a, used)
  {
    hide IdOf, KeyOf, Image, Stored, Held, Faded;
    var s, b := Remove(st, id, KeyOf(id), q, kind, id), if q.rowOk then a - {id} else a;
    forall i | i in b ensures Held(s, i, b[i]) {
      assert KeyOf(i) == KeyOf(id) ==> IdOf(KeyOf(i)) == id;
      if i == id { SparedIsHeld(st, a, used, id, q, kind); } else { HeldStays(st, s, i, a[i]); }
    }
    forall i | i in s.cache ensures EntryOk(s, b, i) {
      assert EntryOk(st, a, i);
      if i == id && q.rowOk { FadedStays(Later(st, q.lag), s, id); }
      else if i !in a { FadedStays(st, s, i); }
    }
  }

  /** A removal that failed to remove the row. */
  lemma SparedIsHeld(st: Stores, a: Shelf, used: set<Id>, id: Id, q: DeleteFaults, kind: Kind)
    requires Sim(st, a, used) && id in a && Harmless(st, id, q) && !q.rowOk
    ensures Held(Remove(st, id, KeyOf(id), q, kind, id), id, a[id])
  {
    hide IdOf, KeyOf, Image, Stored, Faded;
    var s := Remove(st, id, KeyOf(id), q, kind, id);
    if q.blobOk {
      assert Held(st, id, a[id]);
      if q.cacheOk { assert Faded(s, id) by { NoEntryIsFaded(s, id); } } else { FadedStays(Later(st, q.lag), s, id); }
    } else {
      HeldStays(st, s, id, a[id]);
    }
  }

  lemma NoEntryIsFaded(st: Stores, id: Id)
    requires id !in st.cache
    ensures Faded(st, id)
  {
  }

  lemma DeleteRefines(st: Stores, a: Shelf, used: set<Id>, id: Id, q: DeleteFaults)
    requires Sim(st, a, used) && SafeDelete(st, id, q)
    ensures var (s, e) := S.Delete(st, id, q);
      && Sim(s, if e == None then a - {id} else a, used)
      && (e != None ==> e == Some(Backend) && !(q.readOk && q.rowOk))
  {
    hide IdOf, KeyOf, Remove, Harmless, Held, EntryOk;
    if id in a {
      RowIsHeld(st, a, used, id);
      if q.readOk { RemovalRefines(st, a, used, id, q, FileDeleted); }
    } else {
      assert a - {id} == a;
    }
  }

  lemma TimePasses(st: Stores, a: Shelf, used: set<Id>, lag: nat)
    requires Sim(st, a, used)
    ensures Sim(Later(st, lag), a, used)
  {
    hide IdOf, KeyOf, Image, Held, Faded;
    var s := Later(st, lag);
    forall i | i in a ensures Held(s, i, a[i]) { HeldStays(st, s, i, a[i]); }
    forall i | i in s.cache ensures EntryOk(s, a, i) {
      assert EntryOk(st, a, i);
      if i !in a { FadedStays(st, s, i); }
    }
  }

  lemma EntryGoes(st: Stores, a: Shelf, used: set<Id>, id: Id)
    requires Sim(st, a, used)
    ensures Sim(DropCache(st, id), a, used)
  {
    hide IdOf, KeyOf, Image, Held, Faded;
    var s := DropCache(st, id);
    forall i | i in a ensures Held(s, i, a[i]) { HeldStays(st, s, i, a[i]); }
    forall i | i in s.cache ensures EntryOk(s, a, i) {
      assert EntryOk(st, a, i);
      if i !in a { FadedStays(st, s, i); }
    }
  }

  /** A lookup caches the row it read. */
  lemma RowIsCached(st: Stores, a: Shelf, used: set<Id>, id: Id, ttl: Time)
    requires Sim(st, a, used) && id in st.rows
    ensures Sim(SetCache(st, ttl, st.rows[id]), a, used)
  {
    hide IdOf, KeyOf, Held, Faded, LapseAt;
    RowIsHeld(st, a, used, id);
    var s := SetCache(st, ttl, st.rows[id]);
    forall i | i in a ensures Held(s, i, a[i]) {
      if i == id { CachedIsHeld(st, a, used, id, ttl); } else { HeldStays(st, s, i, a[i]); }
    }
    forall i | i in s.cache ensures EntryOk(s, a, i) {
      if i == id { assert Held(st, id, a[id]); RowIsStored(st, id, a[id]); }
      else {
        assert EntryOk(st, a, i);
        if i !in a { FadedStays(st, s, i); }
      }
    }
  }

  lemma RowIsStored(st: Stores, id: Id, k: Kept)
    requires Held(st, id, k)
    ensures st.rows[id] == Stored(k.file)
  {
  }

  lemma CachedIsHeld(st: Stores, a: Shelf, used: set<Id>, id: Id, ttl: Time)
    requires Sim(st, a, used) && id in st.rows && st.rows[id].id == id
    ensures Held(SetCache(st, ttl, st.rows[id]), id, a[id])
  {
    hide IdOf, KeyOf, Stored;
    assert Held(st, id, a[id]);
  }

  /** What a lookup works with: the shelved record, or one that is expired and unknown to the shelf. */
  lemma FindRefines(cfg: Config, st: Stores, a: Shelf, used: set<Id>, id: Id, q: LookupFaults)
    requires Sim(st, a, used)
    ensures var (s, r) := Find(cfg, st, id, q);
      && Sim(Later(s, q.lag), a, used)
      && s.now == st.now + q.readLag && s.blobs == st.blobs
      && (match r
          case Ok(g) => FoundOk(st, a, id, g, s.now)
          case Err(NotFound) => id !in a
          case Err(Backend) => !q.readOk
          case Err(TooLarge) => false)
  {
    hide IdOf, KeyOf, Sim, LapseAt, Held, EntryOk, Image, Stored;
    var later := Later(st, q.readLag);
    var (s, r) := Find(cfg, st, id, q);
    TimePasses(st, a, used, q.readLag);
    if q.hitOk && Live(st, id) { HitIsFound(st, a, used, id, later.now); }
    else if r.Ok? {
      RowIsFound(later, a, used, id);
      RowIsCached(later, a, used, id, cfg.cacheTTL);
    }
    SameKeys(later, a, used);
    TimePasses(s, a, used, q.lag);
  }

  predicate FoundOk(st: Stores, a: Shelf, id: Id, g: File, now: Time) {
    if id in a then Image(g, a[id].file) && (KeyOf(id) !in st.blobs ==> Expired(g, now)) else Expired(g, now)
  }

  lemma SameKeys(st: Stores, a: Shelf, used: set<Id>)
    requires Sim(st, a, used)
    ensures a.Keys == st.rows.Keys
  {
  }

  lemma HitIsFound(st: Stores, a: Shelf, used: set<Id>, id: Id, later: Time)
    requires Sim(st, a, used) && Live(st, id) && st.now <= later
    ensures FoundOk(st, a, id, st.cache[id].file, later)
  {
    hide IdOf, KeyOf, Image, Stored;
    assert EntryOk(st, a, id);
    if id in a { assert Held(st, id, a[id]); }
  }

  lemma RowIsFound(st: Stores, a: Shelf, used: set<Id>, id: Id)
    requires Sim(st, a, used) && id in st.rows
    ensures FoundOk(st, a, id, st.rows[id], st.now)
  {
    hide IdOf, KeyOf, Stored;
    assert Held(st, id, a[id]);
  }

  lemma MetadataRefines(cfg: Config, st: Stores, a: Shelf, used: set<Id>, id: Id, q: LookupFaults) returns (b: Shelf)
    requires Sim(st, a, used) && SafeLookup(cfg, st, id, q)
    ensures var (s, r) := S.Metadata(cfg, st, id, q);
      && Sim(s, b, used) && LookupAllowed(a, id, CheckedAt(st.now, q), q, r, b)
      && (r.Ok? ==> KeyOf(id) in s.blobs)
  {
    hide IdOf, KeyOf, Sim, SafeDelete, Agrees;
    var (found, r) := Find(cfg, st, id, q);
    FindRefines(cfg, st, a, used, id, q);
    if r.Ok? && id in a { ImageAgrees(r.value, a[id].file); }
    b := a;
    if r.Ok? && Expired(r.value, CheckedAt(st.now, q)) {
      DeleteRefines(Later(found, q.lag), a, used, id, q.reap);
      if S.Delete(Later(found, q.lag), id, q.reap).1 == None { b := a - {id}; }
    }
  }

  lemma DownloadRefines(cfg: Config, st: Stores, a: Shelf, used: set<Id>, c: Call) returns (b: Shelf)
    requires c.DoDownload?
    requires Sim(st, a, used) && Safe(cfg, st, c)
    ensures var (s, r) := Exec(cfg, st, c);
      && Sim(s, b, used) && Allowed(cfg, a, st.now, c, r, b)
  {
    hide IdOf, KeyOf, S.Metadata, SafeLookup, EntryOk;
    b := MetadataRefines(cfg, st, a, used, c.id, c.lk);
    var (s, r) := S.Metadata(cfg, st, c.id, c.lk);
    if r.Ok? { assert Held(s, c.id, b[c.id]); }
  }

  lemma RowIsHeld(st: Stores, a: Shelf, used: set<Id>, id: Id)
    requires Sim(st, a, used) && id in st.rows
    ensures id in a && st.rows[id].storageKey == KeyOf(id) && st.rows[id].id == id
  {
    hide KeyOf, IdOf;
    assert Held(st, id, a[id]);
  }

  /** Expired in both of its images. */
  predicate Lost(f: File, now: Time) {
    Expired(f, now) && Expired(Stored(f), now)
  }

  /** No failure in the removal of such a file can be seen. */
  lemma LostIsHarmless(st: Stores, a: Shelf, used: set<Id>, id: Id, q: DeleteFaults)
    requires Sim(st, a, used) && id in a && Lost(a[id].file, st.now)
    ensures id in st.rows && Harmless(st, id, q)
  {
    hide IdOf, KeyOf;
    assert Held(st, id, a[id]);
    if id in st.cache { assert EntryOk(st, a, id); }
  }

  lemma {:induction false} PurgeRefines(st: Stores, a: Shelf, used: set<Id>, picks: seq<Id>, i: nat, q: PurgeFaults)
    requires i <= |picks| && Distinct(picks)
    requires forall j :: i <= j < |picks| ==> picks[j] in st.rows
    requires Sim(st, a, used)
    requires forall j :: i <= j < |picks| ==> picks[j] in a && Lost(a[picks[j]].file, st.now)
    ensures var (s, n, e) := PurgeFrom(st, picks, i, q);
      && i <= n <= |picks|
      && Sim(s, a - IdSet(picks[i..n]), used)
      && (if n == |picks| then e == None else e == Some(Backend) && !ItemFaults(q, n).rowOk)
    decreases |picks| - i
  {
    hide IdOf, KeyOf, Sim, IdSet, Harmless, Stored;
    IdSetNone(picks, i);
    assert a - {} == a;
    if i < |picks| {
      var id, d := picks[i], ItemFaults(q, i);
      RowIsHeld(st, a, used, id);
      LostIsHarmless(st, a, used, id, d);
      RemovalRefines(st, a, used, id, d, FileExpired);
      if d.rowOk {
        var next := Remove(st, id, KeyOf(id), d, FileExpired, id);
        PurgeRefines(next, a - {id}, used, picks, i + 1, q);
        var n := PurgeFrom(next, picks, i + 1, q).1;
        IdSetCons(picks, i, n);
        DropTwice(a, id, IdSet(picks[i + 1..n]));
      }
    }
  }

  lemma SweptRefines(cfg: Config, st: Stores, a: Shelf, used: set<Id>, c: Call) returns (b: Shelf)
    requires c.DoPurge?
    requires Sim(st, a, used) && Admissible(st, used, c)
    ensures var (s, r) := Exec(cfg, st, c);
      && Sim(s, b, used) && Allowed(cfg, a, st.now, c, r, b)
  {
    hide IdOf, KeyOf, PurgeFrom, EntryOk, Faded;
    b := a;
    if Queried(c.batch, c.pg) {
      var picks := c.picks;
      assert forall i :: 0 <= i < |picks| ==> picks[i] in Expirees(st);
      forall i | 0 <= i < |picks| ensures picks[i] in a && Lost(a[picks[i]].file, st.now) {
        assert Held(st, picks[i], a[picks[i]]);
        SweepIsSound(a[picks[i]].file, st.now);
      }
      PurgeRefines(st, a, used, picks, 0, c.pg);
      var n := PurgeFrom(st, picks, 0, c.pg).1;
      assert picks[0..n] == picks[..n];
      b := a - IdSet(picks[..n]);
    }
  }

  lemma CallRefines(cfg: Config, st: Stores, a: Shelf, used: set<Id>, c: Call) returns (b: Shelf)
    requires Sim(st, a, used) && Admissible(st, used, c) && Safe(cfg, st, c)
    ensures var (s, r) := Exec(cfg, st, c);
      && Sim(s, b, UsedAfter(used, c)) && Allowed(cfg, a, st.now, c, r, b)
  {
    hide IdOf, KeyOf, Sim, Selection, SafeDelete, SafeLookup, S.Upload, S.Metadata, S.Download, S.Delete, S.Purge;
    match c
    case DoUpload(_, _, _) =>
      b := UploadRefines(cfg, st, a, used, c);
    case DoMetadata(id, q) => b := MetadataRefines(cfg, st, a, used, id, q);
    case DoDownload(_, _) => b := DownloadRefines(cfg, st, a, used, c);
    case DoDelete(id, q) =>
      DeleteRefines(st, a, used, id, q);
      b := if S.Delete(st, id, q).1 == None then a - {id} else a;
    case DoPurge(_, _, _) => b := SweptRefines(cfg, st, a, used, c);
    case Evicted(id) =>
      EntryGoes(st, a, used, id);
      b := a;
    case Passed(lag) =>
      TimePasses(st, a, used, lag);
      b := a;
  }

  lemma {:induction false} Simulates(cfg: Config, st: Stores, a: Shelf, used: set<Id>, calls: seq<Call>)
    requires Sim(st, a, used)
    requires Lawful(cfg, st, used, calls) && SafeRun(cfg, st, used, calls)
    ensures Explained(cfg, a, Conversation(cfg, st, used, calls))
    decreases |calls|
  {
    hide Sim, Allowed, Safe, S.Upload, S.Metadata, S.Download, S.Delete, S.Purge, Selection;
    if calls != [] {
      var c := calls[0];
      var b := CallRefines(cfg, st, a, used, c);
      Simulates(cfg, Exec(cfg, st, c).0, b, UsedAfter(used, c), calls[1..]);
      var talk := Conversation(cfg, st, used, calls);
      assert talk[1..] == Conversation(cfg, Exec(cfg, st, c).0, UsedAfter(used, c), calls[1..]);
      assert Allowed(cfg, a, talk[0].at, talk[0].call, talk[0].reply, b);
    }
  }

  /**
   * Serial refinement: from an empty service, every conversation in which Deletes
   * and reaps leave nothing alive behind is one a plain map could have held.
   */
  lemma SerialRefinement(cfg: Config, start: Time, calls: seq<Call>)
    requires Lawful(cfg, Empty(start), {}, calls) && SafeRun(cfg, Empty(start), {}, calls)
    ensures Explained(cfg, map[], Conversation(cfg, Empty(start), {}, calls))
  {
    Simulates(cfg, Empty(start), map[], {}, calls);
  }

  lemma CleanIsSafe(cfg: Config, st: Stores, c: Call)
    requires Clean(c)
    ensures Safe(cfg, st, c)
  {
    hide Live, Find;
  }

  lemma {:induction false} CleanRun(cfg: Config, st: Stores, used: set<Id>, calls: seq<Call>)
    requires Lawful(cfg, st, used, calls)
    requires forall i :: 0 <= i < |calls| ==> Clean(calls[i])
    ensures SafeRun(cfg, st, used, calls)
    decreases |calls|
  {
    hide Clean, Safe, Selection, S.Upload, S.Metadata, S.Download, S.Delete, S.Purge;
    if calls != [] {
      CleanIsSafe(cfg, st, calls[0]);
      CleanRun(cfg, Exec(cfg, st, calls[0]).0, UsedAfter(used, calls[0]), calls[1..]);
    }
  }

  /** In terms of faults alone: whatever fails in purges, uploads and reads. */
  lemma CleanRefinement(cfg: Config, start: Time, calls: seq<Call>)
    requires Lawful(cfg, Empty(start), {}, calls)
    requires forall i :: 0 <= i < |calls| ==> Clean(calls[i])
    ensures Explained(cfg, map[], Conversation(cfg, Empty(start), {}, calls))
  {
    CleanRun(cfg, Empty(start), {}, calls);
    SerialRefinement(cfg, start, calls);
  }
}
