/**
 * The three stores and the event log as plain values: what one successful call
 * on each of them does. The classes of Backends carry these values in fields,
 * and both the serial specification and the interleaved machine step over them.
 */
module Stores {
  import opened Prelude
  import opened Files

  /** A cached record and the last instant Redis may still return it (None: no TTL). */
  datatype Entry = Entry(file: File, lapse: Option<Time>)

  datatype Kind = FileUploaded | FileDeleted | FileExpired

  datatype Event = Event(kind: Kind, id: Id, at: Time)

  datatype Stores = Stores(
    rows: map<Id, File>,
    blobs: map<Key, Bytes>,
    cache: map<Id, Entry>,
    log: seq<Event>,
    now: Time)

  function Empty(start: Time): Stores {
    Stores(map[], map[], map[], [], start)
  }

  datatype Config = Config(baseTTL: Time, maxUpload: int, cacheTTL: Time)

  /** What a caller of Service.Upload hands over; `size` < 0 means unknown, `ttl` < 0 never expire. */
  datatype UploadInput = UploadInput(filename: string, contentType: string, size: int, body: Bytes, ttl: Time)

  // ---- the record an upload creates ----

  function DefaultString(v: string, def: string): string {
    if v == "" then def else v
  }

  function ExpiryFor(cfg: Config, ttl: Time, now: Time): Option<Time> {
    if ttl < 0 then None
    else if ttl > 0 then Some(now + ttl)
    else if cfg.baseTTL > 0 then Some(now + cfg.baseTTL)
    else None
  }

  /** The record before the bytes are written: its size is the declared one. */
  function NewRecord(cfg: Config, id: Id, input: UploadInput, now: Time): File {
    File(id, input.filename, DefaultString(input.contentType, "application/octet-stream"),
         input.size, KeyOf(id), now, ExpiryFor(cfg, input.ttl, now))
  }

  /** The bytes a successful Put stores: all of them up to EOF, or exactly the declared number. */
  function Taken(input: UploadInput): Option<Bytes> {
    if input.size < 0 then Some(input.body)
    else if input.size <= |input.body| then Some(input.body[..input.size])
    else None
  }

  /** `bytes` are those the upload announced: all there are, or exactly the declared number. */
  predicate Carries(input: UploadInput, bytes: Bytes) {
    if input.size < 0 then bytes == input.body else |bytes| == input.size && bytes <= input.body
  }

  lemma OverLimitIff(cfg: Config, input: UploadInput)
    ensures OverLimit(cfg, input) <==>
            || Oversized(cfg, input.size)
            || (Taken(input).Some? && Oversized(cfg, |Taken(input).value|))
  {
    if Taken(input).Some? { TakenIff(input, Taken(input).value); }
  }

  lemma TakenIff(input: UploadInput, bytes: Bytes)
    ensures Taken(input) == Some(bytes) <==> Carries(input, bytes)
    ensures Taken(input) == None <==> input.size > |input.body|
    ensures input.size == |input.body| ==> Taken(input) == Some(input.body)
  {
    assert input.body[..|input.body|] == input.body;
    if Carries(input, bytes) && input.size >= 0 { assert bytes == input.body[..input.size]; }
  }

  predicate Oversized(cfg: Config, size: int) {
    cfg.maxUpload > 0 && size > cfg.maxUpload
  }

  /**
   * What an upload of `bytes`, begun at `at` under `id`, asked to be recorded: a
   * negative TTL means no expiry, a positive one that long from the beginning, and
   * zero the default, which is none unless it is positive.
   */
  predicate Requested(cfg: Config, f: File, id: Id, input: UploadInput, bytes: Bytes, at: Time) {
    && f.id == id && f.storageKey == "files/" + id
    && Carries(input, bytes) && f.size == |bytes| && (cfg.maxUpload > 0 ==> |bytes| <= cfg.maxUpload)
    && f.filename == input.filename
    && (input.contentType != "" ==> f.contentType == input.contentType)
    && (input.contentType == "" ==> f.contentType == "application/octet-stream")
    && f.createdAt == at
    && (input.ttl < 0 ==> f.expiresAt == None)
    && (input.ttl > 0 ==> f.expiresAt == Some(at + input.ttl))
    && (input.ttl == 0 && cfg.baseTTL > 0 ==> f.expiresAt == Some(at + cfg.baseTTL))
    && (input.ttl == 0 && cfg.baseTTL <= 0 ==> f.expiresAt == None)
  }

  /** The declared size, or that of the bytes sent, is over a positive limit. */
  predicate OverLimit(cfg: Config, input: UploadInput) {
    cfg.maxUpload > 0 && (input.size > cfg.maxUpload || (input.size < 0 && |input.body| > cfg.maxUpload))
  }

  lemma RecordIsRequested(cfg: Config, id: Id, input: UploadInput, at: Time)
    requires Taken(input).Some? && !Oversized(cfg, |Taken(input).value|)
    ensures var bytes := Taken(input).value;
            Requested(cfg, NewRecord(cfg, id, input, at).(size := |bytes|), id, input, bytes, at)
  {
    TakenIff(input, Taken(input).value);
  }

  // ---- one call each ----

  function InsertRow(st: Stores, f: File): Stores {
    st.(rows := st.rows[f.id := Stored(f)])
  }

  function DropRow(st: Stores, id: Id): Stores {
    st.(rows := st.rows - {id})
  }

  function PutBlob(st: Stores, k: Key, bytes: Bytes): Stores {
    st.(blobs := st.blobs[k := bytes])
  }

  function DropBlob(st: Stores, k: Key): Stores {
    st.(blobs := st.blobs - {k})
  }

  function LapseAt(ttl: Time, now: Time): Option<Time> {
    if ttl > 0 then Some(now + ttl) else None
  }

  function SetCache(st: Stores, ttl: Time, f: File): Stores {
    st.(cache := st.cache[f.id := Entry(f, LapseAt(ttl, st.now))])
  }

  function DropCache(st: Stores, id: Id): Stores {
    st.(cache := st.cache - {id})
  }

  /** After a successful Set, and without an eviction, the record can be had exactly through its TTL. */
  lemma CachedThrough(st: Stores, ttl: Time, f: File, dt: nat)
    ensures var s := SetCache(st, ttl, f);
      && f.id in s.cache && s.cache[f.id].file == f
      && (Live(s.(now := st.now + dt), f.id) <==> (ttl > 0 ==> dt <= ttl))
  {
  }

  /** An entry Redis may still return. */
  predicate Live(st: Stores, id: Id) {
    id in st.cache && (st.cache[id].lapse.Some? ==> st.now <= st.cache[id].lapse.value)
  }

  function Publish(st: Stores, kind: Kind, id: Id): Stores {
    st.(log := st.log + [Event(kind, id, st.now)])
  }

  // ---- the LIMIT-ed sweep query ----

  predicate Distinct(ids: seq<Id>) {
    forall i, j :: 0 <= i < j < |ids| ==> ids[i] != ids[j]
  }

  /** The rows the WHERE clause of the sweep query accepts. */
  function Expirees(st: Stores): set<Id> {
    set id | id in st.rows && SweepSelects(st.rows[id], st.now)
  }

  /** Every answer the query may give: any `limit` of the expired rows, or all of them if there are fewer. */
  predicate Selection(st: Stores, limit: int, ids: seq<Id>) {
    && Distinct(ids)
    && |ids| <= limit
    && (forall i :: 0 <= i < |ids| ==> ids[i] in Expirees(st))
    && (|ids| < limit ==> forall id :: id in Expirees(st) ==> id in ids)
  }
}
