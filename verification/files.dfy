/** Option and Result, in the shape the rest of the project uses them. */
module Prelude {
  datatype Option<+T> = None | Some(value: T)

  datatype Result<+T, +E> = Ok(value: T) | Err(error: E)

  newtype byte = x: int | 0 <= x < 256
  type Bytes = seq<byte>

  const MAX_INT64 := 0x7fff_ffff_ffff_ffff

  predicate InInt64(n: int) {
    -MAX_INT64 - 1 <= n <= MAX_INT64
  }
}

/**
 * The file record, its expiry test, and what a round trip through the `files`
 * table does to a record: both timestamp columns keep whole seconds only.
 */
module Files {
  import opened Prelude

  type Id = string
  type Key = string

  /** An instant or a duration, in nanoseconds, as Go's time package counts them. */
  type Time = int

  const SECOND: Time := 1_000_000_000
  const HALF_SECOND: Time := 500_000_000

  datatype File = File(
    id: Id,
    filename: string,
    contentType: string,
    size: int,
    storageKey: Key,
    createdAt: Time,
    expiresAt: Option<Time>)

  /** The strict test of File.Expired: at the very instant of expiry a file is still alive. */
  predicate Expired(f: File, now: Time) {
    f.expiresAt.Some? && now > f.expiresAt.value
  }

  // ---- storage keys ----

  const KEY_PREFIX := "files/"

  function IdOf(k: Key): Id {
    if |k| < |KEY_PREFIX| then "" else k[|KEY_PREFIX|..]
  }

  /** Distinct ids have distinct storage keys: the id can be read back. */
  function KeyOf(id: Id): (k: Key)
    ensures IdOf(k) == id
  {
    KEY_PREFIX + id
  }

  // ---- whole-second storage ----

  /** What a TIMESTAMP column keeps of an instant: the nearest whole second. */
  function RoundSecond(t: Time): (r: Time)
    ensures r % SECOND == 0
    ensures t - HALF_SECOND < r <= t + HALF_SECOND
  {
    (t + HALF_SECOND) / SECOND * SECOND
  }

  /** What NOW() shows of an instant: the last whole second. */
  function TruncSecond(t: Time): (r: Time)
    ensures r % SECOND == 0
    ensures t - SECOND < r <= t
  {
    t / SECOND * SECOND
  }

  function RoundOption(t: Option<Time>): Option<Time> {
    match t
    case None => None
    case Some(v) => Some(RoundSecond(v))
  }

  /** The record a SELECT returns after `f` was inserted. */
  function Stored(f: File): File {
    f.(createdAt := RoundSecond(f.createdAt), expiresAt := RoundOption(f.expiresAt))
  }

  /**
   * The same record up to the precision of timestamps: every column in its place,
   * both times within half a second, and an expiry exactly if there was one.
   */
  predicate Agrees(g: File, f: File) {
    && g.id == f.id && g.filename == f.filename && g.contentType == f.contentType
    && g.size == f.size && g.storageKey == f.storageKey
    && f.createdAt - HALF_SECOND <= g.createdAt <= f.createdAt + HALF_SECOND
    && (g.expiresAt == None <==> f.expiresAt == None)
    && (f.expiresAt.Some? ==>
          f.expiresAt.value - HALF_SECOND <= g.expiresAt.value <= f.expiresAt.value + HALF_SECOND)
  }

  predicate WholeSeconds(f: File) {
    f.createdAt % SECOND == 0 && (f.expiresAt.Some? ==> f.expiresAt.value % SECOND == 0)
  }

  /** The table returns the columns it was given. */
  lemma StoredAgrees(f: File)
    ensures Agrees(Stored(f), f) && WholeSeconds(Stored(f))
  {
  }

  lemma ImageAgrees(g: File, f: File)
    requires Image(g, f)
    ensures Agrees(g, f)
  {
    StoredAgrees(f);
  }

  /** `g` is the record `f`, either as the uploader built it or as the table gives it back. */
  predicate Image(g: File, f: File) {
    g == f || g == Stored(f)
  }

  /** Expired in at least one of its two images. */
  predicate Lapsed(f: File, now: Time) {
    Expired(f, now) || Expired(Stored(f), now)
  }

  /** The WHERE clause of the sweep query, on a row as it is stored. */
  predicate SweepSelects(row: File, now: Time) {
    row.expiresAt.Some? && row.expiresAt.value < TruncSecond(now)
  }

  /** A row is swept exactly from one second after its stored expiry on. */
  lemma SweepSelectsIff(f: File, now: Time)
    ensures SweepSelects(Stored(f), now) <==>
            f.expiresAt.Some? && now >= RoundSecond(f.expiresAt.value) + SECOND
  {
    if f.expiresAt.Some? {
      var e := RoundSecond(f.expiresAt.value);
      assert TruncSecond(now) > e <==> TruncSecond(now) >= e + SECOND;
    }
  }

  /** Second-granular storage never makes the sweep take a file early, nor late by 1.5 s. */
  lemma SweepIsSound(f: File, now: Time)
    ensures SweepSelects(Stored(f), now) ==>
              && Expired(f, now)
              && Expired(Stored(f), now)
              && now > f.expiresAt.value + HALF_SECOND
    ensures f.expiresAt.Some? && now >= f.expiresAt.value + SECOND + HALF_SECOND ==> SweepSelects(Stored(f), now)
  {
    SweepSelectsIff(f, now);
  }

  /**
   * A cached record and a record read from the table give different expiry
   * verdicts only within half a second of the true expiry, and then exactly when
   * the clock lies between the true and the stored expiry.
   */
  lemma VerdictsDifferIff(f: File, now: Time)
    ensures Expired(f, now) != Expired(Stored(f), now) <==>
            && f.expiresAt.Some?
            && var e, s := f.expiresAt.value, RoundSecond(f.expiresAt.value);
               (e < now <= s || s < now <= e)
    ensures Expired(f, now) != Expired(Stored(f), now) ==>
              f.expiresAt.value - HALF_SECOND < now <= f.expiresAt.value + HALF_SECOND
  {
    if f.expiresAt.Some? {
      var e, s := f.expiresAt.value, RoundSecond(f.expiresAt.value);
      assert Expired(f, now) <==> now > e;
      assert Expired(Stored(f), now) <==> now > s;
    }
  }
}
