# dropcrate: a verified model

dropcrate keeps one fact, "this file exists, with these bytes, until this time",
in three stores with no transaction across them: rows in MySQL, blobs in an
S3-compatible store and copies of rows in Redis. An event log sits on the side.
Uploads, lookups, deletes and sweeps run concurrently, any dependency call may
fail, and several failures are dropped on purpose. This project models that
system and proves what it keeps.

`dafny verify dfyconfig.toml` checks everything.

## How the model is built

* `files.dfy`, `stores.dfy`: the record, its expiry test, whole-second storage of
  timestamps, and what one successful call does to rows, blobs, cache and log.
  The `files` table has TIMESTAMP columns without fraction, so a row holds
  `Stored(f)`, the record with both times rounded to the second, while the cache
  may hold `f` itself. An *image* of a record is either of the two.
* `machine.dfy`, `invariant.dfy`: the service under concurrency, one step per
  repository, store, cache or publish call, each of which may fail; time passes
  and cache entries are evicted at any moment. `guarantees.dfy`, `staleness.dfy`
  and `eventlog.dfy` prove what holds in every reachable world, `endings.dfy` what
  holds in runs in which certain things do not happen to a file. `witnesses.dfy`
  shows from any reachable world how more obvious claims fail, `overlaps.dfy` from
  which worlds exactly. `progress.dfy` proves that every call ends.
* `backends.dfy`, `service.dfy`, `serial.dfy`: the repository, cache, store,
  publisher and service as classes that update their fields in place. Each
  service method is proved equal to a function of the old state and of the
  environment's choices; `serialruns.dfy` proves each such function to be a run
  of the concurrent machine, `refinement.dfy` and `ledger.dfy` prove what any
  sequence of calls does, `proviso.dfy` that the one proviso of that is exact.
* `sweep.dfy`: the two drain loops over `PurgeExpired`.
* `streamupload.dfy`, `streamdownload.dfy`: the gRPC upload (feeder, pipe, flags,
  classification) as two processes, the download loop, and the round trip.
* `urlsign.dfy`: decimal text and signed links. `migrate.dfy`: the migrator.

## Assumptions

* Ids are drawn once. A failed Put, Insert or Exec has no effect.
* The key column compares ids exactly. The default collation of utf8mb4 would let
  an id in other letter case find the row, whose entry a Delete by that spelling
  would then leave in the cache, as it evicts the id it was given.
* Put with unknown size succeeds only after reading EOF and stores what it read;
  with a declared size it stores exactly that many bytes, or fails.
* One monotone clock serves the process, Redis and MySQL, whose session is in UTC.
  MySQL rounds a fractional timestamp to the nearest second, and NOW() shows the
  last whole second.
* Redis never returns an entry after its TTL; without a positive TTL an entry stays.
* Readers are given non-empty buffers and yield nothing only finitely often.
* Integers are unbounded except where wrap-around is modelled (`ttlFromSeconds`)
  or a 64-bit range is required (signed links).
* Tags are ideal where stated: two agree exactly for one message under keys with
  one key block of HMAC (section 2 of RFC 2104). Such tags exist
  (`UrlSign.IdealExists`).
* Nobody else changes the stores while a drain loop runs.
* Migration files are a fixed set; migrators run one at a time.

## Where an obvious claim fails

* "A file is served until its expiry": a lookup that misses the cache judges by
  the stored expiry, up to half a second early, and reaps the file
  (`Witnesses.ReapedEarly`). From any moment after the upload this can happen
  exactly when the table rounds the expiry down
  (`Witnesses.ServedUntilExpiryIff`). `Guarantees.Durability` is stated for as
  long as neither image has expired.
* "Cached implies stored": from any world with the row, a lookup and a Delete can
  leave a stale entry (`Witnesses.StaleEntry`). Once the row is gone there can be
  one exactly if there is one or a call is about to set it
  (`Staleness.StaleEntryIff`). It is gone after one TTL if that is positive
  (`Staleness.BoundedStaleness`); cmd/deps.go:51 makes it DEFAULT_TTL, where zero
  means permanent files, and then it stays until Redis evicts it
  (`Endings.StaleForEver`, `Overlaps.StaleAtRest`).
* "One terminal event per file" and "uploaded comes first": overlapping removals
  both publish, and a removal can overtake the end of an upload
  (`Witnesses.DeletedTwice`, `RemovalOvertakes`). In runs without such overlaps
  each file's events are those of serial calls (`Endings.OneEnd`, `OneStory`). Once
  the row is gone a further end is possible exactly while a removal of the file is
  under way (`Overlaps.FurtherEndIff`, `SecondEndIff`).
* "Every row has its bytes": a failing row removal leaves a row without them
  (`Witnesses.RowWithoutBlob`), and nothing else does for longer than the removal
  takes (`Endings.RowsKeepBytes`). It can happen exactly as long as there is a row
  (`Overlaps.BareRowIff`).
* "Serially the service is a plain map": yes, whatever fails in uploads, reads and
  purges, unless a Delete or the reap of a lookup leaves behind an entry beside a
  removed row, or a row without its blob, that can still be read as alive
  (`Refinement.SerialRefinement`). Any call that does so can be told from a plain
  map by what follows (`Proviso.ProvisoIsExact`).
* A sweep with a batch of zero does not end before a query fails
  (`Sweep.ZeroBatchSpins`).
* A TTL above 9223372036 seconds wraps (`StreamDownload.TTLIsExactIff`), although
  proto/dropcrate/v1/dropcrate.proto promises any positive number of seconds.
* "A re-run finishes what a failed run began": a body can be executed twice. Every
  series of runs leaves a clean schema exactly if every body, repeated on the
  schema a clean run has just given it, changes nothing
  (`Migrations.ResumesCleanlyIff`, `ConvergesIff`). Idempotence on every schema is
  more than that. A set of files in which a later body undoes the repeat may still
  end clean, but not the release without that later body.

## Model

| member | source | states |
|---|---|---|
| Files.SweepSelectsIff | internal/files/repository.go:62-65 | a stored row is swept exactly from one second after its stored expiry on, although NOW() and the column drop fractions |
| Files.SweepIsSound | internal/files/repository.go:61-66 | the sweep query never selects a file before its true expiry (nor within half a second of it), and always from 1.5 s after it |
| Files.VerdictsDifferIff | internal/files/model.go:27-29 | a cached and an uncached record disagree about expiry exactly between true and stored expiry, hence only within half a second |
| Files.StoredAgrees | internal/files/repository.go:21-49 | the table returns every column it was given in its place, both times rounded to a whole second within half a second, and an expiry exactly if there was one |
| Stores.RecordIsRequested | internal/service/service.go:78-109 | the record of an upload, by what was asked for: name, type or its default, bytes and their number, creation time, and the expiry the TTL or the default calls for |
| Stores.TakenIff | internal/service/service.go:99-106 | a Put stores all bytes of an upload of unknown size, and exactly the declared number of one that has them |
| Stores.CachedThrough | internal/cache/redis.go:82-96 | after a successful Set, without an eviction, the record can be had exactly through its TTL |
| Invariant.StepKeeps | internal/service/service.go:73-197 | every step of every interleaving, failing or not, keeps the invariant tying rows, blobs, cache entries and thread locals to the one record inserted under each id |
| Guarantees.RecordsStay | internal/service/service.go:78-111 | once inserted, the record of an id is never replaced, by anybody |
| Guarantees.RecordIntegrity | internal/service/service.go:124-155 | in every reachable world rows, cache entries and answers agree in every column with the inserted record, which is as its upload asked when it began: name, type, number of bytes within the limit, creation time and expiry; every answer was unexpired when checked; every blob is the bytes sent |
| Guarantees.NoOrphans | internal/service/service.go:99-115 | a blob without a row belongs to an upload in flight or to an id whose store.Delete failed; a row without a blob has a removal begun that was asked for or due |
| Guarantees.StaysAvailable | internal/service/service.go:99-119 | after Upload returned, in any run without a Delete of the id and before either image expires, row and bytes are intact and no call begun since is told the file is missing |
| Guarantees.Durability | internal/service/service.go:99-155 | under the same conditions any lookup of the id begun since is under way, was ended by a failing read, or has returned the record and, for a Download, exactly the bytes |
| Guarantees.DownloadCompletes | internal/service/service.go:124-155 | while the file is not doomed, a Download with two successful reads returns it, even if both cache calls fail |
| Progress.EveryCallEnds | internal/service/service.go:73-197 | in every run an Upload makes at most 4 steps of its own, a Delete 5, a lookup 9 with its reap, a purge 4 * batch + 1; after that many it has returned, and until then it can always go on |
| Progress.LookupAnswers | internal/service/service.go:124-155 | under the conditions of Durability a lookup that has made five steps of its own has returned the record, and the bytes if a Download, or was ended by a failing read |
| Guarantees.FailsOnlyOnAFault | internal/service/service.go:124-155 | a lookup ends in a backend error only on a step in which its own read failed |
| Witnesses.ServedUntilExpiryIff | migrations/0001_create_files.sql:7-8 | after Upload returned, some run has a call told that an unexpired file nobody asked to delete is missing, exactly when storage rounds its expiry down |
| Staleness.RemovedStep | internal/service/service.go:125-133 | after a row is gone it stays gone, no call starts to cache its record any more, and an entry changes only by a call that was already about to set it |
| Staleness.BoundedStaleness | internal/cache/redis.go:82-101 | once no Set is in flight for a removed file, one cache TTL later no entry is live and no later lookup ever finds it |
| Staleness.StaleEntryIff | internal/service/service.go:125-133 | of a removed file a live entry exists or can come about exactly if there is one now or a call is about to set it |
| Staleness.DeleteIsFinal | internal/service/service.go:158-174 | after a Delete begun since the insert has returned without error the row is gone in every continuation, and one positive TTL after the last Set in flight the file is forgotten |
| Endings.StaleForEver | cmd/deps.go:51 | without a positive cache TTL a stale entry nothing in flight can touch stays live, and can answer lookups until its record expires, in every run in which Redis does not evict it |
| Endings.OneEnd | internal/service/service.go:158-195 | in every run without overlapping removals of an id at most one deleted or expired event is published for it, and then its row is gone |
| Endings.OneStory | internal/service/service.go:111-195 | if moreover no removal overlaps the end of the upload, the events of the id are none, its upload, or its upload and then one end |
| Endings.RowsKeepBytes | internal/service/service.go:167-171 | in every run in which no repo.Delete of an id fails, a row of it without bytes is just being removed |
| Overlaps.FurtherEndIff | internal/service/service.go:158-195 | in any reachable world in which the row of an inserted file is gone, a further end of it can be published in some run exactly if a Delete past its read or a purge that selected it is under way |
| Overlaps.SecondEndIff | internal/service/service.go:158-195 | a file that has ended once can end a second time exactly under the same condition |
| Overlaps.BareRowIff | internal/service/service.go:167-171 | of an inserted file some run leaves a row without its blob, and nobody about to remove it, exactly if the row is still there |
| Overlaps.StaleAtRest | internal/service/service.go:125-133 | from any reachable world with the row in which all calls have returned, a lookup and a Delete leave a live entry that nothing in flight can touch, which without a cache TTL stays until Redis evicts it |
| EventLog.EventIntegrity | internal/service/service.go:117-118 | under all interleavings: at most one uploaded event per id and only by its returned upload; terminal events only for files whose row is gone; deleted events only if asked for or if an image had expired when they were published, expired events only past the true expiry |
| Witnesses.RowWithoutBlob | internal/service/service.go:167-171 | from any reachable world with a row, the row can outlive its bytes after a Delete that returned an error, when repo.Delete errs |
| Witnesses.UploadReturns | internal/service/service.go:73-120 | from any reachable world any upload within the limit, under a new id, can return with its row in place |
| Witnesses.StaleEntry | internal/service/service.go:125-133 | from any reachable world with a row, a lookup can cache its record after a concurrent Delete removed row and blob |
| Witnesses.DeletedTwice | internal/service/service.go:158-174 | from any reachable world with a row, two overlapping Deletes can both publish |
| Witnesses.RemovalOvertakes | internal/service/service.go:111-118 | from any reachable world in which an upload with its row in place is about to publish, a Delete can publish before it |
| Witnesses.ReapedEarly | internal/service/service.go:135-138 | from any reachable world in which an expiry that storage rounds down has not passed, a lookup at that expiry can reap the file without any Delete asked for |
| Backends.Repository.Insert | internal/files/repository.go:21-31 | a successful insert adds the record with every column in its place and its times to the second; a failed one, or one under a key in use, nothing |
| Backends.Repository.GetByID | internal/files/repository.go:34-49 | row, not found, or backend error |
| Backends.Repository.Delete | internal/files/repository.go:52-57 | removes the row; a missing id is no error |
| Backends.Repository.StorageKeysExpiredBefore | internal/files/repository.go:61-81 | any distinct expired rows up to the limit, all of them if fewer, each with its storage key |
| Backends.MetadataCache.Get | internal/cache/redis.go:61-79 | the cached record if the call works and the entry has not lapsed, else a miss |
| Backends.MetadataCache.Set | internal/cache/redis.go:82-96 | sets the entry, which is live exactly through its TTL, or nothing if the call fails |
| Backends.MetadataCache.Delete | internal/cache/redis.go:99-101 | evicts, or nothing if the call fails |
| Service.Service.Upload | internal/service/service.go:73-120 | new stores and result equal the upload function under every failure pattern; a success is a record as requested whose bytes are stored, TooLarge means over the limit, any other error a failed call or a short body; the id was never drawn before, and none is drawn for an oversized declaration |
| Serial.UploadFillsCache | internal/service/service.go:117 | after a successful upload that cached its record, a lookup with the table down answers it through one cache TTL, unless it has expired |
| Serial.LookupFillsCache | internal/service/service.go:125-133 | so does a lookup that cached the row it read |
| Service.Service.Metadata | internal/service/service.go:124-140 | new stores and result equal the lookup function: cache, then row, then expiry check and reap |
| Service.Service.Download | internal/service/service.go:144-155 | record and bytes, or the error of the step that failed |
| Service.Service.Delete | internal/service/service.go:158-174 | new stores and result equal the delete function; an unknown id changes nothing |
| Service.Service.PurgeExpired | internal/service/service.go:179-197 | the loop removes the selected rows in order up to the first failing row removal, for an answer the query may give |
| SerialRuns.UploadIsARun | internal/service/service.go:73-120 | an undisturbed Upload is a run of the interleaved machine with the same stores and result |
| SerialRuns.MetadataIsARun | internal/service/service.go:124-140 | the same for Metadata, including the reap |
| SerialRuns.DownloadIsARun | internal/service/service.go:144-155 | the same for Download |
| SerialRuns.DeleteIsARun | internal/service/service.go:158-174 | the same for Delete |
| SerialRuns.PurgeIsARun | internal/service/service.go:179-197 | the same for PurgeExpired, over any number of selected rows |
| Refinement.SerialRefinement | internal/service/service.go:73-197 | any sequence of calls, failing anywhere, in which no Delete or reap leaves a living entry beside a removed row or a living row or entry beside a removed blob, is answered as a plain map with expiry and no cache could answer it; purges need no proviso |
| Refinement.CleanRefinement | internal/service/service.go:73-197 | in terms of faults alone: so is any sequence in which a Delete or reap that removes the row also evicts, and one that does not remove it spares the blob |
| Proviso.ProvisoIsExact | internal/service/service.go:124-174 | after any conversation that met the proviso, a further Delete, Metadata or Download, and any Download after it directly or after another Delete, are answered as a plain map could answer exactly when that call meets the proviso |
| Proviso.LostEviction | internal/cache/redis.go:98-101 | after an upload, a Delete whose eviction was lost breaks it |
| Proviso.LostRowRemoval | internal/service/service.go:169-171 | after an upload, a Delete whose row removal failed after the blob was removed breaks it |
| Ledger.PurgeRemoves | internal/service/service.go:185-196 | PurgeExpired removes exactly a prefix of the selected rows, reports its length, and errs exactly when the prefix is proper |
| Ledger.EventConservation | internal/service/service.go:111-195 | after any serial calls under any failures, live rows number uploads minus deletions minus expiries, and each file's events are none, its upload, or its upload and one end |
| Sweep.Sweeper.Sweep | internal/sweeper/sweeper.go:54-70 | ends for any nonzero batch as the clock advances, even within a purge, with at most rows/batch + 1 purges; the total counts the rows removed, on errors too, each of them expired; a clean end leaves no row the last query would select; it fails only with the error of a purge in which a call failed, or for a negative batch |
| Sweep.SweepCommand | cmd/sweep.go:22-32 | the same for the one-shot command, whose result is the total, or the error of the purge that failed |
| Sweep.ZeroBatchSpins | internal/sweeper/sweeper.go:56-66 | with a batch of zero, after any number of rounds without a failing query and whatever the queries answered, either loop has changed nothing and has not ended |
| StreamUpload.StreamedBytes | internal/rpc/server.go:66-94 | in every schedule bytes read plus bytes pending are a prefix of the chunks received and within a positive limit |
| StreamUpload.AcceptedIsWhole | internal/rpc/server.go:51-117 | success means chunks only, a proper end, no excess, and a blob that is the whole concatenation |
| StreamUpload.OutcomeIsJustified | internal/rpc/server.go:103-115 | each status code is justified by the stream, the flags are never both set, and an abort of the feeder seen by the reader gets its own code |
| StreamUpload.FaultlessOutcome | internal/rpc/server.go:66-117 | if nothing fails, the outcome is one function of the stream in every schedule: the first offending message decides, and exactly the well-formed streams within the limit are accepted |
| StreamUpload.UploadOutcome | internal/rpc/server.go:51-117 | the same soundness for the whole call: a first message that is no info is an invalid argument whatever follows, and every other code needs an info first |
| StreamUpload.FaultlessUpload | internal/rpc/server.go:51-117 | if nothing fails, the code of the whole call is decided by the first offending message: invalid if the first is no info or an info offends first, exhausted if a chunk over the limit does, else accepted or, for a broken stream, internal |
| StreamUpload.FlagDecides | internal/rpc/server.go:105-115 | a flag stored before the handler looks at it decides the code, for whatever reason of its own the upload fails |
| StreamUpload.EverySessionEnds | internal/rpc/server.go:66-105 | no deadlock, and a bound on the steps of every schedule, after which handler and feeder have both finished |
| StreamDownload.Download | internal/rpc/server.go:121-152 | a completed call sent the info and then non-empty chunks of at most 65536 bytes that make up the object; any other a prefix of that; without faults it completes; an unknown file, and only that, is reported as not found, every other lookup error and a broken read as internal, a failed Send as such |
| StreamDownload.TTLIsExactIff | internal/rpc/server.go:189-198 | the TTL convention is kept exactly up to 9223372036 seconds |
| StreamDownload.TTLOverflowNeverExpires | internal/rpc/server.go:189-198 | one second more asks for a file that never expires |
| StreamDownload.StreamedUploadIsRecorded | internal/service/service.go:99-119 | an accepted stream is stored whole and recorded with its length; the service's own limit check never fires |
| StreamDownload.ByteRoundTrip | internal/rpc/server.go:121-152 | what was accepted in any chunking and schedule comes back byte for byte in any other chunking from any Download that found it, whatever calls ran in between |
| Decimal.ParsePrint | internal/urlsign/urlsign.go:59-71 | every 64-bit expiry is read back from its own text |
| Decimal.OtherSpellings | internal/urlsign/urlsign.go:71-74 | a plus sign or a leading zero is read as the same number |
| Decimal.ReadsAsIff | internal/urlsign/urlsign.go:71-74 | the texts read as a number are exactly its decimal digits after any zeros and an optional sign |
| Decimal.PrintIsShortest | internal/urlsign/urlsign.go:59-61 | the text printed for a number is the shortest read as it, and the only one of that length |
| UrlSign.LinkWindow | internal/urlsign/urlsign.go:53-85 | a link is accepted exactly while the second of its expiry has not passed: always through t + ttl, never from t + ttl + 1 s on |
| UrlSign.MadeSignersLinks | internal/urlsign/urlsign.go:41-85 | a signer made with a key and a TTL tags id, NUL and expiry under that key, and its links work through t + ttl and no longer from t + ttl + 1 s on |
| UrlSign.NoKeyNoLinks | internal/urlsign/urlsign.go:41-70 | without a key no link is made and none verified |
| UrlSign.FrameIsInjective | internal/urlsign/urlsign.go:88-94 | the signed message determines id and expiry, even for ids containing NUL |
| UrlSign.SignatureIsBound | internal/urlsign/urlsign.go:67-85 | with an ideal tag a signature passes exactly for keys with its key block, its id and a spelling of its expiry; a changed expiry is a bad signature |
| UrlSign.IdealExists | internal/urlsign/urlsign.go:88-94 | the hypothesis on tags can be met |
| UrlSign.SpellingIsFree | internal/urlsign/urlsign.go:71-78 | for every id, signature and time, the verdict depends on the raw expiry only through its value |
| UrlSign.MisspelledIsBad | internal/urlsign/urlsign.go:71-74 | a raw expiry that spells no 64-bit number is a bad signature |
| UrlSign.RespelledLink | internal/urlsign/urlsign.go:53-85 | a link works with any other spelling of its own expiry |
| Migrations.SortIsOrdered | internal/database/migrate.go:23-27 | the entries are put in strict filename order, none lost |
| Migrations.LessIffPrecedes | internal/database/migrate.go:23-27 | in that order the shared prefix decides: a proper prefix comes first, else the smaller character at the first difference |
| Migrations.Database.AppliedVersions | internal/database/migrate.go:56-72 | the map holds exactly the recorded versions |
| Migrations.Database.Migrate | internal/database/migrate.go:14-54 | one run equals its function under every failure pattern |
| Migrations.RunAdvances | internal/database/migrate.go:34-53 | a run failing anywhere keeps the recorded versions a prefix of the sorted names and never a shorter one |
| Migrations.RunStopsAtFault | internal/database/migrate.go:34-53 | one run executes and records the entries from the first unrecorded one up to the first at which a step fails, exactly, and succeeds if and only if there is none |
| Migrations.SeriesStaysOnCourse | internal/database/migrate.go:14-54 | over any series of runs the executed indices start at 0, never decrease and advance by at most one |
| Migrations.ResumesCleanlyIff | internal/database/migrate.go:34-53 | every series of runs, however it fails, leaves the schema a clean run has at that point, exactly if every body is repeatable where a clean run executes it |
| Migrations.ConvergesIff | internal/database/migrate.go:11-13 | on every release of the files each series ending in success leaves the schema of one clean run, exactly under the same condition |
| Migrations.MigrationConverges | internal/database/migrate.go:11-13 | under it any series ending in success leaves versions and schema of one clean run |
| Migrations.IdempotentConverges | internal/database/migrate.go:11-13 | bodies idempotent on every schema are a special case |
| Migrations.LostRecordRepeats | internal/database/migrate.go:44-50 | on any release a run that loses the record of its last entry makes the next one execute that body twice |

## Left out

- HTTP and gRPC plumbing, configuration, API keys, metrics, tracing, readiness and shutdown: one-branch wiring over libraries.
- The real MySQL, Redis, MinIO and Kafka clients: each is abstract state whose calls may fail; delivery of published events is not modelled.
- Calls that report an error but took effect, and process crashes in the middle of a use case.
- Event payloads other than kind, id and time; the JSON form of cache entries, which copies the record field by field.
- SHA-256, HMAC, hex and URL encoding: a tag function stands for them.
- UUID generation: ids are fresh, and nothing else about them is used.
- Sweeper.Run, a ticker around Sweep.
- The HTTP TTL syntax, which is parsed by a library.
- The wire form of a record in gRPC answers, which copies it field by field.
- Sending the upload's reply: an accepted upload counts as answered even if the client is gone.
- Migration file sets that change between runs, bodies that fail half-way, concurrent migrators.
