/**
 * Claims that fail, each shown from every reachable world in which it could: no
 * reachable state of the service is safe from them. Where the guarantees end is
 * settled beside each of them, and here for the lifetime of a file.
 */
module Witnesses {
  import opened Prelude
  import opened Files
  import opened Stores
  import opened Machine
  import opened Invariant
  import opened Guarantees
  import S = Serial
  import opened Serial
  import opened SerialRuns

  const NO_UPLOAD_FAULTS := UploadFaults(true, 0, true, true, true, 0)

  /** There is always something to fail on: any upload within the limit can complete. */
  lemma UploadReturns(cfg: Config, w: World, t: Tid, id: Id, input: UploadInput)
    returns (acts: seq<Action>, v: World)
    requires Reachable(cfg, w)
    requires t !in w.threads && id !in w.hist.owner
    requires !Oversized(cfg, input.size) && Taken(input).Some? && !Oversized(cfg, |Taken(input).value|)
    ensures Leads(cfg, w, acts, v)
    ensures t in v.threads && v.threads[t].UpReturned? && v.threads[t].f.id == id && id in v.st.rows
  {
    hide Leads, Inv, Reachable, KeyOf, IdOf, Oversized, Taken;
    ReachableInv(cfg, w);
    if id in w.st.rows { RowIsOwned(cfg, w, id); }
    acts, v := UploadIsARun(cfg, w, t, id, input, NO_UPLOAD_FAULTS);
  }

  lemma RowIsOwned(cfg: Config, w: World, id: Id)
    requires Inv(cfg, w) && id in w.st.rows
    ensures id in w.hist.owner
  {
    hide ThreadsOk, BlobsOk, CacheOk, KeyOf, IdOf;
    assert InsertedRecordOk(cfg, w, id);
  }

  // ---- rows, entries and events ----

  /** "Every row has its bytes" fails: repo.Delete errs after the blob is gone, and the client sees an error. */
  lemma RowWithoutBlob(cfg: Config, w: World, t: Tid, id: Id) returns (acts: seq<Action>, v: World)
    requires Reachable(cfg, w)
    requires id in w.st.rows && t !in w.threads
    ensures Leads(cfg, w, acts, v) && v.threads == w.threads[t := DelReturned(id, false)]
    ensures id in v.st.rows && KeyOf(id) !in v.st.blobs
  {
    hide Leads, Reachable, Inv, KeyOf, IdOf;
    ReachableInv(cfg, w);
    RowFacts(cfg, w, id);
    acts, v := DeleteIsARun(cfg, w, t, id, NO_FAULTS.(rowOk := false));
  }

  /** "Cached implies stored" fails: a lookup that read the row before a Delete caches it after. */
  lemma StaleEntry(cfg: Config, w: World, reader: Tid, deleter: Tid, id: Id) returns (acts: seq<Action>, v: World)
    requires Reachable(cfg, w)
    requires id in w.st.rows && reader !in w.threads && deleter !in w.threads && reader != deleter
    ensures Leads(cfg, w, acts, v)
    ensures Live(v.st, id) && id !in v.st.rows && KeyOf(id) !in v.st.blobs
    ensures v.threads == w.threads[reader := LkCheck(id, w.st.rows[id], false)][deleter := DelReturned(id, true)]
  {
    hide Leads, Reachable, Inv, KeyOf, IdOf;
    ReachableInv(cfg, w);
    RowFacts(cfg, w, id);
    acts, v := ReadsRow(cfg, w, reader, id);
    acts, v := DeleteIsARunOn(cfg, w, acts, v, deleter, id, NO_FAULTS);
    acts, v := LookupActs(cfg, w, acts, v, reader, true);
    assert v.threads == w.threads[reader := LkCheck(id, w.st.rows[id], false)][deleter := DelReturned(id, true)];
  }

  /** A lookup that misses the cache, up to the point where it has read the row. */
  lemma ReadsRow(cfg: Config, w: World, t: Tid, id: Id) returns (acts: seq<Action>, v: World)
    requires id in w.st.rows && t !in w.threads
    ensures Leads(cfg, w, acts, v) && v.st == w.st
    ensures v.threads == w.threads[t := LkSet(id, w.st.rows[id], false)]
  {
    hide Leads, KeyOf, IdOf, Live, SetCache;
    acts, v := Stays(cfg, w);
    acts, v := Starts(cfg, w, acts, v, t, ReqLookup(id, false));
    acts, v := LookupActs(cfg, w, acts, v, t, false);
    acts, v := LookupActs(cfg, w, acts, v, t, true);
    assert v.threads == w.threads[t := LkSet(id, w.st.rows[id], false)];
  }

  lemma DeleteIsARunOn(cfg: Config, w: World, acts0: seq<Action>, u: World, t: Tid, id: Id, q: DeleteFaults)
    returns (acts: seq<Action>, v: World)
    requires Leads(cfg, w, acts0, u) && t !in u.threads
    ensures Leads(cfg, w, acts, v)
    ensures v.st == S.Delete(u.st, id, q).0
    ensures v.threads == u.threads[t := DelReturned(id, S.Delete(u.st, id, q).1 == None)]
  {
    hide Leads, S.Delete;
    acts, v := DeleteIsARun(cfg, u, t, id, q);
    LeadsJoin(cfg, w, acts0, u, acts, v);
    acts := acts0 + acts;
  }

  /** "One deleted event per file" fails: two Deletes that both read the row both publish. */
  lemma DeletedTwice(cfg: Config, w: World, a: Tid, b: Tid, id: Id) returns (acts: seq<Action>, v: World)
    requires Reachable(cfg, w)
    requires id in w.st.rows && a !in w.threads && b !in w.threads && a != b
    ensures Leads(cfg, w, acts, v)
    ensures v.st.log == w.st.log + [Event(FileDeleted, id, w.st.now), Event(FileDeleted, id, w.st.now)]
  {
    hide Leads, Reachable, Inv, KeyOf, IdOf;
    ReachableInv(cfg, w);
    RowFacts(cfg, w, id);
    var row := w.st.rows[id];
    acts, v := BothRead(cfg, w, a, b, id);
    acts, v := RemoveRuns(cfg, w, acts, v, a, id, row, false, NO_FAULTS);
    acts, v := RemoveRuns(cfg, w, acts, v, b, id, row, false, NO_FAULTS);
  }

  lemma BothRead(cfg: Config, w: World, a: Tid, b: Tid, id: Id) returns (acts: seq<Action>, v: World)
    requires id in w.st.rows && a !in w.threads && b !in w.threads && a != b
    ensures Leads(cfg, w, acts, v) && v.st == w.st
    ensures v.threads == w.threads[a := DelBlob(id, w.st.rows[id], false)][b := DelBlob(id, w.st.rows[id], false)]
  {
    hide Leads, KeyOf, IdOf;
    acts, v := Stays(cfg, w);
    acts, v := Starts(cfg, w, acts, v, a, ReqDelete(id));
    acts, v := DeleteActs(cfg, w, acts, v, a, true);
    acts, v := Starts(cfg, w, acts, v, b, ReqDelete(id));
    acts, v := DeleteActs(cfg, w, acts, v, b, true);
    assert v.threads == w.threads[a := DelBlob(id, w.st.rows[id], false)][b := DelBlob(id, w.st.rows[id], false)];
  }

  /** "Uploaded comes first" fails: a removal overtakes an upload between its Insert and its publish. */
  lemma RemovalOvertakes(cfg: Config, w: World, u: Tid, t: Tid) returns (acts: seq<Action>, v: World)
    requires Reachable(cfg, w)
    requires u in w.threads && w.threads[u].UpPublish? && w.threads[u].f.id in w.st.rows
    requires t !in w.threads
    ensures Leads(cfg, w, acts, v)
    ensures var id := w.threads[u].f.id;
            v.st.log == w.st.log + [Event(FileDeleted, id, w.st.now), Event(FileUploaded, id, w.st.now)]
  {
    hide Leads, Reachable, Inv, KeyOf, IdOf;
    ReachableInv(cfg, w);
    RowFacts(cfg, w, w.threads[u].f.id);
    acts, v := DeleteIsARun(cfg, w, t, w.threads[u].f.id, NO_FAULTS);
    acts, v := UploadActs(cfg, w, acts, v, u, true);
  }

  // ---- how long a file is served ----

  const MISSES := LookupFaults(false, 0, true, false, 0, NO_FAULTS, true)

  /**
   * "A file is served until its expiry" fails when storage rounds the expiry down:
   * at that very expiry, with nothing failing but the cache, a lookup is told that
   * the file is missing and has removed it, although nobody asked for that.
   */
  lemma ReapedEarly(cfg: Config, w: World, t: Tid, id: Id) returns (acts: seq<Action>, v: World)
    requires Reachable(cfg, w)
    requires id in w.hist.inserted && w.hist.inserted[id].expiresAt.Some? && t !in w.threads
    requires var e := w.hist.inserted[id].expiresAt.value;
             w.st.now <= e && RoundSecond(e) < e
    ensures Leads(cfg, w, acts, v)
    ensures v.st.now == w.hist.inserted[id].expiresAt.value && v.hist.deleteAsked == w.hist.deleteAsked
    ensures v.threads == w.threads[t := LkNotFound(id)] && id !in v.st.rows
  {
    hide Leads, Reachable, Inv, KeyOf, IdOf, RoundSecond;
    ReachableInv(cfg, w);
    if id in w.st.rows { RowIsStored(cfg, w, id); }
    var first, x := Stays(cfg, w);
    first, x := Passes(cfg, w, first, x, w.hist.inserted[id].expiresAt.value - w.st.now);
    acts, v := MetadataRuns(cfg, x, t, id, false, MISSES);
    LeadsJoin(cfg, w, first, x, acts, v);
    acts := first + acts;
  }

  lemma RowIsStored(cfg: Config, w: World, id: Id)
    requires Inv(cfg, w) && id in w.st.rows
    ensures id in w.hist.inserted && w.st.rows[id] == Stored(w.hist.inserted[id])
  {
    hide ThreadsOk, InsertedOk, BlobsOk, CacheOk, HistoryOk;
  }

  /** Call `t` was told that `f` is missing while `f` was alive and nobody had asked for its deletion. */
  predicate RefusedAlive(v: World, t: Tid, f: File) {
    && !Expired(f, v.st.now) && f.id !in v.hist.deleteAsked
    && t in v.threads && !Serves(v.threads[t], f.id)
  }

  /**
   * How long a file is served, exactly. After its upload returned, a lookup can be
   * told that a file is missing which is alive and nobody wanted deleted if and
   * only if the table rounds its expiry down to a whole second.
   */
  lemma ServedUntilExpiryIff(cfg: Config, w: World, u: Tid, t: Tid)
    requires Reachable(cfg, w)
    requires u in w.threads && w.threads[u].UpReturned? && t !in w.threads
    requires var f := w.threads[u].f; !Expired(f, w.st.now) && f.id !in w.hist.deleteAsked
    ensures var f := w.threads[u].f;
            (exists v :: Reaches(cfg, w, v) && RefusedAlive(v, t, f)) <==>
            f.expiresAt.Some? && RoundSecond(f.expiresAt.value) < f.expiresAt.value
  {
    hide Leads, Reachable, Inv, KeyOf, IdOf, RoundSecond, ThreadOk, Serves;
    var f := w.threads[u].f;
    ReachableInv(cfg, w);
    MoverOk(cfg, w, u);
    ReturnedIsCommitted(cfg, w, u);
    if f.expiresAt.Some? && RoundSecond(f.expiresAt.value) < f.expiresAt.value {
      var acts, v := ReapedEarly(cfg, w, t, f.id);
      assert Reaches(cfg, w, v);
      assert RefusedAlive(v, t, f) by { NotFoundRefuses(f.id); }
    } else {
      forall v | Reaches(cfg, w, v) ensures !RefusedAlive(v, t, f) {
        var acts :| Leads(cfg, w, acts, v);
        RunGrows(cfg, w, acts, v);
        if RefusedAlive(v, t, f) { StaysAvailable(cfg, w, u, acts, v, t); }
      }
    }
  }

  lemma NotFoundRefuses(id: Id)
    ensures !Serves(LkNotFound(id), id)
  {
  }
}
