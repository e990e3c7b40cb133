/**
 * Each use case run from start to end is one run of the interleaved machine in
 * which only its own thread moves: the class methods, proved equal to the
 * functions of Serial, are schedules the machine's guarantees cover.
 */
module SerialRuns {
  import opened Prelude
  import opened Files
  import opened Stores
  import opened Machine
  import S = Serial
  import opened Serial

  /** `v` is `w` with the call of thread `t` finished as `th`, leaving the stores as `st`. */
  ghost predicate Finished(cfg: Config, w: World, acts: seq<Action>, v: World, t: Tid, th: Thread, st: Stores) {
    Leads(cfg, w, acts, v) && v.st == st && v.threads == w.threads[t := th]
  }

  function UploadEnds(r: Result<File, Error>): Thread {
    if r.Ok? then UpReturned(r.value) else UpFailed
  }

  /** From Insert on. */
  lemma CommitRuns(cfg: Config, w: World, acts0: seq<Action>, u: World, t: Tid, f: File, q: UploadFaults)
    returns (acts: seq<Action>, v: World)
    requires Leads(cfg, w, acts0, u)
    requires t in u.threads && u.threads[t] == UpInsert(f)
    ensures Leads(cfg, w, acts, v)
    ensures var ok := q.insertOk && f.id !in u.st.rows;
      && v.threads == u.threads[t := if ok then UpReturned(f) else UpFailed]
      && v.st == if ok then
                      var row := InsertRow(Later(u.st, q.putLag), f);
                      Publish(Later(if q.setOk then SetCache(row, cfg.cacheTTL, f) else row, q.lag), FileUploaded, f.id)
                    else Discard(u.st, f.storageKey, q.rollbackOk)
  {
    hide Leads, KeyOf, IdOf;
    acts, v := UploadActs(cfg, w, acts0, u, t, q.insertOk);
    if v.threads[t].UpSet? {
      acts, v := Passes(cfg, w, acts, v, q.putLag);
      acts, v := UploadActs(cfg, w, acts, v, t, q.setOk);
      acts, v := Passes(cfg, w, acts, v, q.lag);
      acts, v := UploadActs(cfg, w, acts, v, t, true);
    } else {
      acts, v := UploadActs(cfg, w, acts, v, t, q.rollbackOk);
    }
    assert v.threads == u.threads[t := v.threads[t]];
  }

  /** Up to the end of Put, of an upload whose declared size is within the limit. */
  lemma PutRuns(cfg: Config, w: World, t: Tid, id: Id, input: UploadInput, q: UploadFaults)
    returns (acts: seq<Action>, v: World)
    requires t !in w.threads && id !in w.hist.owner && !Oversized(cfg, input.size)
    ensures Leads(cfg, w, acts, v)
    ensures if !q.putOk || Taken(input).None? then v.st == w.st && v.threads == w.threads[t := UpFailed]
            else
              var bytes := Taken(input).value;
              var f := NewRecord(cfg, id, input, w.st.now).(size := |bytes|);
              && v.st == PutBlob(w.st, f.storageKey, bytes)
              && v.threads == w.threads[t := if Oversized(cfg, |bytes|) then UpTooBig(f) else UpInsert(f)]
  {
    hide Leads, KeyOf, IdOf, ExpiryFor, DefaultString, Taken, Oversized;
    acts, v := Stays(cfg, w);
    acts, v := Starts(cfg, w, acts, v, t, ReqUpload(id, input));
    acts, v := UploadActs(cfg, w, acts, v, t, q.putOk && Taken(input).Some?);
    assert v.threads == w.threads[t := v.threads[t]];
  }

  lemma DiscardRuns(cfg: Config, w: World, acts0: seq<Action>, u: World, t: Tid, f: File, ok: bool)
    returns (acts: seq<Action>, v: World)
    requires Leads(cfg, w, acts0, u)
    requires t in u.threads && u.threads[t] == UpTooBig(f)
    ensures Leads(cfg, w, acts, v)
    ensures v.threads == u.threads[t := UpFailed] && v.st == Discard(u.st, f.storageKey, ok)
  {
    hide Leads, KeyOf, IdOf;
    acts, v := UploadActs(cfg, w, acts0, u, t, ok);
  }

  lemma UploadIsARun(cfg: Config, w: World, t: Tid, id: Id, input: UploadInput, q: UploadFaults)
    returns (acts: seq<Action>, v: World)
    requires t !in w.threads && id !in w.hist.owner && !Oversized(cfg, input.size)
    ensures var (st, r) := S.Upload(cfg, w.st, id, input, q);
            Finished(cfg, w, acts, v, t, UploadEnds(r), st)
  {
    hide Leads, KeyOf, IdOf, ExpiryFor, DefaultString, Taken, Oversized, InsertRow, SetCache, Publish;
    acts, v := PutRuns(cfg, w, t, id, input, q);
    var th := v.threads[t];
    if th.UpTooBig? {
      acts, v := DiscardRuns(cfg, w, acts, v, t, th.f, q.rollbackOk);
    } else if th.UpInsert? {
      acts, v := CommitRuns(cfg, w, acts, v, t, th.f, q);
    }
    assert v.threads == w.threads[t := v.threads[t]];
  }

  /** From store.Delete to repo.Delete. */
  lemma ReclaimRuns(cfg: Config, w: World, acts0: seq<Action>, u: World, t: Tid, id: Id, f: File, reap: bool,
                    q: DeleteFaults)
    returns (acts: seq<Action>, v: World)
    requires Leads(cfg, w, acts0, u)
    requires t in u.threads && u.threads[t] == DelBlob(id, f, reap)
    ensures Leads(cfg, w, acts, v)
    ensures v.st == Reclaim(u.st, id, f.storageKey, q) && v.threads == u.threads[t := DelRow(id, f, reap)]
    ensures v.hist.deleteAsked == u.hist.deleteAsked
  {
    hide Leads, KeyOf, IdOf, DeleteEnds;
    acts, v := DeleteActs(cfg, w, acts0, u, t, q.blobOk);
    acts, v := DeleteActs(cfg, w, acts, v, t, q.cacheOk);
    acts, v := Passes(cfg, w, acts, v, q.lag);
    assert v.threads == u.threads[t := v.threads[t]];
  }

  /** From store.Delete on. */
  lemma RemoveRuns(cfg: Config, w: World, acts0: seq<Action>, u: World, t: Tid, id: Id, f: File, reap: bool,
                   q: DeleteFaults)
    returns (acts: seq<Action>, v: World)
    requires Leads(cfg, w, acts0, u)
    requires t in u.threads && u.threads[t] == DelBlob(id, f, reap)
    ensures Leads(cfg, w, acts, v)
    ensures v.st == Remove(u.st, id, f.storageKey, q, FileDeleted, f.id)
    ensures v.threads == u.threads[t := DeleteEnds(id, reap, q.rowOk)]
    ensures v.hist.deleteAsked == u.hist.deleteAsked
  {
    hide Leads, KeyOf, IdOf, DeleteEnds;
    acts, v := ReclaimRuns(cfg, w, acts0, u, t, id, f, reap, q);
    acts, v := DeleteActs(cfg, w, acts, v, t, q.rowOk);
    if q.rowOk {
      acts, v := DeleteActs(cfg, w, acts, v, t, true);
    }
    assert v.threads == u.threads[t := v.threads[t]];
  }

  /** From the read on, for a client's Delete or for the reap of an expired record. */
  lemma DeleteRuns(cfg: Config, w: World, acts0: seq<Action>, u: World, t: Tid, id: Id, reap: bool, q: DeleteFaults)
    returns (acts: seq<Action>, v: World)
    requires Leads(cfg, w, acts0, u)
    requires t in u.threads && u.threads[t] == DelRead(id, reap)
    ensures Leads(cfg, w, acts, v)
    ensures v.st == S.Delete(u.st, id, q).0
    ensures v.threads == u.threads[t := DeleteEnds(id, reap, S.Delete(u.st, id, q).1 == None)]
    ensures v.hist.deleteAsked == u.hist.deleteAsked
  {
    hide Leads, KeyOf, IdOf, Remove, DeleteEnds;
    acts, v := DeleteActs(cfg, w, acts0, u, t, q.readOk);
    if q.readOk && id in u.st.rows {
      acts, v := RemoveRuns(cfg, w, acts, v, t, id, u.st.rows[id], reap, q);
    }
    assert v.threads == u.threads[t := v.threads[t]];
  }

  lemma DeleteIsARun(cfg: Config, w: World, t: Tid, id: Id, q: DeleteFaults) returns (acts: seq<Action>, v: World)
    requires t !in w.threads
    ensures var (st, e) := S.Delete(w.st, id, q);
            Finished(cfg, w, acts, v, t, DelReturned(id, e == None), st)
  {
    hide Leads, KeyOf, IdOf;
    acts, v := Stays(cfg, w);
    acts, v := Starts(cfg, w, acts, v, t, ReqDelete(id));
    acts, v := DeleteRuns(cfg, w, acts, v, t, id, false, q);
    assert v.threads == w.threads[t := v.threads[t]];
  }

  function LookupEnds(id: Id, at: Time, r: Result<File, Error>): Thread {
    match r
    case Ok(f) => LkFound(id, f, at)
    case Err(NotFound) => LkNotFound(id)
    case Err(_) => LkFailed(id)
  }

  /** A lookup from its row read on, up to the expiry check. */
  lemma ReadRuns(cfg: Config, w: World, acts0: seq<Action>, u: World, t: Tid, id: Id, dl: bool, q: LookupFaults)
    returns (acts: seq<Action>, v: World)
    requires Leads(cfg, w, acts0, u)
    requires t in u.threads && u.threads[t] == LkRead(id, dl)
    ensures Leads(cfg, w, acts, v)
    ensures var r := if !q.readOk then Err(Backend) else if id in u.st.rows then Ok(u.st.rows[id]) else Err(NotFound);
      && v.threads == u.threads[t := if r.Ok? then LkCheck(id, r.value, dl) else LookupEnds(id, u.st.now, r)]
      && v.st == if r.Ok? && q.setOk then SetCache(u.st, cfg.cacheTTL, r.value) else u.st
    ensures v.hist == u.hist
  {
    hide Leads, KeyOf, IdOf, SetCache, Live;
    acts, v := LookupActs(cfg, w, acts0, u, t, q.readOk);
    if v.threads[t].LkSet? {
      acts, v := LookupActs(cfg, w, acts, v, t, q.setOk);
    }
    assert v.threads == u.threads[t := v.threads[t]];
  }

  /** Up to the expiry check. */
  lemma FindRuns(cfg: Config, w: World, t: Tid, id: Id, dl: bool, q: LookupFaults)
    returns (acts: seq<Action>, v: World)
    requires t !in w.threads
    ensures Leads(cfg, w, acts, v)
    ensures var (st, r) := S.Find(cfg, w.st, id, q);
      && v.st == Later(st, q.lag)
      && v.threads == w.threads[t := if r.Ok? then LkCheck(id, r.value, dl) else LookupEnds(id, st.now, r)]
    ensures v.hist == w.hist
  {
    hide Leads, KeyOf, IdOf, SetCache, Live;
    acts, v := Stays(cfg, w);
    acts, v := Starts(cfg, w, acts, v, t, ReqLookup(id, dl));
    acts, v := LookupActs(cfg, w, acts, v, t, q.hitOk);
    acts, v := Passes(cfg, w, acts, v, q.readLag);
    if v.threads[t].LkRead? {
      acts, v := ReadRuns(cfg, w, acts, v, t, id, dl, q);
    }
    acts, v := Passes(cfg, w, acts, v, q.lag);
    assert v.threads == w.threads[t := v.threads[t]];
  }

  /** The common part of Metadata and Download, up to a fetch if there is one. */
  lemma MetadataRuns(cfg: Config, w: World, t: Tid, id: Id, dl: bool, q: LookupFaults)
    returns (acts: seq<Action>, v: World)
    requires t !in w.threads
    ensures Leads(cfg, w, acts, v)
    ensures var (st, r) := S.Metadata(cfg, w.st, id, q);
      && v.st == st
      && v.threads == w.threads[t := if dl && r.Ok? then LkFetch(id, r.value, st.now) else LookupEnds(id, st.now, r)]
    ensures v.hist.deleteAsked == w.hist.deleteAsked
  {
    hide Leads, KeyOf, IdOf, S.Delete;
    acts, v := FindRuns(cfg, w, t, id, dl, q);
    if v.threads[t].LkCheck? {
      acts, v := LookupActs(cfg, w, acts, v, t, true);
      if v.threads[t].DelRead? {
        acts, v := DeleteRuns(cfg, w, acts, v, t, id, true, q.reap);
      }
    }
    assert v.threads == w.threads[t := v.threads[t]];
  }

  lemma MetadataIsARun(cfg: Config, w: World, t: Tid, id: Id, q: LookupFaults) returns (acts: seq<Action>, v: World)
    requires t !in w.threads
    ensures var (st, r) := S.Metadata(cfg, w.st, id, q);
            Finished(cfg, w, acts, v, t, LookupEnds(id, st.now, r), st)
  {
    hide Leads, KeyOf, IdOf, S.Metadata;
    acts, v := MetadataRuns(cfg, w, t, id, false, q);
  }

  /** A Download whose record is at hand fails as LkNoBlob if the object is missing, as LkFailed if the read fails. */
  lemma DownloadIsARun(cfg: Config, w: World, t: Tid, id: Id, q: LookupFaults) returns (acts: seq<Action>, v: World)
    requires t !in w.threads
    ensures var (st, r) := S.Download(cfg, w.st, id, q);
            var m := S.Metadata(cfg, w.st, id, q).1;
            Finished(cfg, w, acts, v, t,
                     if r.Ok? then LkDownloaded(id, r.value.0, st.now, r.value.1)
                     else if m.Err? then LookupEnds(id, st.now, m)
                     else if q.fetchOk then LkNoBlob(id)
                     else LkFailed(id), st)
  {
    hide Leads, KeyOf, IdOf, S.Metadata;
    acts, v := MetadataRuns(cfg, w, t, id, true, q);
    if v.threads[t].LkFetch? {
      acts, v := LookupActs(cfg, w, acts, v, t, q.fetchOk);
      assert v.threads == w.threads[t := v.threads[t]];
    }
  }

  lemma ReclaimTurnRuns(cfg: Config, w: World, acts0: seq<Action>, u: World, t: Tid, cur: Target, rest: seq<Target>,
                        i: nat, d: DeleteFaults)
    returns (acts: seq<Action>, v: World)
    requires Leads(cfg, w, acts0, u)
    requires t in u.threads && u.threads[t] == PgBlob(cur, rest, i)
    ensures Leads(cfg, w, acts, v)
    ensures v.st == Reclaim(u.st, cur.id, cur.key, d) && v.threads == u.threads[t := PgRow(cur, rest, i)]
  {
    hide Leads, KeyOf, IdOf, PurgeLoop;
    acts, v := PurgeActs(cfg, w, acts0, u, t, d.blobOk, []);
    acts, v := PurgeActs(cfg, w, acts, v, t, d.cacheOk, []);
    acts, v := Passes(cfg, w, acts, v, d.lag);
    assert v.threads == u.threads[t := v.threads[t]];
  }

  /** One turn of PurgeExpired's loop. */
  lemma ItemRuns(cfg: Config, w: World, acts0: seq<Action>, u: World, t: Tid, cur: Target, rest: seq<Target>, i: nat,
                 d: DeleteFaults)
    returns (acts: seq<Action>, v: World)
    requires Leads(cfg, w, acts0, u)
    requires t in u.threads && u.threads[t] == PgBlob(cur, rest, i)
    ensures Leads(cfg, w, acts, v)
    ensures v.threads == u.threads[t := if d.rowOk then PurgeLoop(rest, i + 1) else PgReturned(i, false)]
    ensures v.st == Remove(u.st, cur.id, cur.key, d, FileExpired, cur.id)
  {
    hide Leads, KeyOf, IdOf, PurgeLoop;
    acts, v := ReclaimTurnRuns(cfg, w, acts0, u, t, cur, rest, i, d);
    acts, v := PurgeActs(cfg, w, acts, v, t, d.rowOk, []);
    if d.rowOk {
      acts, v := PurgeActs(cfg, w, acts, v, t, true, []);
    }
    assert v.threads == u.threads[t := v.threads[t]];
  }

  /** The loop of PurgeExpired from the `i`-th selected row on, over the rows as they are now. */
  lemma {:induction false} PurgeRuns(cfg: Config, w: World, acts0: seq<Action>, u: World, t: Tid, picks: seq<Id>,
                                     i: nat, q: PurgeFaults)
    returns (acts: seq<Action>, v: World)
    requires i <= |picks| && Distinct(picks)
    requires forall j :: i <= j < |picks| ==> picks[j] in u.st.rows
    requires Leads(cfg, w, acts0, u)
    requires t in u.threads && u.threads[t] == PurgeLoop(Targets(u.st, picks[i..]), i)
    ensures Leads(cfg, w, acts, v)
    ensures var (st, n, e) := PurgeFrom(u.st, picks, i, q);
            v.st == st && v.threads == u.threads[t := PgReturned(n, e == None)]
    decreases |picks| - i
  {
    hide Leads, KeyOf, IdOf, PurgeFrom, Remove;
    acts, v := acts0, u;
    if i == |picks| {
      PurgeStops(u.st, picks, q);
    } else {
      var id, d := picks[i], ItemFaults(q, i);
      var ts := Targets(u.st, picks[i..]);
      PurgeTurns(u.st, picks, i, q);
      acts, v := ItemRuns(cfg, w, acts, v, t, ts[0], ts[1..], i, d);
      if d.rowOk {
        assert ts[1..] == Targets(v.st, picks[i + 1..]);
        acts, v := PurgeRuns(cfg, w, acts, v, t, picks, i + 1, q);
      }
    }
    assert v.threads == u.threads[t := v.threads[t]];
  }

  lemma PurgeIsARun(cfg: Config, w: World, t: Tid, batch: int, picks: seq<Id>, q: PurgeFaults)
    returns (acts: seq<Action>, v: World)
    requires t !in w.threads
    requires Queried(batch, q) ==> Selection(w.st, batch, picks)
    ensures var (st, n, e) := S.Purge(w.st, batch, picks, q);
            Finished(cfg, w, acts, v, t, PgReturned(n, e == None), st)
  {
    hide Leads, KeyOf, IdOf, PurgeFrom;
    acts, v := Stays(cfg, w);
    acts, v := Starts(cfg, w, acts, v, t, ReqPurge(batch));
    acts, v := PurgeActs(cfg, w, acts, v, t, Queried(batch, q), picks);
    if Queried(batch, q) {
      assert forall i :: 0 <= i < |picks| ==> picks[i] in Expirees(w.st);
      assert picks[0..] == picks;
      acts, v := PurgeRuns(cfg, w, acts, v, t, picks, 0, q);
    }
    assert v.threads == w.threads[t := v.threads[t]];
  }
}
