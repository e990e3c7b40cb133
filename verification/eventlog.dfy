/**
 * The event log under interleaving. Terminal events may repeat and may precede
 * the uploaded event; what always holds is stated here.
 */
module EventLog {
  import opened Files
  import opened Stores
  import opened Machine
  import opened Invariant
  import opened Guarantees

  /** The uploaded event of an id is the doing of its own upload, which has returned. */
  predicate Published(w: World, id: Id) {
    && id in w.hist.inserted
    && id in w.hist.owner && w.hist.owner[id] in w.threads
    && w.threads[w.hist.owner[id]] == UpReturned(w.hist.inserted[id])
  }

  predicate EventOk(w: World, e: Event) {
    && e.id in w.hist.inserted
    && e.at <= w.st.now
    && (e.kind == FileUploaded ==> Published(w, e.id))
    && (e.kind != FileUploaded ==> e.id !in w.st.rows)
    && (e.kind == FileDeleted ==> e.id in w.hist.deleteAsked || Lapsed(w.hist.inserted[e.id], e.at))
    && (e.kind == FileExpired ==> Expired(w.hist.inserted[e.id], e.at))
  }

  /** At most one uploaded event for an id. */
  ghost predicate UploadedOnce(log: seq<Event>) {
    forall i, j :: 0 <= i < j < |log| && log[i].kind == FileUploaded && log[j].kind == FileUploaded ==>
      log[i].id != log[j].id
  }

  ghost predicate LogOk(w: World) {
    && (forall i :: 0 <= i < |w.st.log| ==> EventOk(w, w.st.log[i]))
    && UploadedOnce(w.st.log)
  }

  /** A step that publishes nothing keeps the events' facts. */
  lemma EventFrame(w: World, v: World, movers: set<Tid>, e: Event)
    requires EventOk(w, e)
    requires Footprint(w, v, movers)
    requires forall t :: t in w.threads && w.threads[t].UpReturned? ==> t in v.threads && v.threads[t] == w.threads[t]
    ensures EventOk(v, e)
  {
  }

  lemma UploadFootprint(cfg: Config, w: World, t: Tid, ok: bool)
    requires Inv(cfg, w)
    requires t in w.threads && InUpload(w.threads[t])
    requires w.threads[t].UpPut? && ok ==> Taken(w.threads[t].input).Some?
    ensures Footprint(w, MoveUpload(cfg, w, t, ok), {t})
  {
    hide ThreadsOk, RowsOk, InsertedOk, BlobsOk, CacheOk, HistoryOk, KeyOf, IdOf, Sound, ThreadOk;
    var th := w.threads[t];
    MoverOk(cfg, w, t);
    if th.UpPut? || th.UpTooBig? || th.UpInsert? || th.UpRollback? {
      DraftFacts(cfg, w, t, th);
      assert IdOf(th.f.storageKey) == th.f.id;
    }
  }

  lemma DeleteFootprint(cfg: Config, w: World, t: Tid, ok: bool)
    requires Inv(cfg, w)
    requires t in w.threads && InDelete(w.threads[t])
    ensures Footprint(w, MoveDelete(w, t, ok), {t})
  {
    hide ThreadsOk, RowsOk, InsertedOk, BlobsOk, CacheOk, HistoryOk, KeyOf, IdOf,
      UploadThreadOk, LookupThreadOk, PurgeThreadOk, Doomed, Emptied;
    MoverOk(cfg, w, t);
    if w.threads[t].DelBlob? { assert IdOf(w.threads[t].f.storageKey) == w.threads[t].id; }
  }

  lemma PurgeFootprint(cfg: Config, w: World, t: Tid, ok: bool, picks: seq<Id>)
    requires Inv(cfg, w)
    requires t in w.threads && InPurge(w.threads[t])
    requires w.threads[t].PgQuery? && ok ==> Selection(w.st, w.threads[t].batch, picks)
    ensures Footprint(w, MovePurge(w, t, ok, picks), {t})
  {
    hide ThreadsOk, RowsOk, InsertedOk, BlobsOk, CacheOk, HistoryOk, KeyOf, IdOf,
      UploadThreadOk, LookupThreadOk, DeleteThreadOk, Emptied, TargetsOk;
    MoverOk(cfg, w, t);
    if w.threads[t].PgBlob? { assert IdOf(w.threads[t].cur.key) == w.threads[t].cur.id; }
  }

  lemma StepFootprint(cfg: Config, w: World, a: Action)
    requires Inv(cfg, w)
    requires Enabled(cfg, w, a)
    ensures Footprint(w, Next(cfg, w, a), if a.Move? then {a.t} else {})
  {
    hide Inv, Selection, NewRecord, KeyOf, IdOf, MoveUpload, MoveDelete, MovePurge;
    RecordsStay(cfg, w, a);
    StepGrows(cfg, w, a);
    if a.Move? {
      var th := w.threads[a.t];
      if InUpload(th) { UploadFootprint(cfg, w, a.t, a.ok); }
      else if InDelete(th) { DeleteFootprint(cfg, w, a.t, a.ok); }
      else if !InLookup(th) { PurgeFootprint(cfg, w, a.t, a.ok, a.picks); }
    }
  }

  lemma ReturnedStands(cfg: Config, w: World, a: Action)
    requires Enabled(cfg, w, a)
    ensures forall t :: t in w.threads && w.threads[t].UpReturned? ==>
              t in Next(cfg, w, a).threads && Next(cfg, w, a).threads[t] == w.threads[t]
  {
    hide Next;
    forall t | t in w.threads && w.threads[t].UpReturned?
      ensures t in Next(cfg, w, a).threads && Next(cfg, w, a).threads[t] == w.threads[t]
    {
      if a.Move? { OthersStand(cfg, w, a, t); } else { NonMoveStands(cfg, w, a, t); }
    }
  }

  /** The step from `w` to `v` publishes nothing, or one justified event. */
  ghost predicate Tells(w: World, v: World) {
    || v.st.log == w.st.log
    || exists e :: v.st.log == w.st.log + [e] && EventOk(v, e) && (e.kind == FileUploaded ==> !Published(w, e.id))
  }

  lemma UploadTells(cfg: Config, w: World, t: Tid, ok: bool)
    requires Inv(cfg, w)
    requires t in w.threads && InUpload(w.threads[t])
    requires w.threads[t].UpPut? && ok ==> Taken(w.threads[t].input).Some?
    ensures Tells(w, MoveUpload(cfg, w, t, ok))
  {
    hide ThreadsOk, RowsOk, InsertedOk, BlobsOk, CacheOk, HistoryOk, KeyOf, IdOf, UploadOk, Taken, Oversized,
      LookupThreadOk, DeleteThreadOk, PurgeThreadOk, LapseAt;
    var th := w.threads[t];
    MoverOk(cfg, w, t);
    if th.UpPublish? { assert EventOk(MoveUpload(cfg, w, t, ok), Event(FileUploaded, th.f.id, w.st.now)); }
  }

  lemma DeleteTells(cfg: Config, w: World, t: Tid, ok: bool)
    requires Inv(cfg, w)
    requires t in w.threads && InDelete(w.threads[t])
    ensures Tells(w, MoveDelete(w, t, ok))
  {
    hide ThreadsOk, RowsOk, InsertedOk, BlobsOk, CacheOk, HistoryOk, KeyOf, IdOf, DeleteEnds, Lapsed, Image,
      UploadThreadOk, LookupThreadOk, PurgeThreadOk;
    var th := w.threads[t];
    MoverOk(cfg, w, t);
    if th.DelPublish? { assert EventOk(MoveDelete(w, t, ok), Event(FileDeleted, th.f.id, w.st.now)); }
  }

  lemma PurgeTells(cfg: Config, w: World, t: Tid, ok: bool, picks: seq<Id>)
    requires Inv(cfg, w)
    requires t in w.threads && InPurge(w.threads[t])
    requires w.threads[t].PgQuery? && ok ==> Selection(w.st, w.threads[t].batch, picks)
    ensures Tells(w, MovePurge(w, t, ok, picks))
  {
    hide ThreadsOk, RowsOk, InsertedOk, BlobsOk, CacheOk, HistoryOk, KeyOf, IdOf, PurgeLoop, Selection, Lapsed,
      UploadThreadOk, LookupThreadOk, DeleteThreadOk, TargetsOk, Emptied;
    var th := w.threads[t];
    MoverOk(cfg, w, t);
    if th.PgPublish? { assert EventOk(MovePurge(w, t, ok, picks), Event(FileExpired, th.cur.id, w.st.now)); }
  }

  /** What one step adds to the log. */
  lemma NewEvent(cfg: Config, w: World, a: Action)
    requires Inv(cfg, w)
    requires Enabled(cfg, w, a)
    ensures Tells(w, Next(cfg, w, a))
  {
    hide Inv, EventOk, Published, Selection, NewRecord, Taken, KeyOf, IdOf, MoveUpload, MoveDelete, MovePurge, Live,
      LapseAt;
    if a.Move? {
      var th := w.threads[a.t];
      if InUpload(th) { UploadTells(cfg, w, a.t, a.ok); }
      else if InDelete(th) { DeleteTells(cfg, w, a.t, a.ok); }
      else if !InLookup(th) { PurgeTells(cfg, w, a.t, a.ok, a.picks); }
    }
  }

  lemma LogStep(cfg: Config, w: World, a: Action)
    requires Inv(cfg, w) && LogOk(w)
    requires Enabled(cfg, w, a)
    ensures LogOk(Next(cfg, w, a))
  {
    hide Inv, Enabled, Next, EventOk, Published, Footprint;
    var v, movers := Next(cfg, w, a), if a.Move? then {a.t} else {};
    StepFootprint(cfg, w, a);
    ReturnedStands(cfg, w, a);
    NewEvent(cfg, w, a);
    forall i | 0 <= i < |w.st.log| ensures EventOk(v, w.st.log[i]) {
      EventFrame(w, v, movers, w.st.log[i]);
    }
    if v.st.log != w.st.log {
      var e :| v.st.log == w.st.log + [e] && EventOk(v, e) && (e.kind == FileUploaded ==> !Published(w, e.id));
      forall i | 0 <= i < |w.st.log| && w.st.log[i].kind == FileUploaded && e.kind == FileUploaded
        ensures w.st.log[i].id != e.id
      {
        UploadedIsPublished(w, w.st.log[i]);
      }
    }
  }

  lemma UploadedIsPublished(w: World, e: Event)
    requires EventOk(w, e) && e.kind == FileUploaded
    ensures Published(w, e.id)
  {
  }

  lemma {:induction false} LogRun(cfg: Config, w: World, acts: seq<Action>, v: World)
    requires Inv(cfg, w) && LogOk(w)
    requires Leads(cfg, w, acts, v)
    ensures LogOk(v)
    decreases |acts|
  {
    hide Inv, Enabled, Next, LogOk;
    if acts != [] {
      StepKeeps(cfg, w, acts[0]);
      LogStep(cfg, w, acts[0]);
      LogRun(cfg, Next(cfg, w, acts[0]), acts[1..], v);
    }
  }

  /**
   * In every reachable world an event concerns an inserted file; an id has at
   * most one uploaded event, and then its upload has returned; a deleted or
   * expired event means the row is gone, a deleted one that a client asked for it
   * or an image had expired when it was published, and an expired one that the
   * true expiry had passed by then.
   */
  lemma EventIntegrity(cfg: Config, w: World)
    requires Reachable(cfg, w)
    ensures LogOk(w)
  {
    var start: Time, acts :| Leads(cfg, Initial(start), acts, w);
    LogRun(cfg, Initial(start), acts, w);
  }
}
