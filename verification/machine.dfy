/**
 * The service under concurrency: any number of calls of Service.Upload,
 * Metadata, Download, Delete and PurgeExpired, interleaved at every repository,
 * store, cache and publish call, each of which may fail. The environment lets
 * time pass and evicts cache entries.
 *
 * One thread is one call. Its constructor is its program counter: the call on a
 * dependency it is about to make, with the locals still needed.
 */
module Machine {
  import opened Prelude
  import opened Files
  import opened Stores

  type Tid = nat

  /** What the sweep query returns of a row. */
  datatype Target = Target(id: Id, key: Key)

  datatype Thread =
    // Service.Upload
    | UpPut(f: File, input: UploadInput)
    | UpTooBig(f: File)
    | UpInsert(f: File)
    | UpRollback(f: File)
    | UpSet(f: File)
    | UpPublish(f: File)
    | UpReturned(f: File)
    | UpFailed
    // Service.Metadata, and Service.Download when `dl`
    | LkGet(id: Id, dl: bool)
    | LkRead(id: Id, dl: bool)
    | LkSet(id: Id, f: File, dl: bool)
    | LkCheck(id: Id, f: File, dl: bool)
    | LkFetch(id: Id, f: File, at: Time)
    | LkFound(id: Id, f: File, at: Time)
    | LkDownloaded(id: Id, f: File, at: Time, bytes: Bytes)
    | LkNotFound(id: Id)
    | LkNoBlob(id: Id)
    | LkFailed(id: Id)
    // Service.Delete, called by Metadata on an expired record when `reap`
    | DelRead(id: Id, reap: bool)
    | DelBlob(id: Id, f: File, reap: bool)
    | DelCache(id: Id, f: File, reap: bool)
    | DelRow(id: Id, f: File, reap: bool)
    | DelPublish(id: Id, f: File, reap: bool)
    | DelReturned(id: Id, ok: bool)
    // Service.PurgeExpired
    | PgQuery(batch: int)
    | PgBlob(cur: Target, rest: seq<Target>, purged: nat)
    | PgCache(cur: Target, rest: seq<Target>, purged: nat)
    | PgRow(cur: Target, rest: seq<Target>, purged: nat)
    | PgPublish(cur: Target, rest: seq<Target>, purged: nat)
    | PgReturned(purged: nat, ok: bool)

  /** What happened so far, kept for stating properties; no step depends on it. */
  datatype History = History(
    sent: map<Id, UploadInput>,    // what the upload that drew this id was given
    owner: map<Id, Tid>,           // the thread of that upload
    begun: map<Id, Time>,          // when it drew the id
    inserted: map<Id, File>,       // the record passed to a successful Insert
    deleteAsked: set<Id>,          // Delete(id) was called by a client
    reclaimed: set<Id>,            // a Delete or a purge of id has called store.Delete
    failed: set<Id>)               // some store.Delete for this id's key failed

  datatype World = World(st: Stores, threads: map<Tid, Thread>, hist: History)

  datatype Request =
    | ReqUpload(id: Id, input: UploadInput)
    | ReqLookup(id: Id, dl: bool)
    | ReqDelete(id: Id)
    | ReqPurge(batch: int)

  datatype Action =
    | Begin(t: Tid, req: Request)
    | Move(t: Tid, ok: bool, picks: seq<Id>)   // the pending call of t; `picks` answers a sweep query
    | Tick(dt: nat)
    | Evict(id: Id)

  function Initial(now: Time): World {
    World(Empty(now), map[], History(map[], map[], map[], map[], {}, {}, {}))
  }

  // ---- which steps are possible ----

  predicate Enabled(cfg: Config, w: World, a: Action) {
    match a
    case Begin(t, req) =>
      && t !in w.threads
      && (req.ReqUpload? ==> req.id !in w.hist.owner && !Oversized(cfg, req.input.size))
    case Move(t, ok, picks) =>
      && t in w.threads
      && !Returned(w.threads[t])
      && (w.threads[t].UpPut? && ok ==> Taken(w.threads[t].input).Some?)
      && (w.threads[t].PgQuery? && ok ==> Selection(w.st, w.threads[t].batch, picks))
    case Tick(_) => true
    case Evict(_) => true
  }

  predicate Returned(th: Thread) {
    || th.UpReturned? || th.UpFailed?
    || th.LkFound? || th.LkDownloaded? || th.LkNotFound? || th.LkNoBlob? || th.LkFailed?
    || th.DelReturned? || th.PgReturned?
  }

  // ---- what they do ----

  function Next(cfg: Config, w: World, a: Action): World
    requires Enabled(cfg, w, a)
  {
    match a
    case Begin(t, req) => BeginCall(cfg, w, t, req)
    case Move(t, ok, picks) =>
      var th := w.threads[t];
      if InUpload(th) then MoveUpload(cfg, w, t, ok)
      else if InLookup(th) then MoveLookup(cfg, w, t, ok)
      else if InDelete(th) then MoveDelete(w, t, ok)
      else MovePurge(w, t, ok, picks)
    case Tick(dt) => w.(st := w.st.(now := w.st.now + dt))
    case Evict(id) => w.(st := DropCache(w.st, id))
  }

  predicate InUpload(th: Thread) {
    th.UpPut? || th.UpTooBig? || th.UpInsert? || th.UpRollback? || th.UpSet? || th.UpPublish?
  }

  predicate InLookup(th: Thread) {
    th.LkGet? || th.LkRead? || th.LkSet? || th.LkCheck? || th.LkFetch?
  }

  predicate InDelete(th: Thread) {
    th.DelRead? || th.DelBlob? || th.DelCache? || th.DelRow? || th.DelPublish?
  }

  predicate InPurge(th: Thread) {
    th.PgQuery? || th.PgBlob? || th.PgCache? || th.PgRow? || th.PgPublish?
  }

  /** Thread `t` moves on to `th`, leaving the stores as `st` and the history as `h`. */
  function To(w: World, t: Tid, th: Thread, st: Stores, h: History): World {
    World(st, w.threads[t := th], h)
  }

  /** Uploads whose declared size is over the limit return before they draw an id, and so never begin. */
  function BeginCall(cfg: Config, w: World, t: Tid, req: Request): World {
    var h := w.hist;
    match req
    case ReqUpload(id, input) =>
      To(w, t, UpPut(NewRecord(cfg, id, input, w.st.now), input), w.st,
         h.(sent := h.sent[id := input], owner := h.owner[id := t], begun := h.begun[id := w.st.now]))
    case ReqLookup(id, dl) => To(w, t, LkGet(id, dl), w.st, h)
    case ReqDelete(id) => To(w, t, DelRead(id, false), w.st, h.(deleteAsked := h.deleteAsked + {id}))
    case ReqPurge(batch) => To(w, t, PgQuery(batch), w.st, h)
  }

  /** No step of a call lets time pass, touches another call, or asks for a deletion. */
  predicate OneMoved(w: World, v: World, t: Tid) {
    && t in v.threads && v.threads == w.threads[t := v.threads[t]]
    && v.st.now == w.st.now && v.hist.deleteAsked == w.hist.deleteAsked
  }

  function MoveUpload(cfg: Config, w: World, t: Tid, ok: bool): (v: World)
    requires t in w.threads && InUpload(w.threads[t])
    requires w.threads[t].UpPut? && ok ==> Taken(w.threads[t].input).Some?
    ensures OneMoved(w, v, t)
  {
    var st, h := w.st, w.hist;
    match w.threads[t]
    case UpPut(f, input) =>
      if !ok then To(w, t, UpFailed, st, h)
      else
        var bytes := Taken(input).value;
        var g := f.(size := |bytes|);
        To(w, t, if Oversized(cfg, |bytes|) then UpTooBig(g) else UpInsert(g), PutBlob(st, f.storageKey, bytes), h)
    case UpTooBig(f) => RemoveBlob(w, t, f.id, f.storageKey, ok, UpFailed)
    case UpInsert(f) =>
      if ok && f.id !in st.rows then To(w, t, UpSet(f), InsertRow(st, f), h.(inserted := h.inserted[f.id := f]))
      else To(w, t, UpRollback(f), st, h)
    case UpRollback(f) => RemoveBlob(w, t, f.id, f.storageKey, ok, UpFailed)
    case UpSet(f) => To(w, t, UpPublish(f), if ok then SetCache(st, cfg.cacheTTL, f) else st, h)
    case UpPublish(f) => To(w, t, UpReturned(f), Publish(st, FileUploaded, f.id), h)
  }

  /** A store.Delete whose error is dropped: the blob goes, or the id is noted as having lost a delete. */
  function RemoveBlob(w: World, t: Tid, id: Id, k: Key, ok: bool, th: Thread): World {
    if ok then To(w, t, th, DropBlob(w.st, k), w.hist)
    else To(w, t, th, w.st, w.hist.(failed := w.hist.failed + {id}))
  }

  /** The same call made by Delete or PurgeExpired: from here on the id is being reclaimed. */
  function ReclaimBlob(w: World, t: Tid, id: Id, k: Key, ok: bool, th: Thread): World {
    RemoveBlob(w.(hist := w.hist.(reclaimed := w.hist.reclaimed + {id})), t, id, k, ok, th)
  }

  function MoveLookup(cfg: Config, w: World, t: Tid, ok: bool): (v: World)
    requires t in w.threads && InLookup(w.threads[t])
    ensures OneMoved(w, v, t) && v.hist == w.hist
  {
    var st, h := w.st, w.hist;
    match w.threads[t]
    case LkGet(id, dl) =>
      To(w, t, if ok && Live(st, id) then LkCheck(id, st.cache[id].file, dl) else LkRead(id, dl), st, h)
    case LkRead(id, dl) =>
      To(w, t,
         if !ok then LkFailed(id)
         else if id in st.rows then LkSet(id, st.rows[id], dl)
         else LkNotFound(id), st, h)
    case LkSet(id, f, dl) => To(w, t, LkCheck(id, f, dl), if ok then SetCache(st, cfg.cacheTTL, f) else st, h)
    case LkCheck(id, f, dl) =>
      To(w, t,
         if Expired(f, st.now) then DelRead(id, true)
         else if dl then LkFetch(id, f, st.now)
         else LkFound(id, f, st.now), st, h)
    case LkFetch(id, f, at) =>
      To(w, t,
         if !ok then LkFailed(id)
         else if f.storageKey in st.blobs then LkDownloaded(id, f, at, st.blobs[f.storageKey])
         else LkNoBlob(id), st, h)
  }

  /** How a Delete ends: for its caller, or for the Metadata that drops its error and answers "not found". */
  function DeleteEnds(id: Id, reap: bool, ok: bool): Thread {
    if reap then LkNotFound(id) else DelReturned(id, ok)
  }

  function MoveDelete(w: World, t: Tid, ok: bool): (v: World)
    requires t in w.threads && InDelete(w.threads[t])
    ensures OneMoved(w, v, t)
  {
    var st, h := w.st, w.hist;
    match w.threads[t]
    case DelRead(id, reap) =>
      To(w, t,
         if !ok then DeleteEnds(id, reap, false)
         else if id in st.rows then DelBlob(id, st.rows[id], reap)
         else DeleteEnds(id, reap, true), st, h)
    case DelBlob(id, f, reap) => ReclaimBlob(w, t, id, f.storageKey, ok, DelCache(id, f, reap))
    case DelCache(id, f, reap) => To(w, t, DelRow(id, f, reap), if ok then DropCache(st, id) else st, h)
    case DelRow(id, f, reap) =>
      if ok then To(w, t, DelPublish(id, f, reap), DropRow(st, id), h)
      else To(w, t, DeleteEnds(id, reap, false), st, h)
    case DelPublish(id, f, reap) => To(w, t, DeleteEnds(id, reap, true), Publish(st, FileDeleted, f.id), h)
  }

  function Targets(st: Stores, ids: seq<Id>): (ts: seq<Target>)
    requires forall i :: 0 <= i < |ids| ==> ids[i] in st.rows
    ensures |ts| == |ids|
    ensures forall i :: 0 <= i < |ids| ==> ts[i] == Target(ids[i], st.rows[ids[i]].storageKey)
  {
    seq(|ids|, i requires 0 <= i < |ids| => Target(ids[i], st.rows[ids[i]].storageKey))
  }

  /** The head of PurgeExpired's loop over the selected rows. */
  function PurgeLoop(todo: seq<Target>, purged: nat): Thread {
    if todo == [] then PgReturned(purged, true) else PgBlob(todo[0], todo[1..], purged)
  }

  function MovePurge(w: World, t: Tid, ok: bool, picks: seq<Id>): (v: World)
    requires t in w.threads && InPurge(w.threads[t])
    requires w.threads[t].PgQuery? && ok ==> Selection(w.st, w.threads[t].batch, picks)
    ensures OneMoved(w, v, t)
  {
    var st, h := w.st, w.hist;
    match w.threads[t]
    case PgQuery(batch) =>
      if ok then
        assert forall i :: 0 <= i < |picks| ==> picks[i] in Expirees(st);
        To(w, t, PurgeLoop(Targets(st, picks), 0), st, h)
      else To(w, t, PgReturned(0, false), st, h)
    case PgBlob(cur, rest, purged) => ReclaimBlob(w, t, cur.id, cur.key, ok, PgCache(cur, rest, purged))
    case PgCache(cur, rest, purged) =>
      To(w, t, PgRow(cur, rest, purged), if ok then DropCache(st, cur.id) else st, h)
    case PgRow(cur, rest, purged) =>
      if ok then To(w, t, PgPublish(cur, rest, purged), DropRow(st, cur.id), h)
      else To(w, t, PgReturned(purged, false), st, h)
    case PgPublish(cur, rest, purged) =>
      To(w, t, PurgeLoop(rest, purged + 1), Publish(st, FileExpired, cur.id), h)
  }

  // ---- runs ----

  /** `acts`, taken one after the other from `w`, end in `v`. */
  ghost predicate Leads(cfg: Config, w: World, acts: seq<Action>, v: World)
    decreases |acts|
  {
    if acts == [] then w == v
    else Enabled(cfg, w, acts[0]) && Leads(cfg, Next(cfg, w, acts[0]), acts[1..], v)
  }

  /** A run can be extended by one step. */
  lemma {:induction false} LeadsOn(cfg: Config, w: World, acts: seq<Action>, v: World, a: Action)
    requires Leads(cfg, w, acts, v)
    requires Enabled(cfg, v, a)
    ensures Leads(cfg, w, acts + [a], Next(cfg, v, a))
    decreases |acts|
  {
    hide Enabled, Next;
    if acts == [] {
      assert Leads(cfg, Next(cfg, w, a), [], Next(cfg, v, a));
      assert (acts + [a])[1..] == [];
    } else {
      assert (acts + [a])[1..] == acts[1..] + [a];
      LeadsOn(cfg, Next(cfg, w, acts[0]), acts[1..], v, a);
    }
  }

  /** Some run from `w` ends in `v`. */
  ghost predicate Reaches(cfg: Config, w: World, v: World) {
    exists acts :: Leads(cfg, w, acts, v)
  }

  ghost predicate Reachable(cfg: Config, w: World) {
    exists start: Time, acts :: Leads(cfg, Initial(start), acts, w)
  }

  /** Two runs, one after the other. */
  lemma {:induction false} LeadsJoin(cfg: Config, w: World, acts: seq<Action>, v: World, more: seq<Action>, x: World)
    requires Leads(cfg, w, acts, v) && Leads(cfg, v, more, x)
    ensures Leads(cfg, w, acts + more, x)
    decreases |acts|
  {
    hide Enabled, Next;
    if acts == [] {
      assert acts + more == more;
    } else {
      assert (acts + more)[1..] == acts[1..] + more;
      LeadsJoin(cfg, Next(cfg, w, acts[0]), acts[1..], v, more, x);
    }
  }

  lemma ReachesOn(cfg: Config, w: World, acts: seq<Action>, v: World)
    requires Reachable(cfg, w) && Leads(cfg, w, acts, v)
    ensures Reachable(cfg, v)
  {
    hide Leads;
    var start: Time, first :| Leads(cfg, Initial(start), first, w);
    LeadsJoin(cfg, Initial(start), first, w, acts, v);
  }

  // ---- extending a run by one step of each kind ----

  lemma Stays(cfg: Config, w: World) returns (acts: seq<Action>, v: World)
    ensures Leads(cfg, w, acts, v) && v == w
  {
    acts, v := [], w;
  }

  lemma Starts(cfg: Config, w: World, acts: seq<Action>, v: World, t: Tid, req: Request)
    returns (more: seq<Action>, x: World)
    requires Leads(cfg, w, acts, v)
    requires Enabled(cfg, v, Begin(t, req))
    ensures Leads(cfg, w, more, x) && x == BeginCall(cfg, v, t, req)
  {
    more, x := acts + [Begin(t, req)], BeginCall(cfg, v, t, req);
    LeadsOn(cfg, w, acts, v, Begin(t, req));
  }

  lemma Passes(cfg: Config, w: World, acts: seq<Action>, v: World, dt: nat) returns (more: seq<Action>, x: World)
    requires Leads(cfg, w, acts, v)
    ensures Leads(cfg, w, more, x) && x == v.(st := v.st.(now := v.st.now + dt))
  {
    more, x := acts + [Tick(dt)], v.(st := v.st.(now := v.st.now + dt));
    LeadsOn(cfg, w, acts, v, Tick(dt));
  }

  lemma UploadActs(cfg: Config, w: World, acts: seq<Action>, v: World, t: Tid, ok: bool)
    returns (more: seq<Action>, x: World)
    requires Leads(cfg, w, acts, v)
    requires t in v.threads && InUpload(v.threads[t])
    requires v.threads[t].UpPut? && ok ==> Taken(v.threads[t].input).Some?
    ensures Leads(cfg, w, more, x) && x == MoveUpload(cfg, v, t, ok)
  {
    hide Leads, MoveUpload, MoveLookup, MoveDelete, MovePurge, Selection;
    more, x := acts + [Move(t, ok, [])], MoveUpload(cfg, v, t, ok);
    LeadsOn(cfg, w, acts, v, Move(t, ok, []));
  }

  lemma LookupActs(cfg: Config, w: World, acts: seq<Action>, v: World, t: Tid, ok: bool)
    returns (more: seq<Action>, x: World)
    requires Leads(cfg, w, acts, v)
    requires t in v.threads && InLookup(v.threads[t])
    ensures Leads(cfg, w, more, x) && x == MoveLookup(cfg, v, t, ok)
  {
    hide Leads, MoveUpload, MoveLookup, MoveDelete, MovePurge, Selection;
    more, x := acts + [Move(t, ok, [])], MoveLookup(cfg, v, t, ok);
    LeadsOn(cfg, w, acts, v, Move(t, ok, []));
  }

  lemma DeleteActs(cfg: Config, w: World, acts: seq<Action>, v: World, t: Tid, ok: bool)
    returns (more: seq<Action>, x: World)
    requires Leads(cfg, w, acts, v)
    requires t in v.threads && InDelete(v.threads[t])
    ensures Leads(cfg, w, more, x) && x == MoveDelete(v, t, ok)
  {
    hide Leads, MoveUpload, MoveLookup, MoveDelete, MovePurge, Selection;
    more, x := acts + [Move(t, ok, [])], MoveDelete(v, t, ok);
    LeadsOn(cfg, w, acts, v, Move(t, ok, []));
  }

  lemma PurgeActs(cfg: Config, w: World, acts: seq<Action>, v: World, t: Tid, ok: bool, picks: seq<Id>)
    returns (more: seq<Action>, x: World)
    requires Leads(cfg, w, acts, v)
    requires t in v.threads && InPurge(v.threads[t])
    requires v.threads[t].PgQuery? && ok ==> Selection(v.st, v.threads[t].batch, picks)
    ensures Leads(cfg, w, more, x) && x == MovePurge(v, t, ok, picks)
  {
    hide Leads, MoveUpload, MoveLookup, MoveDelete, MovePurge, Selection;
    more, x := acts + [Move(t, ok, picks)], MovePurge(v, t, ok, picks);
    LeadsOn(cfg, w, acts, v, Move(t, ok, picks));
  }
}
