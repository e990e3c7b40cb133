/**
 * How files end under interleaving. Two removals of one file that overlap may both
 * publish its end, a removal may overtake the end of the upload, and a failing row
 * removal leaves a row without bytes. In every run in which the respective thing
 * does not happen to a file, it fares as it would under calls run one by one.
 */
module Endings {
  import opened Prelude
  import opened Files
  import opened Stores
  import opened Machine
  import opened Invariant
  import opened Guarantees
  import opened Staleness
  import opened Ledger

  // ---- removals in progress ----

  predicate Aimed(ts: seq<Target>, id: Id) {
    exists i :: 0 <= i < |ts| && ts[i].id == id
  }

  /** A Delete that has read the row of `id`, or a purge that has selected it and is not done with it. */
  predicate Removing(th: Thread, id: Id) {
    match th
    case DelBlob(i, _, _) => i == id
    case DelCache(i, _, _) => i == id
    case DelRow(i, _, _) => i == id
    case DelPublish(i, _, _) => i == id
    case PgBlob(cur, rest, _) => cur.id == id || Aimed(rest, id)
    case PgCache(cur, rest, _) => cur.id == id || Aimed(rest, id)
    case PgRow(cur, rest, _) => cur.id == id || Aimed(rest, id)
    case PgPublish(cur, rest, _) => cur.id == id || Aimed(rest, id)
    case _ => false
  }

  ghost predicate NoRemover(w: World, id: Id) {
    forall t :: t in w.threads ==> !Removing(w.threads[t], id)
  }

  /** The upload of `id` has inserted its record and not yet published it. */
  predicate Completing(w: World, id: Id) {
    && id in w.hist.owner && w.hist.owner[id] in w.threads
    && var th := w.threads[w.hist.owner[id]];
       (th.UpSet? || th.UpPublish?) && th.f.id == id
  }

  /** Step `a` is a repo.Delete of `id` that fails. */
  predicate FailsToRemove(w: World, a: Action, id: Id) {
    && a.Move? && a.t in w.threads && !a.ok
    && var th := w.threads[a.t];
       (th.DelRow? && th.id == id) || (th.PgRow? && th.cur.id == id)
  }

  // ---- runs in which something does not happen to a file ----

  datatype Proviso =
    | RemovalsApart(id: Id)    // no two removals of it overlap
    | UploadFirst(id: Id)      // no removal of it overlaps the end of its upload
    | RowsYield(id: Id)        // no repo.Delete of it fails
    | NotEvicted(id: Id)       // Redis does not evict its entry

  ghost predicate Meets(p: Proviso, w: World, a: Action) {
    match p
    case RemovalsApart(id) =>
      forall t, u :: t in w.threads && u in w.threads && Removing(w.threads[t], id) && Removing(w.threads[u], id) ==>
        t == u
    case UploadFirst(id) => Completing(w, id) ==> NoRemover(w, id)
    case RowsYield(id) => !FailsToRemove(w, a, id)
    case NotEvicted(id) => a != Evict(id)
  }

  /** A run whose every step meets the proviso. */
  ghost predicate LeadsUnder(cfg: Config, w: World, acts: seq<Action>, v: World, p: Proviso)
    decreases |acts|
  {
    if acts == [] then w == v
    else
      Enabled(cfg, w, acts[0]) && Meets(p, w, acts[0]) && LeadsUnder(cfg, Next(cfg, w, acts[0]), acts[1..], v, p)
  }

  // ---- what one step does to removals and to the log ----

  lemma MoverRemoves(cfg: Config, w: World, a: Action, id: Id)
    requires Enabled(cfg, w, a) && a.Move?
    requires id !in w.st.rows
    ensures var v := Next(cfg, w, a);
            a.t in v.threads && (Removing(v.threads[a.t], id) ==> Removing(w.threads[a.t], id))
  {
    hide KeyOf, IdOf, Live, Taken, Oversized, NewRecord, SetCache;
    var th := w.threads[a.t];
    if th.PgQuery? && a.ok { assert forall i :: 0 <= i < |a.picks| ==> a.picks[i] in Expirees(w.st); }
  }

  /** Without a row nobody starts to remove it. */
  lemma NoNewRemover(cfg: Config, w: World, a: Action, id: Id)
    requires Enabled(cfg, w, a)
    requires id !in w.st.rows
    ensures var v := Next(cfg, w, a);
            forall t :: t in v.threads && Removing(v.threads[t], id) ==> t in w.threads && Removing(w.threads[t], id)
  {
    hide Enabled, Next, Removing;
    var v := Next(cfg, w, a);
    forall t | t in v.threads && Removing(v.threads[t], id) ensures t in w.threads && Removing(w.threads[t], id) {
      if a.Move? && a.t == t { MoverRemoves(cfg, w, a, id); EnabledMoves(cfg, w, a); }
      else if a.Move? { OthersStand(cfg, w, a, t); }
      else if t in w.threads { NonMoveStands(cfg, w, a, t); }
      else { BegunRemovesNothing(cfg, w, a, t, id); }
    }
  }

  lemma BegunRemovesNothing(cfg: Config, w: World, a: Action, t: Tid, id: Id)
    requires Enabled(cfg, w, a) && !a.Move?
    requires t !in w.threads && t in Next(cfg, w, a).threads
    ensures !Removing(Next(cfg, w, a).threads[t], id)
  {
  }

  /** The event a call is about to publish. */
  function Emits(th: Thread): Option<(Kind, Id)> {
    match th
    case UpPublish(f) => Some((FileUploaded, f.id))
    case DelPublish(_, f, _) => Some((FileDeleted, f.id))
    case PgPublish(cur, _, _) => Some((FileExpired, cur.id))
    case _ => None
  }

  lemma LogGrows(cfg: Config, w: World, a: Action)
    requires Enabled(cfg, w, a)
    ensures var v := Next(cfg, w, a);
      if a.Move? && Emits(w.threads[a.t]).Some? then
        var (kind, id) := Emits(w.threads[a.t]).value;
        v.st.log == w.st.log + [Event(kind, id, w.st.now)]
      else v.st.log == w.st.log
  {
    hide KeyOf, IdOf, Live, Taken, Oversized, NewRecord, Selection, PurgeLoop, DeleteEnds;
  }

  /** The same, seen from one file. */
  function Adds(w: World, a: Action, id: Id): seq<Kind> {
    if a.Move? && a.t in w.threads && Emits(w.threads[a.t]).Some? && Emits(w.threads[a.t]).value.1 == id
    then [Emits(w.threads[a.t]).value.0] else []
  }

  lemma StoryGrows(cfg: Config, w: World, a: Action, id: Id)
    requires Enabled(cfg, w, a)
    ensures Story(Next(cfg, w, a).st.log, id) == Story(w.st.log, id) + Adds(w, a, id)
  {
    hide Enabled, Next;
    LogGrows(cfg, w, a);
    if a.Move? { EnabledMoves(cfg, w, a); }
    if a.Move? && Emits(w.threads[a.t]).Some? {
      var (kind, i) := Emits(w.threads[a.t]).value;
      Appended(w.st.log, Event(kind, i, w.st.now));
    }
  }

  // ---- at most one end ----

  predicate HasEnd(s: seq<Kind>) {
    exists i :: 0 <= i < |s| && s[i] != FileUploaded
  }

  predicate AtMostOneEnd(s: seq<Kind>) {
    forall i, j :: 0 <= i < j < |s| && s[i] != FileUploaded ==> s[j] == FileUploaded
  }

  lemma OneMore(s: seq<Kind>, k: Kind)
    ensures HasEnd(s + [k]) <==> HasEnd(s) || k != FileUploaded
    ensures AtMostOneEnd(s) && !(HasEnd(s) && k != FileUploaded) ==> AtMostOneEnd(s + [k])
  {
    var r := s + [k];
    assert r[|s|] == k && forall i :: 0 <= i < |s| ==> r[i] == s[i];
  }

  predicate DistinctTargets(ts: seq<Target>) {
    forall i, j :: 0 <= i < j < |ts| ==> ts[i].id != ts[j].id
  }

  /** A purge comes to each of its files once. */
  predicate OnceEach(th: Thread) {
    (th.PgBlob? || th.PgCache? || th.PgRow? || th.PgPublish?) ==> DistinctTargets([th.cur] + th.rest)
  }

  /** A file that has ended is gone, and nobody is removing it any more. */
  ghost predicate EndOk(w: World, id: Id) {
    && (forall t :: t in w.threads ==> OnceEach(w.threads[t]))
    && AtMostOneEnd(Story(w.st.log, id))
    && (HasEnd(Story(w.st.log, id)) ==> Removed(w, id) && NoRemover(w, id))
  }

  lemma OnceEachStep(cfg: Config, w: World, a: Action)
    requires Enabled(cfg, w, a)
    requires forall t :: t in w.threads ==> OnceEach(w.threads[t])
    ensures forall t :: t in Next(cfg, w, a).threads ==> OnceEach(Next(cfg, w, a).threads[t])
  {
    hide Next, OnceEach;
    var v := Next(cfg, w, a);
    forall t | t in v.threads ensures OnceEach(v.threads[t]) {
      if a.Move? && a.t == t { MoverOnceEach(cfg, w, a); }
      else if a.Move? { OthersStand(cfg, w, a, t); }
      else if t in w.threads { NonMoveStands(cfg, w, a, t); }
      else { BegunOnceEach(cfg, w, a, t); }
    }
  }

  lemma BegunOnceEach(cfg: Config, w: World, a: Action, t: Tid)
    requires Enabled(cfg, w, a) && !a.Move?
    requires t !in w.threads && t in Next(cfg, w, a).threads
    ensures OnceEach(Next(cfg, w, a).threads[t])
  {
  }

  lemma MoverOnceEach(cfg: Config, w: World, a: Action)
    requires Enabled(cfg, w, a) && a.Move?
    requires OnceEach(w.threads[a.t])
    ensures OnceEach(Next(cfg, w, a).threads[a.t])
  {
    hide KeyOf, IdOf, Live, Taken, Oversized, NewRecord, SetCache, DistinctTargets, PurgeLoop;
    var th := w.threads[a.t];
    if th.PgQuery? && a.ok {
      assert forall i :: 0 <= i < |a.picks| ==> a.picks[i] in Expirees(w.st);
      TargetsAreDistinct(w.st, a.picks);
      LoopOnceEach(Targets(w.st, a.picks), 0);
    } else if th.PgPublish? {
      RestIsApart(th.cur, th.rest);
      LoopOnceEach(th.rest, th.purged + 1);
    }
  }

  lemma RestIsApart(cur: Target, rest: seq<Target>)
    requires DistinctTargets([cur] + rest)
    ensures DistinctTargets(rest) && !Aimed(rest, cur.id)
  {
    var ts := [cur] + rest;
    assert ts[0] == cur && forall i :: 0 <= i < |rest| ==> ts[i + 1] == rest[i];
  }

  lemma LoopOnceEach(ts: seq<Target>, n: nat)
    requires DistinctTargets(ts)
    ensures OnceEach(PurgeLoop(ts, n))
  {
    if ts != [] { assert [ts[0]] + ts[1..] == ts; }
  }

  lemma TargetsAreDistinct(st: Stores, picks: seq<Id>)
    requires Distinct(picks) && forall i :: 0 <= i < |picks| ==> picks[i] in st.rows
    ensures DistinctTargets(Targets(st, picks))
  {
  }

  /** Publishing the end of `id` is the last a remover has to do with it, and the row is gone. */
  lemma EndPublished(cfg: Config, w: World, a: Action, id: Id)
    requires Inv(cfg, w) && Enabled(cfg, w, a) && a.Move?
    requires OnceEach(w.threads[a.t])
    requires Emits(w.threads[a.t]).Some? && Emits(w.threads[a.t]).value.0 != FileUploaded
    requires Emits(w.threads[a.t]).value.1 == id
    ensures Removing(w.threads[a.t], id)
    ensures !Removing(Next(cfg, w, a).threads[a.t], id)
    ensures Removed(w, id)
  {
    hide ThreadsOk, RowsOk, InsertedOk, BlobsOk, CacheOk, HistoryOk, KeyOf, IdOf, UploadThreadOk, LookupThreadOk;
    var th := w.threads[a.t];
    MoverOk(cfg, w, a.t);
    if th.PgPublish? {
      RestIsApart(th.cur, th.rest);
      LoopAims(th.rest, th.purged + 1, id);
    }
  }

  lemma LoopAims(ts: seq<Target>, n: nat, id: Id)
    ensures Removing(PurgeLoop(ts, n), id) <==> Aimed(ts, id)
  {
    if ts != [] {
      assert forall i :: 0 < i < |ts| ==> ts[1..][i - 1] == ts[i];
      if Aimed(ts, id) && ts[0].id != id {
        var i :| 0 <= i < |ts| && ts[i].id == id;
        assert ts[1..][i - 1].id == id;
      }
    }
  }

  lemma EndStep(cfg: Config, w: World, a: Action, id: Id)
    requires Inv(cfg, w) && EndOk(w, id)
    requires Enabled(cfg, w, a) && Meets(RemovalsApart(id), w, a)
    ensures EndOk(Next(cfg, w, a), id)
  {
    hide Inv, Next, Removing, OnceEach, AtMostOneEnd, HasEnd, Story, SetPending;
    var v, s, more := Next(cfg, w, a), Story(w.st.log, id), Adds(w, a, id);
    StoryGrows(cfg, w, a, id);
    OnceEachStep(cfg, w, a);
    assert s + [] == s;
    if more != [] { OneMore(s, more[0]); }
    if more != [] && more[0] != FileUploaded {
      EndPublished(cfg, w, a, id);
      RemovedStep(cfg, w, a, id);
      NoNewRemover(cfg, w, a, id);
    } else if HasEnd(s) {
      RemovedStep(cfg, w, a, id);
      NoNewRemover(cfg, w, a, id);
    }
  }

  lemma {:induction false} EndRun(cfg: Config, w: World, acts: seq<Action>, v: World, id: Id)
    requires Inv(cfg, w) && EndOk(w, id)
    requires LeadsUnder(cfg, w, acts, v, RemovalsApart(id))
    ensures EndOk(v, id)
    decreases |acts|
  {
    hide Inv, Enabled, Next, EndOk, Meets;
    if acts != [] {
      StepKeeps(cfg, w, acts[0]);
      EndStep(cfg, w, acts[0], id);
      EndRun(cfg, Next(cfg, w, acts[0]), acts[1..], v, id);
    }
  }

  /**
   * One end. In every run in which no two removals of `id` overlap, at most one
   * deleted or expired event is published for it, and none before its row is gone.
   */
  lemma OneEnd(cfg: Config, start: Time, acts: seq<Action>, v: World, id: Id)
    requires LeadsUnder(cfg, Initial(start), acts, v, RemovalsApart(id))
    ensures AtMostOneEnd(Story(v.st.log, id))
    ensures HasEnd(Story(v.st.log, id)) ==> Removed(v, id) && NoRemover(v, id)
  {
    EndRun(cfg, Initial(start), acts, v, id);
  }

  // ---- the upload comes first ----

  predicate Unpublished(w: World, id: Id) {
    id !in w.hist.inserted || Completing(w, id)
  }

  predicate UploadedFirst(s: seq<Kind>) {
    s != [] && s[0] == FileUploaded && forall i :: 1 <= i < |s| ==> s[i] != FileUploaded
  }

  predicate OrderOk(w: World, id: Id) {
    if Unpublished(w, id) then Story(w.st.log, id) == [] else UploadedFirst(Story(w.st.log, id))
  }

  /** Step `a` publishes the upload of `id`. */
  predicate PublishesUpload(w: World, a: Action, id: Id) {
    Adds(w, a, id) == [FileUploaded]
  }

  lemma UploadPublishes(cfg: Config, w: World, t: Tid, ok: bool, id: Id)
    requires Inv(cfg, w)
    requires t in w.threads && InUpload(w.threads[t])
    requires w.threads[t].UpPut? && ok ==> Taken(w.threads[t].input).Some?
    ensures var v, publishes := MoveUpload(cfg, w, t, ok), w.threads[t].UpPublish? && w.threads[t].f.id == id;
      && (Unpublished(v, id) <==> Unpublished(w, id) && !publishes)
      && (publishes ==> Unpublished(w, id))
  {
    hide ThreadsOk, RowsOk, InsertedOk, BlobsOk, CacheOk, KeyOf, IdOf, LookupThreadOk, DeleteThreadOk, PurgeThreadOk,
      Sound, Taken, Oversized, SetCache;
    MoverOk(cfg, w, t);
  }

  /** Only the uploaded event itself makes an upload a published one, and for good. */
  lemma PublishStep(cfg: Config, w: World, a: Action, id: Id)
    requires Inv(cfg, w) && Enabled(cfg, w, a)
    ensures Unpublished(Next(cfg, w, a), id) <==> Unpublished(w, id) && !PublishesUpload(w, a, id)
    ensures PublishesUpload(w, a, id) ==> Unpublished(w, id)
  {
    hide Inv, MoveUpload, MoveLookup, MoveDelete, MovePurge, Selection, NewRecord, KeyOf, IdOf;
    var v := Next(cfg, w, a);
    if a.Move? {
      if InUpload(w.threads[a.t]) {
        UploadPublishes(cfg, w, a.t, a.ok, id);
      } else {
        RemovalInsertsNothing(w, a.t, a.ok, a.picks);
        OthersAreNoUploads(cfg, w, a);
      }
    } else {
      FreshIsUnpublished(cfg, w, a, id);
    }
  }

  lemma FreshIsUnpublished(cfg: Config, w: World, a: Action, id: Id)
    requires Inv(cfg, w) && Enabled(cfg, w, a) && !a.Move?
    ensures Unpublished(Next(cfg, w, a), id) <==> Unpublished(w, id)
  {
    hide ThreadsOk, RowsOk, InsertedOk, BlobsOk, CacheOk, HistoryOk, NewRecord, KeyOf, IdOf;
    OwnersRun(cfg, w);
    if id !in w.hist.owner { FreshFacts(cfg, w, id); }
  }

  lemma RemovalInsertsNothing(w: World, t: Tid, ok: bool, picks: seq<Id>)
    requires t in w.threads
    ensures InDelete(w.threads[t]) ==>
              var h := MoveDelete(w, t, ok).hist; h.inserted == w.hist.inserted && h.owner == w.hist.owner
    ensures InPurge(w.threads[t]) && (w.threads[t].PgQuery? && ok ==> Selection(w.st, w.threads[t].batch, picks)) ==>
              var h := MovePurge(w, t, ok, picks).hist; h.inserted == w.hist.inserted && h.owner == w.hist.owner
  {
    hide Selection, PurgeLoop, DeleteEnds;
  }

  lemma OthersAreNoUploads(cfg: Config, w: World, a: Action)
    requires Enabled(cfg, w, a) && a.Move? && !InUpload(w.threads[a.t])
    ensures var th := Next(cfg, w, a).threads[a.t]; !th.UpSet? && !th.UpPublish?
  {
    hide Selection, KeyOf, IdOf, Live, SetCache;
  }

  /** An end is published by a remover of an inserted file. */
  lemma EndIsARemovers(cfg: Config, w: World, a: Action, id: Id)
    requires Inv(cfg, w) && Enabled(cfg, w, a)
    requires Adds(w, a, id) != [] && !PublishesUpload(w, a, id)
    ensures a.Move? && a.t in w.threads && Removing(w.threads[a.t], id) && id in w.hist.inserted
  {
    hide ThreadsOk, RowsOk, InsertedOk, BlobsOk, CacheOk, HistoryOk, KeyOf, IdOf, UploadThreadOk, LookupThreadOk,
      Selection;
    MoverOk(cfg, w, a.t);
  }

  lemma OrderStep(cfg: Config, w: World, a: Action, id: Id)
    requires Inv(cfg, w) && OrderOk(w, id)
    requires Enabled(cfg, w, a) && Meets(UploadFirst(id), w, a)
    ensures OrderOk(Next(cfg, w, a), id)
  {
    hide Inv, Enabled, Next, Removing, Story, Completing;
    var s, more := Story(w.st.log, id), Adds(w, a, id);
    StoryGrows(cfg, w, a, id);
    PublishStep(cfg, w, a, id);
    assert s + [] == s && [] + more == more;
    if more != [] && !PublishesUpload(w, a, id) { EndIsARemovers(cfg, w, a, id); }
  }

  lemma {:induction false} OrderRun(cfg: Config, w: World, acts: seq<Action>, v: World, id: Id)
    requires Inv(cfg, w) && OrderOk(w, id)
    requires LeadsUnder(cfg, w, acts, v, UploadFirst(id))
    ensures OrderOk(v, id)
    decreases |acts|
  {
    hide Inv, Enabled, Next, OrderOk, Meets;
    if acts != [] {
      StepKeeps(cfg, w, acts[0]);
      OrderStep(cfg, w, acts[0], id);
      OrderRun(cfg, Next(cfg, w, acts[0]), acts[1..], v, id);
    }
  }

  /**
   * The story of a file under interleaving. In every run in which no two removals
   * of `id` overlap, nor one of them the end of its upload, the events of `id` are
   * none, its upload, or its upload and one end after it, as under serial calls.
   */
  lemma OneStory(cfg: Config, start: Time, acts: seq<Action>, v: World, id: Id)
    requires LeadsUnder(cfg, Initial(start), acts, v, RemovalsApart(id))
    requires LeadsUnder(cfg, Initial(start), acts, v, UploadFirst(id))
    ensures Story(v.st.log, id) in {NEVER, ALIVE, DELETED, EXPIRED}
    ensures Unpublished(v, id) <==> Story(v.st.log, id) == NEVER
    ensures Story(v.st.log, id) in {DELETED, EXPIRED} ==> Removed(v, id)
  {
    var s := Story(v.st.log, id);
    EndRun(cfg, Initial(start), acts, v, id);
    OrderRun(cfg, Initial(start), acts, v, id);
    StoryForms(s);
  }

  lemma TwoEnds(s: seq<Kind>)
    requires UploadedFirst(s) && |s| > 2
    ensures !AtMostOneEnd(s)
  {
    assert s[1] != FileUploaded && s[2] != FileUploaded;
  }

  lemma StoryForms(s: seq<Kind>)
    requires s == [] || UploadedFirst(s)
    requires AtMostOneEnd(s)
    ensures s in {NEVER, ALIVE, DELETED, EXPIRED}
    ensures s in {DELETED, EXPIRED} ==> HasEnd(s)
  {
    if |s| > 1 { assert s[1] != FileUploaded; }
    if |s| > 2 { TwoEnds(s); }
    assert |s| == 1 ==> s == [s[0]];
    assert |s| == 2 ==> s == [s[0], s[1]];
  }

  // ---- rows keep their bytes ----

  /** A removal of `id` between its store.Delete and its repo.Delete. */
  predicate Emptying(th: Thread, id: Id) {
    match th
    case DelCache(i, _, _) => i == id
    case DelRow(i, _, _) => i == id
    case PgCache(cur, _, _) => cur.id == id
    case PgRow(cur, _, _) => cur.id == id
    case _ => false
  }

  /** A row without its blob is about to go. */
  ghost predicate BytesOk(w: World, id: Id) {
    id in w.st.rows && KeyOf(id) !in w.st.blobs ==> exists t :: t in w.threads && Emptying(w.threads[t], id)
  }

  /** A step that takes the blob of a row is that of a removal; a removal ends with the row gone, unless it fails. */
  predicate BytesMoved(w: World, v: World, t: Tid, id: Id)
    requires t in w.threads
  {
    && t in v.threads
    && (id in v.st.rows && id !in w.st.rows ==> KeyOf(id) in v.st.blobs)
    && (id in v.st.rows && KeyOf(id) in w.st.blobs && KeyOf(id) !in v.st.blobs ==> Emptying(v.threads[t], id))
    && (Emptying(w.threads[t], id) ==> Emptying(v.threads[t], id) || id !in v.st.rows)
  }

  lemma UploadBytes(cfg: Config, w: World, t: Tid, ok: bool, id: Id)
    requires Inv(cfg, w)
    requires t in w.threads && InUpload(w.threads[t])
    requires w.threads[t].UpPut? && ok ==> Taken(w.threads[t].input).Some?
    ensures BytesMoved(w, MoveUpload(cfg, w, t, ok), t, id)
  {
    hide ThreadsOk, InsertedOk, BlobsOk, CacheOk, HistoryOk, KeyOf, IdOf, ThreadOk, Sound, Taken, LapseAt;
    var th := w.threads[t];
    MoverOk(cfg, w, t);
    assert IdOf(KeyOf(id)) == id;
    if th.UpPut? || th.UpTooBig? || th.UpInsert? || th.UpRollback? {
      DraftFacts(cfg, w, t, th);
      assert IdOf(KeyOf(th.f.id)) == th.f.id;
    }
  }

  lemma DeleteBytes(cfg: Config, w: World, t: Tid, ok: bool, id: Id)
    requires Inv(cfg, w)
    requires t in w.threads && InDelete(w.threads[t])
    requires !FailsToRemove(w, Move(t, ok, []), id)
    ensures BytesMoved(w, MoveDelete(w, t, ok), t, id)
  {
    hide Inv, ThreadOk, Doomed, Emptied, KeyOf, IdOf, DeleteEnds;
    DeleteMover(cfg, w, t, ok);
    assert IdOf(KeyOf(id)) == id && IdOf(KeyOf(w.threads[t].id)) == w.threads[t].id;
  }

  lemma PurgeBytes(cfg: Config, w: World, t: Tid, ok: bool, picks: seq<Id>, id: Id)
    requires Inv(cfg, w)
    requires t in w.threads && InPurge(w.threads[t])
    requires w.threads[t].PgQuery? && ok ==> Selection(w.st, w.threads[t].batch, picks)
    requires !FailsToRemove(w, Move(t, ok, picks), id)
    ensures BytesMoved(w, MovePurge(w, t, ok, picks), t, id)
  {
    hide Inv, ThreadOk, Doomed, Emptied, KeyOf, IdOf, Selection, Targets;
    PurgeMover(cfg, w, t, ok, picks);
    assert IdOf(KeyOf(id)) == id;
    if !w.threads[t].PgQuery? { assert IdOf(KeyOf(w.threads[t].cur.id)) == w.threads[t].cur.id; }
  }

  lemma BytesMove(cfg: Config, w: World, a: Action, id: Id)
    requires Inv(cfg, w) && Enabled(cfg, w, a) && a.Move?
    requires !FailsToRemove(w, a, id)
    ensures BytesMoved(w, Next(cfg, w, a), a.t, id)
  {
    hide Inv, MoveUpload, MoveDelete, MovePurge, Selection, Taken, KeyOf, IdOf, LapseAt, Live;
    var th := w.threads[a.t];
    if InUpload(th) { UploadBytes(cfg, w, a.t, a.ok, id); }
    else if InDelete(th) { DeleteBytes(cfg, w, a.t, a.ok, id); }
    else if !InLookup(th) { PurgeBytes(cfg, w, a.t, a.ok, a.picks, id); }
  }

  lemma BytesStep(cfg: Config, w: World, a: Action, id: Id)
    requires Inv(cfg, w) && BytesOk(w, id)
    requires Enabled(cfg, w, a) && Meets(RowsYield(id), w, a)
    ensures BytesOk(Next(cfg, w, a), id)
  {
    hide Inv, Next, Emptying, KeyOf;
    var v := Next(cfg, w, a);
    if id in v.st.rows && KeyOf(id) !in v.st.blobs {
      if a.Move? { EnabledMoves(cfg, w, a); BytesMove(cfg, w, a, id); } else { EnvironmentSpares(cfg, w, a); }
      if id in w.st.rows && KeyOf(id) !in w.st.blobs {
        var t :| t in w.threads && Emptying(w.threads[t], id);
        if a.Move? && a.t != t { OthersStand(cfg, w, a, t); }
        if !a.Move? { NonMoveStands(cfg, w, a, t); }
        assert t in v.threads && Emptying(v.threads[t], id);
      }
    }
  }

  lemma EnvironmentSpares(cfg: Config, w: World, a: Action)
    requires Enabled(cfg, w, a) && !a.Move?
    ensures Next(cfg, w, a).st.rows == w.st.rows && Next(cfg, w, a).st.blobs == w.st.blobs
  {
  }

  lemma {:induction false} BytesRun(cfg: Config, w: World, acts: seq<Action>, v: World, id: Id)
    requires Inv(cfg, w) && BytesOk(w, id)
    requires LeadsUnder(cfg, w, acts, v, RowsYield(id))
    ensures BytesOk(v, id)
    decreases |acts|
  {
    hide Inv, Enabled, Next, BytesOk, Meets;
    if acts != [] {
      StepKeeps(cfg, w, acts[0]);
      BytesStep(cfg, w, acts[0], id);
      BytesRun(cfg, Next(cfg, w, acts[0]), acts[1..], v, id);
    }
  }

  /**
   * "Every row has its bytes" but for failing row removals: in every run in which
   * no repo.Delete of `id` fails, a row of it without its blob is being removed at
   * that moment.
   */
  lemma RowsKeepBytes(cfg: Config, start: Time, acts: seq<Action>, v: World, id: Id)
    requires LeadsUnder(cfg, Initial(start), acts, v, RowsYield(id))
    requires id in v.st.rows
    ensures KeyOf(id) in v.st.blobs || exists t :: t in v.threads && Emptying(v.threads[t], id)
  {
    BytesRun(cfg, Initial(start), acts, v, id);
  }

  // ---- without a cache TTL ----

  /** Nothing in flight can touch the entry of a removed file. */
  ghost predicate AtRest(w: World, id: Id) {
    Settled(w, id) && NoRemover(w, id)
  }

  lemma EntryStays(cfg: Config, w: World, a: Action, id: Id)
    requires Inv(cfg, w) && AtRest(w, id)
    requires Enabled(cfg, w, a) && Meets(NotEvicted(id), w, a)
    ensures id in w.st.cache ==> id in Next(cfg, w, a).st.cache
  {
    hide ThreadsOk, RowsOk, InsertedOk, BlobsOk, CacheOk, HistoryOk, KeyOf, IdOf, Selection, Live, NewRecord, Taken,
      Oversized, DeleteEnds, PurgeLoop, Aimed;
    if a.Move? { EnabledMoves(cfg, w, a); }
  }

  lemma RestStep(cfg: Config, w: World, a: Action, id: Id)
    requires Inv(cfg, w) && AtRest(w, id) && id in w.st.cache
    requires Enabled(cfg, w, a) && Meets(NotEvicted(id), w, a)
    ensures var v := Next(cfg, w, a); AtRest(v, id) && id in v.st.cache && v.st.cache[id] == w.st.cache[id]
  {
    hide Inv, Next, SetPending, Removing;
    RemovedStep(cfg, w, a, id);
    NoNewRemover(cfg, w, a, id);
    EntryStays(cfg, w, a, id);
    if a.Move? { EnabledMoves(cfg, w, a); }
  }

  lemma {:induction false} RestRun(cfg: Config, w: World, acts: seq<Action>, v: World, id: Id)
    requires Inv(cfg, w) && AtRest(w, id) && id in w.st.cache
    requires LeadsUnder(cfg, w, acts, v, NotEvicted(id))
    ensures Leads(cfg, w, acts, v)
    ensures AtRest(v, id) && id in v.st.cache && v.st.cache[id] == w.st.cache[id]
    decreases |acts|
  {
    hide Inv, Enabled, Next, AtRest, Meets;
    if acts != [] {
      StepKeeps(cfg, w, acts[0]);
      RestStep(cfg, w, acts[0], id);
      RestRun(cfg, Next(cfg, w, acts[0]), acts[1..], v, id);
    }
  }

  ghost predicate NeverLapse(w: World) {
    forall id :: id in w.st.cache ==> w.st.cache[id].lapse == None
  }

  lemma NeverLapseStep(cfg: Config, w: World, a: Action)
    requires cfg.cacheTTL <= 0 && NeverLapse(w)
    requires Enabled(cfg, w, a)
    ensures NeverLapse(Next(cfg, w, a))
  {
    hide Selection, NewRecord, KeyOf, IdOf, Oversized, Taken, PurgeLoop, DeleteEnds, Live;
  }

  lemma {:induction false} NeverLapseRun(cfg: Config, w: World, acts: seq<Action>, v: World)
    requires cfg.cacheTTL <= 0 && NeverLapse(w)
    requires Leads(cfg, w, acts, v)
    ensures NeverLapse(v)
    decreases |acts|
  {
    hide Enabled, Next, NeverLapse;
    if acts != [] {
      NeverLapseStep(cfg, w, acts[0]);
      NeverLapseRun(cfg, Next(cfg, w, acts[0]), acts[1..], v);
    }
  }

  /**
   * Staleness without a bound. With no positive cache TTL, as when files are
   * permanent by default, the entry of a removed file that nothing in flight can
   * touch stays live however long one waits, whatever calls are made, until Redis
   * evicts it; and as long as its record has not expired, a lookup can always
   * still be answered with it.
   */
  lemma StaleForEver(cfg: Config, w: World, acts: seq<Action>, v: World, t: Tid, id: Id)
    returns (more: seq<Action>, x: World)
    requires cfg.cacheTTL <= 0
    requires Reachable(cfg, w) && AtRest(w, id) && id in w.st.cache
    requires LeadsUnder(cfg, w, acts, v, NotEvicted(id))
    requires t !in v.threads
    ensures Removed(v, id) && Live(v.st, id) && v.st.cache[id] == w.st.cache[id]
    ensures Leads(cfg, v, more, x) && t in x.threads
    ensures var f := w.st.cache[id].file;
            x.threads[t] == if Expired(f, v.st.now) then DelRead(id, true) else LkFound(id, f, v.st.now)
  {
    hide Inv, Leads, LeadsUnder, KeyOf, IdOf, Enabled, Next, Removing, SetPending;
    ReachableInv(cfg, w);
    RestRun(cfg, w, acts, v, id);
    ReachesOn(cfg, w, acts, v);
    var start: Time, first :| Leads(cfg, Initial(start), first, v);
    NeverLapseRun(cfg, Initial(start), first, v);
    more, x := Stays(cfg, v);
    more, x := Starts(cfg, v, more, x, t, ReqLookup(id, false));
    more, x := LookupActs(cfg, v, more, x, t, true);
    more, x := LookupActs(cfg, v, more, x, t, true);
  }
}
