/**
 * Every call of the service ends: it makes a bounded number of dependency calls of
 * its own, whatever the others do and whichever fail, and until it has returned it
 * can always go on.
 */
module Progress {
  import opened Prelude
  import opened Files
  import opened Stores
  import opened Machine
  import opened Invariant
  import opened Guarantees
  import opened Staleness
  import S = Serial

  /** The steps of call `t` in a run. */
  function OwnMoves(acts: seq<Action>, t: Tid): nat {
    if acts == [] then 0
    else (if acts[0].Move? && acts[0].t == t then 1 else 0) + OwnMoves(acts[1..], t)
  }

  function Positive(n: int): nat {
    if n < 0 then 0 else n
  }

  /** The most steps a call still has to make. */
  function MovesLeft(th: Thread): nat {
    match th
    case UpPut(_, _) => 4
    case UpTooBig(_) => 1
    case UpInsert(_) => 3
    case UpRollback(_) => 1
    case UpSet(_) => 2
    case UpPublish(_) => 1
    case LkGet(_, _) => 9
    case LkRead(_, _) => 8
    case LkSet(_, _, _) => 7
    case LkCheck(_, _, _) => 6
    case LkFetch(_, _, _) => 1
    case DelRead(_, _) => 5
    case DelBlob(_, _, _) => 4
    case DelCache(_, _, _) => 3
    case DelRow(_, _, _) => 2
    case DelPublish(_, _, _) => 1
    case _ => PurgeMovesLeft(th)
  }

  function PurgeMovesLeft(th: Thread): nat {
    match th
    case PgQuery(batch) => 4 * Positive(batch) + 1
    case PgBlob(_, rest, _) => 4 * |rest| + 4
    case PgCache(_, rest, _) => 4 * |rest| + 3
    case PgRow(_, rest, _) => 4 * |rest| + 2
    case PgPublish(_, rest, _) => 4 * |rest| + 1
    case _ => 0
  }

  lemma PurgesCountTheirs(th: Thread)
    requires InPurge(th) || th.PgReturned?
    ensures MovesLeft(th) == PurgeMovesLeft(th)
  {
  }

  function MostMoves(req: Request): nat {
    match req
    case ReqUpload(_, _) => 4
    case ReqLookup(_, _) => 9
    case ReqDelete(_) => 5
    case ReqPurge(batch) => 4 * Positive(batch) + 1
  }

  lemma MoveDescends(cfg: Config, w: World, a: Action)
    requires Enabled(cfg, w, a) && a.Move?
    ensures a.t in Next(cfg, w, a).threads
    ensures MovesLeft(Next(cfg, w, a).threads[a.t]) < MovesLeft(w.threads[a.t])
  {
    hide MovesLeft, MoveUpload, MoveLookup, MoveDelete, MovePurge, Selection, Taken;
    var th := w.threads[a.t];
    if InUpload(th) { UploadDescends(cfg, w, a.t, a.ok); }
    else if InLookup(th) { LookupDescends(cfg, w, a.t, a.ok); }
    else if InDelete(th) { DeleteDescends(w, a.t, a.ok); }
    else {
      PurgeDescends(w, a.t, a.ok, a.picks);
      PurgesStayPurges(w, a.t, a.ok, a.picks);
      PurgesCountTheirs(th);
      PurgesCountTheirs(Next(cfg, w, a).threads[a.t]);
    }
  }

  lemma UploadDescends(cfg: Config, w: World, t: Tid, ok: bool)
    requires t in w.threads && InUpload(w.threads[t])
    requires w.threads[t].UpPut? && ok ==> Taken(w.threads[t].input).Some?
    ensures MovesLeft(MoveUpload(cfg, w, t, ok).threads[t]) < MovesLeft(w.threads[t])
  {
    hide Taken, Oversized, SetCache;
  }

  lemma LookupDescends(cfg: Config, w: World, t: Tid, ok: bool)
    requires t in w.threads && InLookup(w.threads[t])
    ensures MovesLeft(MoveLookup(cfg, w, t, ok).threads[t]) < MovesLeft(w.threads[t])
  {
    hide Live, SetCache;
  }

  lemma DeleteDescends(w: World, t: Tid, ok: bool)
    requires t in w.threads && InDelete(w.threads[t])
    ensures MovesLeft(MoveDelete(w, t, ok).threads[t]) < MovesLeft(w.threads[t])
  {
  }

  lemma PurgeDescends(w: World, t: Tid, ok: bool, picks: seq<Id>)
    requires t in w.threads && InPurge(w.threads[t])
    requires w.threads[t].PgQuery? && ok ==> Selection(w.st, w.threads[t].batch, picks)
    ensures PurgeMovesLeft(MovePurge(w, t, ok, picks).threads[t]) < PurgeMovesLeft(w.threads[t])
  {
    hide Selection, Distinct, Expirees, PurgeLoop, KeyOf, IdOf;
    var th := w.threads[t];
    if th.PgQuery? {
      if ok { QueryDescends(w, t, picks); }
    } else if th.PgPublish? {
      LoopMoves(th.rest, th.purged + 1);
    }
  }

  lemma QueryDescends(w: World, t: Tid, picks: seq<Id>)
    requires t in w.threads && w.threads[t].PgQuery? && Selection(w.st, w.threads[t].batch, picks)
    ensures PurgeMovesLeft(MovePurge(w, t, true, picks).threads[t]) < PurgeMovesLeft(w.threads[t])
  {
    hide Selection, Distinct, Expirees, PurgeLoop;
    S.PicksAreRows(w.st, w.threads[t].batch, picks);
    LoopMoves(Targets(w.st, picks), 0);
  }

  lemma LoopMoves(ts: seq<Target>, n: nat)
    ensures PurgeMovesLeft(PurgeLoop(ts, n)) == 4 * |ts|
  {
  }

  lemma {:induction false} CallIsBounded(cfg: Config, w: World, acts: seq<Action>, v: World, t: Tid)
    requires Leads(cfg, w, acts, v) && t in w.threads
    ensures t in v.threads && OwnMoves(acts, t) + MovesLeft(v.threads[t]) <= MovesLeft(w.threads[t])
    decreases |acts|
  {
    hide Enabled, Next, MovesLeft;
    if acts != [] {
      var a := acts[0];
      if a.Move? && a.t == t { MoveDescends(cfg, w, a); }
      else if a.Move? { OthersStand(cfg, w, a, t); }
      else { NonMoveStands(cfg, w, a, t); }
      CallIsBounded(cfg, Next(cfg, w, a), acts[1..], v, t);
    }
  }

  /** A call that has not returned can make its next step, if only by failing. */
  lemma CanGoOn(cfg: Config, w: World, t: Tid)
    requires t in w.threads
    ensures if Returned(w.threads[t]) then MovesLeft(w.threads[t]) == 0 else Enabled(cfg, w, Move(t, false, []))
  {
  }

  /**
   * Every call ends. Once begun, an Upload makes at most four steps of its own, a
   * Delete five, a lookup nine with its reap, a purge four for each file of its
   * batch and one; after that many it has returned, and until it has it is never
   * stuck.
   */
  lemma EveryCallEnds(cfg: Config, w: World, t: Tid, req: Request, acts: seq<Action>, v: World)
    requires Enabled(cfg, w, Begin(t, req))
    requires Leads(cfg, BeginCall(cfg, w, t, req), acts, v)
    ensures t in v.threads && OwnMoves(acts, t) <= MostMoves(req)
    ensures OwnMoves(acts, t) == MostMoves(req) ==> Returned(v.threads[t])
    ensures !Returned(v.threads[t]) ==> Enabled(cfg, v, Move(t, false, []))
  {
    hide Leads, Enabled;
    CallIsBounded(cfg, BeginCall(cfg, w, t, req), acts, v, t);
    CanGoOn(cfg, v, t);
  }

  // ---- lookups of a file that is there ----

  function LookupLeft(th: Thread): nat {
    match th
    case LkGet(_, _) => 5
    case LkRead(_, _) => 4
    case LkSet(_, _, _) => 3
    case LkCheck(_, _, _) => 2
    case LkFetch(_, _, _) => 1
    case _ => 0
  }

  lemma LookupShortens(cfg: Config, w: World, a: Action, id: Id, dl: bool)
    requires Enabled(cfg, w, a) && a.Move?
    requires LookupOf(w.threads[a.t], id, dl) && LookupOf(Next(cfg, w, a).threads[a.t], id, dl)
    ensures LookupLeft(Next(cfg, w, a).threads[a.t]) < LookupLeft(w.threads[a.t])
  {
    hide KeyOf, IdOf, Live, SetCache;
  }

  lemma {:induction false} LookupIsBounded(cfg: Config, w: World, acts: seq<Action>, v: World, t: Tid, id: Id, dl: bool)
    requires Inv(cfg, w)
    requires Leads(cfg, w, acts, v)
    requires id in w.hist.inserted && !Doomed(v, id)
    requires t in w.threads && LookupOf(w.threads[t], id, dl)
    ensures t in v.threads && LookupOf(v.threads[t], id, dl)
    ensures OwnMoves(acts, t) + LookupLeft(v.threads[t]) <= LookupLeft(w.threads[t])
    decreases |acts|
  {
    hide Inv, Enabled, Next, LookupOf, LookupLeft, Doomed;
    if acts != [] {
      var a, u := acts[0], Next(cfg, w, acts[0]);
      StepKeeps(cfg, w, a);
      RecordsStay(cfg, w, a);
      StepGrows(cfg, w, a);
      RunGrows(cfg, u, acts[1..], v);
      if Doomed(w, id) { DoomedIsForGood(w, v, id); }
      LookupStep(cfg, w, a, t, id, dl);
      if a.Move? && a.t == t { LookupShortens(cfg, w, a, id, dl); }
      else if a.Move? { OthersStand(cfg, w, a, t); }
      else { NonMoveStands(cfg, w, a, t); }
      LookupIsBounded(cfg, u, acts[1..], v, t, id, dl);
    }
  }

  /**
   * A lookup of a file that is there ends with it. Under the conditions of
   * Durability, a lookup that has made five steps of its own has returned, and so
   * was ended by a failing read or has returned the record, and the bytes if it is
   * a Download.
   */
  lemma LookupAnswers(cfg: Config, w: World, u: Tid, first: seq<Action>, x: World, t: Tid, dl: bool,
                      more: seq<Action>, v: World)
    requires Reachable(cfg, w)
    requires u in w.threads && w.threads[u].UpReturned?
    requires Leads(cfg, w, first, x) && t !in x.threads
    requires Leads(cfg, BeginCall(cfg, x, t, ReqLookup(w.threads[u].f.id, dl)), more, v)
    requires !Doomed(v, w.threads[u].f.id)
    requires OwnMoves(more, t) >= 5
    ensures t in v.threads
    ensures var f, th := w.threads[u].f, v.threads[t];
      || th == LkFailed(f.id)
      || (!dl && th.LkFound? && th.id == f.id && Image(th.f, f))
      || (dl && th.LkDownloaded? && th.id == f.id && Image(th.f, f) && f.id in v.hist.sent &&
          Taken(v.hist.sent[f.id]) == Some(th.bytes))
  {
    hide Inv, Leads, KeyOf, IdOf, ThreadOk, Doomed;
    var f, y := w.threads[u].f, BeginCall(cfg, x, t, ReqLookup(w.threads[u].f.id, dl));
    Durability(cfg, w, u, first, x, t, dl, more, v);
    ReachableInv(cfg, w);
    MoverOk(cfg, w, u);
    ReturnedIsCommitted(cfg, w, u);
    RunKeeps(cfg, w, first, x);
    RunGrows(cfg, w, first, x);
    BeginKeeps(cfg, x, t, ReqLookup(f.id, dl));
    LookupIsBounded(cfg, y, more, v, t, f.id, dl);
    assert LookupLeft(v.threads[t]) == 0;
  }
}
