/**
 * From where things can still go wrong, exactly: which worlds allow another end of
 * a removed file, which allow a row to be left without its bytes, and that a stale
 * entry can come to rest.
 */
module Overlaps {
  import opened Files
  import opened Stores
  import opened Machine
  import opened Invariant
  import opened Guarantees
  import opened Staleness
  import opened EventLog
  import opened Ledger
  import opened Endings
  import opened Witnesses

  // ---- stories along runs ----

  /** The story goes on from `s` to `r`, with an end or without. */
  predicate Continues(s: seq<Kind>, r: seq<Kind>, withEnd: bool) {
    s <= r && (HasEnd(r[|s|..]) <==> withEnd)
  }

  lemma ContinuesOn(s: seq<Kind>, r: seq<Kind>, q: seq<Kind>, first: bool, rest: bool)
    requires Continues(s, r, first) && Continues(r, q, rest)
    ensures Continues(s, q, first || rest)
  {
    var a, b, c := r[|s|..], q[|r|..], q[|s|..];
    assert c == a + b;
    assert forall i :: 0 <= i < |a| ==> c[i] == a[i];
    assert forall i :: 0 <= i < |b| ==> c[|a| + i] == b[i];
    assert forall i :: |a| <= i < |c| ==> c[i] == b[i - |a|];
  }

  /** The run from `w` to `v` published an end of `id`. */
  predicate NewEnd(w: World, v: World, id: Id) {
    Continues(Story(w.st.log, id), Story(v.st.log, id), true)
  }

  lemma StoryStep(cfg: Config, w: World, a: Action, id: Id)
    requires Enabled(cfg, w, a)
    ensures Continues(Story(w.st.log, id), Story(Next(cfg, w, a).st.log, id), HasEnd(Adds(w, a, id)))
  {
    hide Enabled, Next, Story, Adds;
    StoryGrows(cfg, w, a, id);
    var s, more := Story(w.st.log, id), Adds(w, a, id);
    assert (s + more)[|s|..] == more;
  }

  lemma {:induction false} StoryRun(cfg: Config, w: World, acts: seq<Action>, v: World, id: Id) returns (ends: bool)
    requires Leads(cfg, w, acts, v)
    ensures Continues(Story(w.st.log, id), Story(v.st.log, id), ends)
    decreases |acts|
  {
    hide Enabled, Next, Story, Continues, Adds;
    if acts == [] {
      ends := false;
      assert Continues(Story(w.st.log, id), Story(v.st.log, id), false) by { ContinuesSame(Story(w.st.log, id)); }
    } else {
      var u := Next(cfg, w, acts[0]);
      StoryStep(cfg, w, acts[0], id);
      var rest := StoryRun(cfg, u, acts[1..], v, id);
      ends := HasEnd(Adds(w, acts[0], id)) || rest;
      ContinuesOn(Story(w.st.log, id), Story(u.st.log, id), Story(v.st.log, id), HasEnd(Adds(w, acts[0], id)), rest);
    }
  }

  lemma ContinuesSame(s: seq<Kind>)
    ensures Continues(s, s, false)
  {
  }

  // ---- without a remover there is no further end ----

  lemma QuietStep(cfg: Config, w: World, a: Action, id: Id)
    requires Inv(cfg, w) && Enabled(cfg, w, a)
    requires NoRemover(w, id)
    ensures !HasEnd(Adds(w, a, id))
  {
    hide Inv, Enabled, Next, Removing;
    if HasEnd(Adds(w, a, id)) { EndIsARemovers(cfg, w, a, id); }
  }

  lemma {:induction false} QuietRun(cfg: Config, w: World, acts: seq<Action>, v: World, id: Id)
    requires Inv(cfg, w) && Leads(cfg, w, acts, v)
    requires Removed(w, id) && NoRemover(w, id)
    ensures Continues(Story(w.st.log, id), Story(v.st.log, id), false)
    decreases |acts|
  {
    hide Inv, Enabled, Next, Story, Continues, Adds, HasEnd, Removing, SetPending;
    if acts == [] {
      ContinuesSame(Story(w.st.log, id));
    } else {
      var u := Next(cfg, w, acts[0]);
      StepKeeps(cfg, w, acts[0]);
      StoryStep(cfg, w, acts[0], id);
      QuietStep(cfg, w, acts[0], id);
      RemovedStep(cfg, w, acts[0], id);
      NoNewRemover(cfg, w, acts[0], id);
      QuietRun(cfg, u, acts[1..], v, id);
      ContinuesOn(Story(w.st.log, id), Story(u.st.log, id), Story(v.st.log, id), false, false);
    }
  }

  // ---- a remover can publish one ----

  /** A Delete past its read, run to its publish without a failure. */
  lemma DeletePublishes(cfg: Config, w: World, t: Tid, id: Id) returns (acts: seq<Action>, v: World)
    requires Inv(cfg, w)
    requires t in w.threads && InDelete(w.threads[t]) && Removing(w.threads[t], id)
    ensures Leads(cfg, w, acts, v)
    ensures v.st.log == w.st.log + [Event(FileDeleted, id, w.st.now)]
  {
    hide Leads, Inv, KeyOf, IdOf;
    NamesItself(cfg, w, t, id);
    acts, v := Stays(cfg, w);
    if v.threads[t].DelBlob? { acts, v := DeleteActs(cfg, w, acts, v, t, true); }
    if v.threads[t].DelCache? { acts, v := DeleteActs(cfg, w, acts, v, t, true); }
    if v.threads[t].DelRow? { acts, v := DeleteActs(cfg, w, acts, v, t, true); }
    acts, v := DeleteActs(cfg, w, acts, v, t, true);
  }

  lemma NamesItself(cfg: Config, w: World, t: Tid, id: Id)
    requires Inv(cfg, w)
    requires t in w.threads && InDelete(w.threads[t]) && Removing(w.threads[t], id)
    ensures w.threads[t].f.id == id
  {
    hide ThreadsOk, RowsOk, InsertedOk, BlobsOk, CacheOk, HistoryOk, KeyOf, IdOf, UploadThreadOk, LookupThreadOk,
      PurgeThreadOk;
    MoverOk(cfg, w, t);
  }

  /** One turn of a purge, from wherever it stands, without a failure. */
  lemma TurnPublishes(cfg: Config, w: World, acts0: seq<Action>, u: World, t: Tid) returns (acts: seq<Action>, v: World)
    requires Leads(cfg, w, acts0, u)
    requires t in u.threads && InPurge(u.threads[t]) && !u.threads[t].PgQuery?
    ensures Leads(cfg, w, acts, v)
    ensures var th := u.threads[t];
      && v.st.log == u.st.log + [Event(FileExpired, th.cur.id, u.st.now)]
      && t in v.threads && v.threads[t] == PurgeLoop(th.rest, th.purged + 1)
  {
    hide Leads, KeyOf, IdOf, PurgeLoop;
    acts, v := acts0, u;
    if v.threads[t].PgBlob? { acts, v := PurgeActs(cfg, w, acts, v, t, true, []); }
    if v.threads[t].PgCache? { acts, v := PurgeActs(cfg, w, acts, v, t, true, []); }
    if v.threads[t].PgRow? { acts, v := PurgeActs(cfg, w, acts, v, t, true, []); }
    acts, v := PurgeActs(cfg, w, acts, v, t, true, []);
  }

  lemma EventTold(w: World, v: World, id: Id, e: Event)
    requires v.st.log == w.st.log + [e]
    ensures e.id == id ==> Continues(Story(w.st.log, id), Story(v.st.log, id), e.kind != FileUploaded)
    ensures e.id != id ==> Continues(Story(w.st.log, id), Story(v.st.log, id), false)
  {
    hide Story;
    var s := Story(w.st.log, id);
    Appended(w.st.log, e);
    assert (s + [e.kind])[|s|..] == [e.kind];
    assert HasEnd([e.kind]) <==> e.kind != FileUploaded by { assert [e.kind][0] == e.kind; }
    ContinuesSame(s);
  }

  /** A purge comes to each of its targets. */
  lemma {:induction false} PurgePublishes(cfg: Config, w: World, acts0: seq<Action>, u: World, t: Tid, id: Id)
    returns (acts: seq<Action>, v: World)
    requires Leads(cfg, w, acts0, u)
    requires t in u.threads && InPurge(u.threads[t]) && Removing(u.threads[t], id)
    ensures Leads(cfg, w, acts, v) && NewEnd(u, v, id)
    decreases |u.threads[t].rest|
  {
    hide Leads, KeyOf, IdOf, Story, Continues, Aimed;
    var th := u.threads[t];
    acts, v := TurnPublishes(cfg, w, acts0, u, t);
    EventTold(u, v, id, Event(FileExpired, th.cur.id, u.st.now));
    if th.cur.id != id {
      LoopAims(th.rest, th.purged + 1, id);
      var x := v;
      acts, v := PurgePublishes(cfg, w, acts, x, t, id);
      ContinuesOn(Story(u.st.log, id), Story(x.st.log, id), Story(v.st.log, id), false, true);
    }
  }

  lemma RemoverPublishes(cfg: Config, w: World, t: Tid, id: Id) returns (acts: seq<Action>, v: World)
    requires Inv(cfg, w)
    requires t in w.threads && Removing(w.threads[t], id)
    ensures Leads(cfg, w, acts, v) && NewEnd(w, v, id)
  {
    hide Leads, Inv, Story, Continues, Aimed;
    if InDelete(w.threads[t]) {
      acts, v := DeletePublishes(cfg, w, t, id);
      EventTold(w, v, id, Event(FileDeleted, id, w.st.now));
    } else {
      acts, v := Stays(cfg, w);
      acts, v := PurgePublishes(cfg, w, acts, v, t, id);
    }
  }

  /**
   * "One terminal event per file", exactly: once the row of `id` is gone, another
   * end of it can still be published if and only if some removal of it is under way.
   */
  lemma FurtherEndIff(cfg: Config, w: World, id: Id)
    requires Reachable(cfg, w) && Removed(w, id)
    ensures (exists v :: Reaches(cfg, w, v) && NewEnd(w, v, id)) <==> !NoRemover(w, id)
  {
    hide Inv, Leads, Reachable, Removing, Story, Continues;
    ReachableInv(cfg, w);
    if NoRemover(w, id) {
      forall v | Reaches(cfg, w, v) ensures !NewEnd(w, v, id) {
        var acts :| Leads(cfg, w, acts, v);
        QuietRun(cfg, w, acts, v, id);
        OneWay(Story(w.st.log, id), Story(v.st.log, id));
      }
    } else {
      var t :| t in w.threads && Removing(w.threads[t], id);
      var acts, v := RemoverPublishes(cfg, w, t, id);
      assert Reaches(cfg, w, v) && NewEnd(w, v, id);
    }
  }

  lemma OneWay(s: seq<Kind>, r: seq<Kind>)
    requires Continues(s, r, false)
    ensures !Continues(s, r, true)
  {
  }

  // ---- a second end ----

  /** An end in the story of a file is a terminal event in the log. */
  lemma {:induction false} EndIsLogged(log: seq<Event>, id: Id) returns (i: nat)
    requires HasEnd(Story(log, id))
    ensures i < |log| && log[i].id == id && log[i].kind != FileUploaded
    decreases |log|
  {
    var front, last := log[..|log| - 1], log[|log| - 1];
    if last.id == id && last.kind != FileUploaded {
      i := |log| - 1;
    } else {
      if last.id == id { OneMore(Story(front, id), last.kind); }
      i := EndIsLogged(front, id);
    }
  }

  /** A file that has ended is gone, in every reachable world. */
  lemma EndedIsRemoved(cfg: Config, w: World, id: Id)
    requires Reachable(cfg, w) && HasEnd(Story(w.st.log, id))
    ensures Removed(w, id)
  {
    hide Reachable, Story, Published, UploadedOnce;
    EventIntegrity(cfg, w);
    var i := EndIsLogged(w.st.log, id);
    assert EventOk(w, w.st.log[i]);
  }

  lemma TwoEndsIff(s: seq<Kind>, r: seq<Kind>, withEnd: bool)
    requires Continues(s, r, withEnd) && HasEnd(s) && AtMostOneEnd(s)
    ensures !AtMostOneEnd(r) <==> withEnd
  {
    assert forall i :: 0 <= i < |s| ==> r[i] == s[i];
    assert forall i :: |s| <= i < |r| ==> r[|s|..][i - |s|] == r[i];
    var i :| 0 <= i < |s| && s[i] != FileUploaded;
    if withEnd {
      var j :| 0 <= j < |r| - |s| && r[|s|..][j] != FileUploaded;
      assert r[i] != FileUploaded && r[|s| + j] != FileUploaded;
    }
  }

  predicate EndedOnce(w: World, id: Id) {
    HasEnd(Story(w.st.log, id)) && AtMostOneEnd(Story(w.st.log, id))
  }

  predicate EndedTwice(w: World, id: Id) {
    !AtMostOneEnd(Story(w.st.log, id))
  }

  /** A file that has ended once can end a second time if and only if some removal of it is still under way. */
  lemma SecondEndIff(cfg: Config, w: World, id: Id)
    requires Reachable(cfg, w) && EndedOnce(w, id)
    ensures (exists v :: Reaches(cfg, w, v) && EndedTwice(v, id)) <==> !NoRemover(w, id)
  {
    hide Leads, Reachable, Removing, NewEnd, EndedTwice;
    EndedIsRemoved(cfg, w, id);
    FurtherEndIff(cfg, w, id);
    if NoRemover(w, id) {
      forall v | Reaches(cfg, w, v) ensures !EndedTwice(v, id) {
        assert !NewEnd(w, v, id);
        SecondIsNew(cfg, w, v, id);
      }
    } else {
      var v :| Reaches(cfg, w, v) && NewEnd(w, v, id);
      SecondIsNew(cfg, w, v, id);
      assert Reaches(cfg, w, v) && EndedTwice(v, id);
    }
  }

  lemma SecondIsNew(cfg: Config, w: World, v: World, id: Id)
    requires Reaches(cfg, w, v) && EndedOnce(w, id)
    ensures NewEnd(w, v, id) <==> EndedTwice(v, id)
  {
    hide Leads, Story, Continues, HasEnd, AtMostOneEnd;
    var acts :| Leads(cfg, w, acts, v);
    var ends := StoryRun(cfg, w, acts, v, id);
    TwoEndsIff(Story(w.st.log, id), Story(v.st.log, id), ends);
    OnlyOne(Story(w.st.log, id), Story(v.st.log, id), ends);
  }

  lemma OnlyOne(s: seq<Kind>, r: seq<Kind>, withEnd: bool)
    requires Continues(s, r, withEnd)
    ensures Continues(s, r, true) <==> withEnd
  {
  }

  // ---- a row without bytes ----

  /** The row of `id` has lost its bytes, and no removal under way is going to take it. */
  ghost predicate LeftBare(w: World, id: Id) {
    && id in w.st.rows && KeyOf(id) !in w.st.blobs
    && forall t :: t in w.threads ==> !Emptying(w.threads[t], id)
  }

  lemma {:induction false} FreshTid(ts: set<Tid>) returns (t: Tid)
    ensures forall u :: u in ts ==> u < t
    decreases |ts|
  {
    t := 0;
    if ts != {} {
      var u :| u in ts;
      var rest := ts - {u};
      var above := FreshTid(rest);
      t := if above <= u then u + 1 else above;
      assert forall s :: s in ts ==> s == u || s in rest;
    }
  }

  /** A removal that has emptied `id` gives up at its repo.Delete. */
  lemma GivesUp(cfg: Config, w: World, acts0: seq<Action>, u: World, t: Tid, id: Id)
    returns (acts: seq<Action>, v: World)
    requires Leads(cfg, w, acts0, u)
    requires t in u.threads && Emptying(u.threads[t], id)
    ensures Leads(cfg, w, acts, v)
    ensures v.st.rows == u.st.rows && v.st.blobs == u.st.blobs
    ensures t in v.threads && v.threads == u.threads[t := v.threads[t]] && !Emptying(v.threads[t], id)
  {
    hide Leads, KeyOf, IdOf, PurgeLoop;
    acts, v := acts0, u;
    if InDelete(u.threads[t]) {
      if v.threads[t].DelCache? { acts, v := DeleteActs(cfg, w, acts, v, t, false); }
      acts, v := DeleteActs(cfg, w, acts, v, t, false);
    } else {
      if v.threads[t].PgCache? { acts, v := PurgeActs(cfg, w, acts, v, t, false, []); }
      acts, v := PurgeActs(cfg, w, acts, v, t, false, []);
    }
    assert v.threads == u.threads[t := v.threads[t]];
  }

  lemma {:induction false} AllGiveUp(cfg: Config, w: World, acts0: seq<Action>, u: World, id: Id, ts: set<Tid>)
    returns (acts: seq<Action>, v: World)
    requires Leads(cfg, w, acts0, u)
    requires forall t :: t in u.threads && Emptying(u.threads[t], id) ==> t in ts
    ensures Leads(cfg, w, acts, v)
    ensures v.st.rows == u.st.rows && v.st.blobs == u.st.blobs
    ensures forall t :: t in v.threads ==> !Emptying(v.threads[t], id)
    decreases |ts|
  {
    hide Leads, Emptying;
    acts, v := acts0, u;
    if ts != {} {
      var t :| t in ts;
      if t in u.threads && Emptying(u.threads[t], id) { acts, v := GivesUp(cfg, w, acts, v, t, id); }
      acts, v := AllGiveUp(cfg, w, acts, v, id, ts - {t});
    }
  }

  lemma BareRowComes(cfg: Config, w: World, id: Id) returns (acts: seq<Action>, v: World)
    requires Reachable(cfg, w) && id in w.st.rows
    ensures Leads(cfg, w, acts, v) && LeftBare(v, id)
  {
    hide Leads, Reachable, KeyOf, IdOf, Emptying;
    var t := FreshTid(w.threads.Keys);
    acts, v := RowWithoutBlob(cfg, w, t, id);
    acts, v := AllGiveUp(cfg, w, acts, v, id, v.threads.Keys);
  }

  /**
   * "Every row has its bytes", exactly: of a file once inserted, a row can come to
   * rest without its bytes if and only if the row is still there.
   */
  lemma BareRowIff(cfg: Config, w: World, id: Id)
    requires Reachable(cfg, w) && id in w.hist.inserted
    ensures (exists v :: Reaches(cfg, w, v) && LeftBare(v, id)) <==> id in w.st.rows
  {
    hide Inv, Leads, Reachable, Emptying, KeyOf, IdOf;
    ReachableInv(cfg, w);
    if id in w.st.rows {
      var acts, v := BareRowComes(cfg, w, id);
      assert Reaches(cfg, w, v) && LeftBare(v, id);
    } else {
      forall v | Reaches(cfg, w, v) ensures !LeftBare(v, id) {
        var acts :| Leads(cfg, w, acts, v);
        RemovedRun(cfg, w, acts, v, id);
      }
    }
  }

  // ---- a stale entry at rest ----

  /**
   * From every reachable world with the row in which all calls have returned, a
   * lookup and a Delete leave a live entry of the removed file that nothing in
   * flight can touch. Without a positive cache TTL it stays until Redis evicts it.
   */
  lemma StaleAtRest(cfg: Config, w: World, reader: Tid, deleter: Tid, id: Id) returns (acts: seq<Action>, v: World)
    requires Reachable(cfg, w)
    requires forall t :: t in w.threads ==> Returned(w.threads[t])
    requires id in w.st.rows && reader !in w.threads && deleter !in w.threads && reader != deleter
    ensures Leads(cfg, w, acts, v) && AtRest(v, id) && Live(v.st, id)
    ensures cfg.cacheTTL <= 0 ==>
              forall x :: ReachesUnder(cfg, v, x, NotEvicted(id)) ==> Removed(x, id) && Live(x.st, id)
  {
    hide Leads, Inv, Reachable, KeyOf, IdOf, Live;
    acts, v := StaleEntry(cfg, w, reader, deleter, id);
    ReachesOn(cfg, w, acts, v);
    ReachableInv(cfg, w);
    RowFacts(cfg, w, id);
    RunKeepsInserted(cfg, w, acts, v, id);
    LiveIsCached(v.st, id);
    if cfg.cacheTTL <= 0 {
      forall x | ReachesUnder(cfg, v, x, NotEvicted(id)) ensures Removed(x, id) && Live(x.st, id) {
        var more :| LeadsUnder(cfg, v, more, x, NotEvicted(id));
        var t := FreshTid(x.threads.Keys);
        var rest, y := StaleForEver(cfg, v, more, x, t, id);
      }
    }
  }

  ghost predicate ReachesUnder(cfg: Config, w: World, v: World, p: Proviso) {
    exists acts :: LeadsUnder(cfg, w, acts, v, p)
  }

  lemma RunKeepsInserted(cfg: Config, w: World, acts: seq<Action>, v: World, id: Id)
    requires Inv(cfg, w) && Leads(cfg, w, acts, v) && id in w.hist.inserted
    ensures id in v.hist.inserted
  {
    hide Inv, Leads;
    RunGrows(cfg, w, acts, v);
  }
}
