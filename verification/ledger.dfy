/**
 * The event log against the row table, call by call, under every pattern of
 * failures: the log is a ledger from which the live rows can be counted.
 */
module Ledger {
  import opened Prelude
  import opened Files
  import opened Stores
  import S = Serial
  import opened Serial
  import opened Refinement

  function Count(log: seq<Event>, kind: Kind): nat {
    if log == [] then 0 else Count(log[..|log| - 1], kind) + if log[|log| - 1].kind == kind then 1 else 0
  }

  /** The events of one file, in order. */
  function Story(log: seq<Event>, id: Id): seq<Kind> {
    if log == [] then []
    else
      var last := log[|log| - 1];
      if last.id == id then Story(log[..|log| - 1], id) + [last.kind] else Story(log[..|log| - 1], id)
  }

  const NEVER: seq<Kind> := []
  const ALIVE := [FileUploaded]
  const DELETED := [FileUploaded, FileDeleted]
  const EXPIRED := [FileUploaded, FileExpired]

  predicate Closed(s: seq<Kind>) {
    s == NEVER || s == DELETED || s == EXPIRED
  }

  /** A live row has told of its upload only; a file without a row nothing, or its upload and its one end. */
  predicate StoryOk(st: Stores, used: set<Id>, id: Id) {
    var s := Story(st.log, id);
    && (id in st.rows ==> s == ALIVE && st.rows[id].id == id)
    && (id !in st.rows ==> Closed(s))
    && (id !in used ==> s == NEVER)
  }

  ghost predicate Balanced(st: Stores, used: set<Id>) {
    && (forall id :: StoryOk(st, used, id))
    && |st.rows| + Count(st.log, FileDeleted) + Count(st.log, FileExpired) == Count(st.log, FileUploaded)
  }

  lemma Appended(log: seq<Event>, e: Event)
    ensures forall kind :: Count(log + [e], kind) == Count(log, kind) + if e.kind == kind then 1 else 0
    ensures forall id :: Story(log + [e], id) == if e.id == id then Story(log, id) + [e.kind] else Story(log, id)
  {
    assert (log + [e])[..|log|] == log;
  }

  /** A row appears together with its uploaded event. */
  lemma Opens(st: Stores, used: set<Id>, f: File, s: Stores)
    requires Balanced(st, used) && f.id !in used
    requires s.rows == st.rows[f.id := Stored(f)]
    requires exists at :: s.log == st.log + [Event(FileUploaded, f.id, at)]
    ensures Balanced(s, used + {f.id})
  {
    var at :| s.log == st.log + [Event(FileUploaded, f.id, at)];
    Appended(st.log, Event(FileUploaded, f.id, at));
    assert StoryOk(st, used, f.id);
    assert NEVER + [FileUploaded] == ALIVE;
    forall id ensures StoryOk(s, used + {f.id}, id) {
      assert StoryOk(st, used, id);
    }
  }

  lemma DropOne(rows: map<Id, File>, id: Id)
    requires id in rows
    ensures |rows| == |rows - {id}| + 1
  {
    assert rows.Keys == (rows - {id}).Keys + {id};
  }

  /** A row disappears together with its deleted or expired event. */
  lemma Closes(st: Stores, used: set<Id>, id: Id, kind: Kind, s: Stores)
    requires Balanced(st, used) && id in st.rows && kind != FileUploaded
    requires s.rows == st.rows - {id}
    requires exists at :: s.log == st.log + [Event(kind, id, at)]
    ensures Balanced(s, used)
  {
    var at :| s.log == st.log + [Event(kind, id, at)];
    Appended(st.log, Event(kind, id, at));
    DropOne(st.rows, id);
    assert ALIVE + [FileDeleted] == DELETED && ALIVE + [FileExpired] == EXPIRED;
    forall i ensures StoryOk(s, used, i) {
      assert StoryOk(st, used, i);
    }
  }

  lemma Unmoved(st: Stores, used: set<Id>, s: Stores, more: set<Id>)
    requires Balanced(st, used) && used <= more
    requires s.rows == st.rows && s.log == st.log
    ensures Balanced(s, more)
  {
    forall id ensures StoryOk(s, more, id) {
      assert StoryOk(st, used, id);
    }
  }

  lemma DeleteBalances(st: Stores, used: set<Id>, id: Id, q: DeleteFaults)
    requires Balanced(st, used)
    ensures Balanced(S.Delete(st, id, q).0, used)
  {
    hide Balanced, IdOf, KeyOf;
    var s := S.Delete(st, id, q).0;
    if q.readOk && id in st.rows && q.rowOk {
      RowIsItsOwn(st, used, id);
      assert s.log == st.log + [Event(FileDeleted, id, st.now + q.lag)];
      Closes(st, used, id, FileDeleted, s);
    } else {
      Unmoved(st, used, s, used);
    }
  }

  lemma RowIsItsOwn(st: Stores, used: set<Id>, id: Id)
    requires Balanced(st, used) && id in st.rows
    ensures st.rows[id].id == id
  {
    assert StoryOk(st, used, id);
  }

  lemma MetadataBalances(cfg: Config, st: Stores, used: set<Id>, id: Id, q: LookupFaults)
    requires Balanced(st, used)
    ensures Balanced(S.Metadata(cfg, st, id, q).0, used)
  {
    hide Balanced, IdOf, KeyOf;
    var late := Later(Find(cfg, st, id, q).0, q.lag);
    Unmoved(st, used, late, used);
    DeleteBalances(late, used, id, q.reap);
  }

  lemma {:induction false} PurgeBalances(st: Stores, used: set<Id>, picks: seq<Id>, i: nat, q: PurgeFaults)
    requires i <= |picks| && Distinct(picks)
    requires forall j :: i <= j < |picks| ==> picks[j] in st.rows
    requires Balanced(st, used)
    ensures Balanced(PurgeFrom(st, picks, i, q).0, used)
    decreases |picks| - i
  {
    hide Balanced, IdOf, KeyOf;
    if i < |picks| {
      var id, d := picks[i], ItemFaults(q, i);
      var gone := Reclaim(st, id, st.rows[id].storageKey, d);
      Unmoved(st, used, gone, used);
      if d.rowOk {
        var next := Remove(st, id, st.rows[id].storageKey, d, FileExpired, id);
        assert next.log == gone.log + [Event(FileExpired, id, gone.now)];
        Closes(gone, used, id, FileExpired, next);
        PurgeBalances(next, used, picks, i + 1, q);
      }
    }
  }

  /** PurgeExpired removes exactly a prefix of the selected rows, and reports its length. */
  lemma {:induction false} PurgeRemoves(st: Stores, picks: seq<Id>, i: nat, q: PurgeFaults)
    requires i <= |picks| && Distinct(picks)
    requires forall j :: i <= j < |picks| ==> picks[j] in st.rows
    ensures var (s, n, e) := PurgeFrom(st, picks, i, q);
      && i <= n <= |picks|
      && s.rows == st.rows - IdSet(picks[i..n])
      && |s.rows| == |st.rows| - (n - i)
      && (e == None <==> n == |picks|)
      && s.now >= st.now
    decreases |picks| - i
  {
    hide IdOf, KeyOf, IdSet;
    var d := ItemFaults(q, i);
    if i < |picks| && d.rowOk {
      var id := picks[i];
      var next := Remove(st, id, st.rows[id].storageKey, d, FileExpired, id);
      PurgeRemoves(next, picks, i + 1, q);
      var n := PurgeFrom(next, picks, i + 1, q).1;
      DropOne(st.rows, id);
      DropTwice(st.rows, id, IdSet(picks[i + 1..n]));
      IdSetCons(picks, i, n);
    } else {
      IdSetNone(picks, i);
    }
  }

  lemma UploadBalances(cfg: Config, st: Stores, used: set<Id>, c: Call)
    requires c.DoUpload? && Balanced(st, used) && c.id !in used
    ensures Balanced(Exec(cfg, st, c).0, used + {c.id})
  {
    hide Balanced, IdOf, KeyOf;
    var (s, r) := S.Upload(cfg, st, c.id, c.input, c.up);
    if r.Ok? {
      assert s.log == st.log + [Event(FileUploaded, r.value.id, s.now)];
      Opens(st, used, r.value, s);
    } else {
      Unmoved(st, used, s, used + {c.id});
    }
  }

  lemma CallBalances(cfg: Config, st: Stores, used: set<Id>, c: Call)
    requires Balanced(st, used) && Admissible(st, used, c)
    ensures Balanced(Exec(cfg, st, c).0, UsedAfter(used, c))
  {
    hide Balanced, IdOf, KeyOf, S.Upload, S.Metadata, S.Delete;
    match c
    case DoUpload(_, _, _) => UploadBalances(cfg, st, used, c);
    case DoMetadata(id, q) => MetadataBalances(cfg, st, used, id, q);
    case DoDownload(id, q) => MetadataBalances(cfg, st, used, id, q);
    case DoDelete(id, q) => DeleteBalances(st, used, id, q);
    case DoPurge(batch, picks, q) =>
      if Queried(batch, q) {
        assert forall i :: 0 <= i < |picks| ==> picks[i] in Expirees(st);
        PurgeBalances(st, used, picks, 0, q);
      }
    case Evicted(id) => Unmoved(st, used, DropCache(st, id), used);
    case Passed(lag) => Unmoved(st, used, Later(st, lag), used);
  }

  ghost function After(cfg: Config, st: Stores, used: set<Id>, calls: seq<Call>): (r: (Stores, set<Id>))
    requires Lawful(cfg, st, used, calls)
    decreases |calls|
  {
    if calls == [] then (st, used)
    else After(cfg, Exec(cfg, st, calls[0]).0, UsedAfter(used, calls[0]), calls[1..])
  }

  lemma {:induction false} RunBalances(cfg: Config, st: Stores, used: set<Id>, calls: seq<Call>)
    requires Balanced(st, used)
    requires Lawful(cfg, st, used, calls)
    ensures var (s, u) := After(cfg, st, used, calls); Balanced(s, u)
    decreases |calls|
  {
    hide Balanced, S.Upload, S.Metadata, S.Delete, S.Purge, Selection;
    if calls != [] {
      CallBalances(cfg, st, used, calls[0]);
      RunBalances(cfg, Exec(cfg, st, calls[0]).0, UsedAfter(used, calls[0]), calls[1..]);
    }
  }

  /**
   * Event conservation. After any sequence of calls on an empty service, with any
   * failures, the live rows number the uploads minus the deletions and expiries,
   * and every file's events are none, its upload, or its upload and one end.
   */
  lemma EventConservation(cfg: Config, start: Time, calls: seq<Call>)
    requires Lawful(cfg, Empty(start), {}, calls)
    ensures var s := After(cfg, Empty(start), {}, calls).0;
      && |s.rows| == Count(s.log, FileUploaded) - Count(s.log, FileDeleted) - Count(s.log, FileExpired)
      && (forall id :: id in s.rows ==> Story(s.log, id) == ALIVE)
      && (forall id :: id !in s.rows ==> Closed(Story(s.log, id)))
  {
    var st := Empty(start);
    assert Balanced(st, {}) by {
      forall id ensures StoryOk(st, {}, id) {}
    }
    RunBalances(cfg, st, {}, calls);
    var (s, u) := After(cfg, st, {}, calls);
    forall id ensures if id in s.rows then Story(s.log, id) == ALIVE else Closed(Story(s.log, id)) {
      assert StoryOk(s, u, id);
    }
  }
}
