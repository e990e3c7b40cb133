/**
 * The proviso of serial refinement is exact. After any conversation that met it,
 * a Delete or a lookup that does not meet it leaves something behind that a few
 * further calls, in which nothing but the cache fails, bring to light.
 */
module Proviso {
  import opened Prelude
  import opened Files
  import opened Stores
  import S = Serial
  import opened Serial
  import opened Refinement
  import opened Ledger

  // ---- conversations put together ----

  lemma {:induction false} AppendLawful(cfg: Config, st: Stores, used: set<Id>, calls: seq<Call>, more: seq<Call>)
    requires Lawful(cfg, st, used, calls)
    requires var (s, u) := After(cfg, st, used, calls); Lawful(cfg, s, u, more)
    ensures Lawful(cfg, st, used, calls + more)
    decreases |calls|
  {
    hide Selection, Queried, UsedAfter, S.Upload, S.Metadata, S.Download, S.Delete, S.Purge;
    if calls == [] {
      assert calls + more == more;
    } else {
      assert (calls + more)[1..] == calls[1..] + more;
      AppendLawful(cfg, Exec(cfg, st, calls[0]).0, UsedAfter(used, calls[0]), calls[1..], more);
    }
  }

  lemma {:induction false} AppendSafe(cfg: Config, st: Stores, used: set<Id>, calls: seq<Call>, more: seq<Call>)
    requires Lawful(cfg, st, used, calls) && Lawful(cfg, st, used, calls + more) && SafeRun(cfg, st, used, calls)
    requires var (s, u) := After(cfg, st, used, calls); Lawful(cfg, s, u, more) && SafeRun(cfg, s, u, more)
    ensures SafeRun(cfg, st, used, calls + more)
    decreases |calls|
  {
    hide Safe, Exec, Selection, Queried, UsedAfter;
    if calls == [] {
      assert calls + more == more;
    } else {
      assert (calls + more)[1..] == calls[1..] + more;
      AppendSafe(cfg, Exec(cfg, st, calls[0]).0, UsedAfter(used, calls[0]), calls[1..], more);
    }
  }

  lemma {:induction false} AppendTalk(cfg: Config, st: Stores, used: set<Id>, calls: seq<Call>, more: seq<Call>)
    requires Lawful(cfg, st, used, calls) && Lawful(cfg, st, used, calls + more)
    requires var (s, u) := After(cfg, st, used, calls); Lawful(cfg, s, u, more)
    ensures var (s, u) := After(cfg, st, used, calls);
            Conversation(cfg, st, used, calls + more) ==
            Conversation(cfg, st, used, calls) + Conversation(cfg, s, u, more)
    decreases |calls|
  {
    hide Exec, Selection, Queried, UsedAfter, SafeRun;
    if calls == [] {
      assert calls + more == more;
    } else {
      var (s, r) := Exec(cfg, st, calls[0]);
      var u := UsedAfter(used, calls[0]);
      assert (calls + more)[0] == calls[0] && (calls + more)[1..] == calls[1..] + more;
      AppendTalk(cfg, s, u, calls[1..], more);
      assert Conversation(cfg, st, used, calls + more) ==
             [Seen(st.now, calls[0], r)] + Conversation(cfg, s, u, calls[1..] + more);
    }
  }

  lemma {:induction false} Suffix(cfg: Config, a: Shelf, first: seq<Seen>, rest: seq<Seen>) returns (b: Shelf)
    requires Explained(cfg, a, first + rest)
    ensures Explained(cfg, b, rest)
    decreases |first|
  {
    hide Allowed;
    if first == [] {
      assert first + rest == rest;
      b := a;
    } else {
      var talk := first + rest;
      b := Answer(cfg, a, talk);
      assert talk[1..] == first[1..] + rest;
      b := Suffix(cfg, b, first[1..], rest);
    }
  }

  lemma Answer(cfg: Config, a: Shelf, talk: seq<Seen>) returns (b: Shelf)
    requires talk != [] && Explained(cfg, a, talk)
    ensures Allowed(cfg, a, talk[0].at, talk[0].call, talk[0].reply, b) && Explained(cfg, b, talk[1..])
  {
    b :| Allowed(cfg, a, talk[0].at, talk[0].call, talk[0].reply, b) && Explained(cfg, b, talk[1..]);
  }

  lemma {:induction false} SimAfter(cfg: Config, st: Stores, a: Shelf, used: set<Id>, calls: seq<Call>)
    returns (b: Shelf)
    requires Sim(st, a, used)
    requires Lawful(cfg, st, used, calls) && SafeRun(cfg, st, used, calls)
    ensures var (s, u) := After(cfg, st, used, calls); Sim(s, b, u)
    decreases |calls|
  {
    hide Sim, Allowed, Safe, S.Upload, S.Metadata, S.Download, S.Delete, S.Purge, Selection;
    b := a;
    if calls != [] {
      b := CallRefines(cfg, st, a, used, calls[0]);
      b := SimAfter(cfg, Exec(cfg, st, calls[0]).0, b, UsedAfter(used, calls[0]), calls[1..]);
    }
  }

  // ---- what is left behind ----

  /** A removed row has left a living entry, or a row without its bytes can be read as alive. */
  predicate Haunted(st: Stores, id: Id) {
    if id in st.rows then st.rows[id].storageKey !in st.blobs && !Dark(st, id) else !Faded(st, id)
  }

  predicate Keyed(st: Stores, id: Id) {
    && (id in st.rows ==> st.rows[id].storageKey == KeyOf(id))
    && (id in st.cache ==> st.cache[id].file.storageKey == KeyOf(id))
  }

  lemma HarmHaunts(st: Stores, a: Shelf, used: set<Id>, id: Id, q: DeleteFaults)
    requires Sim(st, a, used)
    requires !SafeDelete(st, id, q)
    ensures var s := S.Delete(st, id, q).0; Haunted(s, id) && Keyed(s, id)
  {
    hide IdOf, KeyOf, Stored;
    RowIsHeld(st, a, used, id);
    if id in st.cache {
      assert EntryOk(st, a, id);
      assert Held(st, id, a[id]);
    }
  }

  lemma UnsafeHaunts(cfg: Config, st: Stores, a: Shelf, used: set<Id>, c: Call)
    requires Sim(st, a, used)
    requires c.DoMetadata? || c.DoDownload? || c.DoDelete?
    requires !Safe(cfg, st, c)
    ensures var s := Exec(cfg, st, c).0; Haunted(s, c.id) && Keyed(s, c.id)
  {
    hide IdOf, KeyOf, Sim, SafeDelete, Haunted, Keyed, Find, S.Delete;
    if c.DoDelete? {
      HarmHaunts(st, a, used, c.id, c.del);
    } else {
      var late := Later(Find(cfg, st, c.id, c.lk).0, c.lk.lag);
      FindRefines(cfg, st, a, used, c.id, c.lk);
      HarmHaunts(late, a, used, c.id, c.lk.reap);
    }
  }

  // ---- and brought to light ----

  /** A Download of `id` in which no call fails, except cache.Get if not `hit`. */
  function Fetch(id: Id, hit: bool): Call {
    DoDownload(id, LookupFaults(hit, 0, true, true, 0, NO_FAULTS, true))
  }

  /** A Download, possibly after a Delete in which no call fails. */
  function Aftermath(id: Id, gone: bool, hit: bool): seq<Call> {
    if gone then [DoDelete(id, NO_FAULTS), Fetch(id, hit)] else [Fetch(id, hit)]
  }

  lemma AftermathIsLawful(cfg: Config, st: Stores, used: set<Id>, id: Id, gone: bool, hit: bool)
    ensures Lawful(cfg, st, used, Aftermath(id, gone, hit)) && SafeRun(cfg, st, used, Aftermath(id, gone, hit))
    ensures var s := if gone then S.Delete(st, id, NO_FAULTS).0 else st;
            var last := [Seen(s.now, Fetch(id, hit), ObjectIs(S.Download(cfg, s, id, Fetch(id, hit).lk).1))];
            Conversation(cfg, st, used, Aftermath(id, gone, hit)) ==
            if gone then [Seen(st.now, DoDelete(id, NO_FAULTS), DeletedIs(S.Delete(st, id, NO_FAULTS).1))] + last
            else last
  {
    hide S.Delete, S.Download, Live, Find;
    var del, get := DoDelete(id, NO_FAULTS), Fetch(id, hit);
    var s := if gone then S.Delete(st, id, NO_FAULTS).0 else st;
    assert Lawful(cfg, Exec(cfg, s, get).0, used, []);
    assert [get][1..] == [] && [del, get][1..] == [get];
    assert Lawful(cfg, s, used, [get]) && SafeRun(cfg, s, used, [get]);
    assert Conversation(cfg, s, used, [get]) == [Seen(s.now, get, Exec(cfg, s, get).1)];
  }

  /** What the Download meets in a haunted state: bytes of a file that is gone, or none of one that is there. */
  lemma FetchMeets(cfg: Config, st: Stores, id: Id)
    requires Haunted(st, id) && Keyed(st, id)
    ensures var o := S.Download(cfg, st, id, Fetch(id, !Faded(st, id)).lk).1;
            if id in st.rows then o == Err(Backend) else o != Err(NotFound) && (o.Err? ==> o.error == Backend)
    ensures id !in st.rows ==> S.Delete(st, id, NO_FAULTS) == (st, None)
  {
    hide IdOf, KeyOf;
  }

  lemma HauntShows(cfg: Config, st: Stores, used: set<Id>, a: Shelf, id: Id)
    requires Haunted(st, id) && Keyed(st, id)
    ensures var calls := Aftermath(id, id !in st.rows, !Faded(st, id));
            Lawful(cfg, st, used, calls) && !Explained(cfg, a, Conversation(cfg, st, used, calls))
  {
    hide IdOf, KeyOf, Haunted, Faded, S.Delete, S.Download;
    var gone, hit := id !in st.rows, !Faded(st, id);
    AftermathIsLawful(cfg, st, used, id, gone, hit);
    FetchMeets(cfg, st, id);
    var talk := Conversation(cfg, st, used, Aftermath(id, gone, hit));
    if Explained(cfg, a, talk) {
      var b := Answer(cfg, a, talk);
      if gone {
        assert talk[1..][0] == talk[1];
        b := Answer(cfg, b, talk[1..]);
      }
    }
  }

  // ---- both together ----

  /** The calls can be made, and a plain map can answer as the service does. */
  ghost predicate Accountable(cfg: Config, start: Time, calls: seq<Call>) {
    Lawful(cfg, Empty(start), {}, calls) && Explained(cfg, map[], Conversation(cfg, Empty(start), {}, calls))
  }

  /** `c` after `calls`, and its aftermath. */
  function Probe(calls: seq<Call>, c: Call, id: Id, gone: bool, hit: bool): seq<Call> {
    calls + ([c] + Aftermath(id, gone, hit))
  }

  lemma SafeProbe(cfg: Config, start: Time, calls: seq<Call>, c: Call, gone: bool, hit: bool)
    requires Lawful(cfg, Empty(start), {}, calls) && SafeRun(cfg, Empty(start), {}, calls)
    requires c.DoMetadata? || c.DoDownload? || c.DoDelete?
    ensures Lawful(cfg, Empty(start), {}, Probe(calls, c, c.id, gone, hit))
    ensures Safe(cfg, After(cfg, Empty(start), {}, calls).0, c) ==>
              Accountable(cfg, start, Probe(calls, c, c.id, gone, hit))
    ensures var (st, used) := After(cfg, Empty(start), {}, calls);
            var s := Exec(cfg, st, c).0;
      && Lawful(cfg, s, used, Aftermath(c.id, gone, hit))
      && exists first :: Conversation(cfg, Empty(start), {}, Probe(calls, c, c.id, gone, hit)) ==
                         first + Conversation(cfg, s, used, Aftermath(c.id, gone, hit))
  {
    hide Safe, S.Upload, S.Metadata, S.Download, S.Delete, S.Purge, Selection, Queried, Aftermath, Explained;
    var (st, used) := After(cfg, Empty(start), {}, calls);
    var (s, r) := Exec(cfg, st, c);
    var rest := Aftermath(c.id, gone, hit);
    AftermathIsLawful(cfg, s, used, c.id, gone, hit);
    assert ([c] + rest)[1..] == rest;
    assert Lawful(cfg, st, used, [c] + rest);
    AppendLawful(cfg, Empty(start), {}, calls, [c] + rest);
    AppendTalk(cfg, Empty(start), {}, calls, [c] + rest);
    var first := Conversation(cfg, Empty(start), {}, calls) + [Seen(st.now, c, r)];
    assert Conversation(cfg, Empty(start), {}, Probe(calls, c, c.id, gone, hit)) ==
           first + Conversation(cfg, s, used, rest);
    if Safe(cfg, st, c) {
      AppendSafe(cfg, Empty(start), {}, calls, [c] + rest);
      SerialRefinement(cfg, start, Probe(calls, c, c.id, gone, hit));
    }
  }

  /**
   * The proviso cannot be weakened. Take any conversation that met it and any
   * further Delete, Metadata or Download. Then a plain map can account for that
   * call and whatever Download follows, directly or after another Delete, exactly
   * when the call meets the proviso too.
   */
  lemma ProvisoIsExact(cfg: Config, start: Time, calls: seq<Call>, c: Call)
    requires Lawful(cfg, Empty(start), {}, calls) && SafeRun(cfg, Empty(start), {}, calls)
    requires c.DoMetadata? || c.DoDownload? || c.DoDelete?
    ensures (forall gone, hit :: Accountable(cfg, start, Probe(calls, c, c.id, gone, hit))) <==>
            Safe(cfg, After(cfg, Empty(start), {}, calls).0, c)
  {
    hide Safe, Haunted, Keyed, Faded, Explained, Conversation, SafeRun, Exec;
    var (st, used) := After(cfg, Empty(start), {}, calls);
    if Safe(cfg, st, c) {
      forall gone, hit ensures Accountable(cfg, start, Probe(calls, c, c.id, gone, hit)) {
        SafeProbe(cfg, start, calls, c, gone, hit);
      }
    } else {
      UnsafeShows(cfg, start, calls, c);
    }
  }

  /** The very calls that bring it to light. */
  lemma UnsafeShows(cfg: Config, start: Time, calls: seq<Call>, c: Call)
    requires Lawful(cfg, Empty(start), {}, calls) && SafeRun(cfg, Empty(start), {}, calls)
    requires c.DoMetadata? || c.DoDownload? || c.DoDelete?
    requires !Safe(cfg, After(cfg, Empty(start), {}, calls).0, c)
    ensures var s := Exec(cfg, After(cfg, Empty(start), {}, calls).0, c).0;
            !Accountable(cfg, start, Probe(calls, c, c.id, c.id !in s.rows, !Faded(s, c.id)))
  {
    hide Safe, Haunted, Keyed, Faded, Explained, Conversation, SafeRun, Exec;
    var (st, used) := After(cfg, Empty(start), {}, calls);
    var a := SimAfter(cfg, Empty(start), map[], {}, calls);
    UnsafeHaunts(cfg, st, a, used, c);
    var s := Exec(cfg, st, c).0;
    var gone, hit := c.id !in s.rows, !Faded(s, c.id);
    SafeProbe(cfg, start, calls, c, gone, hit);
    NotAccountable(cfg, start, Probe(calls, c, c.id, gone, hit), s, used, c.id);
  }

  lemma NotAccountable(cfg: Config, start: Time, calls: seq<Call>, s: Stores, used: set<Id>, id: Id)
    requires Haunted(s, id) && Keyed(s, id)
    requires Lawful(cfg, Empty(start), {}, calls)
    requires var rest := Aftermath(id, id !in s.rows, !Faded(s, id));
      && Lawful(cfg, s, used, rest)
      && exists first :: Conversation(cfg, Empty(start), {}, calls) == first + Conversation(cfg, s, used, rest)
    ensures !Accountable(cfg, start, calls)
  {
    hide Haunted, Keyed, Faded, Lawful, Conversation, Aftermath;
    var rest := Aftermath(id, id !in s.rows, !Faded(s, id));
    if Accountable(cfg, start, calls) {
      var first :| Conversation(cfg, Empty(start), {}, calls) == first + Conversation(cfg, s, used, rest);
      var b := Suffix(cfg, map[], first, Conversation(cfg, s, used, rest));
      HauntShows(cfg, s, used, b, id);
    }
  }

  // ---- the two ways to fail ----

  const ONE_FILE := UploadInput("f.txt", "text/plain", 0, [], -1)
  const UPLOADED := DoUpload("a", ONE_FILE, UploadFaults(true, 0, true, true, true, 0))

  lemma FirstUpload(cfg: Config, start: Time) returns (f: File)
    ensures Lawful(cfg, Empty(start), {}, [UPLOADED]) && SafeRun(cfg, Empty(start), {}, [UPLOADED])
    ensures var s := After(cfg, Empty(start), {}, [UPLOADED]).0;
      && s == S.Upload(cfg, Empty(start), "a", ONE_FILE, UPLOADED.up).0
      && f.expiresAt == None && s.rows == map["a" := Stored(f)]
      && s.cache == map["a" := Entry(f, LapseAt(cfg.cacheTTL, start))] && s.now == start
  {
    hide IdOf, KeyOf;
    f := NewRecord(cfg, "a", ONE_FILE, start);
    var s := Exec(cfg, Empty(start), UPLOADED).0;
    assert [UPLOADED][1..] == [];
    assert Lawful(cfg, s, {"a"}, []);
  }

  /** A Delete whose eviction was lost: the next Delete finds no row, and a Download still finds the file. */
  lemma LostEviction(cfg: Config, start: Time)
    ensures !Accountable(cfg, start, Probe([UPLOADED], DoDelete("a", NO_FAULTS.(cacheOk := false)), "a", true, true))
  {
    hide IdOf, KeyOf, Accountable, Lawful, SafeRun, S.Upload;
    var f := FirstUpload(cfg, start);
    UnsafeShows(cfg, start, [UPLOADED], DoDelete("a", NO_FAULTS.(cacheOk := false)));
  }

  /** A Delete whose row removal failed once the blob was gone: a Download finds the record and not the bytes. */
  lemma LostRowRemoval(cfg: Config, start: Time)
    ensures !Accountable(cfg, start, Probe([UPLOADED], DoDelete("a", NO_FAULTS.(rowOk := false)), "a", false, false))
  {
    hide IdOf, KeyOf, Accountable, Lawful, SafeRun, S.Upload;
    var f := FirstUpload(cfg, start);
    UnsafeShows(cfg, start, [UPLOADED], DoDelete("a", NO_FAULTS.(rowOk := false)));
  }
}
