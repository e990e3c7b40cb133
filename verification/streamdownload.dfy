/**
 * Server.Download of internal/rpc/server.go, the mapping of its TTL convention,
 * and the two streams put together: what goes up is what comes down.
 */
module StreamDownload {
  import opened Prelude
  import opened Files
  import opened Stores
  import S = Serial
  import opened Serial
  import U = StreamUpload
  import M = Machine
  import G = Guarantees

  const DOWNLOAD_CHUNK_SIZE := 65536

  datatype Response = InfoIs(file: File) | ChunkIs(bytes: Bytes)

  function Chunks(rs: seq<Response>): Bytes {
    if rs == [] then []
    else
      var last := rs[|rs| - 1];
      Chunks(rs[..|rs| - 1]) + if last.ChunkIs? then last.bytes else []
  }

  predicate IsPart(r: Response) {
    r.ChunkIs? && 0 < |r.bytes| <= 65_536
  }

  /** Info first, then non-empty chunks of at most 64 KiB. */
  predicate Framed(rs: seq<Response>, f: File) {
    && |rs| >= 1 && rs[0] == InfoIs(f)
    && forall i :: 1 <= i < |rs| ==> IsPart(rs[i])
  }

  lemma ChunksAppend(rs: seq<Response>, r: Response)
    ensures Chunks(rs + [r]) == Chunks(rs) + if r.ChunkIs? then r.bytes else []
  {
    assert (rs + [r])[..|rs|] == rs;
  }

  lemma InfoCarriesNoBytes(f: File)
    ensures Chunks([] + [InfoIs(f)]) == []
  {
    ChunksAppend([], InfoIs(f));
  }

  /** The client's side of the stream; `Send` takes a copy of the bytes it is given. */
  class ResponseStream {
    var sent: seq<Response>

    constructor ()
      ensures sent == []
    {
      sent := [];
    }

    method Send(r: Response, ok: bool)
      modifies this
      ensures sent == if ok then old(sent) + [r] else old(sent)
    {
      if ok { sent := sent + [r]; }
    }
  }

  datatype ReadEnd = More | Eof | Broken

  /**
   * An object's body, read like any io.Reader: each call yields some bytes, none,
   * or the last ones together with EOF. `idle` bounds the reads that yield nothing.
   */
  class ObjectBody {
    const data: Bytes
    var pos: nat
    var idle: nat

    ghost predicate Valid()
      reads this
    {
      pos <= |data|
    }

    constructor (data: Bytes, idle: nat)
      ensures Valid() && this.data == data && pos == 0 && this.idle == idle
    {
      this.data := data;
      pos := 0;
      this.idle := idle;
    }

    /** `want` and `end` are the backend's choice, kept within what a reader may do. */
    method Read(buf: array<byte>, want: nat, end: ReadEnd) returns (n: nat, e: ReadEnd)
      requires Valid() && buf.Length > 0
      modifies this, buf
      ensures Valid() && n <= buf.Length && pos == old(pos) + n
      ensures buf[..n] == data[old(pos)..pos]
      ensures e == Eof ==> pos == |data|
      ensures e == More ==> n > 0 || idle < old(idle)
      ensures e == Broken ==> end == Broken
      ensures idle <= old(idle)
    {
      n := if want < buf.Length then want else buf.Length;
      if |data| - pos < n { n := |data| - pos; }
      e := if end == Eof && pos + n < |data| then More else end;
      if e == More && n == 0 {
        if idle > 0 { idle := idle - 1; }
        else if pos < |data| { n := 1; }
        else { e := Eof; }
      }
      forall j | 0 <= j < n {
        buf[j] := data[pos + j];
      }
      assert buf[..n] == data[pos..pos + n];
      pos := pos + n;
    }
  }

  datatype Status = Completed | FileNotFound | InternalError | SendFailed

  /** How the backend and the transport behave at each turn of the loop. */
  datatype Turn = Turn(want: nat, end: ReadEnd, sendOk: bool)

  function TurnAt(plan: seq<Turn>, i: nat): Turn {
    if i < |plan| then plan[i] else Turn(DOWNLOAD_CHUNK_SIZE, More, true)
  }

  function LookupStatus(e: Error): Status {
    if e == NotFound then FileNotFound else InternalError
  }

  /**
   * The handler, given what service.Download returned. A completed call has sent
   * the info and then the whole object; any other has sent a proper part of such
   * a stream, or nothing.
   */
  method Download(found: Result<(File, Bytes), Error>, stream: ResponseStream, infoOk: bool, idle: nat, plan: seq<Turn>)
    returns (status: Status)
    requires stream.sent == []
    modifies stream
    ensures found.Err? ==> stream.sent == []
    ensures status == FileNotFound <==> found == Err(NotFound)
    ensures found.Err? && found.error != NotFound ==> status == InternalError
    ensures found.Ok? && status == InternalError ==> exists i :: 0 <= i < |plan| && plan[i].end == Broken
    ensures status == SendFailed ==> found.Ok? && (!infoOk || exists i :: 0 <= i < |plan| && !plan[i].sendOk)
    ensures found.Ok? ==>
              if !infoOk then stream.sent == [] && status == SendFailed
              else Framed(stream.sent, found.value.0) && Chunks(stream.sent) <= found.value.1
    ensures status == Completed ==> found.Ok? && infoOk && Chunks(stream.sent) == found.value.1
    ensures found.Ok? && infoOk && (forall i :: 0 <= i < |plan| ==> plan[i].sendOk && plan[i].end != Broken) ==>
              status == Completed
  {
    hide Chunks;
    if found.Err? { return LookupStatus(found.error); }
    var (f, bytes) := found.value;
    var body := new ObjectBody(bytes, idle);
    stream.Send(InfoIs(f), infoOk);
    if !infoOk { return SendFailed; }
    InfoCarriesNoBytes(f);
    var buf := new byte[DOWNLOAD_CHUNK_SIZE];
    var i := 0;
    while true
      invariant body.Valid() && body.data == bytes
      invariant Framed(stream.sent, f)
      invariant Chunks(stream.sent) == bytes[..body.pos]
      decreases |bytes| - body.pos, body.idle
    {
      var turn := TurnAt(plan, i);
      var before := body.pos;
      var n, readErr := body.Read(buf, turn.want, turn.end);
      i := i + 1;
      if n > 0 {
        assert bytes[..before] + bytes[before..body.pos] == bytes[..body.pos];
        ChunksAppend(stream.sent, ChunkIs(buf[..n]));
        stream.Send(ChunkIs(buf[..n]), turn.sendOk);
        if !turn.sendOk {
          assert bytes[..before] <= bytes;
          return SendFailed;
        }
      }
      if readErr == Eof {
        assert bytes[..body.pos] == bytes;
        return Completed;
      }
      if readErr == Broken { return InternalError; }
    }
  }

  // ---- TTL convention ----

  const TWO_64 := 0x1_0000_0000_0000_0000

  /** Go's int64 multiplication and addition wrap around. */
  function Wrap64(x: int): (r: int)
    ensures InInt64(r)
  {
    var m := x % TWO_64;
    if m > MAX_INT64 then m - TWO_64 else m
  }

  function TTLFromSeconds(secs: int): int {
    if secs < 0 then -1 else if secs > 0 then Wrap64(secs * SECOND) else 0
  }

  /**
   * The protocol's convention (0 default, negative never, positive that many
   * seconds) is kept exactly up to 9223372036 seconds; above that the product
   * wraps, and never to the right value.
   */
  lemma TTLIsExactIff(secs: int)
    requires InInt64(secs)
    ensures secs < 0 ==> TTLFromSeconds(secs) == -1
    ensures secs == 0 ==> TTLFromSeconds(secs) == 0
    ensures secs > 0 ==> (TTLFromSeconds(secs) == secs * SECOND <==> secs <= 9_223_372_036)
  {
  }

  /** Just above the bound a request for 292 years asks for a file that never expires. */
  lemma TTLOverflowNeverExpires(cfg: Config, now: Time)
    ensures TTLFromSeconds(9_223_372_037) < 0
    ensures ExpiryFor(cfg, TTLFromSeconds(9_223_372_037), now) == None
  {
  }

  // ---- up and down again ----

  /**
   * For an accepted stream service.Upload stores the concatenated chunks and
   * records their number as the size; its own limit check never fires.
   */
  lemma StreamedUploadIsRecorded(cfg: Config, st: Stores, id: Id, c: U.Stream, acts: seq<U.Action>, s: U.Session,
                                 input: UploadInput, q: UploadFaults)
    requires c.max == cfg.maxUpload
    requires U.Leads(c, U.START, acts, s) && s.handler.Answered? && s.handler.code.Accepted?
    requires input.size == -1 && input.body == s.handler.code.blob
    requires q.putOk && q.insertOk && id !in st.rows
    ensures var (after, r) := S.Upload(cfg, st, id, input, q);
      && r.Ok? && r.value.size == |U.Payload(c.msgs)|
      && r.value.storageKey in after.blobs && after.blobs[r.value.storageKey] == U.Payload(c.msgs)
      && id in after.rows && after.rows[id] == Stored(r.value) && r.value.id == id
      && (id in after.cache && id !in st.cache ==> after.cache[id].file == r.value)
  {
    hide U.Payload, U.Leads, KeyOf, IdOf, ExpiryFor, DefaultString, LapseAt, Stored;
    U.AcceptedIsWhole(c, acts, s);
    assert c.msgs[..|c.msgs|] == c.msgs;
    assert !U.Over(c, |U.Payload(c.msgs[..|c.msgs|])|);
  }

  /**
   * The byte round trip. A stream accepted in any chunking and schedule was handed
   * to an upload; some Download of that file, at any time and whatever went on in
   * between, has found its object; and the download loop sent all of it. Then the
   * bytes sent are those of the stream, byte for byte, and the info announces them.
   */
  lemma ByteRoundTrip(cfg: Config, c: U.Stream, acts: seq<U.Action>, s: U.Session, w: M.World, t: M.Tid,
                      sent: seq<Response>)
    requires U.Leads(c, U.START, acts, s) && s.handler.Answered? && s.handler.code.Accepted?
    requires M.Reachable(cfg, w) && t in w.threads && w.threads[t].LkDownloaded?
    requires var id := w.threads[t].id;
             id in w.hist.sent && w.hist.sent[id].size == -1 && w.hist.sent[id].body == s.handler.code.blob
    requires Framed(sent, w.threads[t].f) && Chunks(sent) == w.threads[t].bytes
    ensures Chunks(sent) == U.Payload(c.msgs)
    ensures sent[0].file.id == w.threads[t].id && sent[0].file.size == |U.Payload(c.msgs)|
  {
    hide KeyOf, IdOf, M.Reachable, U.Leads;
    U.AcceptedIsWhole(c, acts, s);
    G.RecordIntegrity(cfg, w);
    assert G.Truthful(w, w.threads[t]);
    assert G.Faithful(cfg, w, w.threads[t].id);
  }
}
