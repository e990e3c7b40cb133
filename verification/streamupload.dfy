/**
 * Server.Upload of internal/rpc/server.go: a feeder goroutine writes the chunks
 * of a client stream into a synchronous pipe (io.Pipe), the handler is inside
 * service.Upload, whose store.Put reads from it. Both proceed one step at a time
 * in any order; the store and the transport may fail at any point.
 */
module StreamUpload {
  import opened Prelude

  /** A stream message after the first; one without payload is an empty chunk. */
  datatype Msg = Info | Chunk(bytes: Bytes)

  /** The rest of a client stream and how it ends; `max` <= 0 means unlimited. */
  datatype Stream = Stream(msgs: seq<Msg>, eof: bool, max: int)

  /** Why the writer's end of the pipe was closed with an error. */
  datatype Cause = UploadTooLarge | RepeatedInfo | RecvFailed

  datatype PipeEnd = Open | Eof | Aborted(cause: Cause)

  datatype Feeder =
    | Receiving
    | Writing(rest: Bytes, len: nat)   // inside pw.Write of a chunk of `len` bytes, `rest` of it not yet read
    | Closing(end: PipeEnd)            // flags stored, pipe not yet closed
    | Done

  /** The error service.Upload returned. */
  datatype UploadError = ReadFailed(cause: Cause) | StoreFailed | LimitExceeded | InsertFailed

  datatype Code = Accepted(blob: Bytes) | ResourceExhausted | InvalidArgument | Internal

  datatype Handler =
    | Putting
    | Committing
    | Failing(err: UploadError)
    | LoadingTooLarge(err: UploadError)
    | LoadingRepeated(err: UploadError)
    | Answered(code: Code, why: Option<UploadError>)

  datatype Session = Session(
    pos: nat,            // messages received
    written: nat,
    feeder: Feeder,
    end: PipeEnd,        // the writer's end
    readerClosed: bool,
    tooLarge: bool,      // the atomic flags
    repeated: bool,
    got: Bytes,          // what store.Put has read
    handler: Handler)

  const START := Session(0, 0, Receiving, Open, false, false, false, [], Putting)

  datatype Action =
    | Recv(fails: bool)
    | WriteFails
    | Close
    | Read(n: nat)        // store.Put reads into a buffer of n bytes
    | ReadEnd(ok: bool)   // store.Put sees the end of the pipe; `ok` if it then succeeds
    | StoreGivesUp
    | Commit(ok: bool)    // the rest of service.Upload; `ok` if Insert succeeds
    | CloseReader
    | Load

  predicate Enabled(s: Session, a: Action) {
    match a
    case Recv(_) => s.feeder.Receiving?
    case WriteFails => s.feeder.Writing? && s.readerClosed
    case Close => s.feeder.Closing?
    case Read(n) => s.handler.Putting? && s.feeder.Writing? && n > 0
    case ReadEnd(_) => s.handler.Putting? && s.end != Open
    case StoreGivesUp => s.handler.Putting?
    case Commit(_) => s.handler.Committing?
    case CloseReader => s.handler.Failing?
    case Load => s.handler.LoadingTooLarge? || s.handler.LoadingRepeated?
  }

  predicate Over(c: Stream, size: int) {
    c.max > 0 && size > c.max
  }

  function Receive(c: Stream, s: Session, fails: bool): Session {
    if fails then s.(feeder := Closing(Aborted(RecvFailed)))
    else if s.pos >= |c.msgs| then s.(feeder := Closing(if c.eof then Eof else Aborted(RecvFailed)))
    else
      var r := s.(pos := s.pos + 1);
      match c.msgs[s.pos]
      case Info => r.(repeated := true, feeder := Closing(Aborted(RepeatedInfo)))
      case Chunk(bytes) =>
        if Over(c, s.written + |bytes|) then r.(tooLarge := true, feeder := Closing(Aborted(UploadTooLarge)))
        else r.(feeder := Writing(bytes, |bytes|))
  }

  function Min(a: nat, b: nat): nat {
    if a <= b then a else b
  }

  /** One hand-over through the pipe; the write returns once all of its bytes were taken. */
  function HandOver(s: Session, n: nat): Session
    requires s.feeder.Writing?
  {
    var k := Min(n, |s.feeder.rest|);
    var r := s.(got := s.got + s.feeder.rest[..k]);
    if k == |s.feeder.rest| then r.(feeder := Receiving, written := s.written + s.feeder.len)
    else r.(feeder := Writing(s.feeder.rest[k..], s.feeder.len))
  }

  function Next(c: Stream, s: Session, a: Action): Session
    requires Enabled(s, a)
  {
    match a
    case Recv(fails) => Receive(c, s, fails)
    case WriteFails => s.(feeder := Done)
    case Close => s.(end := s.feeder.end, feeder := Done)
    case Read(n) => HandOver(s, n)
    case ReadEnd(ok) =>
      s.(handler := if s.end.Aborted? then Failing(ReadFailed(s.end.cause))
                    else if ok then Committing
                    else Failing(StoreFailed))
    case StoreGivesUp => s.(handler := Failing(StoreFailed))
    case Commit(ok) =>
      s.(handler := if Over(c, |s.got|) then Failing(LimitExceeded)
                    else if ok then Answered(Accepted(s.got), None)
                    else Failing(InsertFailed))
    case CloseReader => s.(readerClosed := true, handler := LoadingTooLarge(s.handler.err))
    case Load =>
      var e := s.handler.err;
      s.(handler :=
           if s.handler.LoadingTooLarge? then
             if s.tooLarge || e == LimitExceeded then Answered(ResourceExhausted, Some(e)) else LoadingRepeated(e)
           else Answered(if s.repeated then InvalidArgument else Internal, Some(e)))
  }

  ghost predicate Leads(c: Stream, s: Session, acts: seq<Action>, v: Session)
    decreases |acts|
  {
    if acts == [] then s == v
    else Enabled(s, acts[0]) && Leads(c, Next(c, s, acts[0]), acts[1..], v)
  }

  // ---- what has gone through ----

  /** All bytes of a series of messages. */
  function Payload(msgs: seq<Msg>): Bytes {
    if msgs == [] then []
    else
      var last := msgs[|msgs| - 1];
      Payload(msgs[..|msgs| - 1]) + if last.Chunk? then last.bytes else []
  }

  predicate OnlyChunks(msgs: seq<Msg>) {
    forall i :: 0 <= i < |msgs| ==> msgs[i].Chunk?
  }

  lemma PayloadGrows(c: Stream, n: nat)
    requires n < |c.msgs|
    ensures Payload(c.msgs[..n + 1]) == Payload(c.msgs[..n]) + if c.msgs[n].Chunk? then c.msgs[n].bytes else []
  {
    assert c.msgs[..n + 1][..n] == c.msgs[..n];
  }

  /** Messages received and not rejected. */
  function Admitted(s: Session): int {
    if s.tooLarge || s.repeated then s.pos - 1 else s.pos
  }

  function Pending(s: Session): Bytes {
    if s.feeder.Writing? then s.feeder.rest else []
  }

  /** The feeder left because the reader had gone. */
  predicate CutOff(s: Session) {
    s.feeder.Done? && s.end == Open
  }

  predicate FlagsMatch(c: Stream, s: Session, end: PipeEnd) {
    match end
    case Open => !s.tooLarge && !s.repeated
    case Eof => !s.tooLarge && !s.repeated && s.pos == |c.msgs| && c.eof
    case Aborted(UploadTooLarge) => s.tooLarge && !s.repeated
    case Aborted(RepeatedInfo) => s.repeated && !s.tooLarge
    case Aborted(RecvFailed) => !s.tooLarge && !s.repeated
  }

  /** `sent` is all that was admitted: read, being written, or dropped because the reader had gone. */
  predicate SentOk(c: Stream, s: Session, sent: Bytes) {
    && !Over(c, |sent|)
    && (if CutOff(s) then s.got <= sent else s.got + Pending(s) == sent)
    && (s.feeder.Writing? ==> s.written + s.feeder.len == |sent|)
    && (s.feeder.Receiving? ==> s.written == |sent|)
  }

  /** What the feeder side keeps. */
  ghost predicate FeedOk(c: Stream, s: Session) {
    && s.pos <= |c.msgs|
    && 0 <= Admitted(s)
    && OnlyChunks(c.msgs[..Admitted(s)])
    && SentOk(c, s, Payload(c.msgs[..Admitted(s)]))
    && (s.tooLarge ==> c.msgs[s.pos - 1].Chunk? && Over(c, |Payload(c.msgs[..s.pos])|))
    && (s.repeated ==> c.msgs[s.pos - 1].Info?)
    && (s.end != Open ==> s.feeder.Done?)
    && (if s.feeder.Closing? then s.feeder.end != Open && FlagsMatch(c, s, s.feeder.end) else FlagsMatch(c, s, s.end))
  }

  /** What service.Upload's error says about the pipe. */
  predicate ErrorOk(s: Session, e: UploadError) {
    match e
    case ReadFailed(cause) => s.end == Aborted(cause)
    case StoreFailed => true
    case LimitExceeded => false
    case InsertFailed => s.end == Eof
  }

  /** The status code the error and the flags call for. */
  predicate CodeOk(s: Session, code: Code, e: UploadError) {
    match code
    case Accepted(_) => false
    case ResourceExhausted => s.tooLarge && (e == ReadFailed(UploadTooLarge) || e == StoreFailed)
    case InvalidArgument => s.repeated && (e == ReadFailed(RepeatedInfo) || e == StoreFailed)
    case Internal => e == ReadFailed(RecvFailed) || e == StoreFailed || e == InsertFailed
  }

  ghost predicate HandlerOk(c: Stream, s: Session) {
    match s.handler
    case Putting => !s.readerClosed && !CutOff(s)
    case Committing => !s.readerClosed && s.end == Eof
    case Failing(e) => !s.readerClosed && ErrorOk(s, e) && !CutOff(s)
    case LoadingTooLarge(e) => s.readerClosed && ErrorOk(s, e)
    case LoadingRepeated(e) => s.readerClosed && ErrorOk(s, e) && e != ReadFailed(UploadTooLarge)
    case Answered(code, None) => s.end == Eof && code == Accepted(s.got)
    case Answered(code, Some(e)) => s.readerClosed && ErrorOk(s, e) && CodeOk(s, code, e)
  }

  ghost predicate Inv(c: Stream, s: Session) {
    FeedOk(c, s) && HandlerOk(c, s)
  }

  // ---- it is inductive ----

  lemma RecvFeeds(c: Stream, s: Session, fails: bool)
    requires FeedOk(c, s) && s.feeder.Receiving?
    ensures FeedOk(c, Receive(c, s, fails))
  {
    hide Payload;
    if !fails && s.pos < |c.msgs| {
      PayloadGrows(c, s.pos);
    }
  }

  lemma RecvKeeps(c: Stream, s: Session, fails: bool)
    requires Inv(c, s) && s.feeder.Receiving?
    ensures Inv(c, Next(c, s, Recv(fails)))
  {
    hide SentOk, OnlyChunks, Payload, Over;
    RecvFeeds(c, s, fails);
  }

  lemma ReadKeeps(c: Stream, s: Session, n: nat)
    requires Inv(c, s) && Enabled(s, Read(n))
    ensures Inv(c, Next(c, s, Read(n)))
  {
    var rest := s.feeder.rest;
    var k := Min(n, |rest|);
    assert s.got + rest == s.got + rest[..k] + rest[k..];
    if k == |rest| { assert rest[..k] == rest; }
  }

  /** The feeder gives up a write, or closes its end of the pipe. */
  lemma LeaveKeeps(c: Stream, s: Session, a: Action)
    requires Inv(c, s) && Enabled(s, a) && (a.WriteFails? || a.Close?)
    ensures Inv(c, Next(c, s, a))
  {
    hide OnlyChunks, Payload, Over;
  }

  /** A step of the handler that reads no bytes leaves the feeder's side alone. */
  lemma HandlerKeeps(c: Stream, s: Session, a: Action)
    requires Inv(c, s) && Enabled(s, a) && (a.ReadEnd? || a.StoreGivesUp? || a.CloseReader? || a.Load?)
    ensures Inv(c, Next(c, s, a))
  {
    hide OnlyChunks, Payload, Over;
    assert FeedOk(c, Next(c, s, a)) by { hide FlagsMatch; }
  }

  /** Once the stream has ended the size check of service.Upload cannot fail. */
  lemma CommitKeeps(c: Stream, s: Session, ok: bool)
    requires Inv(c, s) && Enabled(s, Commit(ok))
    ensures Inv(c, Next(c, s, Commit(ok)))
  {
    hide OnlyChunks, Payload;
    assert s.got == Payload(c.msgs[..Admitted(s)]);
  }

  lemma StepKeeps(c: Stream, s: Session, a: Action)
    requires Inv(c, s) && Enabled(s, a)
    ensures Inv(c, Next(c, s, a))
  {
    hide Inv, Next;
    match a
    case Recv(fails) => RecvKeeps(c, s, fails);
    case WriteFails => LeaveKeeps(c, s, a);
    case Close => LeaveKeeps(c, s, a);
    case Read(n) => ReadKeeps(c, s, n);
    case Commit(ok) => CommitKeeps(c, s, ok);
    case _ => HandlerKeeps(c, s, a);
  }

  lemma {:induction false} RunKeeps(c: Stream, s: Session, acts: seq<Action>, v: Session)
    requires Inv(c, s)
    requires Leads(c, s, acts, v)
    ensures Inv(c, v)
    decreases |acts|
  {
    if acts != [] {
      StepKeeps(c, s, acts[0]);
      RunKeeps(c, Next(c, s, acts[0]), acts[1..], v);
    }
  }

  lemma StartOk(c: Stream)
    ensures Inv(c, START)
  {
    assert c.msgs[..0] == [];
  }

  // ---- correctness of bytes and outcomes ----

  /** Bytes read plus bytes pending are a prefix of the chunks received, and never exceed a positive limit. */
  lemma StreamedBytes(c: Stream, acts: seq<Action>, s: Session)
    requires Leads(c, START, acts, s)
    ensures s.pos <= |c.msgs|
    ensures s.got <= Payload(c.msgs[..s.pos])
    ensures !CutOff(s) ==> s.got + Pending(s) <= Payload(c.msgs[..s.pos])
    ensures c.max > 0 ==> |s.got + Pending(s)| <= c.max
  {
    StartOk(c);
    RunKeeps(c, START, acts, s);
    if s.tooLarge || s.repeated {
      PayloadGrows(c, s.pos - 1);
    }
  }

  /** The stream, up to some message, holds more than the limit. */
  ghost predicate ExceedsLimit(c: Stream) {
    exists n :: 0 <= n <= |c.msgs| && c.max > 0 && |Payload(c.msgs[..n])| > c.max
  }

  lemma {:induction false} PayloadMonotone(c: Stream, n: nat, m: nat)
    requires n <= m <= |c.msgs|
    ensures |Payload(c.msgs[..n])| <= |Payload(c.msgs[..m])|
    decreases m - n
  {
    if n < m {
      PayloadGrows(c, m - 1);
      PayloadMonotone(c, n, m - 1);
    }
  }

  /**
   * Success means: the rest of the stream was chunks only and ended properly, no
   * part of it exceeded the limit, and the blob is all of its bytes.
   */
  lemma AcceptedIsWhole(c: Stream, acts: seq<Action>, s: Session)
    requires Leads(c, START, acts, s)
    requires s.handler.Answered? && s.handler.code.Accepted?
    ensures OnlyChunks(c.msgs) && c.eof && !ExceedsLimit(c)
    ensures s.handler.code.blob == Payload(c.msgs)
    ensures s.feeder.Done?
  {
    StartOk(c);
    RunKeeps(c, START, acts, s);
    assert c.msgs[..|c.msgs|] == c.msgs;
    forall n | 0 <= n <= |c.msgs| ensures !Over(c, |Payload(c.msgs[..n])|) {
      PayloadMonotone(c, n, |c.msgs|);
    }
  }

  /** Every other code is justified, and an abort of the feeder seen by the reader gets its own code. */
  lemma OutcomeIsJustified(c: Stream, acts: seq<Action>, s: Session)
    requires Leads(c, START, acts, s)
    requires s.handler.Answered?
    ensures s.handler.code == ResourceExhausted ==> ExceedsLimit(c)
    ensures s.handler.code == InvalidArgument ==> Info in c.msgs
    ensures !(s.tooLarge && s.repeated)
    ensures s.handler.why == Some(ReadFailed(UploadTooLarge)) ==> s.handler.code == ResourceExhausted
    ensures s.handler.why == Some(ReadFailed(RepeatedInfo)) ==> s.handler.code == InvalidArgument
    ensures s.handler.why == Some(ReadFailed(RecvFailed)) ==> s.handler.code == Internal
    ensures s.handler.why == Some(InsertFailed) ==> s.handler.code == Internal
    ensures s.handler.why != Some(LimitExceeded)
    ensures s.handler.why == None <==> s.handler.code.Accepted?
  {
    StartOk(c);
    RunKeeps(c, START, acts, s);
  }

  // ---- without faults the outcome is a function of the stream ----

  predicate Faultless(a: Action) {
    a != Recv(true) && a != ReadEnd(false) && a != StoreGivesUp && a != Commit(false)
  }

  function ErrorOf(h: Handler): Option<UploadError> {
    match h
    case Failing(e) => Some(e)
    case LoadingTooLarge(e) => Some(e)
    case LoadingRepeated(e) => Some(e)
    case Answered(_, why) => why
    case _ => None
  }

  predicate StreamBroke(s: Session) {
    s.feeder == Closing(Aborted(RecvFailed)) || s.end == Aborted(RecvFailed)
  }

  predicate Unharmed(c: Stream, s: Session) {
    && (StreamBroke(s) ==> !c.eof && s.pos == |c.msgs|)
    && (ErrorOf(s.handler).Some? ==> ErrorOf(s.handler).value.ReadFailed?)
  }

  lemma FaultlessStep(c: Stream, s: Session, a: Action)
    requires Inv(c, s) && Unharmed(c, s)
    requires Enabled(s, a) && Faultless(a)
    ensures Unharmed(c, Next(c, s, a))
  {
    hide Payload, OnlyChunks;
  }

  lemma {:induction false} FaultlessRun(c: Stream, s: Session, acts: seq<Action>, v: Session)
    requires Inv(c, s) && Unharmed(c, s)
    requires Leads(c, s, acts, v)
    requires forall i :: 0 <= i < |acts| ==> Faultless(acts[i])
    ensures Unharmed(c, v)
    decreases |acts|
  {
    hide Inv, Unharmed, Next, Enabled;
    if acts != [] {
      assert Faultless(acts[0]);
      StepKeeps(c, s, acts[0]);
      FaultlessStep(c, s, acts[0]);
      FaultlessRun(c, Next(c, s, acts[0]), acts[1..], v);
    }
  }

  predicate WellFormed(c: Stream) {
    c.eof && OnlyChunks(c.msgs)
  }

  /** The verdict on a stream of which the first `n` messages are in order: the first offending message decides. */
  function Verdict(c: Stream, n: nat): Code
    requires n <= |c.msgs|
    decreases |c.msgs| - n
  {
    if n == |c.msgs| then (if c.eof then Accepted(Payload(c.msgs)) else Internal)
    else if c.msgs[n].Info? then InvalidArgument
    else if Over(c, |Payload(c.msgs[..n + 1])|) then ResourceExhausted
    else Verdict(c, n + 1)
  }

  lemma {:induction false} VerdictSkips(c: Stream, n: nat, m: nat)
    requires n <= m <= |c.msgs|
    requires OnlyChunks(c.msgs[..m]) && !Over(c, |Payload(c.msgs[..m])|)
    ensures Verdict(c, n) == Verdict(c, m)
    decreases m - n
  {
    hide Payload;
    if n < m {
      assert c.msgs[n] == c.msgs[..m][n];
      PayloadMonotone(c, n + 1, m);
      VerdictSkips(c, n + 1, m);
    }
  }

  /**
   * If nothing fails the outcome is a function of the stream, whatever the
   * schedule. In particular every schedule accepts exactly the well-formed streams
   * within the limit, and answers Internal only for a broken stream.
   */
  lemma FaultlessOutcome(c: Stream, acts: seq<Action>, s: Session)
    requires Leads(c, START, acts, s)
    requires forall i :: 0 <= i < |acts| ==> Faultless(acts[i])
    requires s.handler.Answered?
    ensures s.handler.code == Verdict(c, 0)
    ensures s.handler.code.Accepted? <==> WellFormed(c) && !ExceedsLimit(c)
    ensures s.handler.code == Internal ==> !c.eof && OnlyChunks(c.msgs) && !ExceedsLimit(c)
  {
    hide Payload, Leads;
    StartOk(c);
    RunKeeps(c, START, acts, s);
    FaultlessRun(c, START, acts, s);
    assert c.msgs[..|c.msgs|] == c.msgs;
    VerdictSkips(c, 0, Admitted(s));
    if s.handler.code.Accepted? {
      AcceptedIsWhole(c, acts, s);
    } else if s.handler.code == Internal {
      forall n | 0 <= n <= |c.msgs| ensures !Over(c, |Payload(c.msgs[..n])|) {
        PayloadMonotone(c, n, |c.msgs|);
      }
    } else if s.tooLarge {
      assert Over(c, |Payload(c.msgs[..s.pos])|);
    }
  }

  // ---- the whole call ----

  /** What the first Recv of the handler yields. */
  datatype First = NoMessage | ChunkFirst | InfoFirst

  /** The call may end with `code`; if `faultless`, without any failure of store or transport. */
  ghost predicate Answers(first: First, c: Stream, code: Code, faultless: bool) {
    if first != InfoFirst then code == InvalidArgument
    else
      exists acts, s ::
        && Leads(c, START, acts, s) && s.handler.Answered? && s.handler.code == code
        && (faultless ==> forall i :: 0 <= i < |acts| ==> Faultless(acts[i]))
  }

  lemma UploadOutcome(first: First, c: Stream, code: Code)
    requires Answers(first, c, code, false)
    ensures first != InfoFirst ==> code == InvalidArgument
    ensures code == Internal ==> first == InfoFirst
    ensures code.Accepted? ==> first == InfoFirst && WellFormed(c) && !ExceedsLimit(c) && code.blob == Payload(c.msgs)
    ensures code == ResourceExhausted ==> first == InfoFirst && ExceedsLimit(c)
    ensures code == InvalidArgument ==> first != InfoFirst || Info in c.msgs
  {
    if first == InfoFirst {
      var acts, s :| Leads(c, START, acts, s) && s.handler.Answered? && s.handler.code == code;
      OutcomeIsJustified(c, acts, s);
      if code.Accepted? { AcceptedIsWhole(c, acts, s); }
    }
  }

  /** The first `n` messages are chunks within the limit. */
  ghost predicate InOrder(c: Stream, n: nat)
    requires n <= |c.msgs|
  {
    OnlyChunks(c.msgs[..n]) && forall m :: 0 <= m <= n && c.max > 0 ==> |Payload(c.msgs[..m])| <= c.max
  }

  /** The first offending message is an info. */
  ghost predicate InfoOffends(c: Stream) {
    exists n :: 0 <= n < |c.msgs| && InOrder(c, n) && c.msgs[n].Info?
  }

  /** The first offending message is a chunk over the limit. */
  ghost predicate ChunkOffends(c: Stream) {
    exists n :: 0 <= n < |c.msgs| && InOrder(c, n) &&
      c.msgs[n].Chunk? && c.max > 0 && |Payload(c.msgs[..n + 1])| > c.max
  }

  lemma {:induction false} VerdictMeans(c: Stream, n: nat)
    requires n <= |c.msgs| && InOrder(c, n)
    ensures Verdict(c, n) == InvalidArgument <==> InfoOffends(c)
    ensures Verdict(c, n) == ResourceExhausted <==> ChunkOffends(c)
    ensures Verdict(c, n).Accepted? <==> c.eof && InOrder(c, |c.msgs|)
    ensures Verdict(c, n) == Internal <==> !c.eof && InOrder(c, |c.msgs|)
    decreases |c.msgs| - n
  {
    hide Payload;
    if n == |c.msgs| {
      forall m | 0 <= m < |c.msgs| ensures c.msgs[m].Chunk? && (c.max > 0 ==> |Payload(c.msgs[..m + 1])| <= c.max) {
        assert c.msgs[m] == c.msgs[..n][m];
      }
    } else {
      OffendsLater(c, n);
      if c.msgs[n].Chunk? && !Over(c, |Payload(c.msgs[..n + 1])|) {
        assert c.msgs[..n + 1] == c.msgs[..n] + [c.msgs[n]];
        VerdictMeans(c, n + 1);
      }
    }
  }

  /** Nothing past an offending message is in order, and nothing before it offends. */
  lemma OffendsLater(c: Stream, n: nat)
    requires n < |c.msgs| && InOrder(c, n)
    ensures forall m :: n < m <= |c.msgs| && InOrder(c, m) ==>
              c.msgs[n].Chunk? && (c.max > 0 ==> |Payload(c.msgs[..n + 1])| <= c.max)
    ensures forall m :: 0 <= m < n ==> c.msgs[m].Chunk? && (c.max > 0 ==> |Payload(c.msgs[..m + 1])| <= c.max)
  {
    hide Payload;
    forall m | n < m <= |c.msgs| && InOrder(c, m)
      ensures c.msgs[n].Chunk? && (c.max > 0 ==> |Payload(c.msgs[..n + 1])| <= c.max)
    {
      assert c.msgs[n] == c.msgs[..m][n];
    }
    forall m | 0 <= m < n ensures c.msgs[m].Chunk? && (c.max > 0 ==> |Payload(c.msgs[..m + 1])| <= c.max) {
      assert c.msgs[m] == c.msgs[..n][m];
    }
  }

  /**
   * The whole call, if nothing fails: a missing first info and a later info that
   * offends first are invalid, a chunk that offends first exhausts the limit, and
   * of the streams in order the finished ones are accepted and the broken ones are
   * internal errors.
   */
  lemma FaultlessUpload(first: First, c: Stream, code: Code)
    requires Answers(first, c, code, true)
    ensures code == InvalidArgument <==> first != InfoFirst || InfoOffends(c)
    ensures code == ResourceExhausted <==> first == InfoFirst && ChunkOffends(c)
    ensures code.Accepted? <==> first == InfoFirst && c.eof && InOrder(c, |c.msgs|)
    ensures code == Internal <==> first == InfoFirst && !c.eof && InOrder(c, |c.msgs|)
  {
    if first == InfoFirst {
      var acts, s :|
        && Leads(c, START, acts, s) && s.handler.Answered? && s.handler.code == code
        && forall i :: 0 <= i < |acts| ==> Faultless(acts[i]);
      FaultlessOutcome(c, acts, s);
      assert c.msgs[..0] == [];
      VerdictMeans(c, 0);
    }
  }

  // ---- a flag decides ----

  /** The handler has yet to look at the flag. */
  predicate YetToLoad(h: Handler, tooLarge: bool) {
    h.Putting? || h.Committing? || h.Failing? || h.LoadingTooLarge? || (!tooLarge && h.LoadingRepeated?)
  }

  /** The answer the flags of `s` call for, whatever error service.Upload is going to return. */
  predicate FlagOk(s: Session, v: Session) {
    && (s.tooLarge && YetToLoad(s.handler, true) ==>
          v.tooLarge && if v.handler.Answered? then v.handler.code == ResourceExhausted else YetToLoad(v.handler, true))
    && (s.repeated && YetToLoad(s.handler, false) ==>
          v.repeated && if v.handler.Answered? then v.handler.code == InvalidArgument else YetToLoad(v.handler, false))
  }

  lemma FlagStep(c: Stream, s: Session, a: Action)
    requires Inv(c, s) && Enabled(s, a)
    ensures FlagOk(s, Next(c, s, a))
  {
    hide Payload, OnlyChunks, Over;
  }

  lemma AnswerStands(c: Stream, s: Session, a: Action)
    requires Enabled(s, a) && s.handler.Answered?
    ensures Next(c, s, a).handler == s.handler
  {
  }

  lemma {:induction false} AnswerLasts(c: Stream, s: Session, acts: seq<Action>, v: Session)
    requires Leads(c, s, acts, v) && s.handler.Answered?
    ensures v.handler == s.handler
    decreases |acts|
  {
    hide Enabled, Next;
    if acts != [] {
      AnswerStands(c, s, acts[0]);
      AnswerLasts(c, Next(c, s, acts[0]), acts[1..], v);
    }
  }

  lemma {:induction false} FlagRun(c: Stream, s: Session, acts: seq<Action>, v: Session)
    requires Inv(c, s) && Leads(c, s, acts, v) && v.handler.Answered?
    ensures s.tooLarge && YetToLoad(s.handler, true) ==> v.handler.code == ResourceExhausted
    ensures s.repeated && YetToLoad(s.handler, false) ==> v.handler.code == InvalidArgument
    decreases |acts|
  {
    hide Inv, Enabled, Next;
    if acts != [] {
      var u := Next(c, s, acts[0]);
      StepKeeps(c, s, acts[0]);
      FlagStep(c, s, acts[0]);
      if u.handler.Answered? { AnswerLasts(c, u, acts[1..], v); }
      FlagRun(c, u, acts[1..], v);
    }
  }

  /**
   * A flag stored before the handler looks at it decides the answer, even if
   * service.Upload has failed or is going to fail for a reason of its own.
   */
  lemma FlagDecides(c: Stream, first: seq<Action>, s: Session, acts: seq<Action>, v: Session)
    requires Leads(c, START, first, s) && Leads(c, s, acts, v) && v.handler.Answered?
    ensures s.tooLarge && YetToLoad(s.handler, true) ==> v.handler.code == ResourceExhausted
    ensures s.repeated && YetToLoad(s.handler, false) ==> v.handler.code == InvalidArgument
  {
    hide Leads, Inv;
    StartOk(c);
    RunKeeps(c, START, first, s);
    FlagRun(c, s, acts, v);
  }

  // ---- progress ----

  predicate Finished(s: Session) {
    s.feeder.Done? && s.handler.Answered?
  }

  /** A step that needs no failure: whenever the two are not finished, one of them can go on. */
  function NextMove(s: Session): Action {
    match s.feeder
    case Receiving => Recv(false)
    case Closing(_) => Close
    case Writing(_, _) =>
      if s.readerClosed then WriteFails else if s.handler.Putting? then Read(1) else CloseReader
    case Done =>
      match s.handler
      case Putting => ReadEnd(true)
      case Committing => Commit(true)
      case Failing(_) => CloseReader
      case _ => Load
  }

  lemma NoDeadlock(c: Stream, s: Session)
    requires Inv(c, s) && !Finished(s)
    ensures Enabled(s, NextMove(s))
  {
  }

  /** Steps the messages still to come can cause. */
  function Ahead(msgs: seq<Msg>): nat {
    if msgs == [] then 0 else (if msgs[0].Chunk? then |msgs[0].bytes| + 3 else 3) + Ahead(msgs[1..])
  }

  function FeederSteps(f: Feeder): nat {
    match f
    case Receiving => 2
    case Writing(rest, _) => |rest| + 3
    case Closing(_) => 1
    case Done => 0
  }

  function HandlerSteps(h: Handler): nat {
    match h
    case Putting => 5
    case Committing => 4
    case Failing(_) => 3
    case LoadingTooLarge(_) => 2
    case LoadingRepeated(_) => 1
    case Answered(_, _) => 0
  }

  function Measure(c: Stream, s: Session): nat {
    (if s.pos <= |c.msgs| then Ahead(c.msgs[s.pos..]) else 0) + FeederSteps(s.feeder) + HandlerSteps(s.handler)
  }

  /** Every step of either side, failing or not, brings the end nearer. */
  lemma StepDescends(c: Stream, s: Session, a: Action)
    requires s.pos <= |c.msgs| && Enabled(s, a)
    ensures Measure(c, Next(c, s, a)) < Measure(c, s)
  {
    hide Payload, Over;
    match a
    case Recv(fails) =>
      if s.pos < |c.msgs| {
        assert c.msgs[s.pos..][0] == c.msgs[s.pos] && c.msgs[s.pos..][1..] == c.msgs[s.pos + 1..];
      }
    case Read(n) =>
    case _ =>
  }

  lemma {:induction false} RunIsBounded(c: Stream, s: Session, acts: seq<Action>, v: Session)
    requires Inv(c, s)
    requires Leads(c, s, acts, v)
    ensures |acts| + Measure(c, v) <= Measure(c, s)
    decreases |acts|
  {
    if acts != [] {
      StepKeeps(c, s, acts[0]);
      StepDescends(c, s, acts[0]);
      RunIsBounded(c, Next(c, s, acts[0]), acts[1..], v);
    }
  }

  /**
   * Progress: whatever the schedule and the failures, a session takes at most a
   * fixed number of steps, and as long as handler and feeder have not both
   * finished a further step is possible without anything failing.
   */
  lemma EverySessionEnds(c: Stream, acts: seq<Action>, s: Session)
    requires Leads(c, START, acts, s)
    ensures |acts| <= Ahead(c.msgs) + 7
    ensures !Finished(s) ==> Enabled(s, NextMove(s))
    ensures |acts| == Ahead(c.msgs) + 7 ==> Finished(s)
  {
    StartOk(c);
    RunKeeps(c, START, acts, s);
    RunIsBounded(c, START, acts, s);
    assert c.msgs[0..] == c.msgs;
    if !Finished(s) {
      NoDeadlock(c, s);
      StepDescends(c, s, NextMove(s));
    }
  }
}
