/** A stream session under its goroutines, at the grain of single locked
    sections and single `select` arms: callers inside Write, Close and Read, the
    drain loop that turns buffered writes into frames, and the read loop.
 */
module Flow {
  import opened Frames
  import opened Streams

  /** Where the one effective Close call is: after its locked section, after
      the send on finCh, after the callback into the multiplexer. */
  datatype CloseStage = NotClosed | Changed | Signalled | Finished

  /** The loop in drainStream, awaitFIN and flushAndFIN, and its end. */
  datatype DrainStage = Selecting | AwaitingFin | Flushing | Stopped

  /** `writing` holds the chunks of Write calls between their check and their
      push; `acked` says that a caller holds the stream. The fields after `drain`
      are history: chunks pushed, how many of them when Close changed the state
      and when it signalled, chunks turned into frames, whether the closing frame
      was queued, chunks applied by the read loop, and what Read returned. */
  datatype Flow = Flow(
    s: Session,
    asked: Bytes,
    acked: bool,
    writing: multiset<Bytes>,
    close: CloseStage,
    drain: DrainStage,
    pushed: seq<Bytes>,
    closeMark: nat,
    finMark: nat,
    sent: seq<Bytes>,
    finSent: bool,
    got: seq<Bytes>,
    gotFin: bool,
    readOut: Bytes,
    eof: bool)
  {
    predicate HasSignalled() {
      close.Signalled? || close.Finished?
    }
  }

  /** A session just opened locally (`acked` false, `asked` the payload of its
      open frame) or accepted from the peer (`acked` true, payload stored). */
  function OpenFlow(s: Session, asked: Bytes, acked: bool): Flow {
    Flow(s, asked, acked, multiset{}, NotClosed, Selecting, [], 0, 0, [], false, [], false, [], false)
  }

  datatype FlowEvent =
    | WriteCheck(chunk: Bytes)
    | WritePush(chunk: Bytes)
    | WriteAbort(chunk: Bytes)
    | CloseChange
    | CloseSignal
    | CloseNotify
    | ReadSome(n: nat)
    | DrainData
    | DrainFin
    | DrainClosed
    | AwaitFin
    | FlushData
    | FlushFin
    | ApplyData(chunk: Bytes)
    | ApplyFin
    | ApplyReset
  {
    /** Calls that start at the application, which needs the stream. */
    predicate UserCall() {
      WriteCheck? || CloseChange? || ReadSome?
    }

    predicate FromReadLoop() {
      ApplyData? || ApplyFin? || ApplyReset?
    }

    predicate FromDrainLoop() {
      DrainData? || DrainFin? || DrainClosed? || AwaitFin? || FlushData? || FlushFin?
    }
  }

  predicate Enabled(f: Flow, e: FlowEvent) {
    match e
    case WriteCheck(_) => !f.s.WriteClosed()
    case WritePush(chunk) => chunk in f.writing && |f.s.writeOut| < WRITE_OUT_CAPACITY
    case WriteAbort(chunk) => chunk in f.writing && f.s.closedCh
    case CloseChange => true
    case CloseSignal => f.close.Changed? && f.s.finCh == 0
    case CloseNotify => f.close.Signalled?
    case ReadSome(_) => f.s.readBuf != [] || f.s.ReadClosed()
    case DrainData => f.drain.Selecting? && f.s.writeOut != []
    case DrainFin => f.drain.Selecting? && f.s.finCh > 0
    case DrainClosed => f.drain.Selecting? && f.s.closedCh
    case AwaitFin => f.drain.AwaitingFin? && f.s.finCh > 0
    case FlushData => f.drain.Flushing? && f.s.writeOut != []
    case FlushFin => f.drain.Flushing? && f.s.writeOut == []
    case ApplyData(_) => true
    case ApplyFin => true
    case ApplyReset => true
  }

  /** The drain loop takes one chunk off writeOut and queues it. */
  function TakeChunk(f: Flow): Flow
    requires f.s.writeOut != []
  {
    f.(s := f.s.(writeOut := f.s.writeOut[1..]), sent := f.sent + [f.s.writeOut[0]])
  }

  function TakeToken(f: Flow): Flow
    requires f.s.finCh > 0
  {
    f.(s := f.s.(finCh := f.s.finCh - 1), drain := Flushing)
  }

  function Take(n: nat, buf: Bytes): nat {
    if n < |buf| then n else |buf|
  }

  function Apply(f: Flow, e: FlowEvent): Flow
    requires Enabled(f, e)
  {
    match e
    case WriteCheck(chunk) => f.(writing := f.writing + multiset{chunk})
    case WritePush(chunk) =>
      f.(writing := f.writing - multiset{chunk},
         s := f.s.(writeOut := f.s.writeOut + [chunk]),
         pushed := f.pushed + [chunk])
    case WriteAbort(chunk) => f.(writing := f.writing - multiset{chunk})
    case CloseChange =>
      if f.s.Closable() then f.(s := f.s.LocalClose(), close := Changed, closeMark := |f.pushed|) else f
    case CloseSignal => f.(s := f.s.(finCh := f.s.finCh + 1), close := Signalled, finMark := |f.pushed|)
    case CloseNotify => f.(close := Finished)
    case ReadSome(n) =>
      if f.s.readBuf == [] then f.(eof := true) else
      var k := Take(n, f.s.readBuf);
      f.(s := f.s.(readBuf := f.s.readBuf[k..]), readOut := f.readOut + f.s.readBuf[..k])
    case DrainData => TakeChunk(f)
    case DrainFin => TakeToken(f)
    case DrainClosed => if f.s.state.Reset? then f.(drain := Stopped) else f.(drain := AwaitingFin)
    case AwaitFin => TakeToken(f)
    case FlushData => TakeChunk(f)
    case FlushFin => f.(drain := Stopped, finSent := true)
    case ApplyData(chunk) => f.(s := if chunk == [] then f.s else f.s.Deliver(chunk), got := f.got + [chunk])
    case ApplyFin => f.(s := f.s.RemoteClose(), gotFin := true)
    case ApplyReset => f.(s := f.s.ResetNow())
  }

  /** The frames a step puts on the data lane of the write queue. */
  function Emits(f: Flow, e: FlowEvent): seq<Frame>
    requires Enabled(f, e)
  {
    match e
    case DrainData => [DataFrame(f.s.id, f.s.writeOut[0])]
    case FlushData => [DataFrame(f.s.id, f.s.writeOut[0])]
    case FlushFin => [CloseFrame(f.s.id)]
    case _ => []
  }

  // ---------------------------------------------------------------- invariant

  /** The close protocol: which half of it each state has seen, and where the
      one finCh token is. */
  predicate CloseInv(f: Flow) {
    && !f.s.state.Idle?
    && (f.s.closedCh <==> f.s.Terminal())
    && (f.s.state.Open? ==> f.close.NotClosed? && !f.gotFin)
    && (f.s.state.HalfClosedRemote? ==> f.close.NotClosed? && f.gotFin)
    && (f.s.state.HalfClosedLocal? ==> !f.close.NotClosed? && !f.gotFin)
    && (f.s.state.Closed? ==> !f.close.NotClosed? && f.gotFin)
    && f.s.finCh + (if f.drain.Flushing? || f.finSent then 1 else 0) == (if f.HasSignalled() then 1 else 0)
  }

  predicate DrainInv(f: Flow) {
    && f.pushed == f.sent + f.s.writeOut
    && |f.s.writeOut| <= WRITE_OUT_CAPACITY
    && (f.drain.Stopped? ==> f.finSent || f.s.state.Reset?)
    && (f.drain.AwaitingFin? ==> f.s.state.Closed?)
    && (f.finSent ==> f.drain.Stopped? && f.finMark <= |f.sent|)
    && (!f.close.NotClosed? ==> f.closeMark <= |f.pushed|)
    && (f.HasSignalled() ==> f.closeMark <= f.finMark <= |f.pushed|)
  }

  predicate ReadInv(f: Flow) {
    && (!f.s.state.Reset? ==> f.readOut + f.s.readBuf == Concat(f.got))
    && (f.eof ==> f.gotFin || f.s.state.Reset?)
  }

  predicate FlowInv(f: Flow) {
    CloseInv(f) && DrainInv(f) && ReadInv(f)
  }

  lemma ConcatSnoc(chunks: seq<Bytes>, chunk: Bytes)
    ensures Concat(chunks + [chunk]) == Concat(chunks) + chunk
  {
    ConcatAppend(chunks, [chunk]);
    assert Concat([chunk]) == chunk + Concat([]);
  }

  function DrainedAs(id: UInt32, sent: seq<Bytes>, finSent: bool): seq<Frame> {
    DataFrames(id, sent) + if finSent then [CloseFrame(id)] else []
  }

  /** What the drain loop of `f` has put on the data lane so far. */
  function Drained(f: Flow): seq<Frame> {
    DrainedAs(f.s.id, f.sent, f.finSent)
  }

  /** What one step adds to the lane, to the pushed chunks and to the marks. */
  predicate Logged(f: Flow, e: FlowEvent)
    requires Enabled(f, e)
  {
    var g := Apply(f, e);
    && g.s.id == f.s.id
    && Drained(g) == Drained(f) + Emits(f, e)
    && g.pushed == f.pushed + (if e.WritePush? then [e.chunk] else [])
    && (f.HasSignalled() ==> g.HasSignalled() && g.finMark == f.finMark)
  }

  /** The callers of Read keep the invariant. */
  lemma ReadStep(f: Flow, n: nat)
    requires FlowInv(f) && Enabled(f, ReadSome(n))
    ensures FlowInv(Apply(f, ReadSome(n))) && Logged(f, ReadSome(n))
  {
    hide Concat, DrainedAs;
    if f.s.readBuf != [] {
      var g := Apply(f, ReadSome(n));
      var k := Take(n, f.s.readBuf);
      assert f.s.readBuf == f.s.readBuf[..k] + f.s.readBuf[k..];
      assert g.readOut + g.s.readBuf == f.readOut + f.s.readBuf;
    }
  }

  /** The callers of Write and Close keep the invariant. */
  lemma CallerStep(f: Flow, e: FlowEvent)
    requires FlowInv(f) && Enabled(f, e) && !e.FromDrainLoop() && !e.FromReadLoop() && !e.ReadSome?
    ensures FlowInv(Apply(f, e)) && Logged(f, e)
  {
    hide Concat, DrainedAs;
    match e
    case WriteCheck(_) =>
    case WritePush(_) =>
    case WriteAbort(_) =>
    case CloseChange =>
    case CloseSignal =>
    case CloseNotify =>
  }

  /** One more chunk on the lane. */
  lemma DrainedMore(id: UInt32, sent: seq<Bytes>, chunk: Bytes)
    ensures DrainedAs(id, sent + [chunk], false) == DrainedAs(id, sent, false) + [DataFrame(id, chunk)]
    ensures DrainedAs(id, sent, true) == DrainedAs(id, sent, false) + [CloseFrame(id)]
  {
  }

  /** Taking a chunk while the closing frame is not out. */
  lemma TakeChunkKeeps(f: Flow)
    requires FlowInv(f) && f.s.writeOut != [] && !f.finSent
    ensures FlowInv(TakeChunk(f)) && Drained(TakeChunk(f)) == Drained(f) + [DataFrame(f.s.id, f.s.writeOut[0])]
  {
    hide Concat, DrainedAs;
    DrainedMore(f.s.id, f.sent, f.s.writeOut[0]);
    assert f.s.writeOut == [f.s.writeOut[0]] + f.s.writeOut[1..];
  }

  lemma ChunkStep(f: Flow, e: FlowEvent)
    requires FlowInv(f) && Enabled(f, e) && (e.DrainData? || e.FlushData?)
    ensures FlowInv(Apply(f, e)) && Logged(f, e)
  {
    assert !f.finSent && Apply(f, e) == TakeChunk(f) && Emits(f, e) == [DataFrame(f.s.id, f.s.writeOut[0])];
    hide FlowInv, Apply, Emits, Drained;
    TakeChunkKeeps(f);
  }

  lemma TokenStep(f: Flow, e: FlowEvent)
    requires FlowInv(f) && Enabled(f, e) && (e.DrainFin? || e.DrainClosed? || e.AwaitFin? || e.FlushFin?)
    ensures FlowInv(Apply(f, e)) && Logged(f, e)
  {
    hide Concat, DrainedAs;
    DrainedMore(f.s.id, f.sent, []);
  }

  lemma DrainLoopStep(f: Flow, e: FlowEvent)
    requires FlowInv(f) && Enabled(f, e) && e.FromDrainLoop()
    ensures FlowInv(Apply(f, e)) && Logged(f, e)
  {
    hide Apply, FlowInv, Enabled, Logged;
    if e.DrainData? || e.FlushData? {
      ChunkStep(f, e);
    } else {
      TokenStep(f, e);
    }
  }

  lemma DeliverStep(f: Flow, chunk: Bytes)
    requires FlowInv(f)
    ensures FlowInv(Apply(f, ApplyData(chunk))) && Logged(f, ApplyData(chunk))
  {
    hide Concat, DrainedAs;
    ConcatSnoc(f.got, chunk);
  }

  lemma ReadLoopStep(f: Flow, e: FlowEvent)
    requires FlowInv(f) && Enabled(f, e) && e.FromReadLoop()
    ensures FlowInv(Apply(f, e)) && Logged(f, e)
  {
    hide Concat, DrainedAs;
    match e
    case ApplyData(chunk) =>
      hide Apply, FlowInv, Logged;
      DeliverStep(f, chunk);
    case ApplyFin =>
    case ApplyReset =>
  }

  lemma FlowInvPreserved(f: Flow, e: FlowEvent)
    requires FlowInv(f) && Enabled(f, e)
    ensures FlowInv(Apply(f, e)) && Logged(f, e)
  {
    hide Apply, FlowInv, Enabled, Logged;
    if e.FromDrainLoop() {
      DrainLoopStep(f, e);
    } else if e.FromReadLoop() {
      ReadLoopStep(f, e);
    } else if e.ReadSome? {
      ReadStep(f, e.n);
    } else {
      CallerStep(f, e);
    }
  }

  /** Close's send on finCh, a channel of capacity one, never blocks. */
  lemma SignalNeverBlocks(f: Flow)
    requires FlowInv(f) && f.close.Changed?
    ensures Enabled(f, CloseSignal)
  {
  }

  // ------------------------------------------------------------- whole runs

  predicate CanRun(f: Flow, es: seq<FlowEvent>)
    decreases es
  {
    es == [] || (Enabled(f, es[0]) && CanRun(Apply(f, es[0]), es[1..]))
  }

  function Run(f: Flow, es: seq<FlowEvent>): Flow
    requires CanRun(f, es)
    decreases es
  {
    if es == [] then f else Run(Apply(f, es[0]), es[1..])
  }

  /** The frames a run puts on the data lane, in order. */
  function Log(f: Flow, es: seq<FlowEvent>): seq<Frame>
    requires CanRun(f, es)
    decreases es
  {
    if es == [] then [] else Emits(f, es[0]) + Log(Apply(f, es[0]), es[1..])
  }

  /** The chunks a run's Write calls push, in push order. */
  function Pushes(es: seq<FlowEvent>): seq<Bytes> {
    if es == [] then [] else
    (if es[0].WritePush? then [es[0].chunk] else []) + Pushes(es[1..])
  }

  lemma {:induction false} RunLog(f: Flow, es: seq<FlowEvent>)
    requires FlowInv(f) && CanRun(f, es)
    ensures FlowInv(Run(f, es))
    ensures Drained(Run(f, es)) == Drained(f) + Log(f, es)
    ensures Run(f, es).pushed == f.pushed + Pushes(es)
    ensures Run(f, es).s.id == f.s.id
    ensures f.HasSignalled() ==> Run(f, es).HasSignalled() && Run(f, es).finMark == f.finMark
    decreases |es|
  {
    hide Apply, Enabled, Emits, Drained, FlowInv;
    if es != [] {
      FlowInvPreserved(f, es[0]);
      var g := Apply(f, es[0]);
      RunLog(g, es[1..]);
      assert Drained(f) + Log(f, es) == (Drained(f) + Emits(f, es[0])) + Log(g, es[1..]);
      assert f.pushed + Pushes(es) == g.pushed + Pushes(es[1..]);
    }
  }

  lemma FreshFlow(f: Flow)
    requires f == OpenFlow(OpenSession(f.s.id, f.s.recvWindow, f.s.payload), f.asked, f.acked)
    ensures FlowInv(f) && Drained(f) == [] && f.pushed == []
  {
  }

  /** Order: under every interleaving the drain loop's frames are the pushed
      chunks in push order, a prefix of them, then at most one closing frame. */
  lemma DrainOrder(s: Session, asked: Bytes, acked: bool, es: seq<FlowEvent>) returns (k: nat)
    requires s == OpenSession(s.id, s.recvWindow, s.payload)
    requires CanRun(OpenFlow(s, asked, acked), es)
    ensures k <= |Pushes(es)|
    ensures var f := OpenFlow(s, asked, acked);
            Log(f, es) == DataFrames(s.id, Pushes(es)[..k]) + if Run(f, es).finSent then [CloseFrame(s.id)] else []
  {
    hide Apply, Enabled, Emits, CanRun, Run, Log, Pushes, FlowInv;
    var f := OpenFlow(s, asked, acked);
    FreshFlow(f);
    RunLog(f, es);
    InvParts(Run(f, es));
    k := |Run(f, es).sent|;
    assert Pushes(es) == Run(f, es).pushed;
    assert Pushes(es)[..k] == Run(f, es).sent;
  }

  lemma {:induction false} RunSplit(f: Flow, a: seq<FlowEvent>, b: seq<FlowEvent>)
    requires CanRun(f, a + b)
    ensures CanRun(f, a) && CanRun(Run(f, a), b)
    ensures Run(f, a + b) == Run(Run(f, a), b)
    ensures Log(f, a + b) == Log(f, a) + Log(Run(f, a), b)
    ensures Pushes(a + b) == Pushes(a) + Pushes(b)
    decreases |a|
  {
    hide Apply, Enabled, Emits;
    if a == [] {
      assert a + b == b;
    } else {
      assert (a + b)[1..] == a[1..] + b;
      RunSplit(Apply(f, a[0]), a[1..], b);
    }
  }

  lemma RunCons(f: Flow, e: FlowEvent, es: seq<FlowEvent>)
    requires CanRun(f, [e] + es)
    ensures Enabled(f, e) && CanRun(Apply(f, e), es) && Run(f, [e] + es) == Run(Apply(f, e), es)
  {
    assert ([e] + es)[1..] == es;
  }

  /** Nothing follows the closing frame, whatever happens later. */
  lemma NothingAfterFin(f: Flow, es: seq<FlowEvent>, more: seq<FlowEvent>)
    requires FlowInv(f) && CanRun(f, es + more) && CanRun(f, es)
    requires Run(f, es).finSent
    ensures Log(f, es + more) == Log(f, es)
  {
    RunSplit(f, es, more);
    RunLog(f, es);
    StoppedIsSilent(Run(f, es), more);
  }

  lemma {:induction false} StoppedIsSilent(f: Flow, es: seq<FlowEvent>)
    requires FlowInv(f) && f.finSent && CanRun(f, es)
    ensures Log(f, es) == []
    decreases |es|
  {
    if es != [] {
      FlowInvPreserved(f, es[0]);
      StoppedIsSilent(Apply(f, es[0]), es[1..]);
    }
  }

  lemma SignalMark(f: Flow, before: seq<FlowEvent>, after: seq<FlowEvent>)
    requires FlowInv(f) && f.pushed == []
    requires CanRun(f, before + [CloseSignal] + after)
    ensures var h := Run(f, before + [CloseSignal] + after);
            FlowInv(h) && h.HasSignalled() && h.finMark == |Pushes(before)| && Pushes(before) <= h.pushed
  {
    hide Run, Log, CanRun, FlowInv;
    var es := before + [CloseSignal] + after;
    assert es == before + ([CloseSignal] + after);
    RunSplit(f, before, [CloseSignal] + after);
    RunLog(f, before);
    var g := Run(f, before);
    RunCons(g, CloseSignal, after);
    FlowInvPreserved(g, CloseSignal);
    RunLog(Apply(g, CloseSignal), after);
    RunLog(f, es);
  }

  lemma MarkedChunksDrained(h: Flow, chunks: seq<Bytes>)
    requires DrainInv(h) && h.finSent && h.finMark == |chunks| && chunks <= h.pushed
    ensures DataFrames(h.s.id, chunks) < Drained(h)
    ensures Drained(h)[|Drained(h)| - 1] == CloseFrame(h.s.id)
  {
    assert chunks <= h.sent;
  }

  /** No loss: a chunk pushed before Close signalled the drain loop is on the
      data lane ahead of the closing frame, whenever there is one. */
  lemma PushedBeforeSignalPrecedesFin(f: Flow, before: seq<FlowEvent>, after: seq<FlowEvent>)
    requires f == OpenFlow(OpenSession(f.s.id, f.s.recvWindow, f.s.payload), f.asked, f.acked)
    requires CanRun(f, before + [CloseSignal] + after)
    requires Run(f, before + [CloseSignal] + after).finSent
    ensures var log := Log(f, before + [CloseSignal] + after);
            DataFrames(f.s.id, Pushes(before)) < log && log[|log| - 1] == CloseFrame(f.s.id)
  {
    var es := before + [CloseSignal] + after;
    FreshFlow(f);
    hide *;
    SignalMark(f, before, after);
    RunLog(f, es);
    var h := Run(f, es);
    assert Log(f, es) == Drained(h);
    InvParts(h);
    MarkedChunksDrained(h, Pushes(before));
  }

  lemma InvParts(f: Flow)
    requires FlowInv(f)
    ensures CloseInv(f) && DrainInv(f) && ReadInv(f)
  {
  }

  /** The drain loop alone, from any state in which Close has signalled and the
      stream was not reset: its next enabled arm, and where that leads. */
  function NextDrain(f: Flow): FlowEvent
    requires FlowInv(f) && f.HasSignalled() && !f.s.state.Reset? && !f.finSent
  {
    match f.drain
    case Selecting => DrainFin
    case AwaitingFin => AwaitFin
    case Flushing => if f.s.writeOut != [] then FlushData else FlushFin
    case Stopped => DrainFin
  }

  /** Completion: once Close has signalled, the drain loop is never stuck, and
      left to itself it sends every buffered chunk and then the closing frame. */
  lemma {:induction false} DrainCompletes(f: Flow) returns (es: seq<FlowEvent>)
    requires FlowInv(f) && f.HasSignalled() && !f.s.state.Reset? && !f.finSent
    ensures CanRun(f, es)
    ensures Run(f, es).finSent && Run(f, es).sent == f.pushed && Run(f, es).s.state == f.s.state
    decreases |f.s.writeOut|, !f.drain.Flushing?
  {
    var e := NextDrain(f);
    assert Enabled(f, e);
    FlowInvPreserved(f, e);
    var g := Apply(f, e);
    if g.finSent {
      es := [e];
      assert es[1..] == [];
      assert f.pushed == f.sent;
    } else {
      var rest := DrainCompletes(g);
      es := [e] + rest;
      assert es[1..] == rest;
    }
  }
}
