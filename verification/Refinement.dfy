/** The whole calls and handlers of module Mux are runs of the small steps of modules
    Flow and Link: from related states they lead to related states. Resets by a caller
    and cancelled opens, which those modules do not have, are outside the relation.
 */
module Refinement {
  import opened Frames
  import opened Streams
  import opened StreamTable
  import opened Flow
  import opened Conversation
  import D = Delivery
  import L = Link
  import M = Mux

  /** Between whole calls: no Write and no Close is half way, and the drain loop is at
      its `select` or has ended with everything sent. */
  predicate Calm(f: Flow) {
    && f.writing == multiset{}
    && (f.close.NotClosed? || (f.close.Finished? && f.s.WriteClosed() && f.finMark == |f.pushed|))
    && (f.drain.Selecting? || (f.drain.Stopped? && f.s.WriteClosed() && f.s.writeOut == [] && f.s.finCh == 0))
  }

  /** Session `n` of `id` here is the session of the flow there. Only Mux handles
      WINDOW_UPDATE, so the receive windows may differ. A caller without the stream
      waits for its answer. */
  predicate Fits(pending: map<UInt32, nat>, id: UInt32, n: nat, s: Session, f: Flow) {
    && s == f.s.(recvWindow := s.recvWindow)
    && Calm(f)
    && (f.acked || f.s.state.Reset? || (f.s.Closable() && id in pending && pending[id] == n))
  }

  ghost predicate SameTable(t: Table<Session>, u: Table<Flow>) {
    && t.start == u.start && t.max == u.max && t.next == u.next && t.free == u.free
    && t.live == u.live && t.pending == u.pending
    && (u.goingAway ==> t.goingAway)
    && (forall id :: id in t.pending ==> t.Has(id, t.pending[id]))
    && (forall id: UInt32 :: |t.Incs(id)| == |u.Incs(id)|)
    && (forall id: UInt32, n: nat {:trigger t.Get(id, n)} {:trigger u.Get(id, n)} :: t.Has(id, n) ==>
          Fits(t.pending, id, n, t.Get(id, n), u.Get(id, n)))
  }

  /** The same endpoint at the two grains. */
  ghost predicate Mirrors(m: M.State, ep: L.Endpoint) {
    && SameTable(m.t, ep.t)
    && m.window == ep.window && m.control == ep.control && m.data == FramesOf(ep.data)
  }

  lemma FitsAt(t: Table<Session>, u: Table<Flow>, id: UInt32, n: nat)
    requires SameTable(t, u) && t.Has(id, n)
    ensures u.Has(id, n) && Fits(t.pending, id, n, t.Get(id, n), u.Get(id, n))
  {
  }

  lemma PutMirrors(t: Table<Session>, u: Table<Flow>, id: UInt32, n: nat, s: Session, f: Flow)
    requires SameTable(t, u) && t.Has(id, n) && u.Has(id, n) && Fits(t.pending, id, n, s, f)
    ensures SameTable(t.Put(id, n, s), u.Put(id, n, f))
  {
    hide Fits;
    var t', u' := t.Put(id, n, s), u.Put(id, n, f);
    forall i: UInt32 ensures |t'.Incs(i)| == |u'.Incs(i)| {
      assert |t.Incs(i)| == |u.Incs(i)|;
    }
    forall i: UInt32, k: nat | t'.Has(i, k) ensures Fits(t'.pending, i, k, t'.Get(i, k), u'.Get(i, k)) {
      if i == id && k == n {
      } else {
        FitsAt(t, u, i, k);
        assert t'.Get(i, k) == t.Get(i, k) && u'.Get(i, k) == u.Get(i, k);
      }
    }
  }

  /** Everything but the sessions and the waiting calls may change alike. */
  lemma RelabelMirrors(t: Table<Session>, u: Table<Flow>, t': Table<Session>, u': Table<Flow>)
    requires SameTable(t, u) && t'.incs == t.incs && u'.incs == u.incs && t'.pending == t.pending
    requires t'.start == u'.start && t'.max == u'.max && t'.next == u'.next && t'.free == u'.free
    requires t'.live == u'.live && t'.pending == u'.pending && (u'.goingAway ==> t'.goingAway)
    ensures SameTable(t', u')
  {
    hide Fits;
    forall i: UInt32 ensures |t'.Incs(i)| == |u'.Incs(i)| {
      assert |t.Incs(i)| == |u.Incs(i)|;
    }
    forall i: UInt32, k: nat | t'.Has(i, k) ensures Fits(t'.pending, i, k, t'.Get(i, k), u'.Get(i, k)) {
      FitsAt(t, u, i, k);
    }
  }

  lemma DropMirrors(t: Table<Session>, u: Table<Flow>, id: UInt32)
    requires SameTable(t, u)
    ensures SameTable(t.Drop(id), u.Drop(id))
  {
    RelabelMirrors(t, u, t.Drop(id), u.Drop(id));
  }

  lemma InstallMirrors(t: Table<Session>, u: Table<Flow>, id: UInt32, s: Session, f: Flow)
    requires SameTable(t, u) && Fits(t.pending, id, |t.Incs(id)|, s, f)
    ensures SameTable(t.Install(id, s), u.Install(id, f))
  {
    hide Fits;
    var t', u' := t.Install(id, s), u.Install(id, f);
    forall i: UInt32 ensures |t'.Incs(i)| == |u'.Incs(i)| {
      assert |t.Incs(i)| == |u.Incs(i)|;
    }
    forall i: UInt32, k: nat | t'.Has(i, k) ensures Fits(t'.pending, i, k, t'.Get(i, k), u'.Get(i, k)) {
      if t.Has(i, k) {
        FitsAt(t, u, i, k);
        assert t'.Get(i, k) == t.Get(i, k) && u'.Get(i, k) == u.Get(i, k);
      }
    }
  }

  lemma FramesOfSnoc(ps: seq<Packet>, qs: seq<Packet>)
    ensures FramesOf(ps + qs) == FramesOf(ps) + FramesOf(qs)
  {
  }

  lemma FramesOfTag(fs: seq<Frame>, n: nat)
    ensures FramesOf(Tag(fs, n)) == fs
  {
  }

  // ----------------------------------------------------------------- handlers

  /** An answered call is no longer waited for. */
  lemma PendingMirrors(t: Table<Session>, u: Table<Flow>, id: UInt32)
    requires SameTable(t, u) && id in t.pending && u.Has(id, t.pending[id]) && u.Get(id, t.pending[id]).acked
    ensures SameTable(t.(pending := t.pending - {id}), u.(pending := u.pending - {id}))
  {
    var t', u' := t.(pending := t.pending - {id}), u.(pending := u.pending - {id});
    forall i: UInt32 ensures |t'.Incs(i)| == |u'.Incs(i)| {
      assert |t.Incs(i)| == |u.Incs(i)|;
    }
    forall i: UInt32, k: nat | t'.Has(i, k) ensures u'.Has(i, k) && Fits(t'.pending, i, k, t'.Get(i, k), u'.Get(i, k)) {
      FitsAt(t, u, i, k);
    }
  }

  lemma AckMirrors(m: M.State, ep: L.Endpoint, id: UInt32)
    requires Mirrors(m, ep)
    ensures Mirrors(M.HandleAck(m, id), L.HandleAck(ep, id))
  {
    if id !in m.t.pending {
      assert m.t.pending - {id} == m.t.pending;
    } else {
      var n := m.t.pending[id];
      FitsAt(m.t, ep.t, id, n);
      var g := ep.t.Get(id, n).(acked := true);
      PutMirrors(m.t, ep.t, id, n, m.t.Get(id, n), g);
      PutSame(m.t, id, n);
      PendingMirrors(m.t, ep.t.Put(id, n, g), id);
      hide SameTable, Fits;
    }
  }

  lemma AcceptMirrors(m: M.State, ep: L.Endpoint, f: Frame)
    requires Mirrors(m, ep)
    ensures Mirrors(M.HandleOpen(m, f), L.HandleOpen(ep, f))
  {
    var id := f.streamID;
    if id !in m.t.live && !m.t.Owns(id) {
      InstallMirrors(m.t, ep.t, id, OpenSession(id, m.window, f.payload), Accepted(id, ep.window, f.payload));
      FramesOfSnoc(ep.data, [Packet(AckFrame(id), |ep.t.Incs(id)|)]);
      hide SameTable;
    }
  }

  lemma DeliverFits(pending: map<UInt32, nat>, id: UInt32, n: nat, s: Session, f: Flow, chunk: Bytes)
    requires Fits(pending, id, n, s, f)
    ensures Fits(pending, id, n, if chunk == [] then s else s.Deliver(chunk), Apply(f, ApplyData(chunk)))
  {
  }

  lemma RemoteCloseFits(pending: map<UInt32, nat>, id: UInt32, n: nat, s: Session, f: Flow)
    requires Fits(pending, id, n, s, f)
    ensures Fits(pending, id, n, s.RemoteClose(), Apply(f, ApplyFin))
  {
  }

  lemma ResetFits(pending: map<UInt32, nat>, id: UInt32, n: nat, s: Session, f: Flow)
    requires Fits(pending, id, n, s, f)
    ensures Fits(pending, id, n, s.ResetNow(), Apply(f, ApplyReset))
  {
  }

  lemma CloseMirrors(m: M.State, ep: L.Endpoint, id: UInt32)
    requires Mirrors(m, ep)
    ensures Mirrors(M.HandleClose(m, id), L.HandleLive(ep, id, ApplyFin))
  {
    if M.Found(m, id) {
      var n := m.t.live[id];
      FitsAt(m.t, ep.t, id, n);
      RemoteCloseFits(m.t.pending, id, n, m.t.Get(id, n), ep.t.Get(id, n));
      var s, g := m.t.Get(id, n).RemoteClose(), Apply(ep.t.Get(id, n), ApplyFin);
      PutMirrors(m.t, ep.t, id, n, s, g);
      DropMirrors(m.t.Put(id, n, s), ep.t.Put(id, n, g), id);
      assert s.Terminal() == g.s.Terminal();
      hide SameTable, Fits, Apply;
    }
  }

  lemma DeliverMirrors(m: M.State, ep: L.Endpoint, id: UInt32, chunk: Bytes)
    requires Mirrors(m, ep) && M.Found(m, id)
    ensures var m1 := if chunk == [] then m else M.PutLive(m, id, M.GetLive(m, id).Deliver(chunk));
            M.Found(m1, id) && Mirrors(m1, L.HandleLive(ep, id, ApplyData(chunk)))
  {
    var n := m.t.live[id];
    FitsAt(m.t, ep.t, id, n);
    var s := m.t.Get(id, n);
    DeliverFits(m.t.pending, id, n, s, ep.t.Get(id, n), chunk);
    PutMirrors(m.t, ep.t, id, n, if chunk == [] then s else s.Deliver(chunk), Apply(ep.t.Get(id, n), ApplyData(chunk)));
    PutSame(m.t, id, n);
    hide SameTable, Fits, Apply;
  }

  lemma DataMirrors(m: M.State, ep: L.Endpoint, f: Frame)
    requires Mirrors(m, ep) && f.command == CMD_STREAM_DATA
    ensures Mirrors(M.HandleData(m, f), L.Handle(ep, f))
  {
    var id := f.streamID;
    if M.Found(m, id) {
      DeliverMirrors(m, ep, id, f.payload);
      var m1 := if f.payload == [] then m else M.PutLive(m, id, M.GetLive(m, id).Deliver(f.payload));
      CloseMirrors(m1, L.HandleLive(ep, id, ApplyData(f.payload)), id);
      hide Mirrors, M.HandleClose, L.HandleLive;
    } else {
      assert L.HandleLive(ep, id, ApplyData(f.payload)) == ep;
    }
  }

  lemma ResetMirrors(m: M.State, ep: L.Endpoint, f: Frame)
    requires M.Inv(m) && Mirrors(m, ep)
    ensures Mirrors(M.HandleReset(m, f), L.HandleReset(ep, f))
  {
    var id := f.streamID;
    if id in m.t.live {
      M.LiveAt(m, id);
      hide M.Inv;
      var n := m.t.live[id];
      FitsAt(m.t, ep.t, id, n);
      ResetFits(m.t.pending, id, n, m.t.Get(id, n), ep.t.Get(id, n));
      var s, g := m.t.Get(id, n).ResetNow(), Apply(ep.t.Get(id, n), ApplyReset);
      PutMirrors(m.t, ep.t, id, n, s, g);
      DropMirrors(m.t.Put(id, n, s), ep.t.Put(id, n, g), id);
      assert g.s.Terminal();
      hide SameTable, Fits, Apply;
    }
  }

  lemma WindowMirrors(m: M.State, ep: L.Endpoint, f: Frame)
    requires Mirrors(m, ep)
    ensures Mirrors(M.HandleWindowUpdate(m, f), ep)
  {
    var id := f.streamID;
    if |f.payload| >= 4 && id != 0 && M.Found(m, id) {
      var n := m.t.live[id];
      FitsAt(m.t, ep.t, id, n);
      var window := M.HandleWindowUpdate(m, f).t.Get(id, n).recvWindow;
      PutMirrors(m.t, ep.t, id, n, m.t.Get(id, n).(recvWindow := window), ep.t.Get(id, n));
      PutSame(ep.t, id, n);
      hide SameTable, Fits;
    }
  }

  /** handleFrame, for every frame a peer may send. */
  lemma HandleMirrors(m: M.State, ep: L.Endpoint, f: Frame)
    requires M.Inv(m) && Mirrors(m, ep)
    ensures Mirrors(M.Handle(m, f), L.Handle(ep, f))
  {
    hide M.Inv, M.HandleAck, M.HandleOpen, M.HandleData, M.HandleClose, M.HandleReset, M.HandleWindowUpdate;
    hide L.HandleAck, L.HandleOpen, L.HandleLive, L.HandleReset;
    if f.Acks() {
      AckMirrors(m, ep, f.streamID);
    } else if f.Opens() {
      AcceptMirrors(m, ep, f);
    } else if f.command == CMD_STREAM_DATA {
      DataMirrors(m, ep, f);
    } else if f.command == CMD_STREAM_CLOSE {
      CloseMirrors(m, ep, f.streamID);
    } else if f.command == CMD_STREAM_RESET {
      ResetMirrors(m, ep, f);
    } else if f.command == CMD_WINDOW_UPDATE {
      WindowMirrors(m, ep, f);
    } else if f.command == CMD_GO_AWAY {
      RelabelMirrors(m.t, ep.t, m.t.(goingAway := true), ep.t.(goingAway := true));
    }
  }

  // ------------------------------------------------------------------- opening

  /** A new session and the call that waits for its answer. */
  lemma AskMirrors(t: Table<Session>, u: Table<Flow>, id: UInt32, s: Session, f: Flow)
    requires SameTable(t, u)
    requires s == f.s && Calm(f) && f.s.Closable()
    requires forall k: nat :: t.Has(id, k) ==> t.Get(id, k).Terminal()
    ensures var n := |t.Incs(id)|;
            && |u.Incs(id)| == n
            && SameTable(t.Install(id, s).(pending := t.pending[id := n]),
                         u.Install(id, f).(pending := u.pending[id := n]))
  {
    var n := |t.Incs(id)|;
    var t', u' := t.Install(id, s).(pending := t.pending[id := n]), u.Install(id, f).(pending := u.pending[id := n]);
    forall i: UInt32 ensures |t'.Incs(i)| == |u'.Incs(i)| {
      assert |t.Incs(i)| == |u.Incs(i)|;
    }
    forall i: UInt32, k: nat | t'.Has(i, k) ensures Fits(t'.pending, i, k, t'.Get(i, k), u'.Get(i, k)) {
      if t.Has(i, k) {
        FitsAt(t, u, i, k);
        assert t'.Get(i, k) == t.Get(i, k) && u'.Get(i, k) == u.Get(i, k);
      }
    }
  }

  lemma AllocateMirrors(t: Table<Session>, u: Table<Flow>)
    requires SameTable(t, u) && t.CanOpen()
    ensures u.CanOpen() && u.NextID() == t.NextID()
    ensures SameTable(t.Allocate(), u.Allocate()) && t.Allocate().incs == t.incs && u.Allocate().incs == u.incs
  {
    RelabelMirrors(t, u, t.Allocate(), u.Allocate());
    hide Fits;
  }

  /** The allocator hands out an identifier all of whose sessions have ended. */
  lemma NextHasEnded(m: M.State, payload: Bytes)
    requires M.Inv(m) && m.t.CanOpen()
    ensures forall k: nat :: m.t.Has(m.t.NextID(), k) ==> m.t.Get(m.t.NextID(), k).Terminal()
  {
    hide M.Inv;
    M.OpenKeeps(m, payload);
    forall k: nat | m.t.Has(m.t.NextID(), k) ensures m.t.Get(m.t.NextID(), k).Terminal() {
      M.SessionAt(m, m.t.NextID(), k);
    }
  }

  lemma OpenMirrors(m: M.State, ep: L.Endpoint, payload: Bytes)
    requires M.Inv(m) && Mirrors(m, ep) && m.t.CanOpen()
    ensures ep.t.CanOpen() && Mirrors(M.OpenStream(m, payload), L.DoOpen(ep, payload))
  {
    hide M.Inv, SameTable;
    var id := m.t.NextID();
    var n := |m.t.Incs(id)|;
    NextHasEnded(m, payload);
    AllocateMirrors(m.t, ep.t);
    var t, u := m.t.Allocate(), ep.t.Allocate();
    forall k: nat | t.Has(id, k) ensures t.Get(id, k).Terminal() {
      assert m.t.Has(id, k);
    }
    AskMirrors(t, u, id, OpenSession(id, m.window, []), Asked(id, ep.window, payload));
    FramesOfSnoc(ep.data, [Packet(OpenFrame(id, payload), n)]);
  }

  // ------------------------------------------------------------- session calls

  /** flushAndFIN with `k` chunks buffered. */
  function FlushMoves(k: nat): seq<FlowEvent> {
    if k == 0 then [FlushFin] else [FlushData] + FlushMoves(k - 1)
  }

  /** The small steps that a whole call on a session, or a turn of its drain loop, is. */
  function Moves(s: Session, c: M.Call): seq<FlowEvent> {
    match c
    case Closing(_, _) => if s.Closable() then [CloseChange, CloseSignal, CloseNotify] else []
    case Writing(_, _, chunk) =>
      if s.WriteClosed() || |s.writeOut| >= WRITE_OUT_CAPACITY then [] else [WriteCheck(chunk), WritePush(chunk)]
    case Reading(_, _, k) => if s.readBuf != [] || s.ReadClosed() then [ReadSome(k)] else []
    case Draining(_, _) => if s.writeOut != [] then [DrainData] else []
    case Ending(_, _) => [DrainFin] + FlushMoves(|s.writeOut|)
    case _ => []
  }

  predicate UserCall(c: M.Call) {
    c.Closing? || c.Writing? || c.Reading?
  }

  predicate SessionCall(c: M.Call) {
    UserCall(c) || c.Draining? || c.Ending?
  }

  predicate Notifies(es: seq<FlowEvent>) {
    es != [] && es[|es| - 1].CloseNotify?
  }

  /** Put, and the callback of Close when it ran. */
  function Changed<S>(t: Table<S>, id: UInt32, n: nat, s: S, dropped: bool): Table<S>
    requires t.Has(id, n)
  {
    if dropped then t.Put(id, n, s).Drop(id) else t.Put(id, n, s)
  }

  /** The change from `m` to `m'` is what the steps `es` do to the flow of session `n`
      of `id`, with the frames that they put on the data lane, in their order. */
  ghost predicate Follows(m: M.State, m': M.State, id: UInt32, n: nat, f: Flow, es: seq<FlowEvent>)
    requires m.t.Has(id, n)
  {
    && CanRun(f, es)
    && (var g := Run(f, es);
        var s' := g.s.(recvWindow := m.t.Get(id, n).recvWindow);
        && Fits(m.t.pending, id, n, s', g)
        && m' == m.(t := Changed(m.t, id, n, s', Notifies(es) && s'.Terminal()), data := m.data + Log(f, es)))
  }

  lemma RunOne(f: Flow, e: FlowEvent)
    requires Enabled(f, e)
    ensures CanRun(f, [e]) && Run(f, [e]) == Apply(f, e) && Log(f, [e]) == Emits(f, e)
  {
    assert [e][1..] == [];
  }

  lemma RunMore(f: Flow, e: FlowEvent, es: seq<FlowEvent>)
    requires Enabled(f, e) && CanRun(Apply(f, e), es)
    ensures CanRun(f, [e] + es) && Run(f, [e] + es) == Run(Apply(f, e), es)
    ensures Log(f, [e] + es) == Emits(f, e) + Log(Apply(f, e), es)
  {
    assert ([e] + es)[1..] == es;
  }

  lemma CloseFollows(m: M.State, id: UInt32, n: nat, f: Flow)
    requires m.t.Has(id, n) && SessionInv(m.t.Get(id, n)) && Fits(m.t.pending, id, n, m.t.Get(id, n), f) && f.acked
    ensures Follows(m, M.CloseStream(m, id, n), id, n, f, Moves(m.t.Get(id, n), M.Closing(id, n)))
  {
    var s := m.t.Get(id, n);
    if s.Closable() {
      var f1 := Apply(f, CloseChange);
      var f2 := Apply(f1, CloseSignal);
      RunOne(f2, CloseNotify);
      RunMore(f1, CloseSignal, [CloseNotify]);
      RunMore(f, CloseChange, [CloseSignal, CloseNotify]);
      assert [CloseChange] + [CloseSignal, CloseNotify] == [CloseChange, CloseSignal, CloseNotify];
      assert [CloseSignal] + [CloseNotify] == [CloseSignal, CloseNotify];
    } else {
      PutSame(m.t, id, n);
    }
  }

  lemma WriteFollows(m: M.State, id: UInt32, n: nat, chunk: Bytes, f: Flow)
    requires m.t.Has(id, n) && Fits(m.t.pending, id, n, m.t.Get(id, n), f) && f.acked
    ensures Follows(m, M.WriteStream(m, id, n, chunk), id, n, f, Moves(m.t.Get(id, n), M.Writing(id, n, chunk)))
  {
    var s := m.t.Get(id, n);
    if s.WriteClosed() || |s.writeOut| >= WRITE_OUT_CAPACITY {
      PutSame(m.t, id, n);
    } else {
      RunOne(Apply(f, WriteCheck(chunk)), WritePush(chunk));
      RunMore(f, WriteCheck(chunk), [WritePush(chunk)]);
      assert [WriteCheck(chunk)] + [WritePush(chunk)] == [WriteCheck(chunk), WritePush(chunk)];
    }
  }

  lemma ReadFollows(m: M.State, id: UInt32, n: nat, k: nat, f: Flow)
    requires m.t.Has(id, n) && Fits(m.t.pending, id, n, m.t.Get(id, n), f) && f.acked
    ensures Follows(m, M.ReadStream(m, id, n, k), id, n, f, Moves(m.t.Get(id, n), M.Reading(id, n, k)))
  {
    var s := m.t.Get(id, n);
    if s.readBuf != [] || s.ReadClosed() {
      RunOne(f, ReadSome(k));
    }
    PutSame(m.t, id, n);
  }

  lemma ChunkFollows(m: M.State, id: UInt32, n: nat, f: Flow)
    requires m.t.Has(id, n) && Fits(m.t.pending, id, n, m.t.Get(id, n), f)
    ensures Follows(m, M.DrainChunk(m, id, n), id, n, f, Moves(m.t.Get(id, n), M.Draining(id, n)))
  {
    if m.t.Get(id, n).writeOut != [] {
      RunOne(f, DrainData);
    } else {
      PutSame(m.t, id, n);
    }
  }

  lemma FlushChunk(f: Flow)
    requires f.drain.Flushing? && f.s.writeOut != []
    ensures Enabled(f, FlushData) && Emits(f, FlushData) == [DataFrame(f.s.id, f.s.writeOut[0])]
    ensures var g := Apply(f, FlushData);
            && g.drain.Flushing? && g.s.id == f.s.id && g.s.writeOut == f.s.writeOut[1..]
            && Flushed(g) == Flushed(f)
  {
    var g := Apply(f, FlushData);
    assert f.s.writeOut == [f.s.writeOut[0]] + g.s.writeOut;
    assert g.sent + g.s.writeOut == f.sent + f.s.writeOut;
  }

  lemma FlushLast(f: Flow)
    requires f.drain.Flushing? && f.s.writeOut == []
    ensures Enabled(f, FlushFin) && Emits(f, FlushFin) == DataFrames(f.s.id, f.s.writeOut) + [CloseFrame(f.s.id)]
    ensures Apply(f, FlushFin) == Flushed(f)
  {
  }

  lemma DataFramesCons(id: UInt32, chunks: seq<Bytes>)
    requires chunks != []
    ensures DataFrames(id, chunks) == [DataFrame(id, chunks[0])] + DataFrames(id, chunks[1..])
  {
  }

  function Flushed(f: Flow): Flow {
    f.(s := f.s.(writeOut := []), sent := f.sent + f.s.writeOut, drain := Stopped, finSent := true)
  }

  /** flushAndFIN queues the buffered chunks in their order, and then the closing frame. */
  lemma {:induction false} FlushRuns(f: Flow)
    requires f.drain.Flushing?
    ensures CanRun(f, FlushMoves(|f.s.writeOut|))
    ensures Run(f, FlushMoves(|f.s.writeOut|)) == Flushed(f)
    ensures Log(f, FlushMoves(|f.s.writeOut|)) == DataFrames(f.s.id, f.s.writeOut) + [CloseFrame(f.s.id)]
    decreases |f.s.writeOut|
  {
    hide Run, Log, CanRun, Apply, Emits, Enabled, Flushed, DataFrames;
    if f.s.writeOut == [] {
      FlushLast(f);
      RunOne(f, FlushFin);
    } else {
      FlushChunk(f);
      var g := Apply(f, FlushData);
      FlushRuns(g);
      RunMore(f, FlushData, FlushMoves(|g.s.writeOut|));
      DataFramesCons(f.s.id, f.s.writeOut);
      assert FlushMoves(|f.s.writeOut|) == [FlushData] + FlushMoves(|g.s.writeOut|);
      hide FlushMoves;
    }
  }

  lemma TokenTaken(pending: map<UInt32, nat>, id: UInt32, n: nat, s: Session, f: Flow)
    requires SessionInv(s) && Fits(pending, id, n, s, f) && s.finCh > 0
    ensures Enabled(f, DrainFin) && Emits(f, DrainFin) == []
    ensures var g := Apply(f, DrainFin);
            && g == f.(s := f.s.(finCh := f.s.finCh - 1), drain := Flushing)
            && Fits(pending, id, n, s.(writeOut := [], finCh := s.finCh - 1), Flushed(g))
  {
  }

  lemma EndFollows(m: M.State, id: UInt32, n: nat, f: Flow)
    requires m.t.Has(id, n) && SessionInv(m.t.Get(id, n)) && Fits(m.t.pending, id, n, m.t.Get(id, n), f)
    requires m.t.Get(id, n).finCh > 0
    ensures Follows(m, M.EndDrain(m, id, n), id, n, f, Moves(m.t.Get(id, n), M.Ending(id, n)))
  {
    hide Run, Log, CanRun, M.EndDrain;
    var s := m.t.Get(id, n);
    M.EndDrainIs(m, id, n);
    TokenTaken(m.t.pending, id, n, s, f);
    assert f.s.id == s.id && f.s.writeOut == s.writeOut && s.recvWindow == s.recvWindow;
    assert s == f.s.(recvWindow := s.recvWindow);
    hide Apply, Emits, Enabled, Fits;
    var g := Apply(f, DrainFin);
    FlushRuns(g);
    RunMore(f, DrainFin, FlushMoves(|g.s.writeOut|));
    NoNotify(|s.writeOut|);
    var es := [DrainFin] + FlushMoves(|s.writeOut|);
    assert Log(f, es) == DataFrames(s.id, s.writeOut) + [CloseFrame(s.id)];
    assert Run(f, es) == Flushed(g);
    assert m.data + DataFrames(s.id, s.writeOut) + [CloseFrame(s.id)] == m.data + Log(f, es);
    hide FlushMoves;
  }

  lemma {:induction false} NoNotify(k: nat)
    ensures FlushMoves(k) != [] && FlushMoves(k)[|FlushMoves(k)| - 1] == FlushFin
  {
    if k > 0 {
      NoNotify(k - 1);
    }
  }

  /** Every call on a session, and every turn of its drain loop. */
  lemma CallFollows(m: M.State, c: M.Call, f: Flow)
    requires SessionCall(c) && M.CanCall(m, c) && M.Inv(m)
    requires Fits(m.t.pending, c.id, c.n, m.t.Get(c.id, c.n), f) && (UserCall(c) ==> f.acked)
    ensures Follows(m, M.Do(m, c), c.id, c.n, f, Moves(m.t.Get(c.id, c.n), c))
  {
    M.SessionAt(m, c.id, c.n);
    hide M.Inv, SessionInv, Fits, Follows, Moves;
    hide M.CloseStream, M.WriteStream, M.ReadStream, M.DrainChunk, M.EndDrain;
    match c
    case Closing(id, n) => CloseFollows(m, id, n, f);
    case Writing(id, n, chunk) => WriteFollows(m, id, n, chunk, f);
    case Reading(id, n, k) => ReadFollows(m, id, n, k, f);
    case Draining(id, n) => ChunkFollows(m, id, n, f);
    case Ending(id, n) => EndFollows(m, id, n, f);
  }

  // ----------------------------------------------------- the same steps in a run

  function SessionSteps(side: Side, id: UInt32, n: nat, es: seq<FlowEvent>): seq<L.Event> {
    if es == [] then [] else [L.Act(side, id, n, es[0])] + SessionSteps(side, id, n, es[1..])
  }

  /** What the application and the drain loop may do; the callback of Close comes last. */
  predicate Performs(es: seq<FlowEvent>, acked: bool) {
    forall i :: 0 <= i < |es| ==>
      && !es[i].FromReadLoop()
      && (es[i].UserCall() ==> acked)
      && (es[i].WriteCheck? ==> |es[i].chunk| <= MAX_PAYLOAD_SIZE)
      && (es[i].CloseNotify? ==> i == |es| - 1)
  }

  function ActedAs(ep: L.Endpoint, id: UInt32, n: nat, es: seq<FlowEvent>): L.Endpoint
    requires ep.t.Has(id, n) && CanRun(ep.t.Get(id, n), es)
  {
    var f := ep.t.Get(id, n);
    var g := Run(f, es);
    ep.(t := Changed(ep.t, id, n, g, Notifies(es) && g.s.Terminal()), data := ep.data + Tag(Log(f, es), n))
  }

  lemma AckedStays(f: Flow, e: FlowEvent)
    requires Enabled(f, e)
    ensures Apply(f, e).acked == f.acked
  {
  }

  lemma ExecCons(l: L.Net, e: L.Event, es: seq<L.Event>)
    requires L.CanDo(l, e) && D.CanExec(L.Do(l, e), es)
    ensures D.CanExec(l, [e] + es) && D.Exec(l, [e] + es) == D.Exec(L.Do(l, e), es)
  {
    assert ([e] + es)[1..] == es;
  }

  lemma TagAppend(a: seq<Frame>, b: seq<Frame>, n: nat)
    ensures Tag(a + b, n) == Tag(a, n) + Tag(b, n)
  {
  }

  lemma RunFirst(f: Flow, es: seq<FlowEvent>)
    requires CanRun(f, es) && es != []
    ensures Enabled(f, es[0]) && CanRun(Apply(f, es[0]), es[1..])
    ensures Run(f, es) == Run(Apply(f, es[0]), es[1..])
    ensures Log(f, es) == Emits(f, es[0]) + Log(Apply(f, es[0]), es[1..])
  {
  }

  /** A first step, and then the others. */
  lemma ActedCons(ep: L.Endpoint, id: UInt32, n: nat, es: seq<FlowEvent>)
    requires ep.t.Has(id, n) && CanRun(ep.t.Get(id, n), es) && |es| > 1 && !es[0].CloseNotify?
    ensures var ep1 := L.DoAct(ep, id, n, es[0]);
            && ep1.t.Has(id, n) && CanRun(ep1.t.Get(id, n), es[1..])
            && ActedAs(ep1, id, n, es[1..]) == ActedAs(ep, id, n, es)
  {
    hide Apply, Emits, Enabled, Run, Log, CanRun;
    var f := ep.t.Get(id, n);
    RunFirst(f, es);
    var g := Apply(f, es[0]);
    var ep1 := L.DoAct(ep, id, n, es[0]);
    assert ep1.t == ep.t.Put(id, n, g) && ep1.data == ep.data + Tag(Emits(f, es[0]), n);
    TagAppend(Emits(f, es[0]), Log(g, es[1..]), n);
    PutTwice(ep.t, id, n, g, Run(g, es[1..]));
    hide L.DoAct, Tag;
  }

  lemma ActedOne(ep: L.Endpoint, id: UInt32, n: nat, es: seq<FlowEvent>)
    requires ep.t.Has(id, n) && CanRun(ep.t.Get(id, n), es) && |es| == 1
    ensures L.DoAct(ep, id, n, es[0]) == ActedAs(ep, id, n, es)
  {
    assert es == [es[0]];
    RunOne(ep.t.Get(id, n), es[0]);
    hide Apply, Emits, Enabled;
  }

  /** The steps `es` of one session, run between the two endpoints. */
  lemma {:induction false} ActsRun(l: L.Net, side: Side, id: UInt32, n: nat, es: seq<FlowEvent>)
    requires es != [] && L.Ep(l, side).t.Has(id, n)
    requires CanRun(L.Ep(l, side).t.Get(id, n), es) && Performs(es, L.Ep(l, side).t.Get(id, n).acked)
    ensures D.CanExec(l, SessionSteps(side, id, n, es))
    ensures D.Exec(l, SessionSteps(side, id, n, es)) == L.WithEp(l, side, ActedAs(L.Ep(l, side), id, n, es))
    decreases |es|
  {
    var ep := L.Ep(l, side);
    var e := L.Act(side, id, n, es[0]);
    var l1 := L.Do(l, e);
    assert l1 == L.WithEp(l, side, L.DoAct(ep, id, n, es[0]));
    if |es| == 1 {
      ActedOne(ep, id, n, es);
      assert SessionSteps(side, id, n, es[1..]) == [];
    } else {
      ActedCons(ep, id, n, es);
      AckedStays(ep.t.Get(id, n), es[0]);
      assert L.Ep(l1, side).t.Get(id, n) == Apply(ep.t.Get(id, n), es[0]);
      hide Apply, Enabled, L.DoAct, ActedAs;
      ActsRun(l1, side, id, n, es[1..]);
    }
    hide ActedAs, L.DoAct, L.Do, L.CanDo;
    ExecCons(l, e, SessionSteps(side, id, n, es[1..]));
  }

  lemma MovesPerform(s: Session, c: M.Call, acked: bool)
    requires SessionCall(c) && (UserCall(c) ==> acked) && (c.Writing? ==> |c.chunk| <= MAX_PAYLOAD_SIZE)
    ensures Performs(Moves(s, c), acked)
  {
    if c.Ending? {
      FlushPerforms(|s.writeOut|, acked);
    }
  }

  lemma {:induction false} FlushPerforms(k: nat, acked: bool)
    ensures Performs(FlushMoves(k), acked) && forall i :: 0 <= i < |FlushMoves(k)| ==> !FlushMoves(k)[i].CloseNotify?
  {
    if k > 0 {
      FlushPerforms(k - 1, acked);
    }
  }

  lemma ActedNone(ep: L.Endpoint, id: UInt32, n: nat)
    requires ep.t.Has(id, n)
    ensures CanRun(ep.t.Get(id, n), []) && ActedAs(ep, id, n, []) == ep
  {
    PutSame(ep.t, id, n);
    assert Tag([], n) == [];
    assert ep.data + [] == ep.data;
  }

  /** The endpoint of Mux and the endpoint of Link stay related under the steps. */
  lemma ActedMirrors(m: M.State, m': M.State, ep: L.Endpoint, id: UInt32, n: nat, es: seq<FlowEvent>)
    requires Mirrors(m, ep) && m.t.Has(id, n) && ep.t.Has(id, n)
    requires Follows(m, m', id, n, ep.t.Get(id, n), es)
    ensures Mirrors(m', ActedAs(ep, id, n, es))
  {
    hide Run, Log, CanRun, SameTable;
    var f := ep.t.Get(id, n);
    var g := Run(f, es);
    var s' := g.s.(recvWindow := m.t.Get(id, n).recvWindow);
    assert s'.Terminal() == g.s.Terminal();
    hide Fits;
    PutMirrors(m.t, ep.t, id, n, s', g);
    DropMirrors(m.t.Put(id, n, s'), ep.t.Put(id, n, g), id);
    FramesOfSnoc(ep.data, Tag(Log(f, es), n));
    FramesOfTag(Log(f, es), n);
  }
}
