/** The link at byte level: every frame an endpoint queues is one the codec can carry,
    so the bytes in flight read back as the frames in flight.
 */
module Wire {
  import opened Frames
  import opened Flow
  import opened StreamTable
  import opened Conversation
  import opened Link
  import opened Delivery
  import opened Codec

  /** The chunks a session still holds fit in a frame. */
  predicate Fits(f: Flow) {
    && (forall c :: c in f.writing ==> |c| <= MAX_PAYLOAD_SIZE)
    && (forall i :: 0 <= i < |f.s.writeOut| ==> |f.s.writeOut[i]| <= MAX_PAYLOAD_SIZE)
  }

  predicate AllEncodable(ps: seq<Packet>) {
    forall i :: 0 <= i < |ps| ==> Encodable(ps[i].frame)
  }

  ghost predicate SessionsFit(t: Table<Flow>) {
    forall id: UInt32, n: nat :: t.Has(id, n) ==> Fits(t.Get(id, n))
  }

  ghost predicate EndpointFits(ep: Endpoint) {
    && (forall i :: 0 <= i < |ep.control| ==> Encodable(ep.control[i]))
    && AllEncodable(ep.data) && AllEncodable(ep.wire)
    && SessionsFit(ep.t)
  }

  ghost predicate NetFits(l: Net) {
    EndpointFits(l.relay) && EndpointFits(l.agent)
  }

  /** Control frames from outside the model, such as pings, fit as well. */
  predicate Injects(es: seq<Event>) {
    forall i :: 0 <= i < |es| && es[i].Control? ==> Encodable(es[i].frame)
  }

  lemma WriteFits(f: Flow, e: FlowEvent)
    requires Fits(f) && Enabled(f, e) && (e.WriteCheck? ==> |e.chunk| <= MAX_PAYLOAD_SIZE)
    requires e.WriteCheck? || e.WritePush? || e.WriteAbort?
    ensures Fits(Apply(f, e)) && Emits(f, e) == []
  {
  }

  /** Calls other than Write and frames from the peer leave the held chunks alone. */
  lemma OthersFit(f: Flow, e: FlowEvent)
    requires Enabled(f, e) && !e.FromDrainLoop() && !e.WriteCheck? && !e.WritePush? && !e.WriteAbort?
    ensures var g := Apply(f, e);
            g.writing == f.writing && g.s.writeOut == f.s.writeOut && Emits(f, e) == []
  {
  }

  lemma DrainFits(f: Flow, e: FlowEvent)
    requires Fits(f) && Enabled(f, e) && e.FromDrainLoop()
    ensures Fits(Apply(f, e))
    ensures forall i :: 0 <= i < |Emits(f, e)| ==> Encodable(Emits(f, e)[i])
  {
    var g := Apply(f, e);
    assert g.writing == f.writing;
    assert g.s.writeOut == f.s.writeOut || (f.s.writeOut != [] && g.s.writeOut == f.s.writeOut[1..]);
    hide Apply, Enabled;
  }

  lemma SameChunksFit(f: Flow, g: Flow)
    requires Fits(f) && g.writing == f.writing && g.s.writeOut == f.s.writeOut
    ensures Fits(g)
  {
  }

  lemma StepFits(f: Flow, e: FlowEvent)
    requires Fits(f) && Enabled(f, e) && (e.WriteCheck? ==> |e.chunk| <= MAX_PAYLOAD_SIZE)
    ensures Fits(Apply(f, e))
    ensures forall i :: 0 <= i < |Emits(f, e)| ==> Encodable(Emits(f, e)[i])
  {
    hide Fits, Apply, Emits, Enabled;
    if e.FromDrainLoop() {
      DrainFits(f, e);
    } else if e.WriteCheck? || e.WritePush? || e.WriteAbort? {
      WriteFits(f, e);
    } else {
      OthersFit(f, e);
      SameChunksFit(f, Apply(f, e));
    }
  }

  lemma InstallFits(t: Table<Flow>, id: UInt32, f: Flow)
    requires SessionsFit(t) && Fits(f)
    ensures SessionsFit(t.Install(id, f))
  {
    var t' := t.Install(id, f);
    forall x: UInt32, n: nat | t'.Has(x, n)
      ensures Fits(t'.Get(x, n))
    {
      assert x != id || n < |t.Incs(id)| ==> t.Has(x, n) && t'.Get(x, n) == t.Get(x, n);
    }
  }

  lemma PutFits(t: Table<Flow>, id: UInt32, n: nat, f: Flow)
    requires SessionsFit(t) && t.Has(id, n) && Fits(f)
    ensures SessionsFit(t.Put(id, n, f))
  {
    var t' := t.Put(id, n, f);
    forall x: UInt32, k: nat | t'.Has(x, k)
      ensures Fits(t'.Get(x, k))
    {
      assert t.Has(x, k);
      assert x != id || n != k ==> t'.Get(x, k) == t.Get(x, k);
    }
  }

  lemma SameSessionsFit(t: Table<Flow>, u: Table<Flow>)
    requires SessionsFit(t) && u.incs == t.incs
    ensures SessionsFit(u)
  {
    assert forall x: UInt32, k: nat :: u.Has(x, k) ==> t.Has(x, k) && u.Get(x, k) == t.Get(x, k);
  }

  lemma OpenFits(ep: Endpoint, payload: Bytes)
    requires EndpointFits(ep) && |payload| <= MAX_PAYLOAD_SIZE
    ensures EndpointFits(DoOpen(ep, payload))
  {
    hide SessionsFit;
    var id := ep.t.NextID();
    SameSessionsFit(ep.t, ep.t.Allocate());
    InstallFits(ep.t.Allocate(), id, Asked(id, ep.window, payload));
    SameSessionsFit(ep.t.Allocate().Install(id, Asked(id, ep.window, payload)), DoOpen(ep, payload).t);
  }

  lemma ActFits(ep: Endpoint, id: UInt32, n: nat, e: FlowEvent)
    requires EndpointFits(ep) && ep.t.Has(id, n) && Enabled(ep.t.Get(id, n), e)
    requires e.WriteCheck? ==> |e.chunk| <= MAX_PAYLOAD_SIZE
    ensures EndpointFits(DoAct(ep, id, n, e))
  {
    var f := ep.t.Get(id, n);
    assert Fits(f);
    StepFits(f, e);
    hide SessionsFit, Fits, Apply, Emits, Enabled;
    PutFits(ep.t, id, n, Apply(f, e));
    SameSessionsFit(ep.t.Put(id, n, Apply(f, e)), DoAct(ep, id, n, e).t);
    assert forall i :: 0 <= i < |Emits(f, e)| ==> Tag(Emits(f, e), n)[i].frame == Emits(f, e)[i];
  }

  lemma LiveFits(ep: Endpoint, id: UInt32, e: FlowEvent)
    requires EndpointFits(ep) && e.FromReadLoop()
    ensures EndpointFits(HandleLive(ep, id, e))
  {
    if id in ep.t.live && ep.t.Has(id, ep.t.live[id]) {
      var n := ep.t.live[id];
      var f := ep.t.Get(id, n);
      assert Fits(f);
      StepFits(f, e);
      hide SessionsFit, Fits, Apply;
      PutFits(ep.t, id, n, Apply(f, e));
      SameSessionsFit(ep.t.Put(id, n, Apply(f, e)), HandleLive(ep, id, e).t);
    }
  }

  lemma AckFits(ep: Endpoint, id: UInt32)
    requires EndpointFits(ep)
    ensures EndpointFits(HandleAck(ep, id))
  {
    if id in ep.t.pending && ep.t.Has(id, ep.t.pending[id]) {
      var n := ep.t.pending[id];
      var g := ep.t.Get(id, n).(acked := true);
      assert Fits(ep.t.Get(id, n));
      hide SessionsFit;
      PutFits(ep.t, id, n, g);
      SameSessionsFit(ep.t.Put(id, n, g), HandleAck(ep, id).t);
    }
  }

  lemma AcceptFits(ep: Endpoint, f: Frame)
    requires EndpointFits(ep)
    ensures EndpointFits(HandleOpen(ep, f))
  {
    hide SessionsFit;
    InstallFits(ep.t, f.streamID, Accepted(f.streamID, ep.window, f.payload));
  }

  lemma HandleFits(ep: Endpoint, f: Frame)
    requires EndpointFits(ep) && Encodable(f)
    ensures EndpointFits(Handle(ep, f))
  {
    if f.Acks() {
      AckFits(ep, f.streamID);
    } else if f.Opens() {
      AcceptFits(ep, f);
    } else if f.command == CMD_STREAM_DATA {
      LiveFits(ep, f.streamID, ApplyData(f.payload));
      LiveFits(HandleLive(ep, f.streamID, ApplyData(f.payload)), f.streamID, ApplyFin);
    } else if f.command == CMD_STREAM_CLOSE {
      LiveFits(ep, f.streamID, ApplyFin);
    } else if f.command == CMD_STREAM_RESET {
      LiveFits(ep, f.streamID, ApplyReset);
    } else {
      SameSessionsFit(ep.t, Handle(ep, f).t);
    }
    hide SessionsFit, HandleLive, HandleAck, HandleOpen;
  }

  lemma TransmitFits(ep: Endpoint)
    requires EndpointFits(ep) && (ep.control != [] || ep.data != [])
    ensures EndpointFits(DoTransmit(ep))
  {
    hide SessionsFit;
  }

  lemma DoFits(l: Net, e: Event)
    requires NetFits(l) && CanDo(l, e) && (e.Control? ==> Encodable(e.frame))
    ensures NetFits(Do(l, e))
  {
    var ep := Ep(l, e.side);
    match e
    case OpenStream(side, payload) =>
      OpenFits(ep, payload);
      hide EndpointFits;
    case Act(side, id, n, fe) =>
      ActFits(ep, id, n, fe);
      hide EndpointFits;
    case Control(side, f) =>
      hide SessionsFit;
    case Transmit(side) =>
      TransmitFits(ep);
      hide EndpointFits;
    case Receive(side) =>
      var far := Ep(l, Peer(side));
      HandleFits(ep, far.wire[0].frame);
      PopFits(far);
      hide EndpointFits, Handle;
  }

  lemma PopFits(ep: Endpoint)
    requires EndpointFits(ep) && ep.wire != []
    ensures EndpointFits(ep.(wire := ep.wire[1..])) && Encodable(ep.wire[0].frame)
  {
    hide SessionsFit;
  }

  lemma {:induction false} RunFits(l: Net, es: seq<Event>)
    requires NetFits(l) && CanExec(l, es) && Injects(es)
    ensures NetFits(Exec(l, es))
    decreases |es|
  {
    hide NetFits, Do, CanDo;
    if es != [] {
      DoFits(l, es[0]);
      RunFits(Do(l, es[0]), es[1..]);
    }
  }

  /** In every run, the bytes that carry the frames in flight from `side` decode to
      exactly those frames, and reading one frame leaves the bytes of the others. */
  lemma BytesInFlight(l: Net, es: seq<Event>, side: Side)
    requires Connected(l) && CanExec(l, es) && Injects(es)
    ensures var fs := FramesOf(Ep(Exec(l, es), side).wire);
            && (forall i :: 0 <= i < |fs| ==> Encodable(fs[i]))
            && DecodeMany(EncodeAll(fs), |fs|) == Some((fs, []))
            && (fs != [] ==> Decode(EncodeAll(fs)) == Ok(fs[0], EncodeAll(fs[1..])))
  {
    RunFits(l, es);
    var fs := FramesOf(Ep(Exec(l, es), side).wire);
    hide Connected, CanExec, Exec;
    StreamRoundTrip(fs, []);
    assert EncodeAll(fs) + [] == EncodeAll(fs);
    if fs != [] {
      DecodeEncode(fs[0], EncodeAll(fs[1..]));
    }
    hide Decode, DecodeMany, Encode;
  }

  /** And when only some of those bytes have arrived: the reader gets exactly the frames
      that are there in full and waits for the rest of the next one. */
  lemma CutInFlight(l: Net, es: seq<Event>, side: Side, k: nat) returns (n: nat, rest: Bytes)
    requires Connected(l) && CanExec(l, es) && Injects(es)
    requires var fs := FramesOf(Ep(Exec(l, es), side).wire);
             (forall i :: 0 <= i < |fs| ==> Encodable(fs[i])) ==> k <= |EncodeAll(fs)|
    ensures var fs := FramesOf(Ep(Exec(l, es), side).wire);
            && (forall i :: 0 <= i < |fs| ==> Encodable(fs[i]))
            && n <= |fs| && DecodeMany(EncodeAll(fs)[..k], n) == Some((fs[..n], rest))
            && Decode(rest) == Err(Truncated)
  {
    BytesInFlight(l, es, side);
    hide Connected, CanExec, Exec, Decode, DecodeMany;
    n, rest := CutStream(FramesOf(Ep(Exec(l, es), side).wire), k);
  }
}
