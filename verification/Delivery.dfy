/** Whole runs of two linked endpoints: ordered delivery, what end-of-stream means,
    the open handshake, and the reuse of stream identifiers.
 */
module Delivery {
  import opened Frames
  import opened Flow
  import opened StreamTable
  import opened Conversation
  import opened FirstUse
  import opened Reuse
  import opened Link

  predicate CanExec(l: Net, es: seq<Event>)
    decreases es
  {
    es == [] || (CanDo(l, es[0]) && CanExec(Do(l, es[0]), es[1..]))
  }

  function Exec(l: Net, es: seq<Event>): Net
    requires CanExec(l, es)
    decreases es
  {
    if es == [] then l else Exec(Do(l, es[0]), es[1..])
  }

  /** Two endpoints that have just been connected, neither of whose stream limits
      lets the 32-bit identifier counter wrap. */
  ghost predicate Connected(l: Net) {
    && l.relay == NewEndpoint(Relay, l.relay.t.max, l.relay.window)
    && l.agent == NewEndpoint(Agent, l.agent.t.max, l.agent.window)
    && HighWater(l.relay.t) && HighWater(l.agent.t)
  }

  lemma ConnectedProj(l: Net, x: UInt32)
    requires Connected(l)
    ensures Shape(Proj(l, x)) && Unopened(Proj(l, x))
  {
    assert Filter([] + [], x) == [];
  }

  lemma ConnectedInv(l: Net)
    requires Connected(l)
    ensures NetInv(l)
  {
    forall x: UInt32 ensures Shape(Proj(l, x)) {
      ConnectedProj(l, x);
    }
  }

  // ------------------------------------------------------------ first use

  ghost predicate AllFirst(l: Net) {
    NetInv(l) && forall x: UInt32 :: FirstInv(Proj(l, x))
  }

  lemma AllFirstKept(l: Net, e: Event)
    requires AllFirst(l) && CanDo(l, e)
    ensures AllFirst(Do(l, e))
  {
    NetInvKept(l, e);
    forall x: UInt32 ensures FirstInv(Proj(Do(l, e), x)) {
      assert FirstInv(Proj(l, x));
      hide Proj, Do, NetInv, FirstInv, CanDo;
      SimulatesAll(l, e, x);
      if StepOf(l, e, x).Some? {
        FirstInvKept(Proj(l, x), StepOf(l, e, x).value);
      }
    }
  }

  lemma {:induction false} RunFirst(l: Net, es: seq<Event>)
    requires AllFirst(l) && CanExec(l, es)
    ensures AllFirst(Exec(l, es))
    decreases |es|
  {
    hide AllFirst, Do, CanDo;
    if es != [] {
      AllFirstKept(l, es[0]);
      RunFirst(Do(l, es[0]), es[1..]);
    }
  }

  /** What `reader` has read is a prefix of what `writer` has written, and it saw
      the end only after every chunk whose Write had completed when Close began. */
  predicate InOrder(writer: Flow, reader: Flow) {
    && reader.readOut <= Concat(writer.pushed)
    && (reader.eof ==>
          && !writer.close.NotClosed?
          && writer.closeMark <= writer.finMark <= |writer.pushed|
          && Concat(writer.pushed[..writer.closeMark]) <= Concat(writer.pushed[..writer.finMark]) <= reader.readOut)
  }

  lemma CarriedInOrder(src: Flow, dst: Flow, x: UInt32)
    requires Sound(src, x) && Sound(dst, x) && Carries(src, dst)
    ensures InOrder(src, dst)
  {
    ConcatPrefix(dst.got, src.pushed);
    assert dst.readOut <= Concat(dst.got);
    if dst.eof {
      ConcatPrefix(src.pushed[..src.finMark], src.sent);
      ConcatPrefix(src.pushed[..src.closeMark], src.pushed[..src.finMark]);
    }
  }

  function Sessions(l: Net, side: Side, x: UInt32): seq<Flow> {
    Ep(l, side).t.Incs(x)
  }

  /** Ordered end-to-end delivery for the first use of every identifier, in every
      run: both ways, and the end of the stream is never seen early. */
  lemma FirstUseDelivery(l: Net, es: seq<Event>, x: UInt32)
    requires Connected(l) && CanExec(l, es)
    ensures var os := Sessions(Exec(l, es), OwnerOf(x), x);
            var ps := Sessions(Exec(l, es), Peer(OwnerOf(x)), x);
            && (|ps| > 0 ==> |os| > 0 && InOrder(os[0], ps[0]) && InOrder(ps[0], os[0]))
            && (|ps| == 0 && |os| > 0 ==> os[0].readOut == [] && !os[0].eof)
  {
    AllFirstAfter(l, es);
    var l' := Exec(l, es);
    var c := Proj(l', x);
    assert FirstInv(c);
    if Paired(c) {
      CarriedInOrder(c.own.flows[0], c.guest.flows[0], x);
      CarriedInOrder(c.guest.flows[0], c.own.flows[0], x);
    }
    hide Exec;
  }

  lemma AllFirstAfter(l: Net, es: seq<Event>)
    requires Connected(l) && CanExec(l, es)
    ensures AllFirst(Exec(l, es))
  {
    ConnectedInv(l);
    forall x: UInt32 ensures FirstInv(Proj(l, x)) {
      ConnectedProj(l, x);
    }
    RunFirst(l, es);
  }

  /** In no run does an endpoint see a request to open in its own parity space, so
      the refusal of acceptPeerOpen is never sent. */
  lemma WrongParityNever(l: Net, es: seq<Event>, side: Side)
    requires Connected(l) && CanExec(l, es) && CanDo(Exec(l, es), Receive(side))
    ensures var l' := Exec(l, es);
            var f := Ep(l', Peer(side)).wire[0].frame;
            f.Opens() ==> !Ep(l', side).t.Owns(f.streamID)
  {
    AllFirstAfter(l, es);
    hide Exec, Connected;
    OffTheWire(Exec(l, es), side);
  }

  // --------------------------------------------------------- guarded reuse

  /** The guards of module Reuse, said of the endpoints: an identifier is handed out when
      it is inactive, no Close is still at work on it and the closing frame of its last
      use was queued; and a request is handled when no Close is still at work there. */
  predicate GuardedDo(l: Net, e: Event)
    requires CanDo(l, e)
  {
    match e
    case OpenStream(side, _) =>
      var t := Ep(l, side).t;
      var id := t.NextID();
      id !in t.live && AllSettled(t.Incs(id)) && FinQueued(t.Incs(id))
    case Receive(side) =>
      var f := Ep(l, Peer(side)).wire[0].frame;
      f.Opens() ==> AllSettled(Ep(l, side).t.Incs(f.streamID))
    case _ => true
  }

  /** Every step of the run that is about `x` is guarded. Nothing is asked of the steps
      about other identifiers. */
  predicate GuardedFor(l: Net, es: seq<Event>, x: UInt32)
    requires CanExec(l, es)
    decreases es
  {
    es == [] || ((StepOf(l, es[0], x).Some? ==> GuardedDo(l, es[0])) && GuardedFor(Do(l, es[0]), es[1..], x))
  }

  lemma OpenGuard(l: Net, side: Side, payload: Bytes)
    requires NetInv(l) && CanDo(l, OpenStream(side, payload))
    ensures var x := Ep(l, side).t.NextID();
            && OwnerOf(x) == side && Proj(l, x).own == HalfOf(Ep(l, side), x)
            && (Guarded(Proj(l, x), Opens(Ep(l, side).window, payload)) <==> GuardedDo(l, OpenStream(side, payload)))
  {
    hide Filter, AllSettled, FinQueued;
    var x := Ep(l, side).t.NextID();
    assert FirstSide(Ep(l, side)) == side;
    OpenSame(Ep(l, side), payload);
    hide NetInv;
    ProjParts(l, side, x);
  }

  lemma ReceiveGuard(l: Net, side: Side, x: UInt32)
    requires NetInv(l) && CanDo(l, Receive(side)) && About(Ep(l, Peer(side)).wire[0], x)
    ensures Guarded(Proj(l, x), Receives(WhoIs(side, x), Ep(l, side).window)) <==> GuardedDo(l, Receive(side))
  {
    hide Filter, AllSettled, Proj, NetInv, HalfShape;
    ProjParts(l, side, x);
    PopHalf(Ep(l, Peer(side)), x);
    ShapeAt(l, side, x);
    OffTheWire(l, side);
  }

  lemma GuardOf(l: Net, e: Event, x: UInt32)
    requires NetInv(l) && CanDo(l, e) && StepOf(l, e, x).Some?
    ensures Guarded(Proj(l, x), StepOf(l, e, x).value) <==> GuardedDo(l, e)
  {
    hide NetInv, Proj;
    match e
    case OpenStream(side, payload) =>
      hide GuardedDo, Guarded;
      OpenGuard(l, side, payload);
    case Act(_, _, _, _) =>
    case Control(_, _) =>
    case Transmit(_) =>
    case Receive(side) =>
      hide GuardedDo, Guarded;
      ReceiveGuard(l, side, x);
  }

  lemma ReuseKeptBy(l: Net, e: Event, x: UInt32)
    requires NetInv(l) && ReuseInv(Proj(l, x)) && CanDo(l, e) && (StepOf(l, e, x).Some? ==> GuardedDo(l, e))
    ensures ReuseInv(Proj(Do(l, e), x))
  {
    hide Proj, Do, NetInv, ReuseInv, CanDo, GuardedDo, Guarded;
    SimulatesAll(l, e, x);
    if StepOf(l, e, x).Some? {
      GuardOf(l, e, x);
      ReuseInvKept(Proj(l, x), StepOf(l, e, x).value);
    }
  }

  lemma {:induction false} RunReused(l: Net, es: seq<Event>, x: UInt32)
    requires NetInv(l) && ReuseInv(Proj(l, x)) && CanExec(l, es) && GuardedFor(l, es, x)
    ensures NetInv(Exec(l, es)) && ReuseInv(Proj(Exec(l, es), x))
    decreases |es|
  {
    hide NetInv, ReuseInv, Proj, Do, CanDo, GuardedDo, StepOf;
    if es != [] {
      NetInvKept(l, es[0]);
      ReuseKeptBy(l, es[0], x);
      RunReused(Do(l, es[0]), es[1..], x);
    }
  }

  lemma ReusedAfter(l: Net, es: seq<Event>, x: UInt32)
    requires Connected(l) && CanExec(l, es) && GuardedFor(l, es, x)
    ensures NetInv(Exec(l, es)) && ReuseInv(Proj(Exec(l, es), x))
  {
    ConnectedInv(l);
    ConnectedProj(l, x);
    RunReused(l, es, x);
  }

  /** The identifier of the frame that `side` is about to handle. */
  function Arriving(l: Net, side: Side): UInt32
    requires CanDo(l, Receive(side))
  {
    Ep(l, Peer(side)).wire[0].frame.streamID
  }

  lemma FrameFindsPartner(l: Net, side: Side)
    requires NetInv(l) && CanDo(l, Receive(side)) && ReuseInv(Proj(l, Arriving(l, side)))
    ensures var p := Ep(l, Peer(side)).wire[0];
            var live, id := Ep(l, side).t.live, p.frame.streamID;
            && (p.frame.Opens() && GuardedDo(l, Receive(side)) ==> id !in live)
            && (p.frame.command in {CMD_STREAM_DATA, CMD_STREAM_CLOSE} ==> id in live && live[id] == p.inc)
  {
    hide NetInv, ReuseInv, Filter, GuardedDo, Guarded, Do;
    var x, p := Arriving(l, side), Ep(l, Peer(side)).wire[0];
    if p.frame.OnStream() {
      SimulatesAll(l, Receive(side), x);
      ReceiveGuard(l, side, x);
      PopHalf(Ep(l, Peer(side)), x);
      ProjParts(l, side, x);
      AppliedToPartner(Proj(l, x), WhoIs(side, x), Ep(l, side).window);
      hide Proj;
    }
  }

  /** Reuse: a data or closing frame is applied to the incarnation that answers the one
      that sent it, and a guarded request to open finds its identifier inactive at the
      peer. Only the steps about that identifier need be guarded. */
  lemma NoStaleFrames(l: Net, es: seq<Event>, side: Side)
    requires Connected(l) && CanExec(l, es) && CanDo(Exec(l, es), Receive(side))
    requires GuardedFor(l, es, Arriving(Exec(l, es), side))
    ensures var l' := Exec(l, es);
            var p := Ep(l', Peer(side)).wire[0];
            var live, id := Ep(l', side).t.live, p.frame.streamID;
            && (p.frame.Opens() && GuardedDo(l', Receive(side)) ==> id !in live)
            && (p.frame.command in {CMD_STREAM_DATA, CMD_STREAM_CLOSE} ==> id in live && live[id] == p.inc)
  {
    ReusedAfter(l, es, Arriving(Exec(l, es), side));
    hide Exec, Connected, GuardedFor, CanExec, NetInv, ReuseInv, Proj;
    FrameFindsPartner(Exec(l, es), side);
  }

  /** Ordered delivery for every use of an identifier whose own steps are guarded. */
  lemma EveryUseDelivery(l: Net, es: seq<Event>, x: UInt32, i: nat)
    requires Connected(l) && CanExec(l, es) && GuardedFor(l, es, x)
    requires i < |Sessions(Exec(l, es), Peer(OwnerOf(x)), x)|
    ensures var os := Sessions(Exec(l, es), OwnerOf(x), x);
            var ps := Sessions(Exec(l, es), Peer(OwnerOf(x)), x);
            i < |os| && InOrder(os[i], ps[i]) && InOrder(ps[i], os[i])
  {
    ReusedAfter(l, es, x);
    hide Exec, Connected;
    var c := Proj(Exec(l, es), x);
    UsesAgree(c, i);
    CarriedInOrder(c.own.flows[i], c.guest.flows[i], x);
    CarriedInOrder(c.guest.flows[i], c.own.flows[i], x);
  }

  lemma UsesAgree(c: Conv, i: nat)
    requires ReuseInv(c) && i < |c.guest.flows|
    ensures i < |c.own.flows| && Agree(c.own.flows[i], c.guest.flows[i])
    ensures Sound(c.own.flows[i], c.x) && Sound(c.guest.flows[i], c.x)
  {
  }

  /** Once open call `i` has succeeded, the peer has a session of the same use, with the
      payload of the request; and whatever the opener has received of that session came
      after the answer. */
  predicate Agreed(os: seq<Flow>, ps: seq<Flow>, i: nat)
    requires i < |os|
  {
    && (os[i].acked ==> i < |ps| && ps[i].s.payload == os[i].asked)
    && (os[i].got != [] || os[i].gotFin ==> os[i].acked)
  }

  /** The handshake agrees for every use of an identifier whose own steps are guarded. */
  lemma HandshakeAgreement(l: Net, es: seq<Event>, x: UInt32, i: nat)
    requires Connected(l) && CanExec(l, es) && GuardedFor(l, es, x)
    requires i < |Sessions(Exec(l, es), OwnerOf(x), x)|
    ensures Agreed(Sessions(Exec(l, es), OwnerOf(x), x), Sessions(Exec(l, es), Peer(OwnerOf(x)), x), i)
  {
    ReusedAfter(l, es, x);
    hide Exec, Connected;
    var c := Proj(Exec(l, es), x);
    hide ReuseInv;
    AnsweredUses(c, i);
  }

  lemma AnsweredUses(c: Conv, i: nat)
    requires ReuseInv(c) && i < |c.own.flows|
    ensures Agreed(c.own.flows, c.guest.flows, i)
  {
    if i < |c.guest.flows| {
      hide Established, Reopening;
      UsesAgree(c, i);
    }
  }

  /** For the first use of an identifier the handshake agrees in every run. */
  lemma FirstHandshake(l: Net, es: seq<Event>, x: UInt32)
    requires Connected(l) && CanExec(l, es) && Sessions(Exec(l, es), OwnerOf(x), x) != []
    ensures Agreed(Sessions(Exec(l, es), OwnerOf(x), x), Sessions(Exec(l, es), Peer(OwnerOf(x)), x), 0)
  {
    AllFirstAfter(l, es);
    hide Exec, Connected;
    assert FirstInv(Proj(Exec(l, es), x));
  }

  // ------------------------------------------------------- unguarded reuse

  /** The second session under `x` was opened before the first one's closing frame
      was queued: its request is under way ahead of that frame. */
  lemma EarlyReuseStarts(l: Net, es: seq<Event>, e: Event, x: UInt32)
    requires Connected(l) && CanExec(l, es) && CanDo(Exec(l, es), e)
    requires e.OpenStream? && Ep(Exec(l, es), e.side).t.NextID() == x
    requires |Sessions(Exec(l, es), e.side, x)| == 1 && !FinQueued(Sessions(Exec(l, es), e.side, x))
    ensures AllFirst(Do(Exec(l, es), e)) && Early(Proj(Do(Exec(l, es), e), x))
  {
    AllFirstAfter(l, es);
    hide Exec, Connected, Do;
    var l' := Exec(l, es);
    AllFirstKept(l', e);
    assert FirstInv(Proj(l', x));
    hide FirstInv, NetInv, Early, Filter;
    SimulatesAll(l', e, x);
    OpenGuard(l', e.side, e.payload);
    EarlyStarts(Proj(l', x), Ep(l', e.side).window, e.payload);
  }

  lemma {:induction false} RunEarly(l: Net, es: seq<Event>, x: UInt32)
    requires AllFirst(l) && CanExec(l, es) && Early(Proj(l, x))
    ensures AllFirst(Exec(l, es)) && Early(Proj(Exec(l, es), x))
    decreases |es|
  {
    hide AllFirst, Do, CanDo, Early, Proj;
    if es != [] {
      AllFirstKept(l, es[0]);
      EarlyKeptBy(l, es[0], x);
      RunEarly(Do(l, es[0]), es[1..], x);
    }
  }

  lemma EarlyKeptBy(l: Net, e: Event, x: UInt32)
    requires AllFirst(l) && CanDo(l, e) && Early(Proj(l, x))
    ensures Early(Proj(Do(l, e), x))
  {
    assert FirstInv(Proj(l, x));
    hide Proj, Do, NetInv, FirstInv, CanDo, Early;
    SimulatesAll(l, e, x);
    if StepOf(l, e, x).Some? {
      EarlyKept(Proj(l, x), StepOf(l, e, x).value);
    }
  }

  /** After any run at all, guarded or not: if an identifier is handed out a second time
      before the closing frame of its first use was queued, the request always finds the
      identifier still active at the peer, however the run goes on, and is dropped. */
  lemma EarlyReuseIsDropped(l: Net, es: seq<Event>, e: Event, more: seq<Event>, x: UInt32)
    requires Connected(l) && CanExec(l, es) && CanDo(Exec(l, es), e)
    requires e.OpenStream? && Ep(Exec(l, es), e.side).t.NextID() == x
    requires |Sessions(Exec(l, es), e.side, x)| == 1 && !FinQueued(Sessions(Exec(l, es), e.side, x))
    requires CanExec(Do(Exec(l, es), e), more)
    ensures var l' := Exec(Do(Exec(l, es), e), more);
            CanDo(l', Receive(Peer(e.side))) ==>
              var p := Ep(l', e.side).wire[0];
              p.frame.Opens() && p.frame.streamID == x && p.inc == 1 ==> x in Ep(l', Peer(e.side)).t.live
  {
    EarlyReuseStarts(l, es, e, x);
    var l1 := Do(Exec(l, es), e);
    hide Exec, Connected, Do;
    hide AllFirst, Early, Proj;
    RunEarly(l1, more, x);
    var l' := Exec(l1, more);
    if CanDo(l', Receive(Peer(e.side))) {
      EarlyRequestMeetsLive(l', e.side, x);
    }
  }

  lemma EarlyRequestMeetsLive(l: Net, side: Side, x: UInt32)
    requires AllFirst(l) && Early(Proj(l, x)) && CanDo(l, Receive(Peer(side)))
    ensures var p := Ep(l, side).wire[0];
            p.frame.Opens() && p.frame.streamID == x && p.inc == 1 ==> x in Ep(l, Peer(side)).t.live
  {
    assert FirstInv(Proj(l, x));
    hide NetInv, FirstInv, Early, Filter, HalfShape;
    var p := Ep(l, side).wire[0];
    if p.frame.Opens() && p.frame.streamID == x && p.inc == 1 {
      OffTheWire(l, Peer(side));
      PopHalf(Ep(l, side), x);
      ShapeAt(l, Peer(side), x);
      EarlyIsLive(Proj(l, x));
    }
  }
}
