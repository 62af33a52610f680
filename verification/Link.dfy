/** Two endpoints of one connection: their stream tables, their two-lane write
    queues and the frames in flight each way. Every step is one frame handled by a
    read loop, one frame moved by a write loop, or one step of a session at the
    grain of module Flow. Streams are not reset, opens are not cancelled and the
    session stays up.
 */
module Link {
  import opened Frames
  import opened Flow
  import opened StreamTable
  import opened Conversation
  import opened FirstUse

  datatype Endpoint = Endpoint(
    t: Table<Flow>,
    window: int,
    control: seq<Frame>,
    data: seq<Packet>,
    wire: seq<Packet>)

  datatype Net = Net(relay: Endpoint, agent: Endpoint)

  datatype Event =
    | OpenStream(side: Side, payload: Bytes)
    | Act(side: Side, id: UInt32, n: nat, e: FlowEvent)
    | Control(side: Side, frame: Frame)
    | Transmit(side: Side)
    | Receive(side: Side)

  function Ep(l: Net, side: Side): Endpoint {
    if side.Relay? then l.relay else l.agent
  }

  function WithEp(l: Net, side: Side, ep: Endpoint): Net {
    if side.Relay? then l.(relay := ep) else l.(agent := ep)
  }

  /** Relay identifiers are odd, agent identifiers even. */
  function FirstID(side: Side): UInt32 {
    if side.Relay? then 1 else 2
  }

  function NewEndpoint(side: Side, max: nat, window: int): Endpoint {
    Endpoint(EmptyTable(FirstID(side), max), window, [], [], [])
  }

  predicate CanDo(l: Net, e: Event) {
    match e
    case OpenStream(side, payload) => Ep(l, side).t.CanOpen() && |payload| <= MAX_PAYLOAD_SIZE
    case Act(side, id, n, fe) =>
      var t := Ep(l, side).t;
      && t.Has(id, n)
      && !fe.FromReadLoop()
      && Enabled(t.Get(id, n), fe)
      && (fe.UserCall() ==> t.Get(id, n).acked)
      && (fe.WriteCheck? ==> |fe.chunk| <= MAX_PAYLOAD_SIZE)
    case Control(_, f) => !f.OnStream()
    case Transmit(side) => Ep(l, side).control != [] || Ep(l, side).data != []
    case Receive(side) => Ep(l, Peer(side)).wire != []
  }

  function DoOpen(ep: Endpoint, payload: Bytes): Endpoint {
    var id := ep.t.NextID();
    var n := |ep.t.Incs(id)|;
    var t := ep.t.Allocate().Install(id, Asked(id, ep.window, payload));
    ep.(t := t.(pending := t.pending[id := n]), data := ep.data + [Packet(OpenFrame(id, payload), n)])
  }

  function DoAct(ep: Endpoint, id: UInt32, n: nat, e: FlowEvent): Endpoint
    requires ep.t.Has(id, n) && Enabled(ep.t.Get(id, n), e)
  {
    var f := ep.t.Get(id, n);
    var g := Apply(f, e);
    var t := ep.t.Put(id, n, g);
    ep.(t := if e.CloseNotify? && g.s.Terminal() then t.Drop(id) else t,
        data := ep.data + Tag(Emits(f, e), n))
  }

  /** The write loop: control frames first. */
  function DoTransmit(ep: Endpoint): Endpoint
    requires ep.control != [] || ep.data != []
  {
    if ep.control != [] then
      ep.(control := ep.control[1..], wire := ep.wire + [Packet(ep.control[0], 0)])
    else
      ep.(data := ep.data[1..], wire := ep.wire + [ep.data[0]])
  }

  function HandleAck(ep: Endpoint, id: UInt32): Endpoint {
    if id in ep.t.pending && ep.t.Has(id, ep.t.pending[id]) then
      var n := ep.t.pending[id];
      var t := ep.t.Put(id, n, ep.t.Get(id, n).(acked := true));
      ep.(t := t.(pending := t.pending - {id}))
    else ep
  }

  function HandleOpen(ep: Endpoint, f: Frame): Endpoint {
    var id := f.streamID;
    if id in ep.t.live then ep
    else if ep.t.Owns(id) then ep.(control := ep.control + [ResetFrame(id, RESET_CODE_PROTOCOL_ERROR)])
    else
      ep.(t := ep.t.Install(id, Accepted(id, ep.window, f.payload)),
          data := ep.data + [Packet(AckFrame(id), |ep.t.Incs(id)|)])
  }

  /** The read loop applies `e` to the live session of `id` and, unless it is data,
      takes the session out of the table if that ended it. */
  function HandleLive(ep: Endpoint, id: UInt32, e: FlowEvent): Endpoint
    requires e.FromReadLoop()
  {
    if id in ep.t.live && ep.t.Has(id, ep.t.live[id]) then
      var n := ep.t.live[id];
      var g := Apply(ep.t.Get(id, n), e);
      var t := ep.t.Put(id, n, g);
      ep.(t := if !e.ApplyData? && g.s.Terminal() then t.Drop(id) else t)
    else ep
  }

  function HandleReset(ep: Endpoint, f: Frame): Endpoint {
    if f.streamID !in ep.t.live then ep else
    var ep1 := HandleLive(ep, f.streamID, ApplyReset);
    ep1.(control := ep1.control + [ResetFrame(f.streamID, if |f.payload| >= 4 then GetUint32(f.payload[..4]) else 0)])
  }

  function Handle(ep: Endpoint, f: Frame): Endpoint {
    if f.Acks() then HandleAck(ep, f.streamID)
    else if f.Opens() then HandleOpen(ep, f)
    else if f.command == CMD_STREAM_DATA then
      var ep1 := HandleLive(ep, f.streamID, ApplyData(f.payload));
      if f.Fin() then HandleLive(ep1, f.streamID, ApplyFin) else ep1
    else if f.command == CMD_STREAM_CLOSE then HandleLive(ep, f.streamID, ApplyFin)
    else if f.command == CMD_STREAM_RESET then HandleReset(ep, f)
    else if f.command == CMD_PING then ep.(control := ep.control + [PongFrame(f.payload)])
    else if f.command == CMD_GO_AWAY then ep.(t := ep.t.(goingAway := true))
    else ep
  }

  function Do(l: Net, e: Event): Net
    requires CanDo(l, e)
  {
    var ep := Ep(l, e.side);
    match e
    case OpenStream(side, payload) => WithEp(l, side, DoOpen(ep, payload))
    case Act(side, id, n, fe) => WithEp(l, side, DoAct(ep, id, n, fe))
    case Control(side, f) => WithEp(l, side, ep.(control := ep.control + [f]))
    case Transmit(side) => WithEp(l, side, DoTransmit(ep))
    case Receive(side) =>
      var far := Ep(l, Peer(side));
      WithEp(WithEp(l, Peer(side), far.(wire := far.wire[1..])), side, Handle(ep, far.wire[0].frame))
  }

  // ------------------------------------------------ projection onto one stream

  predicate About(p: Packet, x: UInt32) {
    p.frame.OnStream() && p.frame.streamID == x
  }

  /** The packets about stream `x`, in order. */
  function Filter(ps: seq<Packet>, x: UInt32): seq<Packet> {
    if ps == [] then [] else
    (if About(ps[0], x) then [ps[0]] else []) + Filter(ps[1..], x)
  }

  lemma {:induction false} FilterAppend(a: seq<Packet>, b: seq<Packet>, x: UInt32)
    ensures Filter(a + b, x) == Filter(a, x) + Filter(b, x)
  {
    hide About;
    if a == [] {
      assert a + b == b;
    } else {
      assert (a + b)[1..] == a[1..] + b;
      FilterAppend(a[1..], b, x);
    }
  }

  function At(m: map<UInt32, nat>, x: UInt32): Option<nat> {
    if x in m then Some(m[x]) else None
  }

  /** `x` has been handed out by its owner's allocator. */
  predicate Used(t: Table<Flow>, x: UInt32) {
    t.Owns(x) && t.start <= x < t.next
  }

  function HalfOf(ep: Endpoint, x: UInt32): Half {
    Half(ep.t.Incs(x), At(ep.t.live, x), At(ep.t.pending, x), multiset(ep.t.free)[x], Used(ep.t, x),
         Filter(ep.wire + ep.data, x))
  }

  function OwnerOf(x: UInt32): Side {
    if x % 2 == 1 then Relay else Agent
  }

  function WhoIs(side: Side, x: UInt32): Who {
    if side == OwnerOf(x) then Owner else Guest
  }

  function Proj(l: Net, x: UInt32): Conv {
    Conv(x, HalfOf(Ep(l, OwnerOf(x)), x), HalfOf(Ep(l, Peer(OwnerOf(x))), x))
  }

  lemma ProjParts(l: Net, side: Side, x: UInt32)
    ensures Part(Proj(l, x), WhoIs(side, x)) == HalfOf(Ep(l, side), x)
    ensures Other(Proj(l, x), WhoIs(side, x)) == HalfOf(Ep(l, Peer(side)), x)
  {
  }

  // --------------------------------------------------------------- invariants

  function FirstSide(ep: Endpoint): Side {
    if ep.t.start == 1 then Relay else Agent
  }

  /** What holds of one endpoint whatever its sessions do. */
  ghost predicate EndpointInv(ep: Endpoint, side: Side) {
    && ep.t.start == FirstID(side)
    && Covered(ep.t) && HighWater(ep.t)
    && (forall id :: id in ep.t.free ==> Used(ep.t, id))
    && (forall i :: 0 <= i < |ep.control| ==> !ep.control[i].OnStream())
  }

  ghost predicate NetInv(l: Net) {
    && EndpointInv(l.relay, Relay) && EndpointInv(l.agent, Agent)
    && forall x: UInt32 :: Shape(Proj(l, x))
  }

  /** The step of stream `x` that the event `e` is, if it is one. */
  function StepOf(l: Net, e: Event, x: UInt32): Option<ConvEvent>
    requires CanDo(l, e)
  {
    match e
    case OpenStream(side, payload) =>
      if Ep(l, side).t.NextID() == x then Some(Opens(Ep(l, side).window, payload)) else None
    case Act(side, id, n, fe) => if id == x then Some(Acts(WhoIs(side, x), n, fe)) else None
    case Control(_, _) => None
    case Transmit(_) => None
    case Receive(side) =>
      if About(Ep(l, Peer(side)).wire[0], x) then Some(Receives(WhoIs(side, x), Ep(l, side).window)) else None
  }

  /** The event moves stream `x` by its step, or leaves it alone. */
  ghost predicate Simulates(l: Net, e: Event, x: UInt32)
    requires CanDo(l, e)
  {
    match StepOf(l, e, x)
    case None => Proj(Do(l, e), x) == Proj(l, x)
    case Some(ce) => CanStep(Proj(l, x), ce) && Proj(Do(l, e), x) == Step(Proj(l, x), ce)
  }

  lemma OpenSimulates(l: Net, side: Side, payload: Bytes, x: UInt32)
    requires NetInv(l) && CanDo(l, OpenStream(side, payload))
    ensures Simulates(l, OpenStream(side, payload), x)
  {
    var ep := Ep(l, side);
    assert FirstSide(ep) == side;
    if x == ep.t.NextID() {
      OpenSame(ep, payload);
    } else {
      OpenOther(ep, payload, x);
    }
    hide HalfOf, DoOpen, NetInv;
  }

  lemma QueuePackets(wire: seq<Packet>, data: seq<Packet>, ps: seq<Packet>, x: UInt32)
    ensures Filter(wire + (data + ps), x) == Filter(wire + data, x) + Filter(ps, x)
  {
    assert wire + (data + ps) == (wire + data) + ps;
    FilterAppend(wire + data, ps, x);
  }

  lemma FilterOne(p: Packet, x: UInt32)
    ensures Filter([p], x) == if About(p, x) then [p] else []
  {
    assert [p][1..] == [];
  }

  /** The allocator hands out an identifier of its own, and only that one changes. */
  lemma AllocateOne(t: Table<Flow>, x: UInt32)
    requires Covered(t) && HighWater(t) && t.CanOpen()
    requires forall id :: id in t.free ==> Used(t, id)
    ensures var id, t' := t.NextID(), t.Allocate();
            && t.Owns(id) && t.start <= id
            && (x != id ==> multiset(t'.free)[x] == multiset(t.free)[x] && Used(t', x) == Used(t, x))
            && Used(t', id)
            && (if t.free != [] then multiset(t.free)[id] > 0 && multiset(t'.free)[id] == multiset(t.free)[id] - 1
                else multiset(t'.free)[id] == 0 && !Used(t, id))
  {
    if t.free == [] {
      FreshBelowHighWater(t);
    } else {
      var k := |t.free| - 1;
      assert t.free == t.free[..k] + [t.free[k]];
      assert t.free[k] in t.free;
    }
  }

  lemma OpenOther(ep: Endpoint, payload: Bytes, x: UInt32)
    requires EndpointInv(ep, FirstSide(ep)) && ep.t.CanOpen() && x != ep.t.NextID()
    ensures HalfOf(DoOpen(ep, payload), x) == HalfOf(ep, x)
  {
    var id := ep.t.NextID();
    var p := Packet(OpenFrame(id, payload), |ep.t.Incs(id)|);
    AllocateOne(ep.t, x);
    QueuePackets(ep.wire, ep.data, [p], x);
    FilterOne(p, x);
    hide Filter, EndpointInv;
  }

  lemma OpenSame(ep: Endpoint, payload: Bytes)
    requires EndpointInv(ep, FirstSide(ep)) && ep.t.CanOpen()
    ensures var x := ep.t.NextID();
            var h := HalfOf(ep, x);
            && OwnerOf(x) == FirstSide(ep)
            && (h.free > 0 || !h.used)
            && HalfOf(DoOpen(ep, payload), x) == OpenHalf(h, x, ep.window, payload)
  {
    var id := ep.t.NextID();
    var p := Packet(OpenFrame(id, payload), |ep.t.Incs(id)|);
    AllocateOne(ep.t, id);
    QueuePackets(ep.wire, ep.data, [p], id);
    FilterOne(p, id);
    assert OwnerOf(id) == FirstSide(ep);
    hide Filter, EndpointInv;
  }

  // ------------------------------------------------------- the other events

  lemma {:induction false} FilterAll(ps: seq<Packet>, x: UInt32)
    requires forall i :: 0 <= i < |ps| ==> About(ps[i], x)
    ensures Filter(ps, x) == ps
  {
    if ps != [] {
      FilterAll(ps[1..], x);
    }
  }

  lemma {:induction false} FilterNone(ps: seq<Packet>, x: UInt32)
    requires forall i :: 0 <= i < |ps| ==> !About(ps[i], x)
    ensures Filter(ps, x) == []
  {
    if ps != [] {
      FilterNone(ps[1..], x);
    }
  }

  lemma FilterEmitted(f: Flow, e: FlowEvent, n: nat, x: UInt32)
    requires Enabled(f, e)
    ensures Filter(Tag(Emits(f, e), n), x) == if f.s.id == x then Tag(Emits(f, e), n) else []
  {
    if f.s.id == x {
      FilterAll(Tag(Emits(f, e), n), x);
    } else {
      FilterNone(Tag(Emits(f, e), n), x);
    }
  }

  /** What putting a session back and dropping its entry do to stream `x`. */
  lemma PutHalf(ep: Endpoint, id: UInt32, n: nat, g: Flow, x: UInt32)
    requires ep.t.Has(id, n)
    ensures var h, h' := HalfOf(ep, x), HalfOf(ep.(t := ep.t.Put(id, n, g)), x);
            h' == if id == x then h.(flows := h.flows[n := g]) else h
  {
  }

  lemma DropHalf(ep: Endpoint, id: UInt32, x: UInt32)
    ensures var h, h' := HalfOf(ep, x), HalfOf(ep.(t := ep.t.Drop(id)), x);
            h' == if id == x then DropLive(h, if ep.t.Owns(x) then Owner else Guest) else h
  {
  }

  lemma DataHalf(ep: Endpoint, ps: seq<Packet>, x: UInt32)
    ensures HalfOf(ep.(data := ep.data + ps), x) == HalfOf(ep, x).(out := HalfOf(ep, x).out + Filter(ps, x))
  {
    QueuePackets(ep.wire, ep.data, ps, x);
  }

  function RoleIn(ep: Endpoint, x: UInt32): Who {
    if ep.t.Owns(x) then Owner else Guest
  }

  lemma ActHalfOf(ep: Endpoint, id: UInt32, n: nat, e: FlowEvent, x: UInt32)
    requires ep.t.Has(id, n) && ep.t.Get(id, n).s.id == id && Enabled(ep.t.Get(id, n), e)
    ensures var h := HalfOf(ep, x);
            HalfOf(DoAct(ep, id, n, e), x) == if id == x then ActHalf(h, RoleIn(ep, x), n, e) else h
  {
    var f := ep.t.Get(id, n);
    var g := Apply(f, e);
    var ep1 := ep.(t := ep.t.Put(id, n, g));
    var ep2 := if e.CloseNotify? && g.s.Terminal() then ep1.(t := ep1.t.Drop(id)) else ep1;
    var ps := Tag(Emits(f, e), n);
    FilterEmitted(f, e, n, x);
    hide Apply, Enabled, Emits, Filter;
    PutHalf(ep, id, n, g, x);
    DropHalf(ep1, id, x);
    DataHalf(ep2, ps, x);
    assert DoAct(ep, id, n, e) == ep2.(data := ep2.data + ps);
    hide HalfOf, DoAct;
  }

  lemma ShapeAt(l: Net, side: Side, x: UInt32)
    requires NetInv(l)
    ensures HalfShape(HalfOf(Ep(l, side), x), WhoIs(side, x), x)
    ensures RoleIn(Ep(l, side), x) == WhoIs(side, x)
  {
    assert Shape(Proj(l, x));
    ProjParts(l, side, x);
  }

  lemma ActSimulates(l: Net, side: Side, id: UInt32, n: nat, e: FlowEvent, x: UInt32)
    requires NetInv(l) && CanDo(l, Act(side, id, n, e))
    ensures Simulates(l, Act(side, id, n, e), x)
  {
    hide DoAct, NetInv, ActHalf, Filter;
    var ep := Ep(l, side);
    ShapeAt(l, side, id);
    assert Sound(HalfOf(ep, id).flows[n], id);
    hide Sound, HalfShape, Enabled;
    ActHalfOf(ep, id, n, e, x);
    ShapeAt(l, side, x);
    ProjParts(l, side, x);
  }

  lemma TransmitHalf(ep: Endpoint, side: Side, x: UInt32)
    requires EndpointInv(ep, side) && (ep.control != [] || ep.data != [])
    ensures HalfOf(DoTransmit(ep), x) == HalfOf(ep, x)
  {
    hide Filter, Covered, HighWater;
    if ep.control != [] {
      var p := Packet(ep.control[0], 0);
      assert !About(p, x);
      hide EndpointInv, About;
      FilterAppend(ep.wire + [p], ep.data, x);
      FilterAppend(ep.wire, [p], x);
      FilterOne(p, x);
      FilterAppend(ep.wire, ep.data, x);
      assert Filter(ep.wire, x) + [] == Filter(ep.wire, x);
    } else {
      hide EndpointInv, About;
      assert (ep.wire + [ep.data[0]]) + ep.data[1..] == ep.wire + ep.data;
    }
  }

  /** Taking the oldest packet off the wire. */
  lemma PopHalf(ep: Endpoint, x: UInt32)
    requires ep.wire != []
    ensures var h, h' := HalfOf(ep, x), HalfOf(ep.(wire := ep.wire[1..]), x);
            if About(ep.wire[0], x) then h.out != [] && h.out[0] == ep.wire[0] && h' == h.(out := h.out[1..])
            else h' == h
  {
    assert (ep.wire + ep.data)[1..] == ep.wire[1..] + ep.data;
  }

  lemma LiveHalf(ep: Endpoint, id: UInt32, e: FlowEvent, x: UInt32)
    requires e.ApplyData? || e.ApplyFin?
    ensures HalfOf(HandleLive(ep, id, e), x) ==
            if id == x then ApplyLive(HalfOf(ep, x), RoleIn(ep, x), e) else HalfOf(ep, x)
    ensures RoleIn(HandleLive(ep, id, e), x) == RoleIn(ep, x)
  {
    if id in ep.t.live && ep.t.Has(id, ep.t.live[id]) {
      var n := ep.t.live[id];
      var g := Apply(ep.t.Get(id, n), e);
      var ep1 := ep.(t := ep.t.Put(id, n, g));
      hide Apply, Filter;
      PutHalf(ep, id, n, g, x);
      DropHalf(ep1, id, x);
    }
  }

  lemma AckHalf(ep: Endpoint, id: UInt32, x: UInt32)
    ensures var h := HalfOf(ep, x);
            HalfOf(HandleAck(ep, id), x) ==
            if id == x then ReceiveHalf(h, RoleIn(ep, x), x, ep.window, AckFrame(x)) else h
  {
    hide Filter;
  }

  lemma InstallHalf(ep: Endpoint, id: UInt32, s: Flow, x: UInt32)
    ensures var h, h' := HalfOf(ep, x), HalfOf(ep.(t := ep.t.Install(id, s)), x);
            h' == if id == x then h.(flows := h.flows + [s], live := Some(|h.flows|)) else h
  {
  }

  lemma AcceptOther(ep: Endpoint, f: Frame, x: UInt32)
    requires f == OpenFrame(f.streamID, f.payload) && !ep.t.Owns(f.streamID) && f.streamID != x
    ensures HalfOf(HandleOpen(ep, f), x) == HalfOf(ep, x)
  {
    var id := f.streamID;
    if id !in ep.t.live {
      var p := Packet(AckFrame(id), |ep.t.Incs(id)|);
      var ep1 := ep.(t := ep.t.Install(id, Accepted(id, ep.window, f.payload)));
      InstallHalf(ep, id, Accepted(id, ep.window, f.payload), x);
      DataHalf(ep1, [p], x);
      FilterOne(p, x);
      assert HandleOpen(ep, f) == ep1.(data := ep1.data + [p]);
      hide HalfOf, Filter, HandleOpen;
    }
  }

  lemma AcceptSame(ep: Endpoint, f: Frame)
    requires f == OpenFrame(f.streamID, f.payload) && !ep.t.Owns(f.streamID)
    ensures var x := f.streamID; HalfOf(HandleOpen(ep, f), x) == ReceiveHalf(HalfOf(ep, x), Guest, x, ep.window, f)
  {
    var id := f.streamID;
    if id !in ep.t.live {
      var p := Packet(AckFrame(id), |ep.t.Incs(id)|);
      var ep1 := ep.(t := ep.t.Install(id, Accepted(id, ep.window, f.payload)));
      InstallHalf(ep, id, Accepted(id, ep.window, f.payload), id);
      DataHalf(ep1, [p], id);
      FilterOne(p, id);
      assert HandleOpen(ep, f) == ep1.(data := ep1.data + [p]);
      assert HalfOf(ep, id).live.None? && HalfOf(ep, id).flows == ep.t.Incs(id);
      hide HalfOf, Filter, HandleOpen;
    }
  }

  /** The frames two endpoints of these runs exchange about a stream. */
  predicate Plain(f: Frame) {
    || f == AckFrame(f.streamID)
    || f == OpenFrame(f.streamID, f.payload)
    || f == DataFrame(f.streamID, f.payload)
    || f == CloseFrame(f.streamID)
    || !f.OnStream()
  }

  lemma ControlHalf(ep: Endpoint, f: Frame, x: UInt32)
    requires !f.OnStream()
    ensures HalfOf(Handle(ep, f), x) == HalfOf(ep, x)
  {
  }

  lemma HandleHalf(ep: Endpoint, f: Frame, x: UInt32)
    requires Plain(f) && (f.Opens() ==> !ep.t.Owns(f.streamID))
    ensures var h := HalfOf(ep, x);
            HalfOf(Handle(ep, f), x) ==
            if f.OnStream() && f.streamID == x then ReceiveHalf(h, RoleIn(ep, x), x, ep.window, f) else h
  {
    hide HandleLive, HandleAck, HandleOpen, ApplyLive, Filter, HalfOf;
    if f == AckFrame(f.streamID) {
      AckHalf(ep, f.streamID, x);
    } else if f == OpenFrame(f.streamID, f.payload) {
      if f.streamID == x {
        AcceptSame(ep, f);
      } else {
        AcceptOther(ep, f, x);
      }
    } else if f == DataFrame(f.streamID, f.payload) {
      LiveHalf(ep, f.streamID, ApplyData(f.payload), x);
    } else if f == CloseFrame(f.streamID) {
      LiveHalf(ep, f.streamID, ApplyFin, x);
    } else {
      ControlHalf(ep, f, x);
    }
  }

  /** A frame off the wire is one of those, and a request to open has the sender's
      parity: the wrong-parity branch of acceptPeerOpen is never taken. */
  lemma OffTheWire(l: Net, side: Side)
    requires NetInv(l) && CanDo(l, Receive(side))
    ensures var f := Ep(l, Peer(side)).wire[0].frame;
            Plain(f) && (f.Opens() ==> !Ep(l, side).t.Owns(f.streamID))
  {
    var far := Ep(l, Peer(side));
    var p := far.wire[0];
    if p.frame.OnStream() {
      var x := p.frame.streamID;
      ShapeAt(l, Peer(side), x);
      ShapeAt(l, side, x);
      PopHalf(far, x);
      assert Sendable(HalfOf(far, x).out[0], WhoIs(Peer(side), x), x);
    }
  }

  lemma ReceiveSimulates(l: Net, side: Side, x: UInt32)
    requires NetInv(l) && CanDo(l, Receive(side))
    ensures Simulates(l, Receive(side), x)
  {
    hide Handle, NetInv, ReceiveHalf, HalfOf, Plain, HalfShape;
    var ep, far := Ep(l, side), Ep(l, Peer(side));
    OffTheWire(l, side);
    HandleHalf(ep, far.wire[0].frame, x);
    PopHalf(far, x);
    ShapeAt(l, side, x);
    ProjParts(l, side, x);
  }

  lemma SimulatesAll(l: Net, e: Event, x: UInt32)
    requires NetInv(l) && CanDo(l, e)
    ensures Simulates(l, e, x)
  {
    match e
    case OpenStream(side, payload) => OpenSimulates(l, side, payload, x);
    case Act(side, id, n, fe) => ActSimulates(l, side, id, n, fe, x);
    case Control(_, _) =>
    case Transmit(side) => TransmitHalf(Ep(l, side), side, x);
    case Receive(side) => ReceiveSimulates(l, side, x);
  }

  // ------------------------------------------------- the invariant over runs

  lemma DropKeepsEndpoint(ep: Endpoint, side: Side, t: Table<Flow>, id: UInt32)
    requires EndpointInv(ep.(t := t), side) && (t.Owns(id) ==> Used(t, id))
    ensures EndpointInv(ep.(t := t.Drop(id)), side)
  {
    DropKeepsCovered(t, id);
  }

  lemma PutKeepsEndpoint(ep: Endpoint, side: Side, id: UInt32, n: nat, g: Flow)
    requires EndpointInv(ep, side) && ep.t.Has(id, n)
    ensures EndpointInv(ep.(t := ep.t.Put(id, n, g)), side)
  {
  }

  lemma OpenKeepsEndpoint(ep: Endpoint, side: Side, payload: Bytes)
    requires EndpointInv(ep, side) && ep.t.CanOpen()
    ensures EndpointInv(DoOpen(ep, payload), side)
  {
    var id := ep.t.NextID();
    OpenKeepsCovered(ep.t, Asked(id, ep.window, payload));
    forall y | y in ep.t.Allocate().free ensures Used(ep.t.Allocate(), y) {
      assert Used(ep.t, y);
      if ep.t.free == [] {
        FreshBelowHighWater(ep.t);
      }
    }
  }

  /** A session of the owner's is under an identifier that was handed out. */
  lemma OwnedIsUsed(l: Net, side: Side, id: UInt32, n: nat)
    requires NetInv(l) && Ep(l, side).t.Has(id, n)
    ensures Ep(l, side).t.Owns(id) ==> Used(Ep(l, side).t, id)
  {
    ShapeAt(l, side, id);
  }

  lemma ActKeepsEndpoint(l: Net, side: Side, id: UInt32, n: nat, e: FlowEvent)
    requires NetInv(l) && CanDo(l, Act(side, id, n, e))
    ensures EndpointInv(DoAct(Ep(l, side), id, n, e), side)
  {
    var ep := Ep(l, side);
    assert EndpointInv(ep, side);
    OwnedIsUsed(l, side, id, n);
    var g := Apply(ep.t.Get(id, n), e);
    hide EndpointInv, NetInv, Apply;
    PutKeepsEndpoint(ep, side, id, n, g);
    var t := ep.t.Put(id, n, g);
    if e.CloseNotify? && g.s.Terminal() {
      DropKeepsEndpoint(ep, side, t, id);
    }
    DataKeepsEndpoint(ep.(t := if e.CloseNotify? && g.s.Terminal() then t.Drop(id) else t), side,
                      ep.data + Tag(Emits(ep.t.Get(id, n), e), n));
  }

  lemma DataKeepsEndpoint(ep: Endpoint, side: Side, data: seq<Packet>)
    requires EndpointInv(ep, side)
    ensures EndpointInv(ep.(data := data), side)
  {
  }

  lemma HandleKeepsEndpoint(l: Net, side: Side)
    requires NetInv(l) && CanDo(l, Receive(side))
    ensures EndpointInv(Handle(Ep(l, side), Ep(l, Peer(side)).wire[0].frame), side)
  {
    var ep, f := Ep(l, side), Ep(l, Peer(side)).wire[0].frame;
    assert EndpointInv(ep, side);
    OffTheWire(l, side);
    var id := f.streamID;
    if id in ep.t.live && ep.t.Has(id, ep.t.live[id]) {
      OwnedIsUsed(l, side, id, ep.t.live[id]);
      LiveKeepsEndpoint(ep, side, id, FrameEvent(f));
    }
    hide NetInv, HandleLive;
  }

  lemma LiveKeepsEndpoint(ep: Endpoint, side: Side, id: UInt32, e: FlowEvent)
    requires EndpointInv(ep, side) && e.FromReadLoop()
    requires ep.t.Owns(id) ==> Used(ep.t, id)
    ensures EndpointInv(HandleLive(ep, id, e), side)
  {
    if id in ep.t.live && ep.t.Has(id, ep.t.live[id]) {
      var n := ep.t.live[id];
      var g := Apply(ep.t.Get(id, n), e);
      hide EndpointInv, Apply;
      PutKeepsEndpoint(ep, side, id, n, g);
      DropKeepsEndpoint(ep, side, ep.t.Put(id, n, g), id);
    }
  }

  lemma NetInvKept(l: Net, e: Event)
    requires NetInv(l) && CanDo(l, e)
    ensures NetInv(Do(l, e))
  {
    var l' := Do(l, e);
    forall x: UInt32 ensures Shape(Proj(l', x)) {
      SimulatesAll(l, e, x);
      assert Shape(Proj(l, x));
      hide Proj, Do, Shape, NetInv;
      if StepOf(l, e, x).Some? {
        ShapeKept(Proj(l, x), StepOf(l, e, x).value);
      }
    }
    EndpointsKept(l, e);
    hide Shape, Proj, EndpointInv, Do;
  }

  /** The control lane never holds a stream frame. */
  lemma QueuesKeepEndpoint(ep: Endpoint, side: Side, f: Frame)
    requires EndpointInv(ep, side) && !f.OnStream()
    ensures EndpointInv(ep.(control := ep.control + [f]), side)
    ensures ep.control != [] || ep.data != [] ==> EndpointInv(DoTransmit(ep), side)
    ensures ep.wire != [] ==> EndpointInv(ep.(wire := ep.wire[1..]), side)
  {
    hide Covered, HighWater;
  }

  lemma BothEndpoints(l: Net, side: Side)
    requires NetInv(l)
    ensures EndpointInv(Ep(l, side), side) && EndpointInv(Ep(l, Peer(side)), Peer(side))
  {
    hide EndpointInv, Shape;
  }

  lemma EndpointsKept(l: Net, e: Event)
    requires NetInv(l) && CanDo(l, e)
    ensures EndpointInv(Do(l, e).relay, Relay) && EndpointInv(Do(l, e).agent, Agent)
  {
    hide NetInv, EndpointInv, DoOpen, DoAct, DoTransmit, Handle;
    BothEndpoints(l, e.side);
    match e
    case OpenStream(side, payload) => OpenKeepsEndpoint(Ep(l, side), side, payload);
    case Act(side, id, n, fe) => ActKeepsEndpoint(l, side, id, n, fe);
    case Control(side, f) => QueuesKeepEndpoint(Ep(l, side), side, f);
    case Transmit(side) => QueuesKeepEndpoint(Ep(l, side), side, PongFrame([]));
    case Receive(side) =>
      QueuesKeepEndpoint(Ep(l, Peer(side)), Peer(side), PongFrame([]));
      HandleKeepsEndpoint(l, side);
  }
}
