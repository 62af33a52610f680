/** The first use of a stream identifier, under every interleaving: what holds of
    the first session at the owner and the first session at the guest, even though
    the identifier may be handed out again while the first use is still ending.
 */
module FirstUse {
  import opened Frames
  import opened Flow
  import opened Conversation

  predicate OwnerPacket(p: Packet, x: UInt32) {
    p.frame == OpenFrame(x, p.frame.payload) || p.frame == DataFrame(x, p.frame.payload) || p.frame == CloseFrame(x)
  }

  predicate GuestPacket(p: Packet, x: UInt32) {
    p.frame == AckFrame(x) || p.frame == DataFrame(x, p.frame.payload) || p.frame == CloseFrame(x)
  }

  /** The packets that an endpoint may send about `x`. */
  predicate Sendable(p: Packet, who: Who, x: UInt32) {
    if who.Owner? then OwnerPacket(p, x) else GuestPacket(p, x)
  }

  /** Only the owner opens and only the guest answers; no session is reset; the
      guest never keeps the identifier for itself. */
  predicate HalfShape(h: Half, who: Who, x: UInt32) {
    && (forall i :: 0 <= i < |h.flows| ==> Sound(h.flows[i], x))
    && (forall i :: 0 <= i < |h.out| ==> Sendable(h.out[i], who, x))
    && (h.live.Some? ==> h.live.value < |h.flows|)
    && (h.pending.Some? ==> h.pending.value < |h.flows|)
    && (if who.Guest? then h.pending.None? && h.free == 0 else h.flows != [] ==> h.used)
  }

  predicate Shape(c: Conv) {
    HalfShape(c.own, Owner, c.x) && HalfShape(c.guest, Guest, c.x)
  }

  lemma ActHalfShape(h: Half, who: Who, x: UInt32, n: nat, e: FlowEvent)
    requires HalfShape(h, who, x)
    requires n < |h.flows| && Enabled(h.flows[n], e) && !e.FromReadLoop()
    ensures HalfShape(ActHalf(h, who, n, e), who, x)
  {
    LocalStep(h.flows[n], e, x);
  }

  lemma ApplyLiveShape(h: Half, who: Who, e: FlowEvent, x: UInt32)
    requires HalfShape(h, who, x)
    requires e.ApplyData? || e.ApplyFin?
    ensures var h' := ApplyLive(h, who, e);
            && HalfShape(h', who, x)
            && |h'.flows| == |h.flows| && h'.out == h.out && h'.pending == h.pending && h'.used == h.used
            && (forall i :: 0 <= i < |h'.flows| && h.live != Some(i) ==> h'.flows[i] == h.flows[i])
            && (h'.live == h.live || h'.live.None?)
  {
    if h.live.Some? {
      FlowInvPreserved(h.flows[h.live.value], e);
    }
  }

  lemma AcceptShape(h: Half, who: Who, x: UInt32, window: int, f: Frame)
    requires HalfShape(h, who, x) && f.Opens()
    ensures HalfShape(ReceiveHalf(h, who, x, window, f), who, x)
  {
    assert Sound(Accepted(x, window, f.payload), x);
    hide Sound;
  }

  lemma AnswerShape(h: Half, who: Who, x: UInt32, window: int, f: Frame)
    requires HalfShape(h, who, x) && f.Acks()
    ensures HalfShape(ReceiveHalf(h, who, x, window, f), who, x)
  {
    if h.pending.Some? {
      assert Sound(h.flows[h.pending.value].(acked := true), x);
    }
    hide Sound;
  }

  lemma ReceiveHalfShape(h: Half, who: Who, x: UInt32, window: int, p: Packet)
    requires HalfShape(h, who, x)
    requires Sendable(p, if who.Owner? then Guest else Owner, x)
    ensures HalfShape(ReceiveHalf(h, who, x, window, p.frame), who, x)
  {
    hide ApplyLive, HalfShape;
    var f := p.frame;
    if f.command == CMD_STREAM_DATA {
      ApplyLiveShape(h, who, ApplyData(f.payload), x);
    } else if f.command == CMD_STREAM_CLOSE {
      ApplyLiveShape(h, who, ApplyFin, x);
    } else if f.Opens() {
      AcceptShape(h, who, x, window, f);
    } else {
      AnswerShape(h, who, x, window, f);
    }
  }

  lemma ShapeKept(c: Conv, e: ConvEvent)
    requires Shape(c) && CanStep(c, e)
    ensures Shape(Step(c, e))
  {
    match e
    case Opens(window, payload) =>
      assert Sound(Asked(c.x, window, payload), c.x);
    case Acts(who, n, fe) => ActHalfShape(Part(c, who), who, c.x, n, fe);
    case Receives(who, window) =>
      hide ReceiveHalf, Sound;
      ReceiveHalfShape(Part(c, who), who, c.x, window, Other(c, who).out[0]);
  }

  // ------------------------------------------------------------- the invariant

  /** The packets other than requests to open. */
  function DropOpens(ps: seq<Packet>): seq<Packet> {
    if ps == [] then [] else
    (if ps[0].frame.Opens() then [] else [ps[0]]) + DropOpens(ps[1..])
  }

  predicate NoOpens(ps: seq<Packet>) {
    forall i :: 0 <= i < |ps| ==> !ps[i].frame.Opens()
  }

  lemma {:induction false} DropOpensAppend(a: seq<Packet>, b: seq<Packet>)
    ensures DropOpens(a + b) == DropOpens(a) + DropOpens(b)
  {
    if a == [] {
      assert a + b == b;
    } else {
      assert (a + b)[1..] == a[1..] + b;
      DropOpensAppend(a[1..], b);
    }
  }

  lemma {:induction false} DropOpensOfNone(ps: seq<Packet>)
    requires NoOpens(ps)
    ensures DropOpens(ps) == ps
  {
    if ps != [] {
      DropOpensOfNone(ps[1..]);
    }
  }

  predicate IsAsked(f: Flow, x: UInt32) {
    f == Asked(x, f.s.recvWindow, f.asked)
  }

  predicate Unopened(c: Conv) {
    && c.own == Half([], None, None, 0, false, [])
    && c.guest.flows == [] && c.guest.live.None? && c.guest.out == []
  }

  predicate Opening(c: Conv) {
    && |c.own.flows| == 1 && IsAsked(c.own.flows[0], c.x)
    && c.own == Half(c.own.flows, Some(0), Some(0), 0, true, [Packet(OpenFrame(c.x, c.own.flows[0].asked), 0)])
    && c.guest.flows == [] && c.guest.live.None? && c.guest.out == []
  }

  predicate Met(c: Conv) {
    |c.own.flows| >= 1 && |c.guest.flows| >= 1 && c.own.used
  }

  /** Two sessions of one use agree on what passed between them: the payload of
      the request, the frames both ways, and the answer before anything else. */
  predicate Agree(o: Flow, p: Flow) {
    && p.s.payload == o.asked
    && Carries(o, p) && Carries(p, o)
    && (o.got != [] || o.gotFin ==> o.acked)
  }

  /** While the owner's first session is in its table. */
  predicate OwnerLive(c: Conv)
    requires Met(c)
  {
    var o, p := c.own.flows[0], c.guest.flows[0];
    && |c.own.flows| == 1 && |c.guest.flows| == 1 && c.own.free == 0
    && NoOpens(c.own.out)
    && c.own.pending == (if o.acked then None else Some(0))
    && (!o.acked ==> IsAsked(o, c.x))
    && |o.got| <= |p.sent|
    && c.guest.out == (if o.acked then [] else [Packet(AckFrame(c.x), 0)]) + Transit(c.x, 0, p, o)
    && (c.guest.live != Some(0) ==> c.own.out == [])
  }

  /** While the guest's first session is in its table: among the owner's frames
      only requests to open again, which will be dropped, are foreign. */
  predicate GuestLive(c: Conv)
    requires Met(c)
  {
    var o, p := c.own.flows[0], c.guest.flows[0];
    && |c.guest.flows| == 1
    && |p.got| <= |o.sent|
    && DropOpens(c.own.out) == Transit(c.x, 0, o, p)
    && (c.own.live != Some(0) ==>
          && c.guest.out == []
          && (forall i :: 1 <= i < |c.own.flows| ==> IsAsked(c.own.flows[i], c.x)))
  }

  predicate Paired(c: Conv) {
    && Met(c)
    && Agree(c.own.flows[0], c.guest.flows[0])
    && (if c.own.live == Some(0) then OwnerLive(c) else c.own.flows[0].s.state.Closed?)
    && (if c.guest.live == Some(0) then GuestLive(c) else c.guest.flows[0].s.state.Closed?)
  }

  predicate FirstInv(c: Conv) {
    Shape(c) && (Unopened(c) || Opening(c) || Paired(c))
  }

  // --------------------------------------------------- it is kept by every step

  lemma OpensKeeps(c: Conv, window: int, payload: Bytes)
    requires FirstInv(c) && CanStep(c, Opens(window, payload))
    ensures FirstInv(Step(c, Opens(window, payload)))
  {
    var e := Opens(window, payload);
    ShapeKept(c, e);
    if Paired(c) {
      assert c.own.live != Some(0);
      DropOpensAppend(c.own.out, [Packet(OpenFrame(c.x, payload), |c.own.flows|)]);
      assert Paired(Step(c, e));
    }
  }

  /** Once its first session has left the table, an endpoint's read loop leaves
      that session alone, but for the answer to an open call. */
  lemma LateReceive(h: Half, who: Who, x: UInt32, window: int, p: Packet)
    requires HalfShape(h, who, x) && |h.flows| >= 1 && h.live != Some(0)
    requires Sendable(p, if who.Owner? then Guest else Owner, x)
    ensures var h' := ReceiveHalf(h, who, x, window, p.frame);
            && |h'.flows| >= 1 && h'.live != Some(0) && h'.used == h.used
            && (h'.flows[0] == h.flows[0] || h'.flows[0] == h.flows[0].(acked := true))
  {
    var f := p.frame;
    if f.command == CMD_STREAM_DATA {
      ApplyLiveShape(h, who, ApplyData(f.payload), x);
    } else if f.command == CMD_STREAM_CLOSE {
      ApplyLiveShape(h, who, ApplyFin, x);
    }
  }

  lemma LateAct(h: Half, who: Who, x: UInt32, n: nat, e: FlowEvent)
    requires HalfShape(h, who, x) && |h.flows| >= 1 && h.live != Some(0)
    requires n < |h.flows| && Enabled(h.flows[n], e) && !e.FromReadLoop()
    ensures var h' := ActHalf(h, who, n, e);
            && |h'.flows| >= 1 && h'.live != Some(0) && h'.used == h.used
            && h'.flows[0] == if n == 0 then Apply(h.flows[0], e) else h.flows[0]
  {
  }

  lemma AgreeStep(o: Flow, p: Flow, x: UInt32, e: FlowEvent)
    requires Sound(o, x) && Agree(o, p) && Enabled(o, e) && !e.FromReadLoop()
    ensures Agree(Apply(o, e), p)
    ensures o.s.state.Closed? ==> Apply(o, e).s.state.Closed?
  {
    LocalStep(o, e, x);
    SendStep(o, e, x, 0, p);
    HoldStep(p, o, e, x, 0);
  }

  lemma AgreeStepGuest(o: Flow, p: Flow, x: UInt32, e: FlowEvent)
    requires Sound(p, x) && Agree(o, p) && Enabled(p, e) && !e.FromReadLoop()
    ensures Agree(o, Apply(p, e))
    ensures p.s.state.Closed? ==> Apply(p, e).s.state.Closed?
  {
    LocalStep(p, e, x);
    SendStep(p, e, x, 0, o);
    HoldStep(o, p, e, x, 0);
  }

  /** Once both first sessions have left the tables nothing touches them but their
      own late callers. */
  lemma EndedKeeps(c: Conv, e: ConvEvent)
    requires Shape(c) && Paired(c) && CanStep(c, e)
    requires c.own.live != Some(0) && c.guest.live != Some(0)
    ensures Paired(Step(c, e))
  {
    hide Apply, Enabled, ReceiveHalf, ActHalf, Sound;
    match e
    case Opens(_, _) =>
    case Acts(who, n, fe) =>
      LateAct(Part(c, who), who, c.x, n, fe);
      if n == 0 && who.Owner? {
        AgreeStep(c.own.flows[0], c.guest.flows[0], c.x, fe);
      } else if n == 0 {
        AgreeStepGuest(c.own.flows[0], c.guest.flows[0], c.x, fe);
      }
    case Receives(who, window) =>
      LateReceive(Part(c, who), who, c.x, window, Other(c, who).out[0]);
  }

  lemma TagIsSilent(ps: seq<Packet>, f: Flow, e: FlowEvent, n: nat)
    requires Enabled(f, e)
    ensures NoOpens(Tag(Emits(f, e), n))
    ensures DropOpens(ps + Tag(Emits(f, e), n)) == DropOpens(ps) + Tag(Emits(f, e), n)
  {
    DropOpensAppend(ps, Tag(Emits(f, e), n));
    DropOpensOfNone(Tag(Emits(f, e), n));
  }

  /** A session that has closed both ways has applied all its peer sent. */
  lemma ClosedIsDone(src: Flow, dst: Flow, x: UInt32, n: nat)
    requires Sound(dst, x) && Carries(src, dst) && dst.s.state.Closed?
    ensures src.finSent && Transit(x, n, src, dst) == []
  {
  }

  lemma OwnerLateActsKeeps(c: Conv, e: FlowEvent)
    requires Shape(c) && Paired(c) && CanStep(c, Acts(Owner, 0, e))
    requires c.own.live != Some(0) && c.guest.live == Some(0)
    ensures Paired(Step(c, Acts(Owner, 0, e)))
  {
    var o, p := c.own.flows[0], c.guest.flows[0];
    AgreeStep(o, p, c.x, e);
    SendStep(o, e, c.x, 0, p);
    TagIsSilent(c.own.out, o, e, 0);
    hide Emits, Enabled, DropOpens, Packets, Transit, FlowInv, Apply;
  }

  lemma OwnerLiveActsKeeps(c: Conv, e: FlowEvent)
    requires Shape(c) && Paired(c) && CanStep(c, Acts(Owner, 0, e))
    requires c.own.live == Some(0)
    ensures Paired(Step(c, Acts(Owner, 0, e)))
  {
    var o, p := c.own.flows[0], c.guest.flows[0];
    if !o.acked {
      AskedIsIdle(o, e);
    }
    AgreeStep(o, p, c.x, e);
    LocalStep(o, e, c.x);
    SendStep(o, e, c.x, 0, p);
    HoldStep(p, o, e, c.x, 0);
    TagIsSilent(c.own.out, o, e, 0);
    var o' := Apply(o, e);
    hide Emits, Enabled, DropOpens, Packets, Transit, FlowInv, Apply;
    if o'.s.state.Closed? {
      ClosedIsDone(p, o', c.x, 0);
    }
    if p.s.state.Closed? {
      ClosedIsDone(o, p, c.x, 0);
    }
  }

  lemma OwnerActsKeeps(c: Conv, n: nat, e: FlowEvent)
    requires Shape(c) && Paired(c) && CanStep(c, Acts(Owner, n, e))
    requires c.own.live == Some(0) || c.guest.live == Some(0)
    ensures Paired(Step(c, Acts(Owner, n, e)))
  {
    if n > 0 {
      AskedIsIdle(c.own.flows[n], e);
    } else if c.own.live == Some(0) {
      hide Step, Shape;
      OwnerLiveActsKeeps(c, e);
    } else {
      hide Step, Shape;
      OwnerLateActsKeeps(c, e);
    }
  }

  lemma GuestLateActsKeeps(c: Conv, e: FlowEvent)
    requires Shape(c) && Paired(c) && CanStep(c, Acts(Guest, 0, e))
    requires c.own.live != Some(0) && c.guest.live == Some(0)
    ensures Paired(Step(c, Acts(Guest, 0, e)))
  {
    var o, p := c.own.flows[0], c.guest.flows[0];
    AgreeStepGuest(o, p, c.x, e);
    LocalStep(p, e, c.x);
    HoldStep(o, p, e, c.x, 0);
    ClosedIsDone(p, o, c.x, 0);
    hide Emits, Enabled, DropOpens, Packets, Transit, FlowInv, Apply;
  }

  /** The guest's first session becomes `p'`, having queued `ps`. */
  lemma GuestMoves(c: Conv, p': Flow, ps: seq<Packet>, gone: bool)
    requires Paired(c) && c.own.live == Some(0)
    requires var o, p := c.own.flows[0], c.guest.flows[0];
             && Sound(p', c.x) && Agree(o, p')
             && Transit(c.x, 0, p', o) == Transit(c.x, 0, p, o) + ps
             && Transit(c.x, 0, o, p') == Transit(c.x, 0, o, p)
    requires gone || c.guest.live != Some(0) ==> p'.s.state.Closed?
    ensures var h := c.guest.(flows := c.guest.flows[0 := p'], out := c.guest.out + ps);
            Paired(c.(guest := if gone then DropLive(h, Guest) else h))
  {
    var o := c.own.flows[0];
    DropOpensOfNone(c.own.out);
    if p'.s.state.Closed? {
      ClosedIsDone(o, p', c.x, 0);
    }
    assert |o.got| <= |p'.sent| && |p'.got| <= |o.sent|;
    hide DropOpens, Transit, Sound, Agree, IsAsked, NoOpens;
    var h := c.guest.(flows := c.guest.flows[0 := p'], out := c.guest.out + ps);
    var c' := c.(guest := if gone then DropLive(h, Guest) else h);
    assert c'.guest.flows == [p'];
    assert OwnerLive(c');
  }

  lemma GuestLiveActsKeeps(c: Conv, e: FlowEvent)
    requires Shape(c) && Paired(c) && CanStep(c, Acts(Guest, 0, e))
    requires c.own.live == Some(0)
    ensures Paired(Step(c, Acts(Guest, 0, e)))
  {
    var o, p := c.own.flows[0], c.guest.flows[0];
    AgreeStepGuest(o, p, c.x, e);
    LocalStep(p, e, c.x);
    SendStep(p, e, c.x, 0, o);
    HoldStep(o, p, e, c.x, 0);
    var p' := Apply(p, e);
    hide Emits, Enabled, Transit, FlowInv, Apply, GuestLive, OwnerLive;
    GuestMoves(c, p', Tag(Emits(p, e), 0), e.CloseNotify? && p'.s.Terminal());
  }

  lemma GuestActsKeeps(c: Conv, n: nat, e: FlowEvent)
    requires Shape(c) && Paired(c) && CanStep(c, Acts(Guest, n, e))
    requires c.own.live == Some(0) || c.guest.live == Some(0)
    ensures Paired(Step(c, Acts(Guest, n, e)))
  {
    assert n == 0;
    hide Step, Shape;
    if c.own.live == Some(0) {
      GuestLiveActsKeeps(c, e);
    } else {
      GuestLateActsKeeps(c, e);
    }
  }

  lemma LiveReceive(h: Half, who: Who, x: UInt32, window: int, f: Frame)
    requires h.live.Some? && h.live.value < |h.flows|
    requires f == DataFrame(x, f.payload) || f == CloseFrame(x)
    ensures var n := h.live.value;
            var g := Apply(h.flows[n], FrameEvent(f));
            var h1 := h.(flows := h.flows[n := g]);
            ReceiveHalf(h, who, x, window, f) ==
            if f.command == CMD_STREAM_CLOSE && g.s.Terminal() then DropLive(h1, who) else h1
  {
  }

  lemma OwnerAckKeeps(c: Conv, window: int)
    requires Shape(c) && Paired(c) && CanStep(c, Receives(Owner, window))
    requires c.own.live == Some(0) && !c.own.flows[0].acked
    ensures Paired(Step(c, Receives(Owner, window)))
  {
    var o, p := c.own.flows[0], c.guest.flows[0];
    var c' := Step(c, Receives(Owner, window));
    var o' := o.(acked := true);
    assert c.guest.out[0].frame == AckFrame(c.x);
    assert c'.own == c.own.(pending := None, flows := c.own.flows[0 := o']);
    assert Transit(c.x, 0, p, o') == Transit(c.x, 0, p, o) == c'.guest.out;
    assert Transit(c.x, 0, o', p) == Transit(c.x, 0, o, p);
  }

  lemma OwnerTakesKeeps(c: Conv, window: int)
    requires Shape(c) && Paired(c) && CanStep(c, Receives(Owner, window))
    requires c.own.live == Some(0) && c.own.flows[0].acked
    ensures Paired(Step(c, Receives(Owner, window)))
  {
    hide Apply, ReceiveHalf, DropOpens, FlowInv;
    var o, p := c.own.flows[0], c.guest.flows[0];
    var f := c.guest.out[0].frame;
    TakeStep(p, o, c.x, 0);
    LiveReceive(c.own, Owner, c.x, window, f);
    ReadLoopFrame(o, FrameEvent(f), c.x);
    var o' := Apply(o, FrameEvent(f));
    assert Transit(c.x, 0, o', p) == Transit(c.x, 0, o, p);
  }

  lemma ReadLoopFrame(f: Flow, e: FlowEvent, x: UInt32)
    requires Sound(f, x) && (e.ApplyData? || e.ApplyFin?)
    ensures var g := Apply(f, e);
            && g.sent == f.sent && g.finSent == f.finSent && g.eof == f.eof
            && g.asked == f.asked && g.acked == f.acked && g.s.payload == f.s.payload
            && (f.s.state.Closed? ==> g.s.state.Closed?)
            && (g.s.Terminal() ==> g.s.state.Closed?)
  {
  }

  lemma OwnerReceivesKeeps(c: Conv, window: int)
    requires Shape(c) && Paired(c) && CanStep(c, Receives(Owner, window))
    requires c.own.live == Some(0) || c.guest.live == Some(0)
    ensures Paired(Step(c, Receives(Owner, window)))
  {
    assert c.own.live == Some(0);
    hide Step;
    if c.own.flows[0].acked {
      OwnerTakesKeeps(c, window);
    } else {
      OwnerAckKeeps(c, window);
    }
  }

  lemma GuestTakes(c: Conv)
    requires Shape(c) && Paired(c) && c.own.out != []
    requires c.guest.live == Some(0) && !c.own.out[0].frame.Opens()
    ensures var f := c.own.out[0].frame;
            var p' := Apply(c.guest.flows[0], FrameEvent(f));
            && c.own.out[0].inc == 0
            && (f == DataFrame(c.x, f.payload) || f == CloseFrame(c.x))
            && Sound(p', c.x) && Carries(c.own.flows[0], p')
            && DropOpens(c.own.out[1..]) == Transit(c.x, 0, c.own.flows[0], p')
  {
    var o, p := c.own.flows[0], c.guest.flows[0];
    var ps := Transit(c.x, 0, o, p);
    assert ps == [c.own.out[0]] + DropOpens(c.own.out[1..]);
    assert ps[0] == c.own.out[0] && ps[1..] == DropOpens(c.own.out[1..]);
    hide Apply, Transit, DropOpens;
    TakeStep(o, p, c.x, 0);
  }

  /** The guest's first session becomes `p'` by applying the owner's oldest frame,
      and leaves the table if `gone`. */
  lemma GuestAdvances(c: Conv, p': Flow, gone: bool)
    requires Met(c) && Paired(c) && c.guest.live == Some(0) && c.own.out != []
    requires var o, p := c.own.flows[0], c.guest.flows[0];
             && Sound(p', c.x) && Agree(o, p')
             && DropOpens(c.own.out[1..]) == Transit(c.x, 0, o, p')
             && p'.sent == p.sent && p'.finSent == p.finSent
    requires gone ==> p'.s.state.Closed?
    ensures var h := c.guest.(flows := [p']);
            Paired(Conv(c.x, c.own.(out := c.own.out[1..]), if gone then DropLive(h, Guest) else h))
  {
    var o, p := c.own.flows[0], c.guest.flows[0];
    if c.own.live == Some(0) {
      assert Transit(c.x, 0, p', o) == Transit(c.x, 0, p, o);
      if gone {
        DropOpensOfNone(c.own.out[1..]);
        ClosedIsDone(o, p', c.x, 0);
      }
    }
  }

  lemma GuestTakesKeeps(c: Conv, window: int)
    requires Shape(c) && Paired(c) && CanStep(c, Receives(Guest, window))
    requires c.guest.live == Some(0) && !c.own.out[0].frame.Opens()
    ensures Paired(Step(c, Receives(Guest, window)))
  {
    hide Apply, ReceiveHalf, DropOpens, FlowInv, Transit;
    var p := c.guest.flows[0];
    var f := c.own.out[0].frame;
    GuestTakes(c);
    LiveReceive(c.guest, Guest, c.x, window, f);
    ReadLoopFrame(p, FrameEvent(f), c.x);
    var p' := Apply(p, FrameEvent(f));
    assert Agree(c.own.flows[0], p') && c.guest.flows[0 := p'] == [p'];
    hide OwnerLive, GuestLive, Agree;
    GuestAdvances(c, p', f.command == CMD_STREAM_CLOSE && p'.s.Terminal());
  }

  /** A request to open `x` again that arrives while the first session is live at
      the guest is dropped. */
  lemma GuestDropsKeeps(c: Conv, window: int)
    requires Shape(c) && Paired(c) && CanStep(c, Receives(Guest, window))
    requires c.guest.live == Some(0) && c.own.out[0].frame.Opens()
    ensures Paired(Step(c, Receives(Guest, window)))
    ensures Step(c, Receives(Guest, window)) == c.(own := c.own.(out := c.own.out[1..]))
  {
  }

  lemma GuestReceivesKeeps(c: Conv, window: int)
    requires Shape(c) && Paired(c) && CanStep(c, Receives(Guest, window))
    requires c.own.live == Some(0) || c.guest.live == Some(0)
    ensures Paired(Step(c, Receives(Guest, window)))
  {
    assert c.guest.live == Some(0);
    hide Step;
    if c.own.out[0].frame.Opens() {
      GuestDropsKeeps(c, window);
    } else {
      GuestTakesKeeps(c, window);
    }
  }

  lemma FirstInvKept(c: Conv, e: ConvEvent)
    requires FirstInv(c) && CanStep(c, e)
    ensures FirstInv(Step(c, e))
  {
    ShapeKept(c, e);
    hide Step, Shape;
    if e.Opens? {
      OpensKeeps(c, e.window, e.payload);
    } else if Opening(c) {
      OpeningKeeps(c, e);
    } else {
      if c.own.live != Some(0) && c.guest.live != Some(0) {
        EndedKeeps(c, e);
      } else if e.Acts? && e.who.Owner? {
        OwnerActsKeeps(c, e.n, e.e);
      } else if e.Acts? {
        GuestActsKeeps(c, e.n, e.e);
      } else if e.who.Owner? {
        OwnerReceivesKeeps(c, e.window);
      } else {
        GuestReceivesKeeps(c, e.window);
      }
    }
  }

  /** The guest accepts the first request to open. */
  lemma OpeningKeeps(c: Conv, e: ConvEvent)
    requires Shape(c) && Opening(c) && CanStep(c, e)
    ensures Paired(Step(c, e))
  {
    if e.Acts? {
      AskedIsIdle(c.own.flows[0], e.e);
    }
  }

  // ------------------------------------------------------------- early reuse

  predicate SecondRequest(p: Packet) {
    p.frame.Opens() && p.inc == 1
  }

  /** A second session was opened, and while its request is under way the closing
      frame of the first is behind it. */
  predicate Early(c: Conv) {
    && |c.own.flows| >= 2 && |c.guest.flows| >= 1
    && (forall i :: 0 <= i < |c.own.out| && SecondRequest(c.own.out[i]) ==> !c.guest.flows[0].gotFin)
    && (forall i, j :: 0 <= j < i < |c.own.out| && SecondRequest(c.own.out[i]) ==>
          c.own.out[j].frame.command != CMD_STREAM_CLOSE)
  }

  lemma {:induction false} DropOpensKeeps(ps: seq<Packet>, i: nat)
    requires i < |ps| && !ps[i].frame.Opens()
    ensures ps[i] in DropOpens(ps)
  {
    if i > 0 {
      DropOpensKeeps(ps[1..], i - 1);
    }
  }

  lemma EarlyStarts(c: Conv, window: int, payload: Bytes)
    requires FirstInv(c) && CanStep(c, Opens(window, payload))
    requires |c.own.flows| == 1 && !c.own.flows[0].finSent
    ensures Early(Step(c, Opens(window, payload)))
  {
    var o, p := c.own.flows[0], c.guest.flows[0];
    assert Paired(c) && c.own.live != Some(0);
    assert !p.gotFin && c.guest.live == Some(0);
    forall i | 0 <= i < |c.own.out| ensures c.own.out[i].frame.command != CMD_STREAM_CLOSE {
      if !c.own.out[i].frame.Opens() {
        DropOpensKeeps(c.own.out, i);
        assert c.own.out[i] in Packets(c.x, 0, o.sent[|p.got|..]);
      }
    }
  }

  lemma EarlyIsLive(c: Conv)
    requires FirstInv(c) && Early(c) && c.own.out != [] && SecondRequest(c.own.out[0])
    ensures c.guest.live == Some(0)
  {
  }

  lemma EarlyOpens(c: Conv, window: int, payload: Bytes)
    requires Early(c) && CanStep(c, Opens(window, payload))
    ensures Early(Step(c, Opens(window, payload)))
  {
  }

  lemma EarlyActs(c: Conv, who: Who, n: nat, e: FlowEvent)
    requires Shape(c) && Early(c) && CanStep(c, Acts(who, n, e))
    ensures Early(Step(c, Acts(who, n, e)))
  {
    var f := Part(c, who).flows[n];
    LocalStep(f, e, c.x);
    var g, ps := Apply(f, e), Tag(Emits(f, e), n);
    assert forall i :: 0 <= i < |ps| ==> !SecondRequest(ps[i]);
    var h := ActHalf(Part(c, who), who, n, e);
    assert h.flows == Part(c, who).flows[n := g] && h.out == Part(c, who).out + ps;
    hide Apply, Enabled, Emits, Tag, Sound, Shape, ActHalf, SecondRequest;
  }

  lemma EarlyOwnerTakes(c: Conv, window: int)
    requires Shape(c) && Early(c) && CanStep(c, Receives(Owner, window))
    ensures Early(Step(c, Receives(Owner, window)))
  {
    var p := c.guest.out[0];
    assert Sendable(p, Guest, c.x);
    ReceiveKeepsCount(c.own, Owner, c.x, window, p);
    hide ReceiveHalf, Shape;
  }

  lemma EarlyKept(c: Conv, e: ConvEvent)
    requires FirstInv(c) && Early(c) && CanStep(c, e)
    ensures Early(Step(c, e))
  {
    assert Shape(c);
    hide FirstInv, Shape, Early, Step, CanStep;
    match e
    case Opens(window, payload) => EarlyOpens(c, window, payload);
    case Acts(who, n, fe) => EarlyActs(c, who, n, fe);
    case Receives(who, window) =>
      if who.Guest? {
        EarlyTaken(c, window);
      } else {
        EarlyOwnerTakes(c, window);
      }
  }

  lemma ReceiveKeepsCount(h: Half, who: Who, x: UInt32, window: int, p: Packet)
    requires HalfShape(h, who, x) && Sendable(p, if who.Owner? then Guest else Owner, x)
    ensures |ReceiveHalf(h, who, x, window, p.frame).flows| >= |h.flows|
    ensures who.Owner? ==> ReceiveHalf(h, who, x, window, p.frame).out == h.out
  {
  }

  /** Only a closing frame ends the first session. */
  lemma NotEnded(h: Half, x: UInt32, window: int, p: Packet)
    requires HalfShape(h, Guest, x) && Sendable(p, Owner, x) && |h.flows| >= 1
    requires p.frame.command != CMD_STREAM_CLOSE
    ensures var g := ReceiveHalf(h, Guest, x, window, p.frame);
            |g.flows| >= 1 && g.flows[0].gotFin == h.flows[0].gotFin
  {
    hide Sound;
  }

  lemma EarlyTaken(c: Conv, window: int)
    requires FirstInv(c) && Early(c) && CanStep(c, Receives(Guest, window))
    ensures Early(Step(c, Receives(Guest, window)))
  {
    assert Shape(c);
    hide FirstInv, ReceiveHalf, Sound, SecondRequest;
    var p := c.own.out[0];
    assert Sendable(p, Owner, c.x);
    ReceiveKeepsCount(c.guest, Guest, c.x, window, p);
    if p.frame.command != CMD_STREAM_CLOSE {
      NotEnded(c.guest, c.x, window, p);
    }
  }
}
