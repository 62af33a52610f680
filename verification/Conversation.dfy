/** What two linked endpoints do for one stream identifier `x`. The owner is the
    endpoint whose parity `x` has: it alone opens `x`. The guest accepts it. This is
    the projection of the linked endpoints of module Link onto one identifier.
 */
module Conversation {
  import opened Frames
  import opened Streams
  import opened Flow

  /** A frame together with the incarnation of its stream that queued it. The
      number is not on the wire; it is there to say which incarnation sent what. */
  datatype Packet = Packet(frame: Frame, inc: nat)

  /** One endpoint's share: all incarnations, the live one, the open call waiting
      for an answer, how often the free list holds `x`, whether `x` was ever handed
      out, and the frames for `x` in its data lane and in flight, oldest first. */
  datatype Half = Half(
    flows: seq<Flow>,
    live: Option<nat>,
    pending: Option<nat>,
    free: nat,
    used: bool,
    out: seq<Packet>)

  datatype Conv = Conv(x: UInt32, own: Half, guest: Half)

  datatype Who = Owner | Guest

  datatype ConvEvent =
    | Opens(window: int, payload: Bytes)
    | Acts(who: Who, n: nat, e: FlowEvent)
    | Receives(who: Who, window: int)

  function Part(c: Conv, who: Who): Half {
    if who.Owner? then c.own else c.guest
  }

  function Other(c: Conv, who: Who): Half {
    if who.Owner? then c.guest else c.own
  }

  function WithPart(c: Conv, who: Who, h: Half): Conv {
    if who.Owner? then c.(own := h) else c.(guest := h)
  }

  function WithOther(c: Conv, who: Who, h: Half): Conv {
    if who.Owner? then c.(guest := h) else c.(own := h)
  }

  function Tag(fs: seq<Frame>, n: nat): (ps: seq<Packet>)
    ensures |ps| == |fs|
  {
    seq(|fs|, i requires 0 <= i < |fs| => Packet(fs[i], n))
  }

  function FramesOf(ps: seq<Packet>): (fs: seq<Frame>)
    ensures |fs| == |ps| && forall i :: 0 <= i < |ps| ==> fs[i] == ps[i].frame
  {
    seq(|ps|, i requires 0 <= i < |ps| => ps[i].frame)
  }

  /** A flow opened locally and not answered yet. */
  function Asked(x: UInt32, window: int, payload: Bytes): Flow {
    OpenFlow(OpenSession(x, window, []), payload, false)
  }

  /** A flow accepted from the peer. */
  function Accepted(x: UInt32, window: int, payload: Bytes): Flow {
    OpenFlow(OpenSession(x, window, payload), [], true)
  }

  predicate CanStep(c: Conv, e: ConvEvent) {
    match e
    case Opens(_, _) => c.own.free > 0 || !c.own.used
    case Acts(who, n, fe) =>
      var h := Part(c, who);
      && n < |h.flows|
      && !fe.FromReadLoop()
      && Enabled(h.flows[n], fe)
      && (fe.UserCall() ==> h.flows[n].acked)
    case Receives(who, _) => Other(c, who).out != []
  }

  /** delete(streams, x) and freeID(x), which keeps only identifiers of the local
      parity. Neither checks that the entry is there. */
  function DropLive(h: Half, who: Who): Half {
    h.(live := None, free := if who.Owner? then h.free + 1 else h.free)
  }

  function OpenHalf(h: Half, x: UInt32, window: int, payload: Bytes): Half {
    var n := |h.flows|;
    h.(flows := h.flows + [Asked(x, window, payload)],
       live := Some(n),
       pending := Some(n),
       free := if h.free > 0 then h.free - 1 else h.free,
       used := true,
       out := h.out + [Packet(OpenFrame(x, payload), n)])
  }

  function ActHalf(h: Half, who: Who, n: nat, e: FlowEvent): Half
    requires n < |h.flows| && Enabled(h.flows[n], e)
  {
    var g := Apply(h.flows[n], e);
    var h' := h.(flows := h.flows[n := g], out := h.out + Tag(Emits(h.flows[n], e), n));
    if e.CloseNotify? && g.s.Terminal() then DropLive(h', who) else h'
  }

  /** The read loop applies `e` to the live session and removes it from the table
      if that ended it. */
  function ApplyLive(h: Half, who: Who, e: FlowEvent): Half
    requires e.FromReadLoop()
  {
    if h.live.None? || h.live.value >= |h.flows| then h else
    var n := h.live.value;
    var g := Apply(h.flows[n], e);
    var h' := h.(flows := h.flows[n := g]);
    if e.ApplyFin? && g.s.Terminal() then DropLive(h', who) else h'
  }

  function ReceiveHalf(h: Half, who: Who, x: UInt32, window: int, f: Frame): Half {
    if f.Acks() then
      if h.pending.Some? && h.pending.value < |h.flows| then
        var n := h.pending.value;
        h.(pending := None, flows := h.flows[n := h.flows[n].(acked := true)])
      else h
    else if f.Opens() then
      if h.live.Some? || who.Owner? then h else
      var n := |h.flows|;
      h.(flows := h.flows + [Accepted(x, window, f.payload)], live := Some(n), out := h.out + [Packet(AckFrame(x), n)])
    else if f.command == CMD_STREAM_DATA then
      var h1 := ApplyLive(h, who, ApplyData(f.payload));
      if f.Fin() then ApplyLive(h1, who, ApplyFin) else h1
    else if f.command == CMD_STREAM_CLOSE then ApplyLive(h, who, ApplyFin)
    else h
  }

  function Step(c: Conv, e: ConvEvent): Conv
    requires CanStep(c, e)
  {
    match e
    case Opens(window, payload) => c.(own := OpenHalf(c.own, c.x, window, payload))
    case Acts(who, n, fe) => WithPart(c, who, ActHalf(Part(c, who), who, n, fe))
    case Receives(who, window) =>
      var src := Other(c, who);
      var c1 := WithOther(c, who, src.(out := src.out[1..]));
      WithPart(c1, who, ReceiveHalf(Part(c, who), who, c.x, window, src.out[0].frame))
  }

  // ---------------------------------------------------- one direction of a pair

  function Packets(x: UInt32, n: nat, chunks: seq<Bytes>): (ps: seq<Packet>)
    ensures |ps| == |chunks|
    ensures forall i :: 0 <= i < |ps| ==> ps[i] == Packet(DataFrame(x, chunks[i]), n)
  {
    seq(|chunks|, i requires 0 <= i < |chunks| => Packet(DataFrame(x, chunks[i]), n))
  }

  /** `dst` has applied a prefix of what `src` has sent, the end only after all of
      it, and reported the end to its reader only once everything was read. */
  predicate Carries(src: Flow, dst: Flow) {
    && dst.got <= src.sent
    && (dst.gotFin ==> src.finSent && dst.got == src.sent)
    && (dst.eof ==> dst.gotFin && dst.s.readBuf == [])
  }

  /** The frames `src` has queued and `dst` has not yet applied. */
  function Transit(x: UInt32, n: nat, src: Flow, dst: Flow): seq<Packet>
    requires |dst.got| <= |src.sent|
  {
    Packets(x, n, src.sent[|dst.got|..]) +
    if src.finSent && !dst.gotFin then [Packet(CloseFrame(x), n)] else []
  }

  predicate Sound(f: Flow, x: UInt32) {
    FlowInv(f) && !f.s.state.Reset? && f.s.id == x
  }

  /** A local step of a session changes what it has sent as its frames say, and
      nothing of what it has applied or been told at its start. */
  predicate Local(f: Flow, e: FlowEvent)
    requires Enabled(f, e)
  {
    var g := Apply(f, e);
    && g.got == f.got && g.gotFin == f.gotFin
    && g.asked == f.asked && g.acked == f.acked
    && g.s.payload == f.s.payload && g.s.id == f.s.id
    && (f.finSent ==> Emits(f, e) == [])
    && (Emits(f, e) == [] ==> g.sent == f.sent && g.finSent == f.finSent)
    && f.sent <= g.sent && (f.finSent ==> g.finSent)
    && (f.s.state.Closed? ==> g.s.state.Closed?)
    && (g.s.state.Reset? ==> f.s.state.Reset?)
  }

  lemma CallIsLocal(f: Flow, e: FlowEvent)
    requires CloseInv(f) && DrainInv(f) && Enabled(f, e) && !e.FromReadLoop() && !e.FromDrainLoop()
    ensures Local(f, e)
  {
  }

  lemma DrainIsLocal(f: Flow, e: FlowEvent)
    requires CloseInv(f) && DrainInv(f) && Enabled(f, e) && e.FromDrainLoop()
    ensures Local(f, e)
  {
  }

  lemma LocalStep(f: Flow, e: FlowEvent, x: UInt32)
    requires Sound(f, x) && Enabled(f, e) && !e.FromReadLoop()
    ensures Sound(Apply(f, e), x) && Local(f, e)
  {
    hide Apply, Enabled, Emits, CloseInv, DrainInv, ReadInv, Logged;
    FlowInvPreserved(f, e);
    if e.FromDrainLoop() {
      DrainIsLocal(f, e);
    } else {
      CallIsLocal(f, e);
    }
  }

  lemma SendStep(f: Flow, e: FlowEvent, x: UInt32, n: nat, dst: Flow)
    requires Sound(f, x) && Enabled(f, e) && !e.FromReadLoop() && Carries(f, dst)
    ensures Carries(Apply(f, e), dst)
    ensures Transit(x, n, Apply(f, e), dst) == Transit(x, n, f, dst) + Tag(Emits(f, e), n)
  {
    LocalStep(f, e, x);
  }

  /** A local step of the receiving session leaves what is under way alone. */
  lemma HoldStep(src: Flow, f: Flow, e: FlowEvent, x: UInt32, n: nat)
    requires Sound(f, x) && Enabled(f, e) && !e.FromReadLoop() && Carries(src, f)
    ensures Carries(src, Apply(f, e))
    ensures Transit(x, n, src, Apply(f, e)) == Transit(x, n, src, f)
  {
    LocalStep(f, e, x);
  }

  /** What the read loop does with the frame `f` of a live session. */
  function FrameEvent(f: Frame): FlowEvent {
    if f.command == CMD_STREAM_DATA then ApplyData(f.payload) else ApplyFin
  }

  /** Applying the oldest frame under way. */
  lemma TakeStep(src: Flow, dst: Flow, x: UInt32, n: nat)
    requires Sound(dst, x) && Carries(src, dst) && Transit(x, n, src, dst) != []
    ensures var p := Transit(x, n, src, dst)[0];
            && p.inc == n
            && !dst.gotFin
            && (p.frame == DataFrame(x, p.frame.payload) || p.frame == CloseFrame(x))
            && (var e := FrameEvent(p.frame);
                var g := Apply(dst, e);
                && Sound(g, x) && Carries(src, g)
                && Transit(x, n, src, g) == Transit(x, n, src, dst)[1..]
                && (e.ApplyData? ==> g.s.state == dst.s.state)
                && (e.ApplyFin? ==> g.gotFin))
  {
    var ps := Transit(x, n, src, dst);
    var chunks := src.sent[|dst.got|..];
    if chunks == [] {
      assert ps == [Packet(CloseFrame(x), n)];
      FlowInvPreserved(dst, ApplyFin);
      assert src.sent[|dst.got|..] == [];
    } else {
      assert ps[0] == Packet(DataFrame(x, chunks[0]), n);
      FlowInvPreserved(dst, ApplyData(chunks[0]));
      assert src.sent[|dst.got + [chunks[0]]|..] == chunks[1..];
      assert Packets(x, n, chunks)[1..] == Packets(x, n, chunks[1..]);
    }
  }

  /** A flow whose opener still waits does nothing by itself. */
  lemma AskedIsIdle(f: Flow, e: FlowEvent)
    requires f == Asked(f.s.id, f.s.recvWindow, f.asked)
    requires Enabled(f, e) && !e.FromReadLoop()
    ensures e.UserCall()
  {
  }
}
