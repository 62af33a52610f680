/** How often an identifier is free, under every interleaving in which no closing frame
    is handled while Close is at work on that same stream. Identifiers may be handed out
    again at any time and requests may arrive at any time.
 */
module Freeing {
  import opened Frames
  import opened Flow
  import opened Conversation
  import opened FirstUse
  import opened Reuse

  /** A closing frame that lands inside Close, at the end `who`. */
  predicate FinLands(c: Conv, e: ConvEvent, who: Who) {
    && e.Receives? && e.who == who
    && var h, out := Part(c, who), Other(c, who).out;
       && out != [] && out[0].frame.command == CMD_STREAM_CLOSE
       && h.live.Some? && h.live.value < |h.flows| && !Settled(h.flows[h.live.value])
  }

  /** The live session is the last one, every other one is done with the table, and the
      identifier is live or free exactly once if it was ever handed out. */
  predicate FreeInv(h: Half) {
    && (h.live.Some? ==> h.live.value == |h.flows| - 1)
    && (forall i :: 0 <= i < |h.flows| && h.live != Some(i) ==> !Alive(h.flows[i]))
    && h.free + (if h.live.Some? then 1 else 0) == if h.used then 1 else 0
  }

  /** A session done with the table stays so, and its Close is past its callback. */
  lemma DoneStays(f: Flow, e: FlowEvent, x: UInt32)
    requires Sound(f, x) && !Alive(f) && Enabled(f, e) && !e.FromReadLoop()
    ensures !Alive(Apply(f, e)) && !e.CloseNotify?
  {
    AliveStep(f, e, x);
  }

  lemma ActsFree(h: Half, x: UInt32, n: nat, e: FlowEvent)
    requires HalfShape(h, Owner, x) && FreeInv(h)
    requires n < |h.flows| && Enabled(h.flows[n], e) && !e.FromReadLoop()
    ensures FreeInv(ActHalf(h, Owner, n, e))
  {
    var f := h.flows[n];
    if h.live == Some(n) {
      if e.CloseNotify? && Apply(f, e).s.Terminal() {
        LocalStep(f, e, x);
        assert !Alive(Apply(f, e));
      }
    } else {
      DoneStays(f, e, x);
    }
    hide Alive, Apply, Emits, Sound, Enabled;
  }

  /** A closing frame takes a session out of the table only when its Close is past. */
  lemma FinFrees(f: Flow, x: UInt32)
    requires Sound(f, x) && Settled(f)
    ensures var g := Apply(f, ApplyFin); g.s.Terminal() ==> !Alive(g)
  {
  }

  lemma ReceivesFree(h: Half, x: UInt32, window: int, p: Packet)
    requires HalfShape(h, Owner, x) && FreeInv(h) && Sendable(p, Guest, x)
    requires p.frame.command == CMD_STREAM_CLOSE && h.live.Some? ==> Settled(h.flows[h.live.value])
    ensures FreeInv(ReceiveHalf(h, Owner, x, window, p.frame))
  {
    var f := p.frame;
    if f == CloseFrame(x) && h.live.Some? {
      FinFrees(h.flows[h.live.value], x);
      hide Settled, Apply, Sound;
    } else {
      hide Settled, Sound;
    }
  }

  lemma FreeInvKept(c: Conv, e: ConvEvent)
    requires Shape(c) && FreeInv(c.own) && CanStep(c, e) && !FinLands(c, e, Owner)
    ensures FreeInv(Step(c, e).own)
  {
    hide FreeInv, HalfShape, ActHalf, ReceiveHalf, Settled;
    match e
    case Opens(window, payload) => OpensFree(c.own, c.x, window, payload);
    case Acts(who, n, fe) =>
      if who.Owner? {
        ActsFree(c.own, c.x, n, fe);
      }
    case Receives(who, window) =>
      if who.Owner? {
        HeadIsSendable(c);
        ReceivesFree(c.own, c.x, window, c.guest.out[0]);
      } else {
        SameTableFree(c.own, Step(c, e).own);
      }
  }

  lemma OpensFree(h: Half, x: UInt32, window: int, payload: Bytes)
    requires FreeInv(h) && (h.free > 0 || !h.used)
    ensures FreeInv(OpenHalf(h, x, window, payload))
  {
    hide Alive;
  }

  lemma SameTableFree(h: Half, k: Half)
    requires FreeInv(h) && k == h.(out := k.out)
    ensures FreeInv(k)
  {
    hide Alive;
  }

  lemma HeadIsSendable(c: Conv)
    requires Shape(c) && c.guest.out != []
    ensures Sendable(c.guest.out[0], Guest, c.x)
    ensures c.own.live.Some? ==> c.own.live.value < |c.own.flows|
  {
  }
}
