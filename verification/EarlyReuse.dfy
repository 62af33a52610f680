/** What becomes of an identifier handed out again, after any number of uses, before the
    closing frame of its last use was queued: the request finds that use still at the
    guest, is dropped there, and the open call is never answered.
 */
module EarlyReuse {
  import opened Frames
  import opened Flow
  import opened Conversation
  import opened FirstUse
  import opened Reuse

  /** The guest holds use `k - 1` in its table, open for reading, and no other session
      of it can touch the table. */
  predicate Held(h: Half, k: nat) {
    && 1 <= k == |h.flows| && h.live == Some(k - 1)
    && !h.flows[k - 1].gotFin
    && forall i :: 0 <= i < k - 1 ==> h.flows[i].close.Finished?
  }

  predicate IsRequest(p: Packet, k: nat) {
    p.frame.Opens() && p.inc == k
  }

  /** The request of use `k`, while under way, is ahead of any closing frame. */
  predicate Ahead(out: seq<Packet>, k: nat) {
    forall i, j :: 0 <= j < i < |out| && IsRequest(out[i], k) ==> out[j].frame.command != CMD_STREAM_CLOSE
  }

  predicate Asking(out: seq<Packet>, k: nat) {
    exists i :: 0 <= i < |out| && IsRequest(out[i], k)
  }

  /** The owner waits in open call `k`, and only late steps of older uses happen. */
  predicate OwnerWaits(h: Half, x: UInt32, k: nat) {
    && |h.flows| == k + 1 && IsAsked(h.flows[k], x)
    && h.live == Some(k) && h.used
    && (forall i :: 0 <= i < k ==> !Alive(h.flows[i]))
    && (forall i :: 0 <= i < |h.out| && h.out[i].frame.Opens() ==> h.out[i].inc == k)
  }

  predicate GuestSilent(h: Half, k: nat) {
    && |h.flows| == k && h.out == []
    && forall i :: 0 <= i < k ==> h.flows[i].finSent
  }

  /** Open call `k` has no answer; its request, while under way, finds the last use in the
      guest's table; and as long as the identifier is not handed out yet again, the guest
      sends nothing. */
  predicate Stuck(c: Conv, k: nat) {
    && k < |c.own.flows| && !c.own.flows[k].acked
    && Ahead(c.own.out, k) && (Asking(c.own.out, k) ==> Held(c.guest, k))
    && (c.own.pending == Some(k) ==> OwnerWaits(c.own, c.x, k) && GuestSilent(c.guest, k))
    && (|c.own.flows| == k + 1 ==> c.own.pending == Some(k))
  }

  // ------------------------------------------------------------------- start

  /** The last use is closed at the owner, so the guest has sent its end, but not the
      owner: the guest still waits for it. */
  lemma LastUseIsHeld(c: Conv)
    requires Shape(c) && Established(c)
    requires c.own.live.None? && AllSettled(c.own.flows) && !FinQueued(c.own.flows)
    ensures Held(c.guest, |c.own.flows|) && GuestSilent(c.guest, |c.own.flows|)
    ensures forall i :: 0 <= i < |c.own.flows| ==> !Alive(c.own.flows[i])
    ensures forall i :: 0 <= i < |c.own.out| ==> c.own.out[i].frame.command == CMD_STREAM_DATA
  {
    var n := |c.own.flows| - 1;
    var o, p := c.own.flows[n], c.guest.flows[n];
    assert Sound(o, c.x) && Settled(o);
    ClosedIsDone(p, o, c.x, n);
    assert Sound(p, c.x) && !p.gotFin;
    assert c.guest.out == [];
    assert c.own.out == Packets(c.x, n, o.sent[|p.got|..]);
  }

  lemma StuckStarts(c: Conv, window: int, payload: Bytes)
    requires ReuseInv(c) && CanStep(c, Opens(window, payload))
    requires c.own.live.None? && AllSettled(c.own.flows) && !FinQueued(c.own.flows)
    ensures Stuck(Step(c, Opens(window, payload)), |c.own.flows|)
  {
    assert Established(c);
    hide Established, Reopening, Shape, AllSettled;
    LastUseIsHeld(c);
    hide Alive, Held, GuestSilent;
  }

  // ------------------------------------------------------------------- steps

  /** A late step of an older use of the owner queues no request. */
  lemma OwnerActs(h: Half, x: UInt32, k: nat, n: nat, e: FlowEvent)
    requires HalfShape(h, Owner, x) && OwnerWaits(h, x, k)
    requires n < |h.flows| && Enabled(h.flows[n], e) && !e.FromReadLoop() && (e.UserCall() ==> h.flows[n].acked)
    ensures OwnerWaits(ActHalf(h, Owner, n, e), x, k)
  {
    if n == k {
      AskedIsIdle(h.flows[k], e);
    } else {
      AliveStep(h.flows[n], e, x);
      assert NoOpens(Tag(Emits(h.flows[n], e), n));
    }
    hide Apply, Sound, Alive;
  }

  /** Whatever the owner's sessions do, call `k` stays unanswered and what they queue
      comes behind its request. */
  lemma OwnerQueues(h: Half, x: UInt32, k: nat, n: nat, e: FlowEvent)
    requires HalfShape(h, Owner, x) && k < |h.flows| && !h.flows[k].acked && Ahead(h.out, k)
    requires n < |h.flows| && Enabled(h.flows[n], e) && !e.FromReadLoop()
    ensures var h' := ActHalf(h, Owner, n, e);
            && |h'.flows| == |h.flows| && !h'.flows[k].acked && h'.pending == h.pending
            && Ahead(h'.out, k) && (Asking(h'.out, k) ==> Asking(h.out, k))
  {
    LocalStep(h.flows[n], e, x);
    var ps := Tag(Emits(h.flows[n], e), n);
    assert NoOpens(ps);
    hide Apply, Sound, Emits;
    MoreBehind(h.out, ps, k);
  }

  lemma MoreBehind(out: seq<Packet>, ps: seq<Packet>, k: nat)
    requires Ahead(out, k) && forall i :: 0 <= i < |ps| ==> !IsRequest(ps[i], k)
    ensures Ahead(out + ps, k)
    ensures Asking(out + ps, k) ==> Asking(out, k)
  {
    if Asking(out + ps, k) {
      var i :| 0 <= i < |out + ps| && IsRequest((out + ps)[i], k);
      assert i < |out| && IsRequest(out[i], k);
    }
  }

  lemma OneTaken(out: seq<Packet>, k: nat)
    requires Ahead(out, k) && out != []
    ensures Ahead(out[1..], k)
    ensures Asking(out[1..], k) ==> Asking(out, k) && out[0].frame.command != CMD_STREAM_CLOSE
    ensures IsRequest(out[0], k) ==> Asking(out, k)
  {
    if Asking(out[1..], k) {
      var i :| 0 <= i < |out[1..]| && IsRequest(out[1..][i], k);
      assert IsRequest(out[i + 1], k);
    }
  }

  /** The guest's own steps leave a held use in the table; a silent guest stays silent. */
  lemma GuestActs(h: Half, x: UInt32, k: nat, n: nat, e: FlowEvent)
    requires HalfShape(h, Guest, x)
    requires n < |h.flows| && Enabled(h.flows[n], e) && !e.FromReadLoop()
    ensures GuestSilent(h, k) ==> GuestSilent(ActHalf(h, Guest, n, e), k)
    ensures Held(h, k) ==> Held(ActHalf(h, Guest, n, e), k)
  {
    var f := h.flows[n];
    LocalStep(f, e, x);
    HeldActs(f, e, x);
    hide Apply, Sound, Enabled, Emits;
  }

  /** Close's callback finds a session that still waits for the peer's end not ended;
      and a Close that is past stays past. */
  lemma HeldActs(f: Flow, e: FlowEvent, x: UInt32)
    requires Sound(f, x) && Enabled(f, e) && !e.FromReadLoop()
    ensures !f.gotFin ==> !Apply(f, e).s.Terminal()
    ensures f.close.Finished? ==> Apply(f, e).close.Finished? && !e.CloseNotify?
  {
    LocalStep(f, e, x);
  }

  /** Any frame but a closing one leaves a held use held, a request of whichever use
      included; and a silent guest answers none. */
  lemma GuestTakes(h: Half, x: UInt32, k: nat, window: int, p: Packet)
    requires HalfShape(h, Guest, x) && Sendable(p, Owner, x)
    ensures Held(h, k) && p.frame.command != CMD_STREAM_CLOSE ==> Held(ReceiveHalf(h, Guest, x, window, p.frame), k)
    ensures GuestSilent(h, k) && (p.frame.Opens() ==> h.live.Some?) ==>
              GuestSilent(ReceiveHalf(h, Guest, x, window, p.frame), k)
  {
    var f := p.frame;
    if f.command == CMD_STREAM_DATA {
      ReadsOnly(h, x, ApplyData(f.payload));
    } else if f.command == CMD_STREAM_CLOSE {
      ReadsOnly(h, x, ApplyFin);
    }
    hide ApplyLive, Sound;
  }

  lemma ReadsOnly(h: Half, x: UInt32, e: FlowEvent)
    requires HalfShape(h, Guest, x) && (e.ApplyData? || e.ApplyFin?)
    ensures var h' := ApplyLive(h, Guest, e);
            && |h'.flows| == |h.flows| && h'.out == h.out
            && (forall i :: 0 <= i < |h.flows| ==>
                  h'.flows[i].finSent == h.flows[i].finSent && h'.flows[i].close == h.flows[i].close)
            && (e.ApplyData? ==>
                  && h'.live == h.live
                  && forall i :: 0 <= i < |h.flows| ==> h'.flows[i].gotFin == h.flows[i].gotFin)
  {
    hide Sound;
  }

  /** An answer is for the call that waits last; other frames answer none. */
  lemma OwnerTakes(h: Half, x: UInt32, k: nat, window: int, p: Packet)
    requires HalfShape(h, Owner, x) && Sendable(p, Guest, x)
    requires k < |h.flows| && !h.flows[k].acked && h.pending != Some(k)
    ensures var h' := ReceiveHalf(h, Owner, x, window, p.frame);
            |h'.flows| == |h.flows| && !h'.flows[k].acked && h'.pending != Some(k) && h'.out == h.out
  {
    hide Sound;
  }

  lemma OwnerTakesKeeps(c: Conv, k: nat, window: int)
    requires Shape(c) && Stuck(c, k) && CanStep(c, Receives(Owner, window))
    ensures Stuck(Step(c, Receives(Owner, window)), k)
  {
    assert c.own.pending != Some(k);
    assert Sendable(c.guest.out[0], Guest, c.x);
    hide ReceiveHalf, OwnerWaits, Ahead, Asking, HalfShape;
    OwnerTakes(c.own, c.x, k, window, c.guest.out[0]);
    HeldSame(c.guest, k, c.guest.out[1..]);
    hide Held;
  }

  lemma HeldSame(h: Half, k: nat, out: seq<Packet>)
    ensures Held(h, k) ==> Held(h.(out := out), k)
  {
  }

  lemma GuestTakesKeeps(c: Conv, k: nat, window: int)
    requires Shape(c) && Stuck(c, k) && CanStep(c, Receives(Guest, window))
    ensures Stuck(Step(c, Receives(Guest, window)), k)
  {
    var p, out := c.own.out[0], c.own.out[1..];
    assert Sendable(p, Owner, c.x);
    OneTaken(c.own.out, k);
    assert OwnerWaits(c.own, c.x, k) && p.frame.Opens() ==> IsRequest(p, k);
    assert Held(c.guest, k) ==> c.guest.live.Some?;
    StillWaits(c.own, c.x, k);
    hide ReceiveHalf, OwnerWaits, Ahead, Asking, HalfShape, GuestSilent, Held, IsRequest;
    GuestTakes(c.guest, c.x, k, window, p);
  }

  lemma StillWaits(h: Half, x: UInt32, k: nat)
    requires h.out != []
    ensures OwnerWaits(h, x, k) ==> OwnerWaits(h.(out := h.out[1..]), x, k)
  {
    hide Alive;
  }

  lemma OpensKeeps(c: Conv, k: nat, window: int, payload: Bytes)
    requires Stuck(c, k) && CanStep(c, Opens(window, payload))
    ensures Stuck(Step(c, Opens(window, payload)), k)
  {
    var p := Packet(OpenFrame(c.x, payload), |c.own.flows|);
    assert !IsRequest(p, k);
    MoreBehind(c.own.out, [p], k);
    hide OwnerWaits, Held, Ahead, Asking, GuestSilent;
  }

  lemma StuckKept(c: Conv, k: nat, e: ConvEvent)
    requires Shape(c) && Stuck(c, k) && CanStep(c, e)
    ensures Stuck(Step(c, e), k)
  {
    match e
    case Opens(window, payload) =>
      hide Stuck, Step, Shape;
      OpensKeeps(c, k, window, payload);
    case Acts(who, n, fe) =>
      hide HalfShape, OwnerWaits, GuestSilent, Held, Ahead, Asking, ActHalf;
      if who.Owner? {
        OwnerQueues(c.own, c.x, k, n, fe);
        if c.own.pending == Some(k) {
          OwnerActs(c.own, c.x, k, n, fe);
        }
      } else {
        GuestActs(c.guest, c.x, k, n, fe);
      }
    case Receives(who, window) =>
      hide Stuck, Step, Shape, CanStep;
      if who.Owner? {
        OwnerTakesKeeps(c, k, window);
      } else {
        GuestTakesKeeps(c, k, window);
      }
  }
}
