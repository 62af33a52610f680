/** All uses of a stream identifier, one after the other, in the runs in which it is
    handed over in order: the owner opens it again only when the last use has left the
    table, no Close is still at work on it and its closing frame was queued, and the
    guest takes the request only when no Close is still at work there. In between,
    anything may happen at any time.
 */
module Reuse {
  import opened Frames
  import opened Flow
  import opened Conversation
  import opened FirstUse

  /** No Close call is between its locked section and its callback. */
  predicate Settled(f: Flow) {
    f.close.NotClosed? || f.close.Finished?
  }

  predicate AllSettled(flows: seq<Flow>) {
    forall i :: 0 <= i < |flows| ==> Settled(flows[i])
  }

  /** The closing frame of the last use was queued. */
  predicate FinQueued(flows: seq<Flow>) {
    flows == [] || flows[|flows| - 1].finSent
  }

  /** The guards, at the two points where the identifier passes to its next use. */
  predicate Guarded(c: Conv, e: ConvEvent) {
    match e
    case Opens(_, _) => c.own.live.None? && AllSettled(c.own.flows) && FinQueued(c.own.flows)
    case Acts(_, _, _) => true
    case Receives(who, _) =>
      who.Guest? && c.own.out != [] && c.own.out[0].frame.Opens() ==> AllSettled(c.guest.flows)
  }

  /** The session is still in its endpoint's table. */
  predicate Alive(f: Flow) {
    !(f.s.state.Closed? && f.close.Finished?)
  }

  /** The session is closed both ways and has queued its closing frame. */
  predicate Over(f: Flow) {
    !Alive(f) && f.finSent
  }

  /** The table holds session `f`, number `n`, until a closing frame or the callback of
      Close has found it closed. */
  predicate Holds(live: Option<nat>, f: Flow, n: nat) {
    if live.Some? then live.value == n && Alive(f) else f.s.state.Closed?
  }

  /** The uses before the `k`-th are complete, at the guest before the `j`-th. */
  predicate Past(c: Conv, k: nat, j: nat) {
    && k <= |c.own.flows| && k <= |c.guest.flows| && j <= k
    && (forall i :: 0 <= i < k ==> Agree(c.own.flows[i], c.guest.flows[i]) && Over(c.own.flows[i]))
    && (forall i :: 0 <= i < j ==> Over(c.guest.flows[i]))
  }

  /** The request for use `n` is under way, behind the rest of use `n - 1`. */
  predicate Reopening(c: Conv) {
    var n := |c.own.flows| - 1;
    && n >= 0 && |c.guest.flows| == n
    && Past(c, n, if n == 0 then 0 else n - 1)
    && IsAsked(c.own.flows[n], c.x)
    && c.own.live == Some(n) && c.own.pending == Some(n) && c.own.used
    && c.guest.out == []
    && var open := Packet(OpenFrame(c.x, c.own.flows[n].asked), n);
       if n == 0 then c.own.out == [open] && c.guest.live.None?
       else
         var o, p := c.own.flows[n - 1], c.guest.flows[n - 1];
         && p.finSent
         && Holds(c.guest.live, p, n - 1)
         && c.own.out == Transit(c.x, n - 1, o, p) + [open]
  }

  function Answer(o: Flow, x: UInt32, n: nat): seq<Packet> {
    if o.acked then [] else [Packet(AckFrame(x), n)]
  }

  /** Use `n` is the current one: it was accepted by the guest. */
  predicate Established(c: Conv) {
    var n := |c.own.flows| - 1;
    && n >= 0 && |c.guest.flows| == n + 1
    && Past(c, n, n)
    && var o, p := c.own.flows[n], c.guest.flows[n];
       && Agree(o, p)
       && (!o.acked ==> IsAsked(o, c.x))
       && Holds(c.own.live, o, n) && Holds(c.guest.live, p, n)
       && c.own.pending == (if o.acked then None else Some(n)) && c.own.used
       && c.own.out == Transit(c.x, n, o, p)
       && c.guest.out == Answer(o, c.x, n) + Transit(c.x, n, p, o)
  }

  predicate ReuseInv(c: Conv) {
    Shape(c) && (Unopened(c) || Reopening(c) || Established(c))
  }

  lemma ReopensKeeps(c: Conv, window: int, payload: Bytes)
    requires ReuseInv(c) && CanStep(c, Opens(window, payload)) && Guarded(c, Opens(window, payload))
    ensures Reopening(Step(c, Opens(window, payload)))
  {
    if Established(c) {
      var n := |c.own.flows| - 1;
      assert Sound(c.own.flows[n], c.x) && Settled(c.own.flows[n]);
      ClosedIsDone(c.guest.flows[n], c.own.flows[n], c.x, n);
      hide Transit, Sound, Agree, Shape;
    }
  }

  // ------------------------------------------------------------- local steps

  lemma OverStays(f: Flow, e: FlowEvent, x: UInt32)
    requires Sound(f, x) && Over(f) && Enabled(f, e) && !e.FromReadLoop()
    ensures Over(Apply(f, e)) && Emits(f, e) == [] && !e.CloseNotify?
  {
    LocalStep(f, e, x);
  }

  /** Whether the session stays in the table is decided by the callback of Close. */
  lemma AliveStep(f: Flow, e: FlowEvent, x: UInt32)
    requires Sound(f, x) && Enabled(f, e) && !e.FromReadLoop()
    ensures var g := Apply(f, e);
            Alive(g) <==> Alive(f) && !(e.CloseNotify? && g.s.Terminal())
  {
    LocalStep(f, e, x);
  }

  /** A late step of a past use changes nothing but that session's own buffers. */
  lemma PastActsKeeps(c: Conv, who: Who, m: nat, e: FlowEvent, k: nat, j: nat)
    requires Shape(c) && CanStep(c, Acts(who, m, e)) && Past(c, k, j)
    requires if who.Owner? then m < k else m < j
    ensures var c' := Step(c, Acts(who, m, e));
            && Past(c', k, j)
            && c' == WithPart(c, who, Part(c, who).(flows := Part(c, who).flows[m := Apply(Part(c, who).flows[m], e)]))
  {
    var f := Part(c, who).flows[m];
    OverStays(f, e, c.x);
    if who.Owner? {
      AgreeStep(f, c.guest.flows[m], c.x, e);
    } else {
      AgreeStepGuest(c.own.flows[m], f, c.x, e);
    }
    assert Tag([], m) == [];
    hide Apply, Enabled, Emits, Agree, Over;
  }

  /** The owner's current session becomes `o'`, having queued `ps`, and leaves the table
      if `gone`. */
  lemma OwnerAdvances(c: Conv, o': Flow, ps: seq<Packet>, gone: bool)
    requires Established(c)
    requires var n := |c.own.flows| - 1;
             var o, p := c.own.flows[n], c.guest.flows[n];
             && o.acked && o'.acked && Agree(o', p)
             && Transit(c.x, n, o', p) == Transit(c.x, n, o, p) + ps
             && Transit(c.x, n, p, o') == Transit(c.x, n, p, o)
    requires if gone || c.own.live.None? then o'.s.state.Closed? else Alive(o')
    ensures var n := |c.own.flows| - 1;
            var h := c.own.(flows := c.own.flows[n := o'], out := c.own.out + ps);
            Established(c.(own := if gone then DropLive(h, Owner) else h))
  {
    hide Transit, Agree, Over, Alive;
  }

  lemma GuestAdvances(c: Conv, p': Flow, ps: seq<Packet>, gone: bool)
    requires Established(c)
    requires var n := |c.own.flows| - 1;
             var o, p := c.own.flows[n], c.guest.flows[n];
             && Agree(o, p')
             && Transit(c.x, n, p', o) == Transit(c.x, n, p, o) + ps
             && Transit(c.x, n, o, p') == Transit(c.x, n, o, p)
    requires if gone || c.guest.live.None? then p'.s.state.Closed? else Alive(p')
    ensures var n := |c.own.flows| - 1;
            var h := c.guest.(flows := c.guest.flows[n := p'], out := c.guest.out + ps);
            Established(c.(guest := if gone then DropLive(h, Guest) else h))
  {
    hide Transit, Agree, Over, Alive;
  }

  /** A local step takes the entry out of the table when it is the callback of Close and
      the session has ended. */
  lemma ActIs(h: Half, who: Who, n: nat, e: FlowEvent, x: UInt32)
    requires n < |h.flows| && Sound(h.flows[n], x) && Enabled(h.flows[n], e) && !e.FromReadLoop()
    requires Holds(h.live, h.flows[n], n)
    ensures var f := h.flows[n];
            var g := Apply(f, e);
            var gone := e.CloseNotify? && g.s.Terminal();
            var h1 := h.(flows := h.flows[n := g], out := h.out + Tag(Emits(f, e), n));
            && ActHalf(h, who, n, e) == (if gone then DropLive(h1, who) else h1)
            && if gone || h.live.None? then g.s.state.Closed? else Alive(g)
  {
    AliveStep(h.flows[n], e, x);
    LocalStep(h.flows[n], e, x);
    hide Apply, Emits, FlowInv;
  }

  lemma OwnerActsKeeps(c: Conv, e: FlowEvent)
    requires Shape(c) && Established(c) && CanStep(c, Acts(Owner, |c.own.flows| - 1, e))
    ensures Established(Step(c, Acts(Owner, |c.own.flows| - 1, e)))
  {
    var n := |c.own.flows| - 1;
    var o, p := c.own.flows[n], c.guest.flows[n];
    if !o.acked {
      AskedIsIdle(o, e);
    }
    LocalStep(o, e, c.x);
    AliveStep(o, e, c.x);
    AgreeStep(o, p, c.x, e);
    SendStep(o, e, c.x, n, p);
    HoldStep(p, o, e, c.x, n);
    ActIs(c.own, Owner, n, e, c.x);
    hide Apply, Emits, Transit, Alive, Agree, Established, Enabled, ActHalf;
    OwnerAdvances(c, Apply(o, e), Tag(Emits(o, e), n), e.CloseNotify? && Apply(o, e).s.Terminal());
  }

  lemma GuestActsKeeps(c: Conv, e: FlowEvent)
    requires Shape(c) && Established(c) && CanStep(c, Acts(Guest, |c.own.flows| - 1, e))
    ensures Established(Step(c, Acts(Guest, |c.own.flows| - 1, e)))
  {
    var n := |c.own.flows| - 1;
    var o, p := c.own.flows[n], c.guest.flows[n];
    LocalStep(p, e, c.x);
    AliveStep(p, e, c.x);
    AgreeStepGuest(o, p, c.x, e);
    SendStep(p, e, c.x, n, o);
    HoldStep(o, p, e, c.x, n);
    ActIs(c.guest, Guest, n, e, c.x);
    hide Apply, Emits, Transit, Alive, Agree, Established, Enabled, ActHalf;
    GuestAdvances(c, Apply(p, e), Tag(Emits(p, e), n), e.CloseNotify? && Apply(p, e).s.Terminal());
  }

  lemma PastIsPast(c: Conv, who: Who, m: nat, g: Flow)
    requires Established(c) && m < |c.own.flows| - 1
    requires var h := Part(c, who);
             Past(WithPart(c, who, h.(flows := h.flows[m := g])), |c.own.flows| - 1, |c.own.flows| - 1)
    ensures var h := Part(c, who);
            Established(WithPart(c, who, h.(flows := h.flows[m := g])))
  {
    hide Transit, Agree, Over, Alive, Past;
  }

  lemma EstablishedActsKeeps(c: Conv, who: Who, m: nat, e: FlowEvent)
    requires Shape(c) && Established(c) && CanStep(c, Acts(who, m, e))
    ensures Established(Step(c, Acts(who, m, e)))
  {
    var n := |c.own.flows| - 1;
    if m < n {
      PastActsKeeps(c, who, m, e, n, n);
      var g := Apply(Part(c, who).flows[m], e);
      hide Established, Step, Shape, Past, Apply, CanStep;
      PastIsPast(c, who, m, g);
    } else {
      hide Established, Step, Shape;
      if who.Owner? {
        OwnerActsKeeps(c, e);
      } else {
        GuestActsKeeps(c, e);
      }
    }
  }

  /** A past use other than the guest's last one becomes `g`. */
  lemma PastIsReopening(c: Conv, who: Who, m: nat, g: Flow)
    requires Reopening(c) && m < |c.guest.flows| && (m == |c.guest.flows| - 1 ==> who.Owner?)
    requires var n, h := |c.own.flows| - 1, Part(c, who);
             Past(WithPart(c, who, h.(flows := h.flows[m := g])), n, n - 1)
    requires var p := c.guest.flows[m];
             m == |c.guest.flows| - 1 ==>
               |p.got| <= |g.sent| && Transit(c.x, m, g, p) == Transit(c.x, m, c.own.flows[m], p)
    ensures var h := Part(c, who);
            Reopening(WithPart(c, who, h.(flows := h.flows[m := g])))
  {
    hide Transit, Agree, Over, Alive, Past;
  }

  lemma ReopeningActsKeeps(c: Conv, who: Who, m: nat, e: FlowEvent)
    requires Shape(c) && Reopening(c) && CanStep(c, Acts(who, m, e))
    ensures Reopening(Step(c, Acts(who, m, e)))
  {
    hide Apply, FlowInv;
    var n := |c.own.flows| - 1;
    if m == n {
      AskedIsIdle(c.own.flows[n], e);
    } else if who.Guest? && m == n - 1 {
      LastGuestActsKeeps(c, e);
    } else {
      PastActsKeeps(c, who, m, e, n, if n == 0 then 0 else n - 1);
      if m == n - 1 {
        var o, p := c.own.flows[m], c.guest.flows[m];
        OverStays(o, e, c.x);
        LocalStep(o, e, c.x);
        assert Transit(c.x, m, Apply(o, e), p) == Transit(c.x, m, o, p);
      }
      hide Step, Transit, Agree, Over, Alive, Past, Reopening, Shape, CanStep;
      PastIsReopening(c, who, m, Apply(Part(c, who).flows[m], e));
    }
  }

  /** The guest's session of the last use may still be ending. */
  lemma LastGuestActsKeeps(c: Conv, e: FlowEvent)
    requires Shape(c) && Reopening(c) && |c.own.flows| >= 2
    requires CanStep(c, Acts(Guest, |c.own.flows| - 2, e))
    ensures Reopening(Step(c, Acts(Guest, |c.own.flows| - 2, e)))
  {
    var m := |c.own.flows| - 2;
    var o, p := c.own.flows[m], c.guest.flows[m];
    LocalStep(p, e, c.x);
    AliveStep(p, e, c.x);
    AgreeStepGuest(o, p, c.x, e);
    HoldStep(o, p, e, c.x, m);
    ActIs(c.guest, Guest, m, e, c.x);
    hide Apply, Emits, Transit, Alive, Agree, Enabled, ActHalf, Over;
  }

  // --------------------------------------------------------- the read loop

  /** The read loop takes a session out of the table when a closing frame finds it
      closed by its own end, whether or not that Close is still at work. */
  lemma ReceiveIs(h: Half, who: Who, x: UInt32, window: int, f: Frame, n: nat)
    requires h.live == Some(n) && n < |h.flows| && Sound(h.flows[n], x) && Alive(h.flows[n])
    requires f == DataFrame(x, f.payload) || f == CloseFrame(x)
    ensures var g := Apply(h.flows[n], FrameEvent(f));
            var gone := f.command == CMD_STREAM_CLOSE && g.s.Terminal();
            var h1 := h.(flows := h.flows[n := g]);
            && ReceiveHalf(h, who, x, window, f) == (if gone then DropLive(h1, who) else h1)
            && if gone then g.s.state.Closed? else Alive(g)
  {
    LiveReceive(h, who, x, window, f);
  }

  /** A frame of `src` that `dst` has not applied finds `dst` in its table. */
  lemma UndeliveredIsHeld(src: Flow, dst: Flow, x: UInt32, n: nat, live: Option<nat>)
    requires Sound(dst, x) && Carries(src, dst) && Transit(x, n, src, dst) != [] && Holds(live, dst, n)
    ensures live == Some(n) && Alive(dst)
  {
  }

  lemma OwnerConsumes(c: Conv, o': Flow, gone: bool)
    requires Established(c) && c.guest.out != [] && c.own.live.Some?
    requires var n := |c.own.flows| - 1;
             var o, p := c.own.flows[n], c.guest.flows[n];
             && o.acked && o'.acked && Agree(o', p)
             && Transit(c.x, n, o', p) == Transit(c.x, n, o, p)
             && Transit(c.x, n, p, o') == c.guest.out[1..]
    requires if gone then o'.s.state.Closed? else Alive(o')
    ensures var n := |c.own.flows| - 1;
            var h := c.own.(flows := c.own.flows[n := o']);
            Established(Conv(c.x, if gone then DropLive(h, Owner) else h, c.guest.(out := c.guest.out[1..])))
  {
    hide Transit, Agree, Over, Alive;
  }

  lemma GuestConsumes(c: Conv, p': Flow, gone: bool)
    requires Established(c) && c.own.out != [] && c.guest.live.Some?
    requires var n := |c.own.flows| - 1;
             var o, p := c.own.flows[n], c.guest.flows[n];
             && Agree(o, p')
             && Transit(c.x, n, p', o) == Transit(c.x, n, p, o)
             && Transit(c.x, n, o, p') == c.own.out[1..]
    requires if gone then p'.s.state.Closed? else Alive(p')
    ensures var n := |c.own.flows| - 1;
            var h := c.guest.(flows := c.guest.flows[n := p']);
            Established(Conv(c.x, c.own.(out := c.own.out[1..]), if gone then DropLive(h, Guest) else h))
  {
    hide Transit, Agree, Over, Alive;
  }

  lemma AnswerKeeps(c: Conv, window: int)
    requires Shape(c) && Established(c) && CanStep(c, Receives(Owner, window))
    requires !c.own.flows[|c.own.flows| - 1].acked
    ensures Established(Step(c, Receives(Owner, window)))
  {
    var n := |c.own.flows| - 1;
    var o, p := c.own.flows[n], c.guest.flows[n];
    var o' := o.(acked := true);
    assert c.guest.out[0] == Packet(AckFrame(c.x), n);
    assert Transit(c.x, n, p, o') == Transit(c.x, n, p, o) == c.guest.out[1..];
    assert Transit(c.x, n, o', p) == Transit(c.x, n, o, p);
    assert Step(c, Receives(Owner, window)).own == c.own.(pending := None, flows := c.own.flows[n := o']);
    hide Transit, Step, Over;
  }

  lemma OwnerTakesKeeps(c: Conv, window: int)
    requires Shape(c) && Established(c) && CanStep(c, Receives(Owner, window))
    requires c.own.flows[|c.own.flows| - 1].acked
    ensures Established(Step(c, Receives(Owner, window)))
  {
    hide Apply, ReceiveHalf, FlowInv;
    var n := |c.own.flows| - 1;
    var o, p := c.own.flows[n], c.guest.flows[n];
    var f := c.guest.out[0].frame;
    TakeStep(p, o, c.x, n);
    UndeliveredIsHeld(p, o, c.x, n, c.own.live);
    ReceiveIs(c.own, Owner, c.x, window, f, n);
    ReadLoopFrame(o, FrameEvent(f), c.x);
    var o' := Apply(o, FrameEvent(f));
    assert Transit(c.x, n, o', p) == Transit(c.x, n, o, p);
    hide Transit, Alive, Established, Sound;
    OwnerConsumes(c, o', f.command == CMD_STREAM_CLOSE && o'.s.Terminal());
  }

  lemma GuestTakesKeeps(c: Conv, window: int)
    requires Shape(c) && Established(c) && CanStep(c, Receives(Guest, window))
    ensures Established(Step(c, Receives(Guest, window)))
  {
    hide Apply, ReceiveHalf, FlowInv;
    var n := |c.own.flows| - 1;
    var o, p := c.own.flows[n], c.guest.flows[n];
    var f := c.own.out[0].frame;
    TakeStep(o, p, c.x, n);
    UndeliveredIsHeld(o, p, c.x, n, c.guest.live);
    ReceiveIs(c.guest, Guest, c.x, window, f, n);
    ReadLoopFrame(p, FrameEvent(f), c.x);
    var p' := Apply(p, FrameEvent(f));
    assert Transit(c.x, n, p', o) == Transit(c.x, n, p, o);
    hide Transit, Alive, Established, Sound;
    GuestConsumes(c, p', f.command == CMD_STREAM_CLOSE && p'.s.Terminal());
  }

  lemma LastUseConsumes(c: Conv, p': Flow, gone: bool)
    requires Reopening(c) && |c.own.out| >= 2 && c.guest.live.Some?
    requires var m := |c.own.flows| - 2;
             m >= 0 &&
             var o, p := c.own.flows[m], c.guest.flows[m];
             && Agree(o, p') && p'.finSent
             && c.own.out[1..] == Transit(c.x, m, o, p') + [c.own.out[|c.own.out| - 1]]
    requires if gone then p'.s.state.Closed? else Alive(p')
    ensures var m := |c.own.flows| - 2;
            var h := c.guest.(flows := c.guest.flows[m := p']);
            Reopening(Conv(c.x, c.own.(out := c.own.out[1..]), if gone then DropLive(h, Guest) else h))
  {
    hide Transit, Agree, Over, Alive;
  }

  /** The oldest frame of a reopening owner is of the last use or is the request. */
  lemma ReopeningHead(c: Conv)
    requires Shape(c) && Reopening(c) && |c.own.out| >= 2
    ensures var m := |c.own.flows| - 2;
            0 <= m < |c.guest.flows| &&
            var o, p := c.own.flows[m], c.guest.flows[m];
            var t := Transit(c.x, m, o, p);
            && t != [] && c.own.out[0] == t[0]
            && c.own.out[1..] == t[1..] + [c.own.out[|c.own.out| - 1]]
            && Sound(p, c.x) && Agree(o, p) && p.finSent
            && Holds(c.guest.live, p, m)
  {
  }

  /** The guest applies the rest of the last use before it sees the request. */
  lemma LastUseTakesKeeps(c: Conv, window: int)
    requires Shape(c) && Reopening(c) && CanStep(c, Receives(Guest, window))
    requires |c.own.out| >= 2
    ensures Reopening(Step(c, Receives(Guest, window)))
  {
    hide Apply, ReceiveHalf, Transit, Sound, Reopening, Shape;
    var m := |c.own.flows| - 2;
    ReopeningHead(c);
    var o, p := c.own.flows[m], c.guest.flows[m];
    var f := c.own.out[0].frame;
    TakeStep(o, p, c.x, m);
    UndeliveredIsHeld(o, p, c.x, m, c.guest.live);
    ReceiveIs(c.guest, Guest, c.x, window, f, m);
    ReadLoopFrame(p, FrameEvent(f), c.x);
    hide Alive;
    var p' := Apply(p, FrameEvent(f));
    LastUseConsumes(c, p', f.command == CMD_STREAM_CLOSE && p'.s.Terminal());
  }

  /** When the request reaches the guest, the last use has left its table. */
  lemma RequestFindsInactive(c: Conv, window: int)
    requires Shape(c) && Reopening(c) && Guarded(c, Receives(Guest, window))
    requires |c.own.out| == 1
    ensures c.guest.live.None? && c.own.out[0].frame.Opens()
    ensures Past(c, |c.guest.flows|, |c.guest.flows|)
  {
    var n := |c.own.flows| - 1;
    if n > 0 {
      var o, p := c.own.flows[n - 1], c.guest.flows[n - 1];
      assert Transit(c.x, n - 1, o, p) == [];
      assert p.gotFin && Settled(p);
      assert p.s.state.Closed?;
    }
  }

  lemma RequestKeeps(c: Conv, window: int)
    requires Shape(c) && Reopening(c) && CanStep(c, Receives(Guest, window)) && Guarded(c, Receives(Guest, window))
    requires |c.own.out| == 1
    ensures Established(Step(c, Receives(Guest, window)))
  {
    var n := |c.own.flows| - 1;
    RequestFindsInactive(c, window);
    var o, p := c.own.flows[n], Accepted(c.x, window, c.own.flows[n].asked);
    assert Transit(c.x, n, o, p) == [] && Transit(c.x, n, p, o) == [];
    hide Over, Transit;
  }

  lemma ReceivesKeeps(c: Conv, who: Who, window: int)
    requires ReuseInv(c) && CanStep(c, Receives(who, window)) && Guarded(c, Receives(who, window))
    ensures Reopening(Step(c, Receives(who, window))) || Established(Step(c, Receives(who, window)))
  {
    if Established(c) {
      hide Step, Shape;
      if who.Guest? {
        GuestTakesKeeps(c, window);
      } else if c.own.flows[|c.own.flows| - 1].acked {
        OwnerTakesKeeps(c, window);
      } else {
        AnswerKeeps(c, window);
      }
    } else {
      hide Step, Shape;
      if |c.own.out| == 1 {
        RequestKeeps(c, window);
      } else {
        LastUseTakesKeeps(c, window);
      }
    }
  }

  lemma ReuseInvKept(c: Conv, e: ConvEvent)
    requires ReuseInv(c) && CanStep(c, e) && Guarded(c, e)
    ensures ReuseInv(Step(c, e))
  {
    ShapeKept(c, e);
    hide Step, Shape;
    match e
    case Opens(window, payload) => ReopensKeeps(c, window, payload);
    case Acts(who, n, fe) =>
      if Established(c) {
        EstablishedActsKeeps(c, who, n, fe);
      } else {
        ReopeningActsKeeps(c, who, n, fe);
      }
    case Receives(who, window) => ReceivesKeeps(c, who, window);
  }

  /** The oldest frame from `src` under way to `dst` finds `dst` live. */
  lemma HeadFindsPartner(src: Flow, dst: Flow, x: UInt32, n: nat, live: Option<nat>)
    requires Sound(dst, x) && Carries(src, dst) && Transit(x, n, src, dst) != [] && Holds(live, dst, n)
    ensures var p := Transit(x, n, src, dst)[0];
            live == Some(n) && p.inc == n && !p.frame.Opens() && !p.frame.Acks()
  {
    TakeStep(src, dst, x, n);
    UndeliveredIsHeld(src, dst, x, n, live);
    hide Apply, Sound;
  }

  /** A guarded request to open finds the identifier inactive, and every data or closing
      frame is applied to the partner of the session that queued it. */
  lemma AppliedToPartner(c: Conv, who: Who, window: int)
    requires ReuseInv(c) && CanStep(c, Receives(who, window))
    ensures var p := Other(c, who).out[0];
            && (p.frame.Opens() ==> who.Guest? && (Guarded(c, Receives(who, window)) ==> Part(c, who).live.None?))
            && (!p.frame.Opens() && !p.frame.Acks() ==> Part(c, who).live == Some(p.inc))
  {
    var n := |c.own.flows| - 1;
    hide Holds, Transit, Sound, Guarded;
    if Established(c) {
      var o, p := c.own.flows[n], c.guest.flows[n];
      if who.Guest? {
        HeadFindsPartner(o, p, c.x, n, c.guest.live);
      } else if o.acked {
        HeadFindsPartner(p, o, c.x, n, c.own.live);
      }
    } else if |c.own.out| == 1 {
      if Guarded(c, Receives(Guest, window)) {
        RequestFindsInactive(c, window);
      }
    } else {
      ReopeningHead(c);
      HeadFindsPartner(c.own.flows[n - 1], c.guest.flows[n - 1], c.x, n - 1, c.guest.live);
    }
  }
}
