/** The guards of module Delivery and the races behind them: what each guard is needed for,
    and exactly when identifiers are conserved.
 */
module Races {
  import opened Frames
  import opened Flow
  import opened StreamTable
  import opened Conversation
  import opened FirstUse
  import opened Reuse
  import opened Freeing
  import opened EarlyReuse
  import opened Link
  import opened Delivery

  // ------------------------------------------------- a closing frame inside Close

  /** What the read loop finds: a closing frame for a stream whose live session has
      Close at work on it. */
  predicate FinInsideClose(l: Net, side: Side) {
    && CanDo(l, Receive(side))
    && var t, f := Ep(l, side).t, Ep(l, Peer(side)).wire[0].frame;
       && f.command == CMD_STREAM_CLOSE
       && f.streamID in t.live && t.Has(f.streamID, t.live[f.streamID])
       && !Settled(t.Get(f.streamID, t.live[f.streamID]))
  }

  /** The same, for identifier `x` and at the end that hands it out. */
  predicate FreesTwice(l: Net, e: Event, x: UInt32) {
    e.Receive? && FinInsideClose(l, e.side) && Arriving(l, e.side) == x && Ep(l, e.side).t.Owns(x)
  }

  /** The rest of a Close call that is past its locked section. */
  function RestOfClose(side: Side, id: UInt32, n: nat, f: Flow): seq<Event> {
    (if f.close.Changed? then [Act(side, id, n, CloseSignal)] else []) + [Act(side, id, n, CloseNotify)]
  }

  lemma SessionSound(l: Net, side: Side, id: UInt32, n: nat)
    requires NetInv(l) && Ep(l, side).t.Has(id, n)
    ensures Sound(Ep(l, side).t.Get(id, n), id)
  {
    ShapeAt(l, side, id);
    ProjParts(l, side, id);
  }

  lemma OneStep(l: Net, e: Event)
    requires CanDo(l, e)
    ensures CanExec(l, [e]) && Exec(l, [e]) == Do(l, e)
  {
    assert [e][1..] == [];
  }

  lemma TwoSteps(l: Net, e: Event, d: Event)
    requires CanDo(l, e) && CanDo(Do(l, e), d)
    ensures CanExec(l, [e, d]) && Exec(l, [e, d]) == Do(Do(l, e), d)
  {
    assert [e, d][1..] == [d];
    OneStep(Do(l, e), d);
  }

  // ------------------------------------------------------- the rest of a Close

  lemma SignalOnly(ep: Endpoint, id: UInt32, n: nat)
    requires ep.t.Has(id, n) && ep.t.Get(id, n).close.Changed? && ep.t.Get(id, n).s.finCh == 0
    ensures var ep' := DoAct(ep, id, n, CloseSignal);
            && ep'.t == ep.t.Put(id, n, ep'.t.Get(id, n)) && ep'.t.Has(id, n)
            && ep'.t.Get(id, n).close.Signalled?
            && ep'.t.Get(id, n).s.state == ep.t.Get(id, n).s.state
  {
  }

  /** The callback, for a session that has ended: the entry under its identifier goes,
      whichever session it is, and the identifier is freed if it is one of this end. */
  lemma NotifyDrops(ep: Endpoint, id: UInt32, n: nat)
    requires ep.t.Has(id, n) && ep.t.Get(id, n).close.Signalled? && ep.t.Get(id, n).s.Terminal()
    ensures var ep' := DoAct(ep, id, n, CloseNotify);
            && ep'.t.live == ep.t.live - {id}
            && ep'.t.free == (if ep.t.Owns(id) then ep.t.free + [id] else ep.t.free)
            && |ep'.t.Incs(id)| == |ep.t.Incs(id)|
            && forall m: nat :: m != n && ep.t.Has(id, m) ==> ep'.t.Get(id, m) == ep.t.Get(id, m)
  {
  }

  lemma SignalThenNotify(ep: Endpoint, id: UInt32, n: nat)
    requires ep.t.Has(id, n) && ep.t.Get(id, n).close.Changed? && ep.t.Get(id, n).s.finCh == 0
    requires ep.t.Get(id, n).s.Terminal()
    ensures var ep1 := DoAct(ep, id, n, CloseSignal);
            && ep1.t.Has(id, n) && ep1.t.Get(id, n).close.Signalled?
            && var u := DoAct(ep1, id, n, CloseNotify).t;
               && u.live == ep.t.live - {id}
               && u.free == (if ep.t.Owns(id) then ep.t.free + [id] else ep.t.free)
               && |u.Incs(id)| == |ep.t.Incs(id)|
               && forall m: nat :: m != n && ep.t.Has(id, m) ==> u.Get(id, m) == ep.t.Get(id, m)
  {
    SignalOnly(ep, id, n);
    hide DoAct;
    NotifyDrops(DoAct(ep, id, n, CloseSignal), id, n);
  }

  /** A Close past its locked section can always finish. */
  lemma CloseFinishes(l: Net, side: Side, id: UInt32, n: nat)
    requires NetInv(l) && Ep(l, side).t.Has(id, n) && !Settled(Ep(l, side).t.Get(id, n))
    ensures CanExec(l, RestOfClose(side, id, n, Ep(l, side).t.Get(id, n)))
  {
    var ep := Ep(l, side);
    var f, notify := ep.t.Get(id, n), Act(side, id, n, CloseNotify);
    SessionSound(l, side, id, n);
    hide NetInv;
    if f.close.Changed? {
      var signal := Act(side, id, n, CloseSignal);
      SignalOnly(ep, id, n);
      assert Ep(Do(l, signal), side) == DoAct(ep, id, n, CloseSignal);
      TwoSteps(l, signal, notify);
      assert RestOfClose(side, id, n, f) == [signal, notify];
    } else {
      OneStep(l, notify);
      assert RestOfClose(side, id, n, f) == [notify];
    }
  }

  /** What finishing does when the session has already ended. */
  lemma FinishedClose(l: Net, side: Side, id: UInt32, n: nat)
    requires NetInv(l) && Ep(l, side).t.Has(id, n) && !Settled(Ep(l, side).t.Get(id, n))
    requires Ep(l, side).t.Get(id, n).s.Terminal()
    ensures var rest := RestOfClose(side, id, n, Ep(l, side).t.Get(id, n));
            && CanExec(l, rest)
            && var t, t' := Ep(l, side).t, Ep(Exec(l, rest), side).t;
               && t'.live == t.live - {id}
               && t'.free == (if t.Owns(id) then t.free + [id] else t.free)
               && |t'.Incs(id)| == |t.Incs(id)|
               && forall m: nat :: m != n && t.Has(id, m) ==> t'.Get(id, m) == t.Get(id, m)
  {
    var ep := Ep(l, side);
    var f, notify := ep.t.Get(id, n), Act(side, id, n, CloseNotify);
    SessionSound(l, side, id, n);
    hide NetInv;
    if f.close.Changed? {
      var signal := Act(side, id, n, CloseSignal);
      SignalThenNotify(ep, id, n);
      assert Ep(Do(l, signal), side) == DoAct(ep, id, n, CloseSignal);
      TwoSteps(l, signal, notify);
      assert RestOfClose(side, id, n, f) == [signal, notify];
    } else {
      NotifyDrops(ep, id, n);
      OneStep(l, notify);
      assert RestOfClose(side, id, n, f) == [notify];
    }
  }

  /** The read loop ends the session and takes it out of the table, with Close still at
      work on it. */
  lemma FinEnds(l: Net, side: Side)
    requires NetInv(l) && FinInsideClose(l, side)
    ensures var t, t1 := Ep(l, side).t, Ep(Do(l, Receive(side)), side).t;
            var id := Ep(l, Peer(side)).wire[0].frame.streamID;
            var n := t.live[id];
            && t1.Has(id, n) && t1.Get(id, n).s.Terminal() && t1.Get(id, n).close == t.Get(id, n).close
            && t1.live == t.live - {id} && t1.next == t.next && |t1.Incs(id)| == |t.Incs(id)|
            && t1.free == if t.Owns(id) then t.free + [id] else t.free
  {
    var id := Ep(l, Peer(side)).wire[0].frame.streamID;
    SessionSound(l, side, id, Ep(l, side).t.live[id]);
    hide NetInv;
  }

  /** Whenever, in any run, a closing frame is handled while Close is at work on the same
      stream, the call goes on to free the identifier a second time. */
  lemma FinInsideCloseFreesTwice(l: Net, es: seq<Event>, side: Side, id: UInt32)
    requires Connected(l) && CanExec(l, es) && FreesTwice(Exec(l, es), Receive(side), id)
    ensures var l' := Exec(l, es);
            var t := Ep(l', side).t;
            var rest := RestOfClose(side, id, t.live[id], t.Get(id, t.live[id]));
            && CanExec(Do(l', Receive(side)), rest)
            && Ep(Exec(Do(l', Receive(side)), rest), side).t.free == t.free + [id, id]
  {
    AllFirstAfter(l, es);
    hide Exec, Connected, CanExec, NetInv;
    FreedTwice(Exec(l, es), side, id);
  }

  lemma FreedTwice(l: Net, side: Side, id: UInt32)
    requires NetInv(l) && FreesTwice(l, Receive(side), id)
    ensures var t := Ep(l, side).t;
            var l1, rest := Do(l, Receive(side)), RestOfClose(side, id, t.live[id], t.Get(id, t.live[id]));
            CanExec(l1, rest) && Ep(Exec(l1, rest), side).t.free == t.free + [id, id]
  {
    hide NetInv, Exec, CanExec, Settled;
    var t := Ep(l, side).t;
    FinEnds(l, side);
    NetInvKept(l, Receive(side));
    StillUnsettled(l, side);
    hide Do;
    FinishedClose(Do(l, Receive(side)), side, id, t.live[id]);
    assert t.free + [id] + [id] == t.free + [id, id];
  }

  lemma StillUnsettled(l: Net, side: Side)
    requires NetInv(l) && FinInsideClose(l, side)
    ensures var id := Ep(l, Peer(side)).wire[0].frame.streamID;
            var n := Ep(l, side).t.live[id];
            var t1 := Ep(Do(l, Receive(side)), side).t;
            t1.Has(id, n) && !Settled(t1.Get(id, n))
  {
    FinEnds(l, side);
    hide NetInv, Do;
  }

  // ------------------------------------------------------------- conservation

  /** An identifier handed out by its owner is live there or in its free list, once. */
  predicate ConservedAt(l: Net, x: UInt32) {
    var t := Ep(l, OwnerOf(x)).t;
    multiset(t.free)[x] + (if x in t.live then 1 else 0) == if Used(t, x) then 1 else 0
  }

  /** No step of the run handles a closing frame of `x` inside Close at its owner. Nothing
      is asked of reuse, of requests, of the other end or of other identifiers. */
  predicate Tidy(l: Net, es: seq<Event>, x: UInt32)
    requires CanExec(l, es)
    decreases es
  {
    es == [] || (!FreesTwice(l, es[0], x) && Tidy(Do(l, es[0]), es[1..], x))
  }

  lemma FreeIsConserved(l: Net, x: UInt32)
    requires FreeInv(Proj(l, x).own)
    ensures ConservedAt(l, x)
  {
  }

  lemma TidyReceive(l: Net, side: Side, x: UInt32)
    requires CanDo(l, Receive(side)) && !FreesTwice(l, Receive(side), x) && About(Ep(l, Peer(side)).wire[0], x)
    requires RoleIn(Ep(l, side), x) == WhoIs(side, x)
    ensures !FinLands(Proj(l, x), Receives(WhoIs(side, x), Ep(l, side).window), Owner)
  {
    hide Filter, Settled, Proj;
    ProjParts(l, side, x);
    PopHalf(Ep(l, Peer(side)), x);
  }

  lemma TidyStep(l: Net, e: Event, x: UInt32)
    requires CanDo(l, e) && !FreesTwice(l, e, x) && StepOf(l, e, x).Some? && NetInv(l)
    ensures !FinLands(Proj(l, x), StepOf(l, e, x).value, Owner)
  {
    hide NetInv, FreesTwice, Proj, HalfShape, RoleIn;
    if e.Receive? {
      ShapeAt(l, e.side, x);
      TidyReceive(l, e.side, x);
    }
  }

  lemma FreeKeptBy(l: Net, e: Event, x: UInt32)
    requires NetInv(l) && FreeInv(Proj(l, x).own) && CanDo(l, e) && !FreesTwice(l, e, x)
    ensures FreeInv(Proj(Do(l, e), x).own)
  {
    assert Shape(Proj(l, x));
    hide Proj, Do, NetInv, FreeInv, CanDo, FreesTwice, Shape, FinLands;
    SimulatesAll(l, e, x);
    if StepOf(l, e, x).Some? {
      TidyStep(l, e, x);
      FreeInvKept(Proj(l, x), StepOf(l, e, x).value);
    }
  }

  lemma {:induction false} TidyRun(l: Net, es: seq<Event>, x: UInt32)
    requires NetInv(l) && FreeInv(Proj(l, x).own) && CanExec(l, es) && Tidy(l, es, x)
    ensures NetInv(Exec(l, es)) && FreeInv(Proj(Exec(l, es), x).own)
    decreases |es|
  {
    hide NetInv, FreeInv, Proj, Do, CanDo, FreesTwice;
    if es != [] {
      NetInvKept(l, es[0]);
      FreeKeptBy(l, es[0], x);
      TidyRun(Do(l, es[0]), es[1..], x);
    }
  }

  lemma ConnectedIsFree(l: Net, x: UInt32)
    requires Connected(l)
    ensures NetInv(l) && FreeInv(Proj(l, x).own)
  {
    ConnectedInv(l);
    ConnectedProj(l, x);
  }

  lemma FreeAfter(l: Net, es: seq<Event>, x: UInt32)
    requires Connected(l) && CanExec(l, es) && Tidy(l, es, x)
    ensures NetInv(Exec(l, es)) && FreeInv(Proj(Exec(l, es), x).own)
  {
    hide NetInv, FreeInv, Proj;
    ConnectedIsFree(l, x);
    TidyRun(l, es, x);
  }

  /** Conservation under the one guard it needs, identifier by identifier: `x` is conserved
      whatever happens to the others. */
  lemma TidyRunsConserve(l: Net, es: seq<Event>, x: UInt32)
    requires Connected(l) && CanExec(l, es) && Tidy(l, es, x)
    ensures ConservedAt(Exec(l, es), x)
  {
    hide FreeInv, Proj, NetInv;
    FreeAfter(l, es, x);
    FreeIsConserved(Exec(l, es), x);
  }

  /** `x` is conserved here and after the end of any one Close call on it that is past its
      locked section. */
  ghost predicate ConservesToTheEnd(l: Net, x: UInt32) {
    && ConservedAt(l, x)
    && forall n: nat {:trigger Ep(l, OwnerOf(x)).t.Get(x, n)} ::
         Ep(l, OwnerOf(x)).t.Has(x, n) && !Settled(Ep(l, OwnerOf(x)).t.Get(x, n)) ==>
           var rest := RestOfClose(OwnerOf(x), x, n, Ep(l, OwnerOf(x)).t.Get(x, n));
           CanExec(l, rest) && ConservedAt(Exec(l, rest), x)
  }

  ghost predicate ConservesThroughout(l: Net, es: seq<Event>, x: UInt32)
    requires CanExec(l, es)
    decreases es
  {
    ConservesToTheEnd(l, x) && (es != [] ==> ConservesThroughout(Do(l, es[0]), es[1..], x))
  }

  /** Steps of sessions handle no frame. */
  lemma {:induction false} ActsAreTidy(l: Net, es: seq<Event>, x: UInt32)
    requires CanExec(l, es) && forall i :: 0 <= i < |es| ==> es[i].Act?
    ensures Tidy(l, es, x)
    decreases |es|
  {
    if es != [] {
      ActsAreTidy(Do(l, es[0]), es[1..], x);
    }
  }

  lemma FreeToTheEnd(l: Net, x: UInt32)
    requires NetInv(l) && FreeInv(Proj(l, x).own)
    ensures ConservesToTheEnd(l, x)
  {
    var side := OwnerOf(x);
    FreeIsConserved(l, x);
    forall n: nat | Ep(l, side).t.Has(x, n) && !Settled(Ep(l, side).t.Get(x, n))
      ensures var rest := RestOfClose(side, x, n, Ep(l, side).t.Get(x, n));
              CanExec(l, rest) && ConservedAt(Exec(l, rest), x)
    {
      var rest := RestOfClose(side, x, n, Ep(l, side).t.Get(x, n));
      CloseFinishes(l, side, x, n);
      hide NetInv, FreeInv, Proj, ConservedAt, Exec, CanExec, Tidy, Settled;
      ActsAreTidy(l, rest, x);
      TidyRun(l, rest, x);
      FreeIsConserved(Exec(l, rest), x);
    }
  }

  /** After a closing frame inside Close, the end of that Close is where it shows. */
  lemma UntidyShows(l: Net, e: Event, x: UInt32)
    requires NetInv(l) && CanDo(l, e) && FreesTwice(l, e, x)
    ensures !ConservesToTheEnd(Do(l, e), x)
  {
    var side, l1 := e.side, Do(l, e);
    var t := Ep(l, side).t;
    FinEnds(l, side);
    StillUnsettled(l, side);
    var n := t.live[x];
    var rest := RestOfClose(side, x, n, Ep(l1, side).t.Get(x, n));
    FreedTwice(l, side, x);
    OwnsIsOwner(l, side, x);
    hide Do, NetInv, Exec, CanExec, FinInsideClose;
    var u := Ep(Exec(l1, rest), side).t;
    assert u.free == t.free + [x, x];
    assert multiset(u.free)[x] >= 2;
    assert !ConservedAt(Exec(l1, rest), x);
  }

  lemma OwnsIsOwner(l: Net, side: Side, id: UInt32)
    requires NetInv(l) && Ep(l, side).t.Owns(id)
    ensures OwnerOf(id) == side
  {
    BothEndpoints(l, side);
  }

  lemma {:induction false} ConservedExactlyWhenTidy(l: Net, es: seq<Event>, x: UInt32)
    requires NetInv(l) && FreeInv(Proj(l, x).own) && CanExec(l, es)
    ensures ConservesThroughout(l, es, x) <==> Tidy(l, es, x)
    decreases |es|
  {
    hide NetInv, FreeInv, Proj, Do, CanDo, FreesTwice, ConservesToTheEnd;
    FreeToTheEnd(l, x);
    if es != [] {
      if FreesTwice(l, es[0], x) {
        UntidyShows(l, es[0], x);
      } else {
        NetInvKept(l, es[0]);
        FreeKeptBy(l, es[0], x);
        ConservedExactlyWhenTidy(Do(l, es[0]), es[1..], x);
      }
    }
  }

  /** Exactly when an identifier is conserved, for every run of two endpoints just
      connected: at every point, and through the end of every Close call on it that is
      under way there, if and only if no closing frame of it is handled inside Close at
      its owner before the run's last point. */
  lemma ConservationExact(l: Net, es: seq<Event>, x: UInt32)
    requires Connected(l) && CanExec(l, es)
    ensures ConservesThroughout(l, es, x) <==> Tidy(l, es, x)
  {
    hide ConservesThroughout, Tidy, NetInv, FreeInv, Proj;
    ConnectedIsFree(l, x);
    ConservedExactlyWhenTidy(l, es, x);
  }

  /** In a run that is tidy for it, an identifier is handed out only when inactive and
      with no Close at work on it: of the guard on opens only the queued closing frame is
      left. */
  lemma TidyOpenIsGuarded(l: Net, es: seq<Event>, side: Side, payload: Bytes)
    requires Connected(l) && CanExec(l, es) && CanDo(Exec(l, es), OpenStream(side, payload))
    requires Tidy(l, es, Ep(Exec(l, es), side).t.NextID())
    ensures var l' := Exec(l, es);
            var x := Ep(l', side).t.NextID();
            && x !in Ep(l', side).t.live && AllSettled(Sessions(l', side, x))
            && (GuardedDo(l', OpenStream(side, payload)) <==> FinQueued(Sessions(l', side, x)))
  {
    var l' := Exec(l, es);
    var x := Ep(l', side).t.NextID();
    FreeAfter(l, es, x);
    hide Exec, Connected, CanExec, Tidy, Filter;
    OpenGuard(l', side, payload);
    OpenIsFree(l', side, payload);
    hide NetInv;
    FreeIsSettled(Proj(l', x).own);
  }

  lemma OpenIsFree(l: Net, side: Side, payload: Bytes)
    requires NetInv(l) && CanDo(l, OpenStream(side, payload))
    ensures var h := HalfOf(Ep(l, side), Ep(l, side).t.NextID()); h.free > 0 || !h.used
  {
    hide Filter;
    BothEndpoints(l, side);
    hide NetInv;
    assert FirstSide(Ep(l, side)) == side;
    OpenSame(Ep(l, side), payload);
  }

  lemma FreeIsSettled(h: Half)
    requires FreeInv(h) && (h.free > 0 || !h.used)
    ensures h.live.None? && AllSettled(h.flows)
  {
    forall i | 0 <= i < |h.flows| ensures Settled(h.flows[i]) {
      assert !Alive(h.flows[i]);
    }
  }

  // ------------------------------------------- the callback meets the next use

  /** What remains of a Close whose session the read loop has already taken out of the
      table removes the next use of the identifier instead, open as it is. `f` is that
      session as it was when the Close call got there. */
  lemma LostUse(l: Net, side: Side, id: UInt32, n: nat, m: nat, f: Flow)
    requires NetInv(l) && Ep(l, side).t.Has(id, n) && Ep(l, side).t.Has(id, m) && m != n
    requires Ep(l, side).t.Get(id, n).s.Terminal() && !Settled(Ep(l, side).t.Get(id, n))
    requires f.close == Ep(l, side).t.Get(id, n).close
    ensures var rest := RestOfClose(side, id, n, f);
            && CanExec(l, rest)
            && var t, u := Ep(l, side).t, Ep(Exec(l, rest), side).t;
               && id !in u.live && u.Has(id, m) && u.Get(id, m) == t.Get(id, m)
               && u.free == if t.Owns(id) then t.free + [id] else t.free
  {
    hide NetInv, Exec, CanExec, Settled;
    FinishedClose(l, side, id, n);
  }

  /** The identifier, freed by the read loop, is the next one handed out. */
  lemma HandedOutAgain(l: Net, side: Side, payload: Bytes)
    requires NetInv(l) && CanDo(l, Receive(side)) && FreesTwice(l, Receive(side), Arriving(l, side))
    requires CanDo(Do(l, Receive(side)), OpenStream(side, payload))
    ensures var t, id := Ep(l, side).t, Ep(l, Peer(side)).wire[0].frame.streamID;
            var n, m := t.live[id], |t.Incs(id)|;
            var u := Ep(Do(Do(l, Receive(side)), OpenStream(side, payload)), side).t;
            && u.live == t.live[id := m] && u.free == t.free && u.Owns(id) && m != n
            && u.Has(id, m) && u.Get(id, m).s.state.Open?
            && u.Has(id, n) && u.Get(id, n).s.Terminal() && u.Get(id, n).close == t.Get(id, n).close
  {
    hide NetInv, Do, Settled;
    var t, id := Ep(l, side).t, Ep(l, Peer(side)).wire[0].frame.streamID;
    FinEnds(l, side);
    OpenedAgain(Do(l, Receive(side)), side, payload, id, t.live[id]);
    hide FinInsideClose;
    assert (t.free + [id])[..|t.free|] == t.free;
  }

  /** At the end that opens: the old Close removes the new, open session and frees the
      identifier while it is in use. */
  lemma OpenerLosesNextUse(l: Net, side: Side, payload: Bytes)
    requires NetInv(l) && CanDo(l, Receive(side)) && FreesTwice(l, Receive(side), Arriving(l, side))
    requires CanDo(Do(l, Receive(side)), OpenStream(side, payload))
    ensures var t, id := Ep(l, side).t, Ep(l, Peer(side)).wire[0].frame.streamID;
            var n, m := t.live[id], |t.Incs(id)|;
            var l2 := Do(Do(l, Receive(side)), OpenStream(side, payload));
            var rest := RestOfClose(side, id, n, t.Get(id, n));
            && Ep(l2, side).t.live == t.live[id := m]
            && CanExec(l2, rest)
            && var u := Ep(Exec(l2, rest), side).t;
               && u.Has(id, m) && u.Get(id, m).s.state.Open? && id !in u.live && u.free == t.free + [id]
  {
    hide NetInv, Do, Exec, CanExec;
    var t, id := Ep(l, side).t, Ep(l, Peer(side)).wire[0].frame.streamID;
    var n, m := t.live[id], |t.Incs(id)|;
    var l1 := Do(l, Receive(side));
    NetInvKept(l, Receive(side));
    HandedOutAgain(l, side, payload);
    assert !Settled(t.Get(id, n));
    hide FinInsideClose, CanDo;
    NetInvKept(l1, OpenStream(side, payload));
    LostUse(Do(l1, OpenStream(side, payload)), side, id, n, m, t.Get(id, n));
  }

  lemma OpenedAgain(l: Net, side: Side, payload: Bytes, id: UInt32, n: nat)
    requires CanDo(l, OpenStream(side, payload)) && Ep(l, side).t.Has(id, n)
    requires var free := Ep(l, side).t.free; free != [] && free[|free| - 1] == id
    ensures var t, u := Ep(l, side).t, Ep(Do(l, OpenStream(side, payload)), side).t;
            && u.Has(id, n) && u.Get(id, n) == t.Get(id, n)
            && u.Has(id, |t.Incs(id)|) && u.Get(id, |t.Incs(id)|).s.state.Open?
            && u.live == t.live[id := |t.Incs(id)|]
            && u.free == t.free[..|t.free| - 1] && u.next == t.next
  {
  }

  /** At the end that accepts, with the request for the next use right behind the closing
      frame: it finds the identifier inactive and is taken, and the old Close then removes
      the new, open session. */
  lemma AccepterLosesNextUse(l: Net, side: Side)
    requires NetInv(l) && FinInsideClose(l, side)
    requires var id, wire := Ep(l, Peer(side)).wire[0].frame.streamID, Ep(l, Peer(side)).wire;
             !Ep(l, side).t.Owns(id) && |wire| >= 2 && wire[1].frame.Opens() && wire[1].frame.streamID == id
    ensures var t, id := Ep(l, side).t, Ep(l, Peer(side)).wire[0].frame.streamID;
            var n, m := t.live[id], |t.Incs(id)|;
            var l1 := Do(l, Receive(side));
            var rest := RestOfClose(side, id, n, t.Get(id, n));
            && CanDo(l1, Receive(side))
            && var l2 := Do(l1, Receive(side));
               && Ep(l2, side).t.live == t.live[id := m]
               && CanExec(l2, rest)
               && var u := Ep(Exec(l2, rest), side).t;
                  u.Has(id, m) && u.Get(id, m).s.state.Open? && id !in u.live
  {
    hide NetInv, Do, Settled, Exec, CanExec;
    var t, id := Ep(l, side).t, Ep(l, Peer(side)).wire[0].frame.streamID;
    var n, m := t.live[id], |t.Incs(id)|;
    var l1 := Do(l, Receive(side));
    FinEnds(l, side);
    StillUnsettled(l, side);
    NetInvKept(l, Receive(side));
    NextOnTheWire(l, side);
    hide FinInsideClose;
    NetInvKept(l1, Receive(side));
    AcceptedAgain(l1, side, id, n);
    hide CanDo;
    LostUse(Do(l1, Receive(side)), side, id, n, m, t.Get(id, n));
    assert t.live - {id} + map[id := m] == t.live[id := m];
  }

  lemma NextOnTheWire(l: Net, side: Side)
    requires CanDo(l, Receive(side)) && |Ep(l, Peer(side)).wire| >= 2
    ensures var l1 := Do(l, Receive(side));
            CanDo(l1, Receive(side)) && Ep(l1, Peer(side)).wire == Ep(l, Peer(side)).wire[1..]
  {
    hide Handle;
  }

  lemma AcceptedAgain(l: Net, side: Side, id: UInt32, n: nat)
    requires CanDo(l, Receive(side)) && Ep(l, side).t.Has(id, n)
    requires var f := Ep(l, Peer(side)).wire[0].frame; f.Opens() && f.streamID == id
    requires id !in Ep(l, side).t.live && !Ep(l, side).t.Owns(id)
    ensures var t, u := Ep(l, side).t, Ep(Do(l, Receive(side)), side).t;
            && u.Has(id, n) && u.Get(id, n) == t.Get(id, n)
            && u.Has(id, |t.Incs(id)|) && u.Get(id, |t.Incs(id)|).s.state.Open?
            && u.live == t.live[id := |t.Incs(id)|] && u.next == t.next
  {
  }

  // --------------------------------------------------- requests inside Close

  /** A request that arrives while a Close is at work finds it at work on the last use,
      which has ended. */
  lemma UnsettledIsLast(c: Conv)
    requires ReuseInv(c) && c.own.out != [] && c.own.out[0].frame.Opens() && !AllSettled(c.guest.flows)
    ensures c.guest.flows != []
    ensures var p := c.guest.flows[|c.guest.flows| - 1]; !Settled(p) && p.s.state.Closed?
  {
    hide Sound, Transit, Agree, Holds;
    RequestIsReopening(c);
    var n := |c.own.flows| - 1;
    var i :| 0 <= i < n && !Settled(c.guest.flows[i]);
    assert i == n - 1;
    var o, p := c.own.flows[n - 1], c.guest.flows[n - 1];
    NothingLeft(o, p, c.x, n - 1);
  }

  /** A session that has taken all of a peer that is over has ended, if Close is at work
      on it. */
  lemma NothingLeft(o: Flow, p: Flow, x: UInt32, n: nat)
    requires Sound(p, x) && Agree(o, p) && Transit(x, n, o, p) == [] && o.finSent && !Settled(p)
    ensures p.s.state.Closed?
  {
  }

  lemma RequestIsReopening(c: Conv)
    requires ReuseInv(c) && c.own.out != [] && c.own.out[0].frame.Opens()
    ensures Reopening(c) && |c.own.out| == 1
  {
    hide Holds, Sound, Over, Agree;
    if Reopening(c) && |c.own.out| >= 2 {
      ReopeningHead(c);
    }
  }

  /** What becomes of a request to open, after any run whose steps about its identifier
      were guarded. If no Close is at work there it is taken, for good. Otherwise it is
      dropped, if the last use is still in the table; or it is taken, and then the end of
      that Close removes the new, open session from the table. */
  lemma RequestOutcome(l: Net, es: seq<Event>, side: Side)
    requires Connected(l) && CanExec(l, es) && CanDo(Exec(l, es), Receive(side))
    requires Ep(Exec(l, es), Peer(side)).wire[0].frame.Opens()
    requires GuardedFor(l, es, Arriving(Exec(l, es), side))
    ensures var l' := Exec(l, es);
            var id, l1 := Arriving(l', side), Do(l', Receive(side));
            var t, m := Ep(l', side).t, |Ep(l', side).t.Incs(id)|;
            if GuardedDo(l', Receive(side)) then
              id !in t.live && id in Ep(l1, side).t.live && Ep(l1, side).t.live[id] == m
            else if id in t.live then
              Ep(l1, side) == Ep(l', side)
            else
              && m > 0 && id in Ep(l1, side).t.live && Ep(l1, side).t.live[id] == m
              && var rest := RestOfClose(side, id, m - 1, t.Get(id, m - 1));
                 && CanExec(l1, rest)
                 && var u := Ep(Exec(l1, rest), side).t;
                    u.Has(id, m) && u.Get(id, m).s.state.Open? && id !in u.live
  {
    var l' := Exec(l, es);
    var x := Arriving(l', side);
    ReusedAfter(l, es, x);
    NoStaleFrames(l, es, side);
    hide Exec, Connected, CanExec, GuardedFor;
    hide ReuseInv, Proj, NetInv;
    OffTheWire(l', side);
    if GuardedDo(l', Receive(side)) {
      Taken(l', side);
    } else if x in Ep(l', side).t.live {
      DroppedThere(l', side);
    } else {
      hide Do;
      TakenInsideClose(l', side);
    }
  }

  lemma Taken(l: Net, side: Side)
    requires CanDo(l, Receive(side)) && Ep(l, Peer(side)).wire[0].frame.Opens()
    requires var t, id := Ep(l, side).t, Arriving(l, side); id !in t.live && !t.Owns(id)
    ensures var t, u, id := Ep(l, side).t, Ep(Do(l, Receive(side)), side).t, Arriving(l, side);
            id in u.live && u.live[id] == |t.Incs(id)|
  {
  }

  lemma DroppedThere(l: Net, side: Side)
    requires CanDo(l, Receive(side)) && Ep(l, Peer(side)).wire[0].frame.Opens()
    requires Arriving(l, side) in Ep(l, side).t.live
    ensures Ep(Do(l, Receive(side)), side) == Ep(l, side)
  {
  }

  lemma TakenInsideClose(l: Net, side: Side)
    requires NetInv(l) && CanDo(l, Receive(side)) && Ep(l, Peer(side)).wire[0].frame.Opens()
    requires ReuseInv(Proj(l, Arriving(l, side))) && !GuardedDo(l, Receive(side))
    requires Arriving(l, side) !in Ep(l, side).t.live && !Ep(l, side).t.Owns(Arriving(l, side))
    ensures var t, id, l1 := Ep(l, side).t, Arriving(l, side), Do(l, Receive(side));
            var m := |t.Incs(id)|;
            && m > 0 && id in Ep(l1, side).t.live && Ep(l1, side).t.live[id] == m
            && var rest := RestOfClose(side, id, m - 1, t.Get(id, m - 1));
               && CanExec(l1, rest)
               && var u := Ep(Exec(l1, rest), side).t;
                  u.Has(id, m) && u.Get(id, m).s.state.Open? && id !in u.live
  {
    hide NetInv, ReuseInv, Proj, GuardedDo, Do, Exec, CanExec, Settled;
    var t, id := Ep(l, side).t, Arriving(l, side);
    LastIsClosing(l, side);
    NetInvKept(l, Receive(side));
    var m := |t.Incs(id)|;
    AcceptedAgain(l, side, id, m - 1);
    hide CanDo;
    LostUse(Do(l, Receive(side)), side, id, m - 1, m, t.Get(id, m - 1));
  }

  /** A request comes from the owner to the guest. */
  lemma RequestIsForGuest(l: Net, side: Side)
    requires NetInv(l) && CanDo(l, Receive(side)) && Ep(l, Peer(side)).wire[0].frame.Opens()
    ensures var c := Proj(l, Arriving(l, side));
            && c.guest.flows == Ep(l, side).t.Incs(Arriving(l, side))
            && c.own.out != [] && c.own.out[0] == Ep(l, Peer(side)).wire[0]
  {
    hide NetInv, Filter, HalfShape;
    var x := Arriving(l, side);
    OffTheWire(l, side);
    ShapeAt(l, side, x);
    PopHalf(Ep(l, Peer(side)), x);
    ProjParts(l, side, x);
  }

  lemma LastIsClosing(l: Net, side: Side)
    requires NetInv(l) && CanDo(l, Receive(side)) && Ep(l, Peer(side)).wire[0].frame.Opens()
    requires ReuseInv(Proj(l, Arriving(l, side))) && !GuardedDo(l, Receive(side))
    ensures var incs := Ep(l, side).t.Incs(Arriving(l, side));
            incs != [] && !Settled(incs[|incs| - 1]) && incs[|incs| - 1].s.Terminal()
  {
    hide ReuseInv, NetInv, Proj, Settled, AllSettled;
    RequestIsForGuest(l, side);
    UnsettledIsLast(Proj(l, Arriving(l, side)));
  }

  // ----------------------------------------------------- opens inside Close

  lemma UnsettledOwnIsLast(c: Conv)
    requires ReuseInv(c) && c.own.live.None? && !AllSettled(c.own.flows)
    ensures c.own.flows != [] && c.own.used
    ensures var o := c.own.flows[|c.own.flows| - 1]; !Settled(o) && o.s.state.Closed?
  {
    var n := |c.own.flows| - 1;
    var i :| 0 <= i < |c.own.flows| && !Settled(c.own.flows[i]);
    assert Established(c);
    assert i == n;
  }

  lemma LastOwnIsClosing(l: Net, side: Side, payload: Bytes)
    requires NetInv(l) && CanDo(l, OpenStream(side, payload)) && ReuseInv(Proj(l, Ep(l, side).t.NextID()))
    requires var t := Ep(l, side).t; t.NextID() !in t.live && !AllSettled(t.Incs(t.NextID()))
    ensures var t := Ep(l, side).t;
            var incs := t.Incs(t.NextID());
            && incs != [] && !Settled(incs[|incs| - 1]) && incs[|incs| - 1].s.Terminal()
            && t.free != [] && t.free[|t.free| - 1] == t.NextID()
  {
    hide ReuseInv, NetInv, Filter, Settled, AllSettled;
    var x := Ep(l, side).t.NextID();
    OpenGuard(l, side, payload);
    UnsettledOwnIsLast(Proj(l, x));
    assert Used(Ep(l, side).t, x);
  }

  /** What an open does with an identifier on which it should have waited, after any run
      whose steps about it were guarded. If the identifier is active, the new session takes
      the place of one that has not ended. If Close is still at work on the last use, the
      end of that Close removes the new, open session from the table and frees the
      identifier while it is in use. (The closing frame not yet queued is the case of
      EarlyReuseAlwaysFails.) */
  lemma OpenOutcome(l: Net, es: seq<Event>, side: Side, payload: Bytes)
    requires Connected(l) && CanExec(l, es) && CanDo(Exec(l, es), OpenStream(side, payload))
    requires GuardedFor(l, es, Ep(Exec(l, es), side).t.NextID())
    ensures var l' := Exec(l, es);
            var t, l1 := Ep(l', side).t, Do(l', OpenStream(side, payload));
            var x := t.NextID();
            var m := |t.Incs(x)|;
            && Ep(l1, side).t.live == t.live[x := m]
            && (x in t.live ==> t.live[x] < m && Alive(t.Get(x, t.live[x])))
            && (x !in t.live && !AllSettled(t.Incs(x)) ==>
                  && m > 0
                  && var rest := RestOfClose(side, x, m - 1, t.Get(x, m - 1));
                     && CanExec(l1, rest)
                     && var u := Ep(Exec(l1, rest), side).t;
                        u.Has(x, m) && u.Get(x, m).s.state.Open? && x !in u.live && x in u.free)
  {
    var l' := Exec(l, es);
    var x := Ep(l', side).t.NextID();
    ReusedAfter(l, es, x);
    hide Exec, Connected, CanExec, GuardedFor, NetInv, ReuseInv, Proj, AllSettled;
    OpenTakesEntry(l', side, payload);
    if x in Ep(l', side).t.live {
      LiveIsAlive(l', side, payload);
    } else if !AllSettled(Ep(l', side).t.Incs(x)) {
      hide Do;
      OpenedInsideClose(l', side, payload);
    }
  }

  lemma OpenTakesEntry(l: Net, side: Side, payload: Bytes)
    requires CanDo(l, OpenStream(side, payload))
    ensures var t, u := Ep(l, side).t, Ep(Do(l, OpenStream(side, payload)), side).t;
            u.live == t.live[t.NextID() := |t.Incs(t.NextID())|]
  {
  }

  lemma LiveIsAlive(l: Net, side: Side, payload: Bytes)
    requires NetInv(l) && CanDo(l, OpenStream(side, payload)) && ReuseInv(Proj(l, Ep(l, side).t.NextID()))
    requires Ep(l, side).t.NextID() in Ep(l, side).t.live
    ensures var t := Ep(l, side).t;
            var n := t.live[t.NextID()];
            n < |t.Incs(t.NextID())| && Alive(t.Get(t.NextID(), n))
  {
    hide ReuseInv, NetInv, Filter;
    OpenGuard(l, side, payload);
    LiveOwnIsAlive(Proj(l, Ep(l, side).t.NextID()));
  }

  lemma LiveOwnIsAlive(c: Conv)
    requires ReuseInv(c) && c.own.live.Some?
    ensures c.own.live.value < |c.own.flows| && Alive(c.own.flows[c.own.live.value])
  {
  }

  lemma OpenedInsideClose(l: Net, side: Side, payload: Bytes)
    requires NetInv(l) && CanDo(l, OpenStream(side, payload)) && ReuseInv(Proj(l, Ep(l, side).t.NextID()))
    requires var t := Ep(l, side).t; t.NextID() !in t.live && !AllSettled(t.Incs(t.NextID()))
    ensures var t, l1 := Ep(l, side).t, Do(l, OpenStream(side, payload));
            var x := t.NextID();
            var m := |t.Incs(x)|;
            && m > 0
            && var rest := RestOfClose(side, x, m - 1, t.Get(x, m - 1));
               && CanExec(l1, rest)
               && var u := Ep(Exec(l1, rest), side).t;
                  u.Has(x, m) && u.Get(x, m).s.state.Open? && x !in u.live && x in u.free
  {
    hide NetInv, ReuseInv, Proj, Do, Exec, CanExec, Settled, AllSettled;
    var t := Ep(l, side).t;
    var x := t.NextID();
    LastOwnIsClosing(l, side, payload);
    NetInvKept(l, OpenStream(side, payload));
    OpenGuard(l, side, payload);
    OwnerOwns(Do(l, OpenStream(side, payload)), side, x);
    var m := |t.Incs(x)|;
    OpenedAgain(l, side, payload, x, m - 1);
    hide CanDo;
    LostUse(Do(l, OpenStream(side, payload)), side, x, m - 1, m, t.Get(x, m - 1));
  }

  lemma OwnerOwns(l: Net, side: Side, id: UInt32)
    requires NetInv(l) && OwnerOf(id) == side
    ensures Ep(l, side).t.Owns(id)
  {
    BothEndpoints(l, side);
  }

  // ------------------------------------------------------------- early reuse

  lemma StuckStartsAt(l: Net, side: Side, payload: Bytes)
    requires NetInv(l) && CanDo(l, OpenStream(side, payload)) && ReuseInv(Proj(l, Ep(l, side).t.NextID()))
    requires var t := Ep(l, side).t;
             t.NextID() !in t.live && AllSettled(t.Incs(t.NextID())) && !FinQueued(t.Incs(t.NextID()))
    ensures var x := Ep(l, side).t.NextID();
            && OwnerOf(x) == side
            && Stuck(Proj(Do(l, OpenStream(side, payload)), x), |Sessions(l, side, x)|)
  {
    hide ReuseInv, Do, NetInv, Stuck, AllSettled, FinQueued, Filter;
    var x := Ep(l, side).t.NextID();
    OpenGuard(l, side, payload);
    SimulatesAll(l, OpenStream(side, payload), x);
    StuckStarts(Proj(l, x), Ep(l, side).window, payload);
  }

  lemma StuckKeptBy(l: Net, e: Event, x: UInt32, k: nat)
    requires NetInv(l) && CanDo(l, e) && Stuck(Proj(l, x), k)
    ensures Stuck(Proj(Do(l, e), x), k)
  {
    assert Shape(Proj(l, x));
    hide Proj, Do, NetInv, CanDo, Stuck, Shape;
    SimulatesAll(l, e, x);
    if StepOf(l, e, x).Some? {
      StuckKept(Proj(l, x), k, StepOf(l, e, x).value);
    }
  }

  lemma {:induction false} RunStuck(l: Net, es: seq<Event>, x: UInt32, k: nat)
    requires NetInv(l) && CanExec(l, es) && Stuck(Proj(l, x), k)
    ensures NetInv(Exec(l, es)) && Stuck(Proj(Exec(l, es), x), k)
    decreases |es|
  {
    hide NetInv, Do, CanDo, Stuck, Proj;
    if es != [] {
      NetInvKept(l, es[0]);
      StuckKeptBy(l, es[0], x, k);
      RunStuck(Do(l, es[0]), es[1..], x, k);
    }
  }

  /** The guard on the queued closing frame is exact, for every use: after any run whose
      steps about the identifier were guarded, handing it out before the closing frame of
      its last use was queued fails for good. However the run goes on, the open call is
      never answered; where its request arrives the identifier is active, so that it is
      dropped; and unless the identifier is handed out yet again the peer gets no further
      session for it. */
  lemma EarlyReuseAlwaysFails(l: Net, es: seq<Event>, e: Event, more: seq<Event>)
    requires Connected(l) && CanExec(l, es) && CanDo(Exec(l, es), e) && e.OpenStream?
    requires GuardedFor(l, es, Ep(Exec(l, es), e.side).t.NextID())
    requires var l' := Exec(l, es);
             var x := Ep(l', e.side).t.NextID();
             && x !in Ep(l', e.side).t.live && AllSettled(Sessions(l', e.side, x))
             && !FinQueued(Sessions(l', e.side, x))
    requires CanExec(Do(Exec(l, es), e), more)
    ensures var x := Ep(Exec(l, es), e.side).t.NextID();
            var k := |Sessions(Exec(l, es), e.side, x)|;
            var l' := Exec(Do(Exec(l, es), e), more);
            && |Sessions(l', e.side, x)| > k && !Sessions(l', e.side, x)[k].acked
            && (|Sessions(l', e.side, x)| == k + 1 ==> |Sessions(l', Peer(e.side), x)| == k)
            && (CanDo(l', Receive(Peer(e.side))) ==>
                  var p := Ep(l', e.side).wire[0];
                  p.frame.Opens() && p.frame.streamID == x && p.inc == k ==>
                    x in Ep(l', Peer(e.side)).t.live
                    && Ep(Do(l', Receive(Peer(e.side))), Peer(e.side)) == Ep(l', Peer(e.side)))
  {
    var l0 := Exec(l, es);
    var x := Ep(l0, e.side).t.NextID();
    var k := |Sessions(l0, e.side, x)|;
    ReusedAfter(l, es, x);
    hide Exec, Connected, CanExec, GuardedFor, NetInv, ReuseInv, Proj, Do, Stuck, AllSettled, FinQueued;
    StuckStartsAt(l0, e.side, e.payload);
    NetInvKept(l0, e);
    var l1 := Do(l0, e);
    RunStuck(l1, more, x, k);
    StuckMeans(Exec(l1, more), e.side, x, k);
  }

  lemma StuckMeans(l: Net, side: Side, x: UInt32, k: nat)
    requires NetInv(l) && OwnerOf(x) == side && Stuck(Proj(l, x), k)
    ensures |Sessions(l, side, x)| > k && !Sessions(l, side, x)[k].acked
    ensures |Sessions(l, side, x)| == k + 1 ==> |Sessions(l, Peer(side), x)| == k
    ensures CanDo(l, Receive(Peer(side))) ==>
              var p := Ep(l, side).wire[0];
              p.frame.Opens() && p.frame.streamID == x && p.inc == k ==>
                x in Ep(l, Peer(side)).t.live
                && Ep(Do(l, Receive(Peer(side))), Peer(side)) == Ep(l, Peer(side))
  {
    hide NetInv, Filter;
    ProjParts(l, side, x);
    if CanDo(l, Receive(Peer(side))) {
      var p := Ep(l, side).wire[0];
      if p.frame.Opens() && p.frame.streamID == x && p.inc == k {
        PopHalf(Ep(l, side), x);
        assert Proj(l, x).own.out[0] == p;
        assert IsRequest(p, k) && Asking(Proj(l, x).own.out, k);
      }
    }
  }
}
