/** Runs that reach each of the situations the guards exclude. They use one identifier,
    a stream limit of one and empty payloads.
 */
module Witnesses {
  import opened Frames
  import opened Streams
  import opened Flow
  import opened StreamTable
  import opened Conversation
  import opened Reuse
  import opened Link
  import opened Delivery
  import opened Races

  /** What these runs change of an endpoint. */
  datatype Corner = Corner(
    flows: seq<Flow>,
    live: map<UInt32, nat>,
    pending: map<UInt32, nat>,
    free: seq<UInt32>,
    next: UInt32,
    data: seq<Packet>,
    wire: seq<Packet>)

  function End(side: Side, k: Corner): Endpoint {
    Endpoint(
      Table(FirstID(side), 1, k.next, k.free, k.live, if k.flows == [] then map[] else map[1 := k.flows], k.pending,
            false),
      0, [], k.data, k.wire)
  }

  function World(r: Corner, a: Corner): Net {
    Net(End(Relay, r), End(Agent, a))
  }

  function Fresh(side: Side): Corner {
    Corner([], map[], map[], [], FirstID(side), [], [])
  }

  function Start(): Net {
    World(Fresh(Relay), Fresh(Agent))
  }

  /** Every step of the run is guarded, whatever it is about. */
  predicate GuardedExec(l: Net, es: seq<Event>)
    requires CanExec(l, es)
    decreases es
  {
    es == [] || (GuardedDo(l, es[0]) && GuardedExec(Do(l, es[0]), es[1..]))
  }

  /** In particular, for each identifier, every step about it. */
  lemma {:induction false} GuardedForAll(l: Net, es: seq<Event>, x: UInt32)
    requires CanExec(l, es) && GuardedExec(l, es)
    ensures GuardedFor(l, es, x)
    decreases |es|
  {
    hide Do, CanDo, GuardedDo, StepOf;
    if es != [] {
      GuardedForAll(Do(l, es[0]), es[1..], x);
    }
  }

  ghost predicate Reached(es: seq<Event>, r: Corner, a: Corner) {
    CanExec(Start(), es) && GuardedExec(Start(), es) && Exec(Start(), es) == World(r, a)
  }

  lemma {:induction false} Extend(l: Net, es: seq<Event>, e: Event)
    requires CanExec(l, es) && GuardedExec(l, es)
    requires CanDo(Exec(l, es), e) && GuardedDo(Exec(l, es), e)
    ensures CanExec(l, es + [e]) && GuardedExec(l, es + [e]) && Exec(l, es + [e]) == Do(Exec(l, es), e)
    decreases |es|
  {
    hide Do, CanDo, GuardedDo;
    if es == [] {
      assert (es + [e])[1..] == [];
    } else {
      assert (es + [e])[1..] == es[1..] + [e];
      Extend(Do(l, es[0]), es[1..], e);
    }
  }

  lemma Next(es: seq<Event>, r: Corner, a: Corner, e: Event, r': Corner, a': Corner) returns (es': seq<Event>)
    requires Reached(es, r, a) && CanDo(World(r, a), e) && GuardedDo(World(r, a), e)
    requires Do(World(r, a), e) == World(r', a')
    ensures Reached(es', r', a')
  {
    hide Do, CanDo, GuardedDo, World, CanExec, GuardedExec, Exec;
    es' := es + [e];
    Extend(Start(), es, e);
  }

  /** The same, told from one end. */
  ghost predicate At(es: seq<Event>, side: Side, k: Corner, far: Corner) {
    if side.Relay? then Reached(es, k, far) else Reached(es, far, k)
  }

  /** A step that changes this end only, or also takes a frame off the other's wire. */
  lemma NextAt(es: seq<Event>, side: Side, k: Corner, far: Corner, e: Event, k': Corner, far': Corner)
    returns (es': seq<Event>)
    requires At(es, side, k, far) && e.side == side
    requires CanDo(Between(side, k, far), e) && GuardedDo(Between(side, k, far), e)
    requires Do(Between(side, k, far), e) == Between(side, k', far')
    ensures At(es', side, k', far')
  {
    hide Do, CanDo, GuardedDo, World, Reached;
    if side.Relay? {
      es' := Next(es, k, far, e, k', far');
    } else {
      es' := Next(es, far, k, e, far', k');
    }
  }

  function Between(side: Side, k: Corner, far: Corner): Net {
    if side.Relay? then World(k, far) else World(far, k)
  }

  lemma Starts()
    ensures Reached([], Fresh(Relay), Fresh(Agent))
  {
  }

  // ------------------------------------------------------------- single steps

  lemma OpensFirst(es: seq<Event>, r: Corner, a: Corner) returns (es': seq<Event>)
    requires Reached(es, r, a) && r == Fresh(Relay)
    ensures Reached(es', Corner([Asked(1, 0, [])], map[1 := 0], map[1 := 0], [], 3,
                                [Packet(OpenFrame(1, []), 0)], []), a)
  {
    var r' := Corner([Asked(1, 0, [])], map[1 := 0], map[1 := 0], [], 3, [Packet(OpenFrame(1, []), 0)], []);
    hide Reached;
    assert End(Relay, r).t.Incs(1) + r'.flows == r'.flows;
    assert DoOpen(End(Relay, r), []).t.incs == map[1 := r'.flows];
    assert DoOpen(End(Relay, r), []).data == r'.data;
    assert DoOpen(End(Relay, r), []) == End(Relay, r');
    hide DoOpen;
    es' := Next(es, r, a, OpenStream(Relay, []), r', a);
  }

  lemma OpensAgain(es: seq<Event>, r: Corner, a: Corner) returns (es': seq<Event>)
    requires Reached(es, r, a)
    requires |r.flows| == 1 && r.flows[0].finSent && r.flows[0].close.Finished? && r.free == [1]
    requires r.live == map[] && r.pending == map[] && r.data == []
    ensures Reached(es', r.(flows := r.flows + [Asked(1, 0, [])], live := map[1 := 1], pending := map[1 := 1],
                            free := [], data := [Packet(OpenFrame(1, []), 1)]), a)
  {
    var r' := r.(flows := r.flows + [Asked(1, 0, [])], live := map[1 := 1], pending := map[1 := 1],
                 free := [], data := [Packet(OpenFrame(1, []), 1)]);
    hide Reached;
    assert DoOpen(End(Relay, r), []).t.incs == map[1 := r'.flows];
    assert DoOpen(End(Relay, r), []) == End(Relay, r');
    hide DoOpen;
    es' := Next(es, r, a, OpenStream(Relay, []), r', a);
  }

  lemma Sends(es: seq<Event>, side: Side, k: Corner, far: Corner, p: Packet) returns (es': seq<Event>)
    requires At(es, side, k, far) && k.data == [p]
    ensures At(es', side, k.(data := [], wire := k.wire + [p]), far)
  {
    var k' := k.(data := [], wire := k.wire + [p]);
    hide At;
    assert DoTransmit(End(side, k)) == End(side, k');
    es' := NextAt(es, side, k, far, Transmit(side), k', far);
  }

  /** A step of the only session of an end that queues nothing and leaves it in the
      table. */
  lemma Moves(es: seq<Event>, side: Side, k: Corner, far: Corner, e: FlowEvent, f: Flow, g: Flow)
    returns (es': seq<Event>)
    requires At(es, side, k, far) && k.flows == [f] && f.acked
    requires Enabled(f, e) && !e.FromReadLoop() && !e.WriteCheck? && g == Apply(f, e) && Emits(f, e) == []
    requires !(e.CloseNotify? && g.s.Terminal())
    ensures At(es', side, k.(flows := [g]), far)
  {
    hide At, Apply, Enabled, Emits;
    var k' := k.(flows := [g]);
    assert [f][0 := g] == [g];
    assert End(side, k).t.Put(1, 0, g).incs == map[1 := [g]];
    assert k.data + Tag([], 0) == k.data;
    assert DoAct(End(side, k), 1, 0, e) == End(side, k');
    hide DoAct;
    es' := NextAt(es, side, k, far, Act(side, 1, 0, e), k', far);
  }

  lemma Flushes(es: seq<Event>, side: Side, k: Corner, far: Corner, f: Flow) returns (es': seq<Event>)
    requires At(es, side, k, far) && k.flows == [f] && f.acked && k.data == []
    requires f.drain.Flushing? && f.s.writeOut == [] && f.s.id == 1
    ensures At(es', side, k.(flows := [f.(drain := Stopped, finSent := true)], data := [Packet(CloseFrame(1), 0)]), far)
  {
    hide At;
    var g := f.(drain := Stopped, finSent := true);
    var k' := k.(flows := [g], data := [Packet(CloseFrame(1), 0)]);
    assert [f][0 := g] == [g];
    assert End(side, k).t.Put(1, 0, g).incs == map[1 := [g]];
    assert [] + Tag([CloseFrame(1)], 0) == k'.data;
    assert DoAct(End(side, k), 1, 0, FlushFin) == End(side, k');
    hide DoAct;
    es' := NextAt(es, side, k, far, Act(side, 1, 0, FlushFin), k', far);
  }

  /** The callback of a Close that ended the relay's session. */
  lemma Notifies(es: seq<Event>, r: Corner, a: Corner, f: Flow) returns (es': seq<Event>)
    requires Reached(es, r, a) && r.flows == [f] && r.live == map[1 := 0] && r.next == 3 && r.free == []
    requires f.close.Signalled? && f.s.Terminal()
    ensures Reached(es', r.(flows := [f.(close := Finished)], live := map[], free := [1]), a)
  {
    hide Reached;
    var g := f.(close := Finished);
    var r' := r.(flows := [g], live := map[], free := [1]);
    assert [f][0 := g] == [g];
    assert End(Relay, r).t.Put(1, 0, g).incs == map[1 := [g]];
    assert r.data + Tag([], 0) == r.data;
    assert DoAct(End(Relay, r), 1, 0, CloseNotify) == End(Relay, r');
    hide DoAct;
    es' := Next(es, r, a, Act(Relay, 1, 0, CloseNotify), r', a);
  }

  lemma Accepts(es: seq<Event>, r: Corner) returns (es': seq<Event>)
    requires Reached(es, r, Fresh(Agent)) && r.wire == [Packet(OpenFrame(1, []), 0)]
    ensures Reached(es', r.(wire := []),
                    Corner([Accepted(1, 0, [])], map[1 := 0], map[], [], 2, [Packet(AckFrame(1), 0)], []))
  {
    hide Reached;
    var a := Fresh(Agent);
    var a' := Corner([Accepted(1, 0, [])], map[1 := 0], map[], [], 2, [Packet(AckFrame(1), 0)], []);
    assert End(Agent, a).t.Incs(1) + a'.flows == a'.flows;
    assert HandleOpen(End(Agent, a), OpenFrame(1, [])).t.incs == map[1 := a'.flows];
    assert HandleOpen(End(Agent, a), OpenFrame(1, [])).data == a'.data;
    assert HandleOpen(End(Agent, a), OpenFrame(1, [])) == End(Agent, a');
    hide HandleOpen;
    es' := Next(es, r, a, Receive(Agent), r.(wire := []), a');
  }

  lemma Answered(es: seq<Event>, r: Corner, a: Corner, f: Flow) returns (es': seq<Event>)
    requires Reached(es, r, a) && a.wire == [Packet(AckFrame(1), 0)] && r.flows == [f] && r.pending == map[1 := 0]
    ensures Reached(es', r.(flows := [f.(acked := true)], pending := map[]), a.(wire := []))
  {
    hide Reached;
    var g := f.(acked := true);
    var r' := r.(flows := [g], pending := map[]);
    assert [f][0 := g] == [g];
    assert End(Relay, r).t.Put(1, 0, g).incs == map[1 := [g]];
    assert map[1 := 0] - {1} == map[];
    assert HandleAck(End(Relay, r), 1) == End(Relay, r');
    hide HandleAck;
    es' := Next(es, r, a, Receive(Relay), r', a.(wire := []));
  }

  lemma HalfHandled(side: Side, k: Corner, f: Flow)
    requires k.flows == [f] && k.live == map[1 := 0] && f.s.state.Open?
    ensures HandleLive(End(side, k), 1, ApplyFin) == End(side, k.(flows := [Apply(f, ApplyFin)]))
  {
    var g := Apply(f, ApplyFin);
    assert [f][0 := g] == [g];
    assert End(side, k).t.Put(1, 0, g).incs == map[1 := [g]];
  }

  /** The closing frame at an end that has not closed. */
  lemma HalfEnds(es: seq<Event>, side: Side, k: Corner, far: Corner, f: Flow) returns (es': seq<Event>)
    requires At(es, side, k, far) && far.wire == [Packet(CloseFrame(1), 0)]
    requires k.flows == [f] && k.live == map[1 := 0] && f.s.state.Open? && f.close.NotClosed?
    ensures At(es', side, k.(flows := [Apply(f, ApplyFin)]), far.(wire := []))
  {
    hide At, HandleLive, Apply;
    HalfHandled(side, k, f);
    es' := NextAt(es, side, k, far, Receive(side), k.(flows := [Apply(f, ApplyFin)]), far.(wire := []));
  }

  /** The closing frame at the relay, whose Close is past. */
  lemma WholeEnds(es: seq<Event>, r: Corner, a: Corner, f: Flow) returns (es': seq<Event>)
    requires Reached(es, r, a) && a.wire == [Packet(CloseFrame(1), 0)]
    requires r.flows == [f] && r.live == map[1 := 0] && r.next == 3 && r.free == []
    requires f.s.state.HalfClosedLocal? && f.close.Finished?
    ensures Reached(es', r.(flows := [Apply(f, ApplyFin)], live := map[], free := [1]), a.(wire := []))
  {
    hide Reached;
    var g := Apply(f, ApplyFin);
    var r' := r.(flows := [g], live := map[], free := [1]);
    assert [f][0 := g] == [g];
    assert End(Relay, r).t.Put(1, 0, g).incs == map[1 := [g]];
    assert HandleLive(End(Relay, r), 1, ApplyFin) == End(Relay, r');
    hide HandleLive;
    es' := Next(es, r, a, Receive(Relay), r', a.(wire := []));
  }

  // ------------------------------------------------------------- stretches

  function RelayOpen(): Corner {
    Corner([Asked(1, 0, []).(acked := true)], map[1 := 0], map[], [], 3, [], [])
  }

  function AgentOpen(): Corner {
    Corner([Accepted(1, 0, [])], map[1 := 0], map[], [], 2, [], [])
  }

  /** Stream 1 is open at both ends. */
  lemma Handshake() returns (es: seq<Event>)
    ensures Reached(es, RelayOpen(), AgentOpen())
  {
    hide Reached;
    Starts();
    var r, a := Fresh(Relay), Fresh(Agent);
    es := OpensFirst([], r, a);
    r := Corner([Asked(1, 0, [])], map[1 := 0], map[1 := 0], [], 3, [Packet(OpenFrame(1, []), 0)], []);
    es := Sends(es, Relay, r, a, r.data[0]);
    assert r.wire + r.data == r.data;
    r := r.(data := [], wire := [Packet(OpenFrame(1, []), 0)]);
    es := Accepts(es, r);
    r := r.(wire := []);
    a := AgentOpen().(data := [Packet(AckFrame(1), 0)]);
    es := Sends(es, Agent, a, r, a.data[0]);
    assert a.wire + a.data == a.data;
    a := a.(data := [], wire := [Packet(AckFrame(1), 0)]);
    es := Answered(es, r, a, r.flows[0]);
  }

  /** A session on which Close can start, with nothing buffered. */
  predicate Idling(f: Flow) {
    && f.acked && f.s.Closable() && f.close.NotClosed? && f.drain.Selecting?
    && f.s.writeOut == [] && f.s.finCh == 0 && f.s.id == 1 && !f.finSent
  }

  /** That session after the locked section of Close, and after the signal. */
  function Changing(f: Flow): Flow {
    f.(s := f.s.LocalClose(), close := Changed, closeMark := |f.pushed|)
  }

  function Signalling(f: Flow): Flow {
    Changing(f).(s := f.s.LocalClose().(finCh := 1), close := Signalled, finMark := |f.pushed|)
  }

  /** And after its drain loop has ended too. */
  function Parted(f: Flow): Flow {
    Signalling(f).(s := f.s.LocalClose(), drain := Stopped, finSent := true)
  }

  lemma StartsClose(es: seq<Event>, side: Side, k: Corner, far: Corner, f: Flow) returns (es': seq<Event>)
    requires At(es, side, k, far) && k.flows == [f] && Idling(f)
    ensures At(es', side, k.(flows := [Changing(f)]), far)
  {
    hide At;
    es' := Moves(es, side, k, far, CloseChange, f, Changing(f));
  }

  lemma Signals(es: seq<Event>, side: Side, k: Corner, far: Corner, f: Flow) returns (es': seq<Event>)
    requires At(es, side, k, far) && k.flows == [f] && Idling(f)
    ensures At(es', side, k.(flows := [Signalling(f)]), far)
  {
    hide At;
    es' := StartsClose(es, side, k, far, f);
    es' := Moves(es', side, k.(flows := [Changing(f)]), far, CloseSignal, Changing(f), Signalling(f));
  }

  /** An end closes its side: the closing frame is on the wire, the callback is to come. */
  lemma Parts(es: seq<Event>, side: Side, k: Corner, far: Corner, f: Flow) returns (es': seq<Event>)
    requires At(es, side, k, far) && k.flows == [f] && Idling(f) && k.data == []
    ensures At(es', side, k.(flows := [Parted(f)], wire := k.wire + [Packet(CloseFrame(1), 0)]), far)
  {
    hide At;
    es' := Signals(es, side, k, far, f);
    var g := Signalling(f).(s := f.s.LocalClose(), drain := Flushing);
    es' := Moves(es', side, k.(flows := [Signalling(f)]), far, DrainFin, Signalling(f), g);
    es' := Flushes(es', side, k.(flows := [g]), far, g);
    var p := Packet(CloseFrame(1), 0);
    es' := Sends(es', side, k.(flows := [Parted(f)], data := [p]), far, p);
  }

  // ------------------------------------------------------------- the witnesses

  lemma StartIsConnected()
    ensures Connected(Start())
  {
  }

  /** A closing frame can arrive while Close is at work: the agent closes, and the relay
      is between the locked section of its Close and the signal. The identifier can then
      be handed out again at once. */
  lemma FinCanLandInsideClose() returns (l: Net, es: seq<Event>)
    ensures Connected(l) && CanExec(l, es) && GuardedExec(l, es)
    ensures FreesTwice(Exec(l, es), Receive(Relay), 1)
    ensures CanDo(Do(Exec(l, es), Receive(Relay)), OpenStream(Relay, []))
  {
    StartIsConnected();
    hide Connected, Start, CanExec, GuardedExec, Exec;
    l := Start();
    var r, a := RelayOpen(), AgentOpen();
    es := Handshake();
    es := Parts(es, Agent, a, r, a.flows[0]);
    assert a.wire + [Packet(CloseFrame(1), 0)] == [Packet(CloseFrame(1), 0)];
    a := a.(flows := [Parted(a.flows[0])], wire := [Packet(CloseFrame(1), 0)]);
    es := StartsClose(es, Relay, r, a, r.flows[0]);
    r := r.(flows := [Changing(r.flows[0])]);
    FinLandsThere(r, a);
  }

  lemma FinLandsThere(r: Corner, a: Corner)
    requires r == RelayOpen().(flows := [Changing(RelayOpen().flows[0])])
    requires a.wire == [Packet(CloseFrame(1), 0)]
    ensures FreesTwice(World(r, a), Receive(Relay), 1)
    ensures CanDo(Do(World(r, a), Receive(Relay)), OpenStream(Relay, []))
  {
    assert map[1 := 0] - {1} == map[];
  }

  lemma {:induction false} EndsUntidy(l: Net, es: seq<Event>, e: Event, x: UInt32)
    requires CanExec(l, es) && CanDo(Exec(l, es), e) && FreesTwice(Exec(l, es), e, x)
    ensures CanExec(l, es + [e]) && !Tidy(l, es + [e], x)
    decreases |es|
  {
    hide Do, CanDo, FreesTwice;
    if es == [] {
      assert (es + [e])[1..] == [];
    } else {
      assert (es + [e])[1..] == es[1..] + [e];
      EndsUntidy(Do(l, es[0]), es[1..], e, x);
    }
  }

  /** So there are runs that do not conserve identifiers. */
  lemma ConservationCanFail() returns (l: Net, es: seq<Event>, x: UInt32)
    ensures Connected(l) && CanExec(l, es) && !ConservesThroughout(l, es, x)
  {
    l, es := FinCanLandInsideClose();
    x := 1;
    hide Connected, CanExec, Exec, ConservesThroughout, Tidy;
    EndsUntidy(l, es, Receive(Relay), x);
    es := es + [Receive(Relay)];
    ConservationExact(l, es, x);
  }

  /** An identifier can be handed out before the closing frame of its last use was queued. */
  lemma ReuseCanBeEarly() returns (l: Net, es: seq<Event>, e: Event)
    ensures Connected(l) && CanExec(l, es) && GuardedExec(l, es) && CanDo(Exec(l, es), e) && e.OpenStream?
    ensures var l' := Exec(l, es);
            var x := Ep(l', e.side).t.NextID();
            && x !in Ep(l', e.side).t.live && AllSettled(Sessions(l', e.side, x))
            && |Sessions(l', e.side, x)| == 1 && !FinQueued(Sessions(l', e.side, x))
  {
    StartIsConnected();
    hide Connected, Start, CanExec, GuardedExec, Exec;
    l, e := Start(), OpenStream(Relay, []);
    var r, a := RelayOpen(), AgentOpen();
    es := Handshake();
    es := Parts(es, Agent, a, r, a.flows[0]);
    assert a.wire + [Packet(CloseFrame(1), 0)] == [Packet(CloseFrame(1), 0)];
    a := a.(flows := [Parted(a.flows[0])], wire := [Packet(CloseFrame(1), 0)]);
    es := HalfEnds(es, Relay, r, a, r.flows[0]);
    var f := Apply(r.flows[0], ApplyFin);
    r, a := r.(flows := [f]), a.(wire := []);
    es := Signals(es, Relay, r, a, f);
    es := Notifies(es, r.(flows := [Signalling(f)]), a, Signalling(f));
    r := r.(flows := [Signalling(f).(close := Finished)], live := map[], free := [1]);
    assert Exec(l, es) == World(r, a);
  }

  /** Both ends have closed, the relay entirely and the agent up to its callback; the
      agent has handled the relay's closing frame unless `early`. */
  lemma BothPart(early: bool) returns (es: seq<Event>, r: Corner, a: Corner)
    ensures Reached(es, r, a)
    ensures |r.flows| == 1 && r.live == map[] && r.free == [1] && r.data == [] && r.pending == map[]
    ensures r.flows[0].finSent && r.flows[0].close.Finished?
    ensures |a.flows| == 1 && a.live == map[1 := 0] && a.flows[0].close.Signalled? && a.next == 2
    ensures if early then r.wire == [Packet(CloseFrame(1), 0)] else r.wire == []
  {
    hide Reached;
    r, a := RelayOpen(), AgentOpen();
    es := Handshake();
    var f := Parted(r.flows[0]);
    es := Parts(es, Relay, r, a, r.flows[0]);
    assert [] + [Packet(CloseFrame(1), 0)] == [Packet(CloseFrame(1), 0)];
    r := r.(flows := [f], wire := [Packet(CloseFrame(1), 0)]);
    es := Moves(es, Relay, r, a, CloseNotify, f, f.(close := Finished));
    r := r.(flows := [f.(close := Finished)]);
    if !early {
      es := HalfEnds(es, Agent, a, r, a.flows[0]);
      r, a := r.(wire := []), a.(flows := [Apply(a.flows[0], ApplyFin)]);
    }
    es := Parts(es, Agent, a, r, a.flows[0]);
    assert a.wire + [Packet(CloseFrame(1), 0)] == [Packet(CloseFrame(1), 0)];
    a := a.(flows := [Parted(a.flows[0])], wire := [Packet(CloseFrame(1), 0)]);
    es := WholeEnds(es, r, a, r.flows[0]);
    r, a := r.(flows := [Apply(r.flows[0], ApplyFin)], live := map[], free := [1]), a.(wire := []);
  }

  /** The relay opens the identifier again and its request is on the wire. */
  lemma Reopens(es: seq<Event>, r: Corner, a: Corner) returns (es': seq<Event>, r': Corner)
    requires Reached(es, r, a)
    requires |r.flows| == 1 && r.flows[0].finSent && r.flows[0].close.Finished? && r.free == [1]
    requires r.live == map[] && r.pending == map[] && r.data == []
    ensures Reached(es', r', a) && r'.wire == r.wire + [Packet(OpenFrame(1, []), 1)]
  {
    hide Reached;
    es' := OpensAgain(es, r, a);
    r' := r.(flows := r.flows + [Asked(1, 0, [])], live := map[1 := 1], pending := map[1 := 1], free := [],
             data := [Packet(OpenFrame(1, []), 1)]);
    es' := Sends(es', Relay, r', a, r'.data[0]);
    r' := r'.(data := [], wire := r.wire + [Packet(OpenFrame(1, []), 1)]);
  }

  /** A request can arrive while Close is still at work on the last use, after a guarded
      run. */
  lemma RequestCanArriveInsideClose() returns (l: Net, es: seq<Event>)
    ensures Connected(l) && CanExec(l, es) && GuardedExec(l, es) && CanDo(Exec(l, es), Receive(Agent))
    ensures Ep(Exec(l, es), Relay).wire[0].frame.Opens() && !GuardedDo(Exec(l, es), Receive(Agent))
    ensures Arriving(Exec(l, es), Agent) in Ep(Exec(l, es), Agent).t.live
  {
    StartIsConnected();
    hide Connected, Start, CanExec, GuardedExec, Exec;
    l := Start();
    var r, a;
    es, r, a := BothPart(false);
    es, r := Reopens(es, r, a);
    assert Exec(l, es) == World(r, a);
  }

  /** And at the accepting end a closing frame can land inside Close with the next
      request right behind it. */
  lemma NextUseCanBeLost() returns (l: Net, es: seq<Event>)
    ensures Connected(l) && CanExec(l, es) && GuardedExec(l, es) && FinInsideClose(Exec(l, es), Agent)
    ensures var id, wire := Ep(Exec(l, es), Relay).wire[0].frame.streamID, Ep(Exec(l, es), Relay).wire;
            && !Ep(Exec(l, es), Agent).t.Owns(id)
            && |wire| >= 2 && wire[1].frame.Opens() && wire[1].frame.streamID == id
  {
    StartIsConnected();
    hide Connected, Start, CanExec, GuardedExec, Exec;
    l := Start();
    var r, a;
    es, r, a := BothPart(true);
    es, r := Reopens(es, r, a);
    assert Exec(l, es) == World(r, a);
  }

  /** There the request is taken, with the Close of the last use still at work. */
  lemma RequestCanBeTakenInsideClose() returns (l: Net, es: seq<Event>)
    ensures Connected(l) && CanExec(l, es) && GuardedExec(l, es) && CanDo(Exec(l, es), Receive(Agent))
    ensures Ep(Exec(l, es), Relay).wire[0].frame.Opens() && !GuardedDo(Exec(l, es), Receive(Agent))
    ensures Arriving(Exec(l, es), Agent) !in Ep(Exec(l, es), Agent).t.live
  {
    l, es := NextUseCanBeLost();
    hide Connected, CanExec, Exec, GuardedExec;
    AfterThatFrame(l, es);
    es := es + [Receive(Agent)];
  }

  lemma AfterThatFrame(l: Net, es: seq<Event>)
    requires Connected(l) && CanExec(l, es) && GuardedExec(l, es) && FinInsideClose(Exec(l, es), Agent)
    requires var id, wire := Ep(Exec(l, es), Relay).wire[0].frame.streamID, Ep(Exec(l, es), Relay).wire;
             |wire| >= 2 && wire[1].frame.Opens() && wire[1].frame.streamID == id
    ensures var es' := es + [Receive(Agent)];
            && CanExec(l, es') && GuardedExec(l, es') && CanDo(Exec(l, es'), Receive(Agent))
            && Ep(Exec(l, es'), Relay).wire[0].frame.Opens() && !GuardedDo(Exec(l, es'), Receive(Agent))
            && Arriving(Exec(l, es'), Agent) !in Ep(Exec(l, es'), Agent).t.live
  {
    AllFirstAfter(l, es);
    hide Connected, CanExec, Exec, GuardedExec, NetInv;
    Extend(l, es, Receive(Agent));
    var l' := Exec(l, es);
    FinEnds(l', Agent);
    StillUnsettled(l', Agent);
    NextOnTheWire(l', Agent);
    hide Do;
  }
}
