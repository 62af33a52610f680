/** Runs of two multiplexers at the grain of whole calls and handlers: every one of them
    is a run of module Link, so what holds there of delivery and of the open handshake
    holds of the calls themselves.
 */
module PairRuns {
  import opened Frames
  import opened Streams
  import opened StreamTable
  import opened Flow
  import opened Conversation
  import opened Refinement
  import D = Delivery
  import L = Link
  import M = Mux
  import P = MuxPair
  import Q = WriteQueues

  ghost predicate EndMatches(e: P.End, ep: L.Endpoint) {
    Mirrors(e.m, ep) && e.wire == FramesOf(ep.wire)
  }

  ghost predicate Matches(p: P.Pair, l: L.Net) {
    EndMatches(p.relay, l.relay) && EndMatches(p.agent, l.agent)
  }

  predicate Waiting(t: Table<Session>, id: UInt32, n: nat) {
    id in t.pending && t.pending[id] == n
  }

  /** What module Link covers: no resets by a caller and no cancelled opens; a stream is
      used once its open has been answered; and no frame is over the size limit. */
  ghost predicate Proper(p: P.Pair, e: P.Event) {
    e.Local? ==>
      && !e.c.Resetting? && !e.c.Cancelling?
      && (UserCall(e.c) ==> !Waiting(P.At(p, e.side).m.t, e.c.id, e.c.n))
      && (e.c.Writing? ==> |e.c.chunk| <= MAX_PAYLOAD_SIZE)
      && (e.c.Opening? ==> |e.c.payload| <= MAX_PAYLOAD_SIZE)
  }

  /** The steps of module Link that an event here is. */
  ghost function StepMoves(p: P.Pair, e: P.Event): seq<L.Event>
    requires P.CanDo(p, e)
  {
    match e
    case Transmit(side) => [L.Transmit(side)]
    case Receive(side) => [L.Receive(side)]
    case Local(side, c) =>
      if c.Opening? then [L.OpenStream(side, c.payload)]
      else if c.GoingAway? then [L.Control(side, M.GoAwayFrame(c.lastID, c.code))]
      else if c.Sending? then [L.Control(side, c.f)]
      else if SessionCall(c) then SessionSteps(side, c.id, c.n, Moves(P.At(p, side).m.t.Get(c.id, c.n), c))
      else []
  }

  lemma ExecOne(l: L.Net, e: L.Event)
    requires L.CanDo(l, e)
    ensures D.CanExec(l, [e]) && D.Exec(l, [e]) == L.Do(l, e)
  {
    assert [e][1..] == [];
  }

  lemma {:induction false} ExecAppend(l: L.Net, a: seq<L.Event>, b: seq<L.Event>)
    requires D.CanExec(l, a) && D.CanExec(D.Exec(l, a), b)
    ensures D.CanExec(l, a + b) && D.Exec(l, a + b) == D.Exec(D.Exec(l, a), b)
    decreases |a|
  {
    hide L.Do, L.CanDo;
    if a == [] {
      assert a + b == b;
    } else {
      assert (a + b)[1..] == a[1..] + b;
      ExecAppend(L.Do(l, a[0]), a[1..], b);
    }
  }

  lemma {:induction false} ExecKeepsNet(l: L.Net, es: seq<L.Event>)
    requires L.NetInv(l) && D.CanExec(l, es)
    ensures L.NetInv(D.Exec(l, es))
    decreases |es|
  {
    hide L.NetInv, L.Do, L.CanDo;
    if es != [] {
      L.NetInvKept(l, es[0]);
      ExecKeepsNet(L.Do(l, es[0]), es[1..]);
    }
  }

  /** A session that no call waits for is in the hands of a caller. */
  lemma AnsweredIsAcked(p: P.Pair, l: L.Net, side: Side, id: UInt32, n: nat)
    requires L.NetInv(l) && Matches(p, l)
    requires P.At(p, side).m.t.Has(id, n) && !Waiting(P.At(p, side).m.t, id, n)
    ensures L.Ep(l, side).t.Has(id, n) && L.Ep(l, side).t.Get(id, n).acked
  {
    FitsAt(P.At(p, side).m.t, L.Ep(l, side).t, id, n);
    L.ShapeAt(l, side, id);
    assert Sound(L.HalfOf(L.Ep(l, side), id).flows[n], id);
  }

  /** A call on a session is the steps of its flow, between the two endpoints. */
  lemma CallRuns(p: P.Pair, l: L.Net, side: Side, c: M.Call)
    requires P.PairInv(p) && L.NetInv(l) && Matches(p, l)
    requires P.CanDo(p, P.Local(side, c)) && Proper(p, P.Local(side, c)) && SessionCall(c)
    ensures var m, ep := P.At(p, side).m, L.Ep(l, side);
            var s, es := m.t.Get(c.id, c.n), Moves(m.t.Get(c.id, c.n), c);
            && ep.t.Has(c.id, c.n)
            && s == ep.t.Get(c.id, c.n).s.(recvWindow := s.recvWindow)
            && Follows(m, M.Do(m, c), c.id, c.n, ep.t.Get(c.id, c.n), es)
            && D.CanExec(l, StepMoves(p, P.Local(side, c)))
            && D.Exec(l, StepMoves(p, P.Local(side, c))) == L.WithEp(l, side, ActedAs(ep, c.id, c.n, es))
  {
    hide P.PairInv, L.NetInv, M.Inv, EndMatches, SameTable, Run, CanRun, Log, Moves, Performs, ActedAs, M.Do;
    var m, ep := P.At(p, side).m, L.Ep(l, side);
    InvAt(p, side);
    MatchesAt(p, l, side);
    TableAt(P.At(p, side), ep);
    FitsAt(m.t, ep.t, c.id, c.n);
    if UserCall(c) {
      AnsweredIsAcked(p, l, side, c.id, c.n);
    }
    hide Matches;
    var f, es := ep.t.Get(c.id, c.n), Moves(m.t.Get(c.id, c.n), c);
    CallFollows(m, c, f);
    MovesPerform(m.t.Get(c.id, c.n), c, f.acked);
    if es == [] {
      ActedNone(ep, c.id, c.n);
    } else {
      ActsRun(l, side, c.id, c.n, es);
    }
  }

  lemma TableAt(e: P.End, ep: L.Endpoint)
    requires EndMatches(e, ep)
    ensures SameTable(e.m.t, ep.t)
  {
    hide SameTable;
  }

  lemma CallRefines(p: P.Pair, l: L.Net, side: Side, c: M.Call)
    requires P.PairInv(p) && L.NetInv(l) && Matches(p, l)
    requires P.CanDo(p, P.Local(side, c)) && Proper(p, P.Local(side, c)) && SessionCall(c)
    ensures var es := StepMoves(p, P.Local(side, c));
            D.CanExec(l, es) && Matches(P.Step(p, P.Local(side, c)), D.Exec(l, es))
  {
    hide P.PairInv, L.NetInv, Mirrors, Matches, ActedAs, M.Do, Moves, StepMoves, CanRun, Run, Log;
    CallRuns(p, l, side, c);
    MatchesAt(p, l, side);
    var e, ep := P.At(p, side), L.Ep(l, side);
    var es := Moves(e.m.t.Get(c.id, c.n), c);
    ActedMirrors(e.m, M.Do(e.m, c), ep, c.id, c.n, es);
    ActedKeepsWire(ep, c.id, c.n, es);
    MatchesWith(p, l, side, e.(m := M.Do(e.m, c)), ActedAs(ep, c.id, c.n, es));
  }

  lemma ActedKeepsWire(ep: L.Endpoint, id: UInt32, n: nat, es: seq<FlowEvent>)
    requires ep.t.Has(id, n) && CanRun(ep.t.Get(id, n), es)
    ensures ActedAs(ep, id, n, es).wire == ep.wire
  {
  }

  lemma ControlRefines(m: M.State, ep: L.Endpoint, f: Frame)
    requires Mirrors(m, ep)
    ensures var ep' := ep.(control := ep.control + [f]);
            && Mirrors(m.(control := m.control + [f]), ep')
            && Mirrors(m.(t := m.t.(goingAway := true), control := m.control + [f]), ep')
  {
    RelabelMirrors(m.t, ep.t, m.t.(goingAway := true), ep.t);
    hide SameTable;
  }

  /** The other calls: opening a stream and queuing a control frame. */
  lemma OtherRefines(p: P.Pair, l: L.Net, side: Side, c: M.Call)
    requires P.PairInv(p) && Matches(p, l)
    requires P.CanDo(p, P.Local(side, c)) && Proper(p, P.Local(side, c)) && !SessionCall(c)
    ensures var es := StepMoves(p, P.Local(side, c));
            D.CanExec(l, es) && Matches(P.Step(p, P.Local(side, c)), D.Exec(l, es))
  {
    hide P.PairInv, M.Inv, Mirrors, Matches, M.OpenStream, L.DoOpen;
    var e, ep := P.At(p, side), L.Ep(l, side);
    InvAt(p, side);
    MatchesAt(p, l, side);
    match c {
      case Opening(payload) =>
        OpenMirrors(e.m, ep, payload);
        assert L.DoOpen(ep, payload).wire == ep.wire by { OpenKeepsWire(ep, payload); }
        MatchesWith(p, l, side, e.(m := M.OpenStream(e.m, payload)), L.DoOpen(ep, payload));
        ExecOne(l, L.OpenStream(side, payload));
      case GoingAway(last, code) =>
        var f := M.GoAwayFrame(last, code);
        ControlRefines(e.m, ep, f);
        MatchesWith(p, l, side, e.(m := M.GoAway(e.m, last, code)), ep.(control := ep.control + [f]));
        ExecOne(l, L.Control(side, f));
      case Sending(f) =>
        ControlRefines(e.m, ep, f);
        MatchesWith(p, l, side, e.(m := e.m.(control := e.m.control + [f])), ep.(control := ep.control + [f]));
        ExecOne(l, L.Control(side, f));
    }
  }

  lemma OpenKeepsWire(ep: L.Endpoint, payload: Bytes)
    ensures L.DoOpen(ep, payload).wire == ep.wire
  {
  }

  lemma TransmitRefines(p: P.Pair, l: L.Net, side: Side)
    requires Matches(p, l) && P.CanDo(p, P.Transmit(side))
    ensures var es := StepMoves(p, P.Transmit(side));
            D.CanExec(l, es) && Matches(P.Step(p, P.Transmit(side)), D.Exec(l, es))
  {
    hide SameTable;
    var e, ep := P.At(p, side), L.Ep(l, side);
    if ep.control != [] {
      FramesOfSnoc(ep.wire, [Packet(ep.control[0], 0)]);
    } else {
      FramesOfSnoc(ep.wire, [ep.data[0]]);
      assert FramesOf(ep.data[1..]) == FramesOf(ep.data)[1..];
    }
    ExecOne(l, L.Transmit(side));
  }

  lemma InvAt(p: P.Pair, side: Side)
    requires P.PairInv(p)
    ensures M.Inv(P.At(p, side).m)
  {
    hide M.Inv;
  }

  lemma MatchesAt(p: P.Pair, l: L.Net, side: Side)
    requires Matches(p, l)
    ensures EndMatches(P.At(p, side), L.Ep(l, side)) && EndMatches(P.At(p, Peer(side)), L.Ep(l, Peer(side)))
  {
    hide EndMatches;
  }

  lemma MatchesWith(p: P.Pair, l: L.Net, side: Side, e: P.End, ep: L.Endpoint)
    requires Matches(p, l) && EndMatches(e, ep)
    ensures Matches(P.With(p, side, e), L.WithEp(l, side, ep))
  {
    hide EndMatches;
  }

  lemma PopMatches(e: P.End, ep: L.Endpoint)
    requires EndMatches(e, ep) && e.wire != []
    ensures ep.wire != [] && ep.wire[0].frame == e.wire[0]
    ensures EndMatches(e.(wire := e.wire[1..]), ep.(wire := ep.wire[1..]))
  {
    hide SameTable;
  }

  lemma ReceiveRefines(p: P.Pair, l: L.Net, side: Side)
    requires P.PairInv(p) && Matches(p, l) && P.CanDo(p, P.Receive(side))
    ensures var es := StepMoves(p, P.Receive(side));
            D.CanExec(l, es) && Matches(P.Step(p, P.Receive(side)), D.Exec(l, es))
  {
    hide P.PairInv, M.Inv, Mirrors, M.Handle, L.Handle, Matches;
    var near, far := P.At(p, side), P.At(p, Peer(side));
    var ep, ep1 := L.Ep(l, side), L.Ep(l, Peer(side));
    InvAt(p, side);
    MatchesAt(p, l, side);
    PopMatches(far, ep1);
    MatchesWith(p, l, Peer(side), far.(wire := far.wire[1..]), ep1.(wire := ep1.wire[1..]));
    HandleMirrors(near.m, ep, far.wire[0]);
    HandleKeepsWire(ep, far.wire[0]);
    var p1 := P.With(p, Peer(side), far.(wire := far.wire[1..]));
    var l1 := L.WithEp(l, Peer(side), ep1.(wire := ep1.wire[1..]));
    MatchesWith(p1, l1, side, near.(m := M.Handle(near.m, far.wire[0])), L.Handle(ep, far.wire[0]));
    ExecOne(l, L.Receive(side));
  }

  lemma HandleKeepsWire(ep: L.Endpoint, f: Frame)
    ensures L.Handle(ep, f).wire == ep.wire
  {
  }

  /** Each whole call, frame written and frame handled is a run of the small steps. */
  lemma StepRefines(p: P.Pair, l: L.Net, e: P.Event)
    requires P.PairInv(p) && L.NetInv(l) && Matches(p, l) && P.CanDo(p, e) && Proper(p, e)
    ensures var es := StepMoves(p, e);
            D.CanExec(l, es) && Matches(P.Step(p, e), D.Exec(l, es)) && L.NetInv(D.Exec(l, es))
  {
    hide P.PairInv, L.NetInv, Matches, P.CanDo, Proper, P.Step, StepMoves;
    match e {
      case Local(side, c) =>
        if SessionCall(c) {
          CallRefines(p, l, side, c);
        } else {
          OtherRefines(p, l, side, c);
        }
      case Transmit(side) => TransmitRefines(p, l, side);
      case Receive(side) => ReceiveRefines(p, l, side);
    }
    ExecKeepsNet(l, StepMoves(p, e));
  }

  // ---------------------------------------------------------------- whole runs

  ghost predicate AllProper(p: P.Pair, es: seq<P.Event>)
    requires P.CanExec(p, es)
    decreases es
  {
    es == [] || (Proper(p, es[0]) && AllProper(P.Step(p, es[0]), es[1..]))
  }

  ghost function RunMoves(p: P.Pair, es: seq<P.Event>): seq<L.Event>
    requires P.CanExec(p, es)
    decreases es
  {
    if es == [] then [] else StepMoves(p, es[0]) + RunMoves(P.Step(p, es[0]), es[1..])
  }

  lemma StepKeepsPair(p: P.Pair, e: P.Event)
    requires P.PairInv(p) && P.CanDo(p, e)
    ensures P.PairInv(P.Step(p, e))
  {
    hide P.PairInv, P.CanDo, P.Step;
    P.StepSettles(p, e);
    P.SettlesInv(p, P.Step(p, e), P.Handled(p, e));
  }

  /** Refinement: a whole run of calls, writes and handlers is a run of the small steps,
      and ends in the same tables, lanes and frames in flight. */
  lemma {:induction false} RunRefines(p: P.Pair, l: L.Net, es: seq<P.Event>)
    requires P.PairInv(p) && L.NetInv(l) && Matches(p, l) && P.CanExec(p, es) && AllProper(p, es)
    ensures D.CanExec(l, RunMoves(p, es)) && Matches(P.Exec(p, es), D.Exec(l, RunMoves(p, es)))
    decreases |es|
  {
    hide P.PairInv, L.NetInv, Matches, P.CanDo, Proper, P.Step, StepMoves;
    if es != [] {
      var a, q := StepMoves(p, es[0]), P.Step(p, es[0]);
      StepRefines(p, l, es[0]);
      StepKeepsPair(p, es[0]);
      RunRefines(q, D.Exec(l, a), es[1..]);
      ExecAppend(l, a, RunMoves(q, es[1..]));
    }
  }

  // ------------------------------------------------------- from the connection

  /** The same two endpoints at the grain of the small steps. */
  function Fine(p: P.Pair): L.Net {
    L.Net(L.NewEndpoint(Relay, p.relay.m.t.max, p.relay.m.window),
          L.NewEndpoint(Agent, p.agent.m.t.max, p.agent.m.window))
  }

  lemma ConnectedMatches(p: P.Pair)
    requires P.Connected(p)
    ensures Matches(p, Fine(p)) && D.Connected(Fine(p)) && P.PairInv(p) && L.NetInv(Fine(p))
  {
    hide P.PairInv, L.NetInv;
    P.ConnectedInv(p);
    D.ConnectedInv(Fine(p));
  }

  /** Every run of calls between two connected endpoints is a run of the small steps. */
  lemma PairRefines(p: P.Pair, es: seq<P.Event>)
    requires P.Connected(p) && P.CanExec(p, es) && AllProper(p, es)
    ensures D.Connected(Fine(p)) && D.CanExec(Fine(p), RunMoves(p, es))
    ensures Matches(P.Exec(p, es), D.Exec(Fine(p), RunMoves(p, es)))
  {
    ConnectedMatches(p);
    hide P.Connected, P.PairInv, L.NetInv, Matches, AllProper, RunMoves, Fine, D.Connected;
    RunRefines(p, Fine(p), es);
  }

  // -------------------------------------------------------------- the write loop

  /** The write loop moves exactly the frame that Dequeue returns. */
  lemma WrittenIsTaken(e: P.End, closed: bool, cancelled: bool)
    requires e.m.control != [] || e.m.data != []
    ensures var (r, q) := Q.Take(Q.Queue(e.m.control, e.m.data, closed), cancelled);
            && r.Got? && P.Written(e).wire == e.wire + [r.frame]
            && P.Written(e).m == e.m.(control := q.control, data := q.data)
  {
  }

  lemma TransmittedIsTaken(ep: L.Endpoint, closed: bool, cancelled: bool)
    requires ep.control != [] || ep.data != []
    ensures var (r, q) := Q.Take(Q.Queue(ep.control, FramesOf(ep.data), closed), cancelled);
            var ep' := L.DoTransmit(ep);
            && r.Got? && FramesOf(ep'.wire) == FramesOf(ep.wire) + [r.frame]
            && ep'.control == q.control && FramesOf(ep'.data) == q.data && ep'.t == ep.t
  {
    FramesOfSnoc(ep.wire, [if ep.control != [] then Packet(ep.control[0], 0) else ep.data[0]]);
    if ep.control == [] {
      assert FramesOf(ep.data)[1..] == FramesOf(ep.data[1..]);
    }
  }
}
