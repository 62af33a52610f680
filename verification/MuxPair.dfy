/** Two linked endpoints at the grain of whole calls and handlers, with resets and
    cancelled opens: how often resets can pass between them.
 */
module MuxPair {
  import opened Frames
  import opened Streams
  import opened StreamTable
  import opened Mux

  /** An endpoint and the frames it has written that the peer has not handled. */
  datatype End = End(m: State, wire: seq<Frame>)

  datatype Pair = Pair(relay: End, agent: End)

  datatype Event =
    | Local(side: Side, c: Call)
    | Transmit(side: Side)
    | Receive(side: Side)

  function At(p: Pair, side: Side): End {
    if side.Relay? then p.relay else p.agent
  }

  function With(p: Pair, side: Side, e: End): Pair {
    if side.Relay? then p.(relay := e) else p.(agent := e)
  }

  ghost predicate CanDo(p: Pair, e: Event) {
    match e
    case Local(side, c) => !c.Handling? && CanCall(At(p, side).m, c)
    case Transmit(side) => At(p, side).m.control != [] || At(p, side).m.data != []
    case Receive(side) => At(p, Peer(side)).wire != []
  }

  function Written(e: End): End
    requires e.m.control != [] || e.m.data != []
  {
    if e.m.control != [] then End(e.m.(control := e.m.control[1..]), e.wire + [e.m.control[0]])
    else End(e.m.(data := e.m.data[1..]), e.wire + [e.m.data[0]])
  }

  ghost function Step(p: Pair, e: Event): Pair
    requires CanDo(p, e)
  {
    match e
    case Local(side, c) => With(p, side, At(p, side).(m := Do(At(p, side).m, c)))
    case Transmit(side) => With(p, side, Written(At(p, side)))
    case Receive(side) =>
      var far := At(p, Peer(side));
      var near := At(p, side);
      With(With(p, Peer(side), far.(wire := far.wire[1..])), side, near.(m := Handle(near.m, far.wire[0])))
  }

  // ----------------------------------------------------------------- counting

  function Resets(fs: seq<Frame>): nat {
    if fs == [] then 0 else (if fs[0].command == CMD_STREAM_RESET then 1 else 0) + Resets(fs[1..])
  }

  lemma {:induction false} ResetsAppend(a: seq<Frame>, b: seq<Frame>)
    ensures Resets(a + b) == Resets(a) + Resets(b)
  {
    if a == [] {
      assert a + b == b;
    } else {
      assert (a + b)[1..] == a[1..] + b;
      ResetsAppend(a[1..], b);
    }
  }

  lemma {:induction false} NoResets(fs: seq<Frame>)
    requires forall i :: 0 <= i < |fs| ==> fs[i].command != CMD_STREAM_RESET
    ensures Resets(fs) == 0
  {
    if fs != [] {
      NoResets(fs[1..]);
    }
  }

  lemma ResetsOne(f: Frame)
    ensures Resets([f]) == if f.command == CMD_STREAM_RESET then 1 else 0
  {
    assert [f][1..] == [];
  }

  /** Two for every live stream, one for every reset in the write queue. */
  function Potential(m: State): nat {
    2 * |m.t.live| + Resets(m.control) + Resets(m.data)
  }

  function Measure(p: Pair): nat {
    Potential(p.relay.m) + Resets(p.relay.wire) + Potential(p.agent.m) + Resets(p.agent.wire)
  }

  function Installs(p: Pair): nat {
    p.relay.m.installs + p.agent.m.installs
  }

  function Emitted(p: Pair): nat {
    p.relay.m.resets + p.agent.m.resets
  }

  function Live(p: Pair): nat {
    |p.relay.m.t.live| + |p.agent.m.t.live|
  }

  /** What a step may do: it pays for each new reset with a stream, and each request
      to open that it queues has the local parity. */
  ghost predicate Pays(m: State, m': State) {
    && m'.installs >= m.installs
    && Potential(m') <= Potential(m) + 2 * (m'.installs - m.installs)
    && m'.resets + |m'.t.live| <= m.resets + |m.t.live| + (m'.installs - m.installs)
    && m.control <= m'.control && m.data <= m'.data
    && (forall i :: |m.control| <= i < |m'.control| ==> !m'.control[i].Opens())
    && (forall i :: |m.data| <= i < |m'.data| && m'.data[i].Opens() ==> m.t.Owns(m'.data[i].streamID))
    && m'.t.next % 2 == m.t.next % 2
  }

  /** A step that only queues frames which are neither resets nor requests, and does
      not add streams. */
  lemma PaysPlain(m: State, m': State, control: seq<Frame>, data: seq<Frame>)
    requires m'.control == m.control + control && m'.data == m.data + data
    requires forall i :: 0 <= i < |control| ==> control[i].command != CMD_STREAM_RESET && !control[i].Opens()
    requires forall i :: 0 <= i < |data| ==> data[i].command != CMD_STREAM_RESET && !data[i].Opens()
    requires |m'.t.live| <= |m.t.live| && m'.resets == m.resets && m'.installs == m.installs
    requires m'.t.next == m.t.next
    ensures Pays(m, m')
  {
    ResetsAppend(m.control, control);
    ResetsAppend(m.data, data);
    NoResets(control);
    NoResets(data);
  }

  lemma DropNotMore(live: map<UInt32, nat>, id: UInt32)
    ensures |live - {id}| <= |live|
  {
    if id in live {
      DropCount(live, id);
    } else {
      assert live - {id} == live;
    }
  }

  lemma WrapKeepsParity(n: nat)
    ensures (n + 2) % TWO_TO_32 % 2 == n % 2
  {
    var k := (n + 2) / TWO_TO_32;
    assert n + 2 == TWO_TO_32 * k + (n + 2) % TWO_TO_32;
  }

  lemma OpenPays(m: State, payload: Bytes)
    requires Inv(m) && m.t.CanOpen()
    ensures Pays(m, OpenStream(m, payload))
  {
    hide Inv, Resets, Conserved;
    var id := m.t.NextID();
    InvIDs(m);
    OpenOwns(m);
    WrapKeepsParity(m.t.next);
    AddCount(m.t.live, id, |m.t.Incs(id)|);
    ResetsAppend(m.data, [OpenFrame(id, payload)]);
    ResetsOne(OpenFrame(id, payload));
  }

  lemma AcceptPays(m: State, f: Frame)
    requires f.Opens() && !m.t.Owns(f.streamID)
    ensures Pays(m, HandleOpen(m, f))
  {
    var id := f.streamID;
    if id !in m.t.live {
      AddCount(m.t.live, id, |m.t.Incs(id)|);
      ResetsAppend(m.data, [AckFrame(id)]);
      ResetsOne(AckFrame(id));
    }
  }

  lemma ResetPays(m: State, id: UInt32, n: nat, code: UInt32)
    requires Inv(m) && m.t.Has(id, n)
    ensures Pays(m, ResetStream(m, id, n, code))
  {
    hide Inv, Resets;
    ResetKeeps(m, id, n, code);
    ResetsAppend(m.control, [ResetFrame(id, code)]);
    ResetsOne(ResetFrame(id, code));
  }

  /** A closing frame queues nothing and adds nothing. */
  lemma CloseOnlyDrops(m: State, id: UInt32)
    ensures var m' := HandleClose(m, id);
            && m' == m.(t := m'.t) && m'.t.next == m.t.next
            && (m'.t.live == m.t.live || m'.t.live == m.t.live - {id})
  {
  }

  lemma ClosePays(m: State, id: UInt32)
    ensures Pays(m, HandleClose(m, id))
  {
    CloseOnlyDrops(m, id);
    DropNotMore(m.t.live, id);
    hide HandleClose, Pays;
    PaysPlain(m, HandleClose(m, id), [], []);
  }

  lemma DeliverOnly(m: State, id: UInt32, s: Session)
    requires Found(m, id)
    ensures var m1 := PutLive(m, id, s);
            m1 == m.(t := m1.t) && m1.t.next == m.t.next && m1.t.live == m.t.live
  {
  }

  lemma DataOnlyDrops(m: State, f: Frame)
    ensures var m' := HandleData(m, f);
            && m' == m.(t := m'.t) && m'.t.next == m.t.next
            && (m'.t.live == m.t.live || m'.t.live == m.t.live - {f.streamID})
  {
    hide HandleClose, PutLive, GetLive;
    var id := f.streamID;
    if Found(m, id) {
      DeliverOnly(m, id, GetLive(m, id).Deliver(f.payload));
      CloseOnlyDrops(if f.payload == [] then m else PutLive(m, id, GetLive(m, id).Deliver(f.payload)), id);
    }
  }

  lemma DataPays(m: State, f: Frame)
    ensures Pays(m, HandleData(m, f))
  {
    hide HandleData, Pays;
    DataOnlyDrops(m, f);
    DropNotMore(m.t.live, f.streamID);
    PaysPlain(m, HandleData(m, f), [], []);
  }

  lemma HandleResetPays(m: State, f: Frame)
    requires Inv(m)
    ensures Pays(m, HandleReset(m, f))
  {
    var id := f.streamID;
    if Found(m, id) {
      LiveAt(m, id);
      ResetKeeps(m, id, m.t.live[id], ResetCode(f));
      ResetPays(m, id, m.t.live[id], ResetCode(f));
    }
    hide Inv, Pays, ResetStream;
    if !Found(m, id) {
      PaysPlain(m, m, [], []);
    }
  }

  lemma HandlePays(m: State, f: Frame)
    requires Inv(m) && (f.Opens() ==> !m.t.Owns(f.streamID))
    ensures Pays(m, Handle(m, f))
  {
    hide Inv, Pays, HandleOpen, HandleData, HandleClose, HandleReset;
    if f.Acks() {
      PaysPlain(m, Handle(m, f), [], []);
    } else if f.Opens() {
      AcceptPays(m, f);
    } else if f.command == CMD_STREAM_DATA {
      DataPays(m, f);
    } else if f.command == CMD_STREAM_CLOSE {
      ClosePays(m, f.streamID);
    } else if f.command == CMD_STREAM_RESET {
      HandleResetPays(m, f);
    } else if f.command == CMD_PING {
      PaysPlain(m, Handle(m, f), [PongFrame(f.payload)], []);
    } else {
      PaysPlain(m, Handle(m, f), [], []);
    }
  }

  /** Closing, writing and reading touch one session and at most its table entry. */
  lemma SessionCallOnlyDrops(m: State, c: Call)
    requires CanCall(m, c) && (c.Closing? || c.Writing? || c.Reading?)
    ensures var m' := Do(m, c);
            && m' == m.(t := m'.t) && m'.t.next == m.t.next
            && (m'.t.live == m.t.live || m'.t.live == m.t.live - {c.id})
  {
  }

  lemma SessionCallPays(m: State, c: Call)
    requires CanCall(m, c) && (c.Closing? || c.Writing? || c.Reading?)
    ensures Pays(m, Do(m, c))
  {
    hide Pays, Do;
    SessionCallOnlyDrops(m, c);
    DropNotMore(m.t.live, c.id);
    PaysPlain(m, Do(m, c), [], []);
  }

  lemma DrainPays(m: State, id: UInt32, n: nat)
    requires m.t.Has(id, n)
    ensures Pays(m, DrainChunk(m, id, n))
  {
    var s := m.t.Get(id, n);
    hide Pays;
    PaysPlain(m, DrainChunk(m, id, n), [], if s.writeOut == [] then [] else [DataFrame(s.id, s.writeOut[0])]);
  }

  lemma EndPays(m: State, id: UInt32, n: nat)
    requires m.t.Has(id, n) && m.t.Get(id, n).finCh > 0
    ensures Pays(m, EndDrain(m, id, n))
  {
    hide Pays, EndDrain;
    EndDrainIs(m, id, n);
    var s := m.t.Get(id, n);
    var fs := DataFrames(s.id, s.writeOut) + [CloseFrame(s.id)];
    assert EndDrain(m, id, n).data == m.data + fs;
    PaysPlain(m, EndDrain(m, id, n), [], fs);
  }

  lemma CallPays(m: State, c: Call)
    requires Inv(m) && CanCall(m, c) && !c.Handling?
    ensures Pays(m, Do(m, c))
  {
    hide Inv, Pays, OpenStream, ResetStream, DrainChunk, EndDrain;
    match c
    case Opening(payload) => OpenPays(m, payload);
    case Cancelling(id) =>
      DropNotMore(m.t.live, id);
      PaysPlain(m, Do(m, c), [], []);
    case Resetting(id, n, code) => ResetPays(m, id, n, code);
    case Draining(id, n) => DrainPays(m, id, n);
    case Ending(id, n) => EndPays(m, id, n);
    case GoingAway(last, code) => PaysPlain(m, Do(m, c), [GoAwayFrame(last, code)], []);
    case Sending(f) => PaysPlain(m, Do(m, c), [f], []);
    case _ => SessionCallPays(m, c);
  }

  // ---------------------------------------------------------------- the pair

  /** Requests to open under way have the parity of the side that wrote them. */
  ghost predicate OwnOpens(fs: seq<Frame>, parity: int) {
    forall i :: 0 <= i < |fs| && fs[i].Opens() ==> fs[i].streamID % 2 == parity
  }

  ghost predicate EndInv(e: End, parity: int) {
    && Inv(e.m) && e.m.t.next % 2 == parity
    && OwnOpens(e.wire, parity) && OwnOpens(e.m.control, parity) && OwnOpens(e.m.data, parity)
  }

  ghost predicate PairInv(p: Pair) {
    EndInv(p.relay, 1) && EndInv(p.agent, 0)
  }

  ghost function Parity(side: Side): int {
    if side.Relay? then 1 else 0
  }

  lemma PaysKeepsEnd(e: End, m': State, parity: int)
    requires EndInv(e, parity) && Inv(m') && Pays(e.m, m')
    ensures EndInv(e.(m := m'), parity)
  {
    hide Inv, Potential;
    var m := e.m;
    forall i | 0 <= i < |m'.control| && m'.control[i].Opens() ensures m'.control[i].streamID % 2 == parity {
      assert i < |m.control| && m'.control[i] == m.control[i];
    }
    forall i | 0 <= i < |m'.data| && m'.data[i].Opens() ensures m'.data[i].streamID % 2 == parity {
      if i < |m.data| {
        assert m'.data[i] == m.data[i];
      }
    }
  }

  lemma WrittenKeeps(e: End, parity: int)
    requires EndInv(e, parity) && (e.m.control != [] || e.m.data != [])
    ensures EndInv(Written(e), parity)
    ensures Written(e).m.t == e.m.t && Written(e).m.installs == e.m.installs && Written(e).m.resets == e.m.resets
    ensures Potential(Written(e).m) + Resets(Written(e).wire) == Potential(e.m) + Resets(e.wire)
  {
    RelabelKeeps(e.m, Written(e).m);
    hide Inv;
    var f := if e.m.control != [] then e.m.control[0] else e.m.data[0];
    ResetsAppend(e.wire, [f]);
    ResetsOne(f);
  }

  /** One if the event is the handling of a reset. */
  ghost function Handled(p: Pair, e: Event): nat
    requires CanDo(p, e)
  {
    if e.Receive? && At(p, Peer(e.side)).wire[0].command == CMD_STREAM_RESET then 1 else 0
  }

  /** Every step keeps the invariant, and a handled reset is paid for. */
  ghost predicate Settles(p: Pair, p': Pair, handled: nat) {
    && PairInv(p')
    && Installs(p') >= Installs(p)
    && Measure(p') + handled <= Measure(p) + 2 * (Installs(p') - Installs(p))
    && Emitted(p') + Live(p') <= Emitted(p) + Live(p) + (Installs(p') - Installs(p))
  }

  lemma LocalSettles(p: Pair, side: Side, c: Call)
    requires PairInv(p) && CanDo(p, Local(side, c))
    ensures Settles(p, Step(p, Local(side, c)), 0)
  {
    hide EndInv, Do, Inv, Potential, CanCall;
    var e := At(p, side);
    EndParts(e, Parity(side));
    DoKeeps(e.m, c);
    CallPays(e.m, c);
    PaysKeepsEnd(e, Do(e.m, c), Parity(side));
  }

  lemma PoppedKeeps(e: End, parity: int)
    requires EndInv(e, parity) && e.wire != []
    ensures EndInv(e.(wire := e.wire[1..]), parity)
    ensures Resets(e.wire[1..]) == Resets(e.wire) - if e.wire[0].command == CMD_STREAM_RESET then 1 else 0
    ensures e.wire[0].Opens() ==> e.wire[0].streamID % 2 == parity
  {
    hide Inv;
  }

  lemma EndParts(e: End, parity: int)
    requires EndInv(e, parity)
    ensures Inv(e.m) && e.m.t.next % 2 == parity
  {
  }

  lemma ReceiveSettles(p: Pair, side: Side)
    requires PairInv(p) && CanDo(p, Receive(side))
    ensures Settles(p, Step(p, Receive(side)), Handled(p, Receive(side)))
  {
    hide EndInv, Handle, Inv, Potential;
    var near, far := At(p, side), At(p, Peer(side));
    var f := far.wire[0];
    PoppedKeeps(far, Parity(Peer(side)));
    EndParts(near, Parity(side));
    assert f.Opens() ==> !near.m.t.Owns(f.streamID);
    HandleKeeps(near.m, f);
    HandlePays(near.m, f);
    PaysKeepsEnd(near, Handle(near.m, f), Parity(side));
    hide Resets;
  }

  lemma TransmitSettles(p: Pair, side: Side)
    requires PairInv(p) && CanDo(p, Transmit(side))
    ensures Settles(p, Step(p, Transmit(side)), 0)
  {
    hide EndInv, Written, Potential, Resets;
    WrittenKeeps(At(p, side), Parity(side));
  }

  lemma StepSettles(p: Pair, e: Event)
    requires PairInv(p) && CanDo(p, e)
    ensures Settles(p, Step(p, e), Handled(p, e))
  {
    match e
    case Local(side, c) =>
      hide PairInv, Step, CanDo;
      LocalSettles(p, side, c);
    case Transmit(side) =>
      hide PairInv, Step, CanDo;
      TransmitSettles(p, side);
    case Receive(side) =>
      hide PairInv, Step, CanDo;
      ReceiveSettles(p, side);
  }

  ghost predicate CanExec(p: Pair, es: seq<Event>)
    decreases es
  {
    es == [] || (CanDo(p, es[0]) && CanExec(Step(p, es[0]), es[1..]))
  }

  ghost function Exec(p: Pair, es: seq<Event>): Pair
    requires CanExec(p, es)
    decreases es
  {
    if es == [] then p else Exec(Step(p, es[0]), es[1..])
  }

  /** The number of resets handled in a run. */
  ghost function HandledIn(p: Pair, es: seq<Event>): nat
    requires CanExec(p, es)
    decreases es
  {
    if es == [] then 0 else Handled(p, es[0]) + HandledIn(Step(p, es[0]), es[1..])
  }

  /** In every run the resets that are handled, and the resets that onReset sends,
      are bounded by the streams there were and the streams installed since. */
  lemma {:induction false} ResetsAreBounded(p: Pair, es: seq<Event>)
    requires PairInv(p) && CanExec(p, es)
    ensures Settles(p, Exec(p, es), HandledIn(p, es))
    decreases |es|
  {
    hide PairInv, CanDo, Step, Measure, Handled;
    if es != [] {
      StepSettles(p, es[0]);
      ResetsAreBounded(Step(p, es[0]), es[1..]);
    }
  }

  // --------------------------------------------------------- no new streams

  ghost predicate NoRequests(e: End) {
    && (forall i :: 0 <= i < |e.wire| ==> !e.wire[i].Opens())
    && (forall i :: 0 <= i < |e.m.control| ==> !e.m.control[i].Opens())
    && (forall i :: 0 <= i < |e.m.data| ==> !e.m.data[i].Opens())
  }

  ghost predicate Quiet(p: Pair) {
    NoRequests(p.relay) && NoRequests(p.agent)
  }

  ghost predicate NoOpenings(es: seq<Event>) {
    forall i :: 0 <= i < |es| && es[i].Local? ==> !es[i].c.Opening?
  }

  lemma CallQuiet(m: State, c: Call)
    requires CanCall(m, c) && !c.Handling? && !c.Opening?
    requires forall i :: 0 <= i < |m.control| ==> !m.control[i].Opens()
    requires forall i :: 0 <= i < |m.data| ==> !m.data[i].Opens()
    ensures var m' := Do(m, c);
            && m'.installs == m.installs
            && (forall i :: 0 <= i < |m'.control| ==> !m'.control[i].Opens())
            && (forall i :: 0 <= i < |m'.data| ==> !m'.data[i].Opens())
  {
  }

  lemma QuietStep(p: Pair, e: Event)
    requires CanDo(p, e) && Quiet(p) && (e.Local? ==> !e.c.Opening?)
    ensures Quiet(Step(p, e)) && Installs(Step(p, e)) == Installs(p)
  {
    match e
    case Local(side, c) =>
      CallQuiet(At(p, side).m, c);
      hide Do, CanCall;
    case Transmit(side) =>
    case Receive(side) =>
      var near, far := At(p, side), At(p, Peer(side));
      assert !far.wire[0].Opens();
      HandleQuiet(near.m, far.wire[0]);
      hide Handle;
  }

  lemma HandleQuiet(m: State, f: Frame)
    requires !f.Opens()
    requires forall i :: 0 <= i < |m.control| ==> !m.control[i].Opens()
    ensures var m' := Handle(m, f);
            && m'.installs == m.installs && m'.data == m.data
            && (forall i :: 0 <= i < |m'.control| ==> !m'.control[i].Opens())
  {
  }

  lemma {:induction false} QuietRun(p: Pair, es: seq<Event>)
    requires PairInv(p) && CanExec(p, es) && Quiet(p) && NoOpenings(es)
    ensures Installs(Exec(p, es)) == Installs(p)
    decreases |es|
  {
    hide PairInv, CanDo, Step, Quiet, Settles, Handled;
    if es != [] {
      QuietStep(p, es[0]);
      StepSettles(p, es[0]);
      SettlesInv(p, Step(p, es[0]), Handled(p, es[0]));
      QuietRun(Step(p, es[0]), es[1..]);
    }
  }

  lemma SettlesInv(p: Pair, p': Pair, handled: nat)
    requires Settles(p, p', handled)
    ensures PairInv(p')
  {
  }

  /** Termination of resets: with no opens left, although each reset of a live
      stream is answered with a reset, the resets handled from here on are no more than
      the measure of this state, and the resets sent no more than its live streams. */
  lemma ResetsTerminate(p: Pair, es: seq<Event>)
    requires PairInv(p) && CanExec(p, es) && Quiet(p) && NoOpenings(es)
    ensures HandledIn(p, es) + Measure(Exec(p, es)) <= Measure(p)
    ensures Emitted(Exec(p, es)) - Emitted(p) <= Live(p) - Live(Exec(p, es))
  {
    hide PairInv, CanDo, Step, Quiet, Exec, HandledIn;
    QuietRun(p, es);
    ResetsAreBounded(p, es);
  }

  // ------------------------------------------------------- from the connection

  /** Two endpoints that have just been connected. */
  ghost predicate Connected(p: Pair) {
    && p == Pair(End(NewState(1, p.relay.m.t.max, p.relay.m.window), []),
                 End(NewState(2, p.agent.m.t.max, p.agent.m.window), []))
    && 1 + 2 * p.relay.m.t.max < TWO_TO_32 && 2 + 2 * p.agent.m.t.max < TWO_TO_32
  }

  lemma ConnectedInv(p: Pair)
    requires Connected(p)
    ensures PairInv(p) && Measure(p) == 0 && Emitted(p) + Live(p) + Installs(p) == 0
  {
    NewStateInv(1, p.relay.m.t.max, p.relay.m.window);
    NewStateInv(2, p.agent.m.t.max, p.agent.m.window);
    hide Inv;
  }

  /** In every run of two endpoints, resets and cancelled opens included: the resets that
      onReset has sent and the live streams together never outnumber the streams
      installed, and at most two resets are handled per stream. */
  lemma ResetsNeverOutnumberStreams(p: Pair, es: seq<Event>)
    requires Connected(p) && CanExec(p, es)
    ensures Emitted(Exec(p, es)) + Live(Exec(p, es)) <= Installs(Exec(p, es))
    ensures HandledIn(p, es) <= 2 * Installs(Exec(p, es))
    ensures PairInv(Exec(p, es))
  {
    ConnectedInv(p);
    hide Connected, PairInv, Exec, HandledIn, CanExec, Measure;
    ResetsAreBounded(p, es);
  }

  /** In no run does an endpoint receive a request to open in its own parity space. */
  lemma OwnParityNeverRequested(p: Pair, es: seq<Event>, side: Side)
    requires Connected(p) && CanExec(p, es) && CanDo(Exec(p, es), Receive(side))
    ensures var q := Exec(p, es);
            var f := At(q, Peer(side)).wire[0];
            f.Opens() ==> !At(q, side).m.t.Owns(f.streamID)
  {
    ResetsNeverOutnumberStreams(p, es);
    hide Connected, CanExec, Exec, Inv;
  }

  /** Once no request is left and no open follows, the exchange of resets ends, after any
      run from the connection. */
  lemma ResetsEnd(p: Pair, es: seq<Event>, more: seq<Event>)
    requires Connected(p) && CanExec(p, es) && Quiet(Exec(p, es))
    requires CanExec(Exec(p, es), more) && NoOpenings(more)
    ensures var q := Exec(p, es);
            && HandledIn(q, more) + Measure(Exec(q, more)) <= Measure(q)
            && Emitted(Exec(q, more)) - Emitted(q) <= Live(q) - Live(Exec(q, more))
  {
    ResetsNeverOutnumberStreams(p, es);
    hide Connected, CanExec, Exec, PairInv, Quiet, HandledIn, Measure;
    ResetsTerminate(Exec(p, es), more);
  }
}
