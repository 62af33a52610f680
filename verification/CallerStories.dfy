/** What the callers of two connected multiplexers are told in a whole run: what Write has
    accepted and Read has returned, and what the open calls have agreed on.
 */
module CallerStories {
  import opened Frames
  import opened Streams
  import opened StreamTable
  import opened Flow
  import opened Conversation
  import opened FirstUse
  import opened Reuse
  import opened Refinement
  import opened PairRuns
  import D = Delivery
  import L = Link
  import M = Mux
  import P = MuxPair

  /** What the callers of one session asked, wrote and read so far. */
  datatype Story = Story(asked: Bytes, wrote: seq<Bytes>, read: Bytes)

  const Silence := Story([], [], [])

  function More(a: Story, b: Story): Story {
    Story(a.asked + b.asked, a.wrote + b.wrote, a.read + b.read)
  }

  /** A Write that is accepted, or the bytes that a Read returns. */
  function CallStory(s: Session, c: M.Call): Story {
    match c
    case Writing(_, _, chunk) =>
      if s.WriteClosed() || |s.writeOut| >= WRITE_OUT_CAPACITY then Silence else Story([], [chunk], [])
    case Reading(_, _, k) => Story([], [], s.readBuf[..if k < |s.readBuf| then k else |s.readBuf|])
    case _ => Silence
  }

  /** What the event says to a caller of session `n` of `id` at `side`. */
  ghost function StoryNow(p: P.Pair, e: P.Event, side: Side, id: UInt32, n: nat): Story
    requires P.CanDo(p, e)
  {
    if !e.Local? || e.side != side then Silence else
    var t := P.At(p, side).m.t;
    if e.c.Opening? then if t.NextID() == id && |t.Incs(id)| == n then Story(e.c.payload, [], []) else Silence
    else if SessionCall(e.c) && e.c.id == id && e.c.n == n then CallStory(t.Get(id, n), e.c)
    else Silence
  }

  /** What a whole run says to them. */
  ghost function RunStory(p: P.Pair, es: seq<P.Event>, side: Side, id: UInt32, n: nat): Story
    requires P.CanExec(p, es)
    decreases es
  {
    if es == [] then Silence
    else More(StoryNow(p, es[0], side, id, n), RunStory(P.Step(p, es[0]), es[1..], side, id, n))
  }

  function FlowStory(f: Flow): Story {
    Story(f.asked, f.pushed, f.readOut)
  }

  function StoryAt(ep: L.Endpoint, id: UInt32, n: nat): Story {
    if ep.t.Has(id, n) then FlowStory(ep.t.Get(id, n)) else Silence
  }

  lemma MoreSilence(a: Story)
    ensures More(a, Silence) == a && More(Silence, a) == a
  {
    assert a.asked + [] == a.asked && a.wrote + [] == a.wrote && a.read + [] == a.read;
    assert [] + a.asked == a.asked && [] + a.wrote == a.wrote && [] + a.read == a.read;
  }

  lemma MoreAssoc(a: Story, b: Story, c: Story)
    ensures More(More(a, b), c) == More(a, More(b, c))
  {
    assert a.asked + b.asked + c.asked == a.asked + (b.asked + c.asked);
    assert a.wrote + b.wrote + c.wrote == a.wrote + (b.wrote + c.wrote);
    assert a.read + b.read + c.read == a.read + (b.read + c.read);
  }

  lemma QuietStep(f: Flow, e: FlowEvent)
    requires Enabled(f, e) && !e.WritePush? && !e.ReadSome?
    ensures FlowStory(Apply(f, e)) == FlowStory(f)
  {
  }

  lemma {:induction false} QuietRun(f: Flow, es: seq<FlowEvent>)
    requires CanRun(f, es) && forall i :: 0 <= i < |es| ==> !es[i].WritePush? && !es[i].ReadSome?
    ensures FlowStory(Run(f, es)) == FlowStory(f)
    decreases |es|
  {
    hide Apply, Enabled;
    if es != [] {
      QuietStep(f, es[0]);
      QuietRun(Apply(f, es[0]), es[1..]);
    }
  }

  lemma {:induction false} FlushIsQuiet(k: nat)
    ensures forall i :: 0 <= i < |FlushMoves(k)| ==> !FlushMoves(k)[i].WritePush? && !FlushMoves(k)[i].ReadSome?
  {
    if k > 0 {
      FlushIsQuiet(k - 1);
    }
  }

  lemma WriteStory(s: Session, c: M.Call, f: Flow)
    requires c.Writing? && s == f.s.(recvWindow := s.recvWindow) && CanRun(f, Moves(s, c))
    ensures FlowStory(Run(f, Moves(s, c))) == More(FlowStory(f), CallStory(s, c))
  {
    MoreSilence(FlowStory(f));
    var es := Moves(s, c);
    if es != [] {
      hide Run, CanRun, Log;
      RunFirst(f, es);
      var f1 := Apply(f, WriteCheck(c.chunk));
      assert es[1..] == [WritePush(c.chunk)];
      RunOne(f1, WritePush(c.chunk));
    }
  }

  lemma ReadStory(s: Session, c: M.Call, f: Flow)
    requires c.Reading? && s == f.s.(recvWindow := s.recvWindow) && CanRun(f, Moves(s, c))
    ensures FlowStory(Run(f, Moves(s, c))) == More(FlowStory(f), CallStory(s, c))
  {
    MoreSilence(FlowStory(f));
    var es := Moves(s, c);
    if es != [] {
      hide Run, CanRun, Log;
      RunOne(f, ReadSome(c.k));
    }
  }

  /** The steps of a call tell the flow what the call tells its caller. */
  lemma MovesStory(s: Session, c: M.Call, f: Flow)
    requires SessionCall(c) && s == f.s.(recvWindow := s.recvWindow) && CanRun(f, Moves(s, c))
    ensures FlowStory(Run(f, Moves(s, c))) == More(FlowStory(f), CallStory(s, c))
  {
    if c.Writing? {
      WriteStory(s, c, f);
    } else if c.Reading? {
      ReadStory(s, c, f);
    } else {
      FlushIsQuiet(|s.writeOut|);
      hide Run, CanRun, FlushMoves;
      QuietRun(f, Moves(s, c));
      MoreSilence(FlowStory(f));
    }
  }

  lemma ActedStory(ep: L.Endpoint, i: UInt32, k: nat, es: seq<FlowEvent>, id: UInt32, n: nat)
    requires ep.t.Has(i, k) && CanRun(ep.t.Get(i, k), es)
    ensures StoryAt(ActedAs(ep, i, k, es), id, n) ==
            if i == id && k == n then FlowStory(Run(ep.t.Get(i, k), es)) else StoryAt(ep, id, n)
  {
    hide Run, CanRun, Log;
  }

  lemma OpenStory(ep: L.Endpoint, payload: Bytes, id: UInt32, n: nat)
    ensures StoryAt(L.DoOpen(ep, payload), id, n) ==
            if ep.t.NextID() == id && |ep.t.Incs(id)| == n then Story(payload, [], []) else StoryAt(ep, id, n)
  {
  }

  /** The read loop tells the callers nothing. */
  lemma LiveStory(ep: L.Endpoint, i: UInt32, e: FlowEvent, id: UInt32, n: nat)
    requires e.FromReadLoop()
    ensures StoryAt(L.HandleLive(ep, i, e), id, n) == StoryAt(ep, id, n)
  {
    if i in ep.t.live && ep.t.Has(i, ep.t.live[i]) {
      QuietStep(ep.t.Get(i, ep.t.live[i]), e);
      hide Apply;
    }
  }

  lemma HandleStory(ep: L.Endpoint, f: Frame, id: UInt32, n: nat)
    ensures StoryAt(L.Handle(ep, f), id, n) == StoryAt(ep, id, n)
  {
    hide L.HandleLive;
    LiveStory(ep, f.streamID, ApplyFin, id, n);
    LiveStory(ep, f.streamID, ApplyReset, id, n);
    var ep1 := L.HandleLive(ep, f.streamID, ApplyData(f.payload));
    LiveStory(ep, f.streamID, ApplyData(f.payload), id, n);
    LiveStory(ep1, f.streamID, ApplyFin, id, n);
  }

  lemma CallStep(p: P.Pair, l: L.Net, at: Side, c: M.Call, side: Side, id: UInt32, n: nat)
    requires P.PairInv(p) && L.NetInv(l) && Matches(p, l)
    requires P.CanDo(p, P.Local(at, c)) && Proper(p, P.Local(at, c)) && SessionCall(c)
    ensures var e := P.Local(at, c);
            && D.CanExec(l, StepMoves(p, e))
            && StoryAt(L.Ep(D.Exec(l, StepMoves(p, e)), side), id, n)
                 == More(StoryAt(L.Ep(l, side), id, n), StoryNow(p, e, side, id, n))
  {
    hide P.PairInv, L.NetInv, Matches, Run, CanRun, Moves, ActedAs, StepMoves, StoryAt, More, FlowStory, CallStory;
    CallRuns(p, l, at, c);
    var m, ep := P.At(p, at).m, L.Ep(l, at);
    var es := Moves(m.t.Get(c.id, c.n), c);
    assert CanRun(ep.t.Get(c.id, c.n), es);
    hide Follows, P.CanDo, Proper;
    MovesStory(m.t.Get(c.id, c.n), c, ep.t.Get(c.id, c.n));
    ActedStory(ep, c.id, c.n, es, id, n);
    MoreSilence(StoryAt(L.Ep(l, side), id, n));
    HasStory(ep, c.id, c.n);
  }

  lemma HasStory(ep: L.Endpoint, id: UInt32, n: nat)
    requires ep.t.Has(id, n)
    ensures StoryAt(ep, id, n) == FlowStory(ep.t.Get(id, n))
  {
  }

  /** Opening a stream is the only step of the link itself that tells a caller anything. */
  function LinkStory(ep: L.Endpoint, e: L.Event, id: UInt32, n: nat): Story {
    if e.OpenStream? && ep.t.NextID() == id && |ep.t.Incs(id)| == n then Story(e.payload, [], []) else Silence
  }

  lemma LinkStep(l: L.Net, e: L.Event, side: Side, id: UInt32, n: nat)
    requires L.CanDo(l, e) && !e.Act?
    ensures StoryAt(L.Ep(L.Do(l, e), side), id, n)
              == More(StoryAt(L.Ep(l, side), id, n),
                      if e.side == side then LinkStory(L.Ep(l, side), e, id, n) else Silence)
  {
    MoreSilence(StoryAt(L.Ep(l, side), id, n));
    match e {
      case OpenStream(_, payload) =>
        OpenStory(L.Ep(l, e.side), payload, id, n);
        MoreSilence(Story(payload, [], []));
        hide L.DoOpen;
      case Control(_, _) =>
      case Transmit(_) =>
      case Receive(_) =>
        HandleStory(L.Ep(l, e.side), L.Ep(l, Peer(e.side)).wire[0].frame, id, n);
        hide L.Handle;
    }
  }

  lemma OtherStep(p: P.Pair, l: L.Net, e: P.Event, side: Side, id: UInt32, n: nat)
    requires Matches(p, l) && P.CanDo(p, e) && Proper(p, e) && !(e.Local? && SessionCall(e.c))
    requires D.CanExec(l, StepMoves(p, e))
    ensures StoryAt(L.Ep(D.Exec(l, StepMoves(p, e)), side), id, n)
              == More(StoryAt(L.Ep(l, side), id, n), StoryNow(p, e, side, id, n))
  {
    hide Matches, EndMatches, StoryAt, More, L.Do;
    var e' := StepMoves(p, e)[0];
    assert StepMoves(p, e) == [e'] && L.CanDo(l, e') && !e'.Act? && e'.side == e.side;
    hide L.CanDo;
    ExecOne(l, e');
    LinkStep(l, e', side, id, n);
    MatchesAt(p, l, e.side);
    TableAt(P.At(p, e.side), L.Ep(l, e.side));
    NextAt(P.At(p, e.side).m.t, L.Ep(l, e.side).t, id);
    hide SameTable, D.Exec, D.CanExec;
  }

  lemma NextAt(t: Table<Session>, u: Table<Flow>, id: UInt32)
    requires SameTable(t, u)
    ensures t.NextID() == u.NextID() && |t.Incs(id)| == |u.Incs(id)|
  {
    hide Fits;
  }

  lemma StepStory(p: P.Pair, l: L.Net, e: P.Event, side: Side, id: UInt32, n: nat)
    requires P.PairInv(p) && L.NetInv(l) && Matches(p, l) && P.CanDo(p, e) && Proper(p, e)
    ensures D.CanExec(l, StepMoves(p, e))
    ensures StoryAt(L.Ep(D.Exec(l, StepMoves(p, e)), side), id, n)
              == More(StoryAt(L.Ep(l, side), id, n), StoryNow(p, e, side, id, n))
  {
    hide P.PairInv, L.NetInv, Matches, P.CanDo, Proper, StepMoves, StoryAt, StoryNow, More, P.Step, SessionCall;
    StepRefines(p, l, e);
    if e.Local? && SessionCall(e.c) {
      CallStep(p, l, e.side, e.c, side, id, n);
    } else {
      OtherStep(p, l, e, side, id, n);
    }
  }

  /** The flows of the small steps know what the callers of the whole run know. */
  lemma {:induction false} RunTells(p: P.Pair, l: L.Net, es: seq<P.Event>, side: Side, id: UInt32, n: nat)
    requires P.PairInv(p) && L.NetInv(l) && Matches(p, l) && P.CanExec(p, es) && AllProper(p, es)
    ensures D.CanExec(l, RunMoves(p, es))
    ensures StoryAt(L.Ep(D.Exec(l, RunMoves(p, es)), side), id, n)
              == More(StoryAt(L.Ep(l, side), id, n), RunStory(p, es, side, id, n))
    decreases |es|
  {
    hide P.PairInv, L.NetInv, Matches, P.CanDo, Proper, P.Step, StepMoves, StoryAt, StoryNow, More;
    RunRefines(p, l, es);
    if es == [] {
      MoreSilence(StoryAt(L.Ep(l, side), id, n));
    } else {
      var a, q := StepMoves(p, es[0]), P.Step(p, es[0]);
      StepStory(p, l, es[0], side, id, n);
      StepRefines(p, l, es[0]);
      StepKeepsPair(p, es[0]);
      RunTells(q, D.Exec(l, a), es[1..], side, id, n);
      ExecAppend(l, a, RunMoves(q, es[1..]));
      MoreAssoc(StoryAt(L.Ep(l, side), id, n), StoryNow(p, es[0], side, id, n), RunStory(q, es[1..], side, id, n));
    }
  }

  lemma PairTells(p: P.Pair, es: seq<P.Event>, side: Side, id: UInt32, n: nat)
    requires P.Connected(p) && P.CanExec(p, es) && AllProper(p, es)
    ensures D.CanExec(Fine(p), RunMoves(p, es))
    ensures StoryAt(L.Ep(D.Exec(Fine(p), RunMoves(p, es)), side), id, n) == RunStory(p, es, side, id, n)
  {
    ConnectedMatches(p);
    assert StoryAt(L.Ep(Fine(p), side), id, n) == Silence;
    hide P.Connected, P.PairInv, L.NetInv, Matches, AllProper, RunMoves, Fine, D.Connected, StoryAt, RunStory;
    RunTells(p, Fine(p), es, side, id, n);
    MoreSilence(RunStory(p, es, side, id, n));
  }

  // --------------------------------------------------------------------- reuse

  /** When a call opens `x` again, the drain loop of its last session has ended, so that
      its closing frame is queued. */
  ghost predicate Emptied(p: P.Pair, e: P.Event, x: UInt32) {
    e.Local? && e.c.Opening? && P.At(p, e.side).m.t.NextID() == x ==>
      var past := P.At(p, e.side).m.t.Incs(x);
      past == [] || past[|past| - 1].finCh == 0
  }

  ghost predicate AllEmptied(p: P.Pair, es: seq<P.Event>, x: UInt32)
    requires P.CanExec(p, es)
    decreases es
  {
    es == [] || (Emptied(p, es[0], x) && AllEmptied(P.Step(p, es[0]), es[1..], x))
  }

  lemma CalmIsSettled(t: Table<Session>, u: Table<Flow>, id: UInt32)
    requires SameTable(t, u)
    ensures AllSettled(u.Incs(id))
  {
    forall i | 0 <= i < |u.Incs(id)| ensures Settled(u.Incs(id)[i]) {
      assert |t.Incs(id)| == |u.Incs(id)|;
      FitsAt(t, u, id, i);
    }
  }

  lemma EndedHasSentFin(f: Flow, x: UInt32)
    requires Sound(f, x) && Calm(f) && f.s.Terminal() && f.s.finCh == 0
    ensures f.finSent
  {
  }

  lemma OpenIsGuarded(p: P.Pair, l: L.Net, side: Side, payload: Bytes)
    requires P.PairInv(p) && L.NetInv(l) && Matches(p, l) && P.At(p, side).m.t.CanOpen()
    requires |payload| <= MAX_PAYLOAD_SIZE
    requires Emptied(p, P.Local(side, M.Opening(payload)), P.At(p, side).m.t.NextID())
    ensures L.CanDo(l, L.OpenStream(side, payload)) && D.GuardedDo(l, L.OpenStream(side, payload))
  {
    hide P.PairInv, M.Inv, L.NetInv, Mirrors;
    var m, ep := P.At(p, side).m, L.Ep(l, side);
    var x := m.t.NextID();
    InvAt(p, side);
    MatchesAt(p, l, side);
    TableAt(P.At(p, side), ep);
    CalmIsSettled(m.t, ep.t, x);
    NextAt(m.t, ep.t, x);
    AllocateMirrors(m.t, ep.t);
    M.OpenKeeps(m, payload);
    assert m.t.live == ep.t.live;
    if ep.t.Incs(x) != [] {
      var n := |ep.t.Incs(x)| - 1;
      NextHasEnded(m, payload);
      FitsAt(m.t, ep.t, x, n);
      assert m.t.Has(x, n) && m.t.Get(x, n).Terminal();
      L.ShapeAt(l, side, x);
      assert Sound(L.HalfOf(ep, x).flows[n], x);
      EndedHasSentFin(ep.t.Get(x, n), x);
    }
  }

  lemma ReceiveIsGuarded(p: P.Pair, l: L.Net, side: Side)
    requires Matches(p, l) && L.CanDo(l, L.Receive(side))
    ensures D.GuardedDo(l, L.Receive(side))
  {
    hide Mirrors;
    MatchesAt(p, l, side);
    TableAt(P.At(p, side), L.Ep(l, side));
    CalmIsSettled(P.At(p, side).m.t, L.Ep(l, side).t, L.Ep(l, Peer(side)).wire[0].frame.streamID);
  }

  lemma {:induction false} SessionStepsGuarded(l: L.Net, side: Side, id: UInt32, n: nat, es: seq<FlowEvent>, x: UInt32)
    requires D.CanExec(l, SessionSteps(side, id, n, es))
    ensures D.GuardedFor(l, SessionSteps(side, id, n, es), x)
    decreases |es|
  {
    hide L.Do, L.CanDo;
    if es != [] {
      var e := L.Act(side, id, n, es[0]);
      assert SessionSteps(side, id, n, es)[1..] == SessionSteps(side, id, n, es[1..]);
      SessionStepsGuarded(L.Do(l, e), side, id, n, es[1..], x);
    }
  }

  lemma GuardedOne(l: L.Net, e: L.Event, x: UInt32)
    requires L.CanDo(l, e) && (L.StepOf(l, e, x).Some? ==> D.GuardedDo(l, e))
    ensures D.CanExec(l, [e]) && D.GuardedFor(l, [e], x)
  {
    hide L.Do, L.CanDo, D.GuardedDo, L.StepOf;
    ExecOne(l, e);
    assert [e][1..] == [];
  }

  lemma {:induction false} GuardedAppend(l: L.Net, a: seq<L.Event>, b: seq<L.Event>, x: UInt32)
    requires D.CanExec(l, a) && D.CanExec(D.Exec(l, a), b)
    requires D.GuardedFor(l, a, x) && D.GuardedFor(D.Exec(l, a), b, x)
    ensures D.CanExec(l, a + b) && D.GuardedFor(l, a + b, x)
    decreases |a|
  {
    hide L.Do, L.CanDo, D.GuardedDo, L.StepOf;
    ExecAppend(l, a, b);
    if a == [] {
      assert a + b == b;
    } else {
      assert (a + b)[1..] == a[1..] + b;
      GuardedAppend(L.Do(l, a[0]), a[1..], b, x);
    }
  }

  /** The steps of a call are guarded: only an early open could break a guard. */
  lemma StepIsGuarded(p: P.Pair, l: L.Net, e: P.Event, x: UInt32)
    requires P.PairInv(p) && L.NetInv(l) && Matches(p, l) && P.CanDo(p, e) && Proper(p, e) && Emptied(p, e, x)
    ensures D.CanExec(l, StepMoves(p, e)) && D.GuardedFor(l, StepMoves(p, e), x)
  {
    hide P.PairInv, L.NetInv, Matches, D.GuardedDo, Moves, M.Do;
    StepRefines(p, l, e);
    hide P.Step;
    match e {
      case Transmit(side) => GuardedOne(l, L.Transmit(side), x);
      case Receive(side) =>
        ReceiveIsGuarded(p, l, side);
        GuardedOne(l, L.Receive(side), x);
      case Local(side, c) =>
        if c.Opening? {
          OpensOnly(p, l, side, c.payload, x);
          GuardedOne(l, L.OpenStream(side, c.payload), x);
        } else if SessionCall(c) {
          SessionStepsGuarded(l, side, c.id, c.n, Moves(P.At(p, side).m.t.Get(c.id, c.n), c), x);
        } else {
          GuardedOne(l, StepMoves(p, e)[0], x);
        }
    }
  }

  lemma OpensOnly(p: P.Pair, l: L.Net, side: Side, payload: Bytes, x: UInt32)
    requires P.PairInv(p) && L.NetInv(l) && Matches(p, l) && P.At(p, side).m.t.CanOpen()
    requires |payload| <= MAX_PAYLOAD_SIZE && Emptied(p, P.Local(side, M.Opening(payload)), x)
    ensures var e := L.OpenStream(side, payload);
            L.CanDo(l, e) && (L.StepOf(l, e, x).Some? ==> D.GuardedDo(l, e))
  {
    hide P.PairInv, L.NetInv, Matches, D.GuardedDo, Mirrors;
    MatchesAt(p, l, side);
    TableAt(P.At(p, side), L.Ep(l, side));
    NextAt(P.At(p, side).m.t, L.Ep(l, side).t, x);
    AllocateMirrors(P.At(p, side).m.t, L.Ep(l, side).t);
    hide SameTable;
    if P.At(p, side).m.t.NextID() == x {
      OpenIsGuarded(p, l, side, payload);
    }
  }

  lemma {:induction false} RunIsGuarded(p: P.Pair, l: L.Net, es: seq<P.Event>, x: UInt32)
    requires P.PairInv(p) && L.NetInv(l) && Matches(p, l)
    requires P.CanExec(p, es) && AllProper(p, es) && AllEmptied(p, es, x)
    ensures D.CanExec(l, RunMoves(p, es)) && D.GuardedFor(l, RunMoves(p, es), x)
    decreases |es|
  {
    hide P.PairInv, L.NetInv, Matches, P.CanDo, Proper, P.Step, StepMoves, Emptied;
    if es != [] {
      var a, q := StepMoves(p, es[0]), P.Step(p, es[0]);
      StepIsGuarded(p, l, es[0], x);
      StepRefines(p, l, es[0]);
      StepKeepsPair(p, es[0]);
      RunIsGuarded(q, D.Exec(l, a), es[1..], x);
      GuardedAppend(l, a, RunMoves(q, es[1..]), x);
    }
  }

  // ---------------------------------------------------------------- the results

  /** Use `i` of `x`: accepted, with the two sessions in agreement, or asked for and
      not yet answered. */
  ghost predicate UseOf(l: L.Net, x: UInt32, i: nat) {
    var os, ps := D.Sessions(l, L.OwnerOf(x), x), D.Sessions(l, Peer(L.OwnerOf(x)), x);
    if i < |ps| then i < |os| && Sound(os[i], x) && Sound(ps[i], x) && Agree(os[i], ps[i])
    else i < |os| ==> IsAsked(os[i], x)
  }

  lemma FirstUseIs(c: Conv, l: L.Net)
    requires c == L.Proj(l, c.x) && FirstInv(c)
    ensures UseOf(l, c.x, 0)
  {
    hide Carries, L.Filter;
  }

  lemma ReuseIs(c: Conv, l: L.Net, i: nat)
    requires c == L.Proj(l, c.x) && ReuseInv(c)
    ensures UseOf(l, c.x, i)
  {
    hide Carries, Transit, L.Filter;
  }

  /** Every use of an identifier that is handed over in order, and in any case the first. */
  lemma UsesAfter(p: P.Pair, es: seq<P.Event>, x: UInt32, i: nat)
    requires P.Connected(p) && P.CanExec(p, es) && AllProper(p, es)
    requires i == 0 || AllEmptied(p, es, x)
    ensures D.CanExec(Fine(p), RunMoves(p, es)) && UseOf(D.Exec(Fine(p), RunMoves(p, es)), x, i)
  {
    PairRefines(p, es);
    var l, fs := Fine(p), RunMoves(p, es);
    ConnectedMatches(p);
    hide *;
    if i == 0 {
      D.AllFirstAfter(l, fs);
      FirstAt(D.Exec(l, fs), x);
    } else {
      RunIsGuarded(p, l, es, x);
      D.ReusedAfter(l, fs, x);
      ProjID(D.Exec(l, fs), x);
      ReuseIs(L.Proj(D.Exec(l, fs), x), D.Exec(l, fs), i);
    }
  }

  lemma ProjID(l: L.Net, x: UInt32)
    ensures L.Proj(l, x).x == x
  {
  }

  lemma FirstAt(l: L.Net, x: UInt32)
    requires D.AllFirst(l)
    ensures UseOf(l, x, 0)
  {
    assert FirstInv(L.Proj(l, x));
    hide FirstInv, L.NetInv, L.HalfOf, UseOf;
    FirstUseIs(L.Proj(l, x), l);
  }

  /** What one session has read is a prefix of what the other has written; and all of
      it once it would be told the end. */
  predicate Read(writer: Story, wclosed: bool, reader: Story, atEnd: bool) {
    && reader.read <= Concat(writer.wrote)
    && (atEnd ==> wclosed && reader.read == Concat(writer.wrote))
  }

  /** The next Read would report the end of the stream. */
  predicate AtEnd(s: Session) {
    s.readBuf == [] && s.ReadClosed()
  }

  lemma CarriedIsRead(src: Flow, dst: Flow, x: UInt32)
    requires Sound(src, x) && Sound(dst, x) && Carries(src, dst) && Calm(src)
    ensures Read(FlowStory(src), src.s.WriteClosed(), FlowStory(dst), AtEnd(dst.s))
  {
    D.CarriedInOrder(src, dst, x);
    if AtEnd(dst.s) {
      assert dst.gotFin && dst.got == src.sent && src.s.writeOut == [];
      assert src.sent + [] == src.sent;
      assert dst.readOut == dst.readOut + dst.s.readBuf;
    }
  }

  /** The sessions and stories of use `i`, as the flows of the small steps have them. */
  lemma SideOf(p: P.Pair, es: seq<P.Event>, x: UInt32, i: nat, side: Side) returns (f: Flow)
    requires P.Connected(p) && P.CanExec(p, es) && AllProper(p, es)
    ensures D.CanExec(Fine(p), RunMoves(p, es))
    ensures var t := P.At(P.Exec(p, es), side).m.t;
            var fs := D.Sessions(D.Exec(Fine(p), RunMoves(p, es)), side, x);
            && |t.Incs(x)| == |fs|
            && (if i < |fs| then f == fs[i] && Fits(t.pending, x, i, t.Get(x, i), f) else true)
            && RunStory(p, es, side, x, i) == (if i < |fs| then FlowStory(f) else Silence)
  {
    PairRefines(p, es);
    PairTells(p, es, side, x, i);
    var q, l := P.Exec(p, es), D.Exec(Fine(p), RunMoves(p, es));
    hide P.Connected, P.CanExec, AllProper, P.Exec, D.Exec, RunMoves, Fine, RunStory, Fits, D.Connected, D.CanExec;
    MatchesAt(q, l, side);
    TableAt(P.At(q, side), L.Ep(l, side));
    hide Matches, EndMatches;
    var t, u := P.At(q, side).m.t, L.Ep(l, side).t;
    NextAt(t, u, x);
    if i < |u.Incs(x)| {
      f := u.Get(x, i);
      FitsAt(t, u, x, i);
    } else {
      f := Asked(x, 0, []);
    }
  }

  /** Delivery, for the calls themselves, in every run between two connected endpoints:
      what Read has returned on one side is a prefix of what Write has accepted on the
      other, and all of it when the next Read would report the end, which is only after
      the other side has closed. For every use of an identifier that is opened again
      only once its last session is drained, and in any case for its first use. */
  lemma PairDelivery(p: P.Pair, es: seq<P.Event>, x: UInt32, i: nat, side: Side)
    requires P.Connected(p) && P.CanExec(p, es) && AllProper(p, es)
    requires i == 0 || AllEmptied(p, es, x)
    ensures var q := P.Exec(p, es);
            var t, u := P.At(q, side).m.t, P.At(q, Peer(side)).m.t;
            var mine, theirs := RunStory(p, es, side, x, i), RunStory(p, es, Peer(side), x, i);
            && mine.read <= Concat(theirs.wrote)
            && (t.Has(x, i) && AtEnd(t.Get(x, i)) ==>
                  u.Has(x, i) && u.Get(x, i).WriteClosed() && mine.read == Concat(theirs.wrote))
  {
    hide P.Connected, P.CanExec, AllProper, P.Exec, D.Exec, RunMoves, Fine, RunStory, D.CanExec, AllEmptied;
    hide Fits, UseOf, Concat, FlowStory, AtEnd;
    UsesAfter(p, es, x, i);
    var f := SideOf(p, es, x, i, side);
    var g := SideOf(p, es, x, i, Peer(side));
    var t, u := P.At(P.Exec(p, es), side).m.t, P.At(P.Exec(p, es), Peer(side)).m.t;
    if t.Has(x, i) {
      FitsMeans(t.pending, x, i, t.Get(x, i), f);
      UseMeans(D.Exec(Fine(p), RunMoves(p, es)), x, i, side);
      if u.Has(x, i) {
        FitsMeans(u.pending, x, i, u.Get(x, i), g);
        CarriedIsRead(g, f, x);
      }
    }
  }

  lemma FitsMeans(pending: map<UInt32, nat>, x: UInt32, i: nat, s: Session, f: Flow)
    requires Fits(pending, x, i, s, f)
    ensures Calm(f) && AtEnd(s) == AtEnd(f.s) && s.WriteClosed() == f.s.WriteClosed()
  {
  }

  lemma UseMeans(l: L.Net, x: UInt32, i: nat, side: Side)
    requires UseOf(l, x, i) && i < |D.Sessions(l, side, x)|
    ensures var fs, gs := D.Sessions(l, side, x), D.Sessions(l, Peer(side), x);
            if i < |gs| then Sound(fs[i], x) && Sound(gs[i], x) && Carries(gs[i], fs[i])
            else FlowStory(fs[i]).read == [] && !AtEnd(fs[i].s)
  {
    hide Carries, Sound;
  }

  /** The open handshake, for the calls themselves: the session that a peer accepts holds
      the payload given to the open call of the same use, and once that call has its
      answer the peer has accepted. */
  lemma PairHandshake(p: P.Pair, es: seq<P.Event>, x: UInt32, i: nat)
    requires P.Connected(p) && P.CanExec(p, es) && AllProper(p, es)
    requires i == 0 || AllEmptied(p, es, x)
    ensures var q := P.Exec(p, es);
            var t, u := P.At(q, L.OwnerOf(x)).m.t, P.At(q, Peer(L.OwnerOf(x))).m.t;
            && (u.Has(x, i) ==> t.Has(x, i) && u.Get(x, i).payload == RunStory(p, es, L.OwnerOf(x), x, i).asked)
            && (t.Has(x, i) && !Waiting(t, x, i) ==> u.Has(x, i))
  {
    UsesAfter(p, es, x, i);
    var f := SideOf(p, es, x, i, L.OwnerOf(x));
    var g := SideOf(p, es, x, i, Peer(L.OwnerOf(x)));
    hide P.Connected, P.CanExec, AllProper, P.Exec, D.Exec, RunMoves, Fine, RunStory, D.CanExec, AllEmptied;
    hide Carries, Calm;
  }
}
