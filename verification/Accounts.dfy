/** What one endpoint does for its callers over whole runs in which the peer may send any
    frames at all, streams may be reset and opens cancelled: every byte that arrives for
    a session is read from it once and in order, and an open call waits for its answer.
 */
module Accounts {
  import opened Frames
  import opened Streams
  import opened Mux

  // -------------------------------------------------------------- reading

  /** The payload that a call hands to session `n` of `id`: that of a data frame handled
      while the session is the entry of the table. */
  function Arrived(m: State, c: Call, id: UInt32, n: nat): Bytes {
    if c.Handling? && c.f.command == CMD_STREAM_DATA && c.f.streamID == id && id in m.t.live && m.t.live[id] == n
    then c.f.payload else []
  }

  /** The bytes that a Read of up to `k` bytes returns. */
  ghost function Returned(m: State, c: Call, id: UInt32, n: nat): Bytes
    requires CanCall(m, c)
  {
    if c.Reading? && c.id == id && c.n == n then
      var buf := m.t.Get(id, n).readBuf;
      buf[..if c.k < |buf| then c.k else |buf|]
    else []
  }

  ghost function ArrivedIn(m: State, cs: seq<Call>, id: UInt32, n: nat): Bytes
    requires CanRun(m, cs)
    decreases cs
  {
    if cs == [] then [] else Arrived(m, cs[0], id, n) + ArrivedIn(Do(m, cs[0]), cs[1..], id, n)
  }

  ghost function ReturnedIn(m: State, cs: seq<Call>, id: UInt32, n: nat): Bytes
    requires CanRun(m, cs)
    decreases cs
  {
    if cs == [] then [] else Returned(m, cs[0], id, n) + ReturnedIn(Do(m, cs[0]), cs[1..], id, n)
  }

  /** The credit that a WINDOW_UPDATE for the session carries. */
  function Credited(m: State, c: Call, id: UInt32, n: nat): int {
    if c.Handling? && c.f.command == CMD_WINDOW_UPDATE && c.f.streamID == id && id != 0 && |c.f.payload| >= 4
       && id in m.t.live && m.t.live[id] == n
    then ToInt32(GetUint32(c.f.payload[..4])) else 0
  }

  ghost function CreditedIn(m: State, cs: seq<Call>, id: UInt32, n: nat): int
    requires CanRun(m, cs)
    decreases cs
  {
    if cs == [] then 0 else Credited(m, cs[0], id, n) + CreditedIn(Do(m, cs[0]), cs[1..], id, n)
  }

  /** The account of one step. */
  ghost predicate Balanced(m: State, c: Call, id: UInt32, n: nat)
    requires CanCall(m, c) && m.t.Has(id, n)
  {
    var m' := Do(m, c);
    && m'.t.Has(id, n)
    && (m.t.Get(id, n).state.Reset? ==> m'.t.Get(id, n).state.Reset?)
    && (!m'.t.Get(id, n).state.Reset? ==>
          m.t.Get(id, n).readBuf + Arrived(m, c, id, n) == Returned(m, c, id, n) + m'.t.Get(id, n).readBuf)
    && m'.t.Get(id, n).recvWindow == m.t.Get(id, n).recvWindow - |Arrived(m, c, id, n)| + Credited(m, c, id, n)
  }

  /** Nothing was added to the buffer or taken from it, unless the session was reset, and
      the window is as it was. */
  predicate SameBuffer(m: State, m': State, id: UInt32, n: nat)
    requires m.t.Has(id, n)
  {
    && m'.t.Has(id, n)
    && (m.t.Get(id, n).state.Reset? ==> m'.t.Get(id, n).state.Reset?)
    && (!m'.t.Get(id, n).state.Reset? ==> m'.t.Get(id, n).readBuf == m.t.Get(id, n).readBuf)
    && m'.t.Get(id, n).recvWindow == m.t.Get(id, n).recvWindow
  }

  lemma SameIsBalanced(m: State, c: Call, id: UInt32, n: nat)
    requires CanCall(m, c) && m.t.Has(id, n) && SameBuffer(m, Do(m, c), id, n)
    requires Arrived(m, c, id, n) == [] && Returned(m, c, id, n) == [] && Credited(m, c, id, n) == 0
    ensures Balanced(m, c, id, n)
  {
    var buf := m.t.Get(id, n).readBuf;
    assert buf + [] == buf && [] + buf == buf;
  }

  lemma PutBuffer(m: State, i: UInt32, k: nat, s: Session, id: UInt32, n: nat)
    requires m.t.Has(id, n) && m.t.Has(i, k) && (s.state.Reset? || s.readBuf == m.t.Get(i, k).readBuf)
    requires (m.t.Get(i, k).state.Reset? ==> s.state.Reset?) && s.recvWindow == m.t.Get(i, k).recvWindow
    ensures SameBuffer(m, m.(t := m.t.Put(i, k, s)), id, n)
  {
  }

  lemma DrainBuffer(m: State, c: Call, id: UInt32, n: nat)
    requires CanCall(m, c) && m.t.Has(id, n) && (c.Writing? || c.Draining? || c.Ending?)
    ensures SameBuffer(m, Do(m, c), id, n)
  {
    var s := m.t.Get(c.id, c.n);
    match c {
      case Writing(i, k, chunk) => PutBuffer(m, i, k, s.(writeOut := s.writeOut + [chunk]), id, n);
      case Draining(i, k) =>
        if s.writeOut != [] {
          PutBuffer(m, i, k, s.(writeOut := s.writeOut[1..]), id, n);
        }
      case Ending(i, k) =>
        EndDrainIs(m, i, k);
        hide EndDrain;
        PutBuffer(m, i, k, s.(writeOut := [], finCh := s.finCh - 1), id, n);
    }
  }

  lemma EndBuffer(m: State, c: Call, id: UInt32, n: nat)
    requires CanCall(m, c) && m.t.Has(id, n) && (c.Closing? || c.Resetting?)
    ensures SameBuffer(m, Do(m, c), id, n)
  {
    var s := m.t.Get(c.id, c.n);
    match c {
      case Closing(i, k) => PutBuffer(m, i, k, s.LocalClose().(finCh := s.finCh + 1), id, n);
      case Resetting(i, k, _) => PutBuffer(m, i, k, s.ResetNow(), id, n);
    }
  }

  lemma OtherBuffer(m: State, c: Call, id: UInt32, n: nat)
    requires CanCall(m, c) && m.t.Has(id, n) && (c.Opening? || c.Cancelling? || c.GoingAway? || c.Sending?)
    ensures SameBuffer(m, Do(m, c), id, n)
  {
  }

  lemma ReadBalanced(m: State, c: Call, id: UInt32, n: nat)
    requires CanCall(m, c) && m.t.Has(id, n) && c.Reading?
    ensures Balanced(m, c, id, n)
  {
    var buf := m.t.Get(id, n).readBuf;
    if c.id == id && c.n == n {
      var k := if c.k < |buf| then c.k else |buf|;
      assert buf[..k] + buf[k..] == buf + [];
    } else {
      assert buf + [] == [] + buf;
    }
  }

  lemma CallBalanced(m: State, c: Call, id: UInt32, n: nat)
    requires CanCall(m, c) && m.t.Has(id, n) && !c.Handling?
    ensures Balanced(m, c, id, n)
  {
    hide CanCall, Do, SameBuffer, Balanced;
    if c.Reading? {
      ReadBalanced(m, c, id, n);
    } else {
      if c.Writing? || c.Draining? || c.Ending? {
        DrainBuffer(m, c, id, n);
      } else if c.Closing? || c.Resetting? {
        EndBuffer(m, c, id, n);
      } else {
        OtherBuffer(m, c, id, n);
      }
      SameIsBalanced(m, c, id, n);
    }
  }

  lemma CloseBuffer(m: State, i: UInt32, id: UInt32, n: nat)
    requires m.t.Has(id, n)
    ensures SameBuffer(m, HandleClose(m, i), id, n)
  {
    if Found(m, i) {
      PutBuffer(m, i, m.t.live[i], GetLive(m, i).RemoteClose(), id, n);
    }
  }

  lemma DataBalanced(m: State, f: Frame, id: UInt32, n: nat)
    requires m.t.Has(id, n) && f.command == CMD_STREAM_DATA
    ensures Balanced(m, Handling(f), id, n)
  {
    var i, buf := f.streamID, m.t.Get(id, n).readBuf;
    assert buf + [] == buf && [] + buf == buf && [] + (buf + f.payload) == buf + f.payload;
    if Found(m, i) {
      var m1 := if f.payload == [] then m else PutLive(m, i, GetLive(m, i).Deliver(f.payload));
      assert m1.t.Has(id, n) && m1.t.Get(id, n).readBuf == buf + Arrived(m, Handling(f), id, n);
      CloseBuffer(m1, i, id, n);
      hide HandleClose;
    }
  }

  lemma ResetBuffer(m: State, f: Frame, id: UInt32, n: nat)
    requires m.t.Has(id, n)
    ensures SameBuffer(m, HandleReset(m, f), id, n)
  {
    if Found(m, f.streamID) {
      PutBuffer(m, f.streamID, m.t.live[f.streamID], GetLive(m, f.streamID).ResetNow(), id, n);
    }
  }

  lemma WindowBalanced(m: State, f: Frame, id: UInt32, n: nat)
    requires m.t.Has(id, n) && f.command == CMD_WINDOW_UPDATE
    ensures Balanced(m, Handling(f), id, n)
  {
    hide GetUint32, ToInt32;
    var buf := m.t.Get(id, n).readBuf;
    assert buf + [] == buf && [] + buf == buf;
  }

  lemma AcceptBuffer(m: State, f: Frame, id: UInt32, n: nat)
    requires m.t.Has(id, n)
    ensures SameBuffer(m, HandleOpen(m, f), id, n)
  {
  }

  lemma HandleBalanced(m: State, f: Frame, id: UInt32, n: nat)
    requires m.t.Has(id, n)
    ensures Balanced(m, Handling(f), id, n)
  {
    if f.command == CMD_STREAM_DATA {
      DataBalanced(m, f, id, n);
    } else if f.command == CMD_WINDOW_UPDATE {
      WindowBalanced(m, f, id, n);
    } else {
      hide HandleOpen, HandleClose, HandleReset;
      AcceptBuffer(m, f, id, n);
      CloseBuffer(m, f.streamID, id, n);
      ResetBuffer(m, f, id, n);
      hide Balanced;
      SameIsBalanced(m, Handling(f), id, n);
    }
  }

  /** In every run, whatever the peer sends: what was buffered and what has arrived since is
      what Read has returned and what is still buffered, unless the session was reset; and
      the receive window has lost what arrived and gained the credits. */
  lemma {:induction false} ReadAccount(m: State, cs: seq<Call>, id: UInt32, n: nat)
    requires CanRun(m, cs) && m.t.Has(id, n)
    ensures Run(m, cs).t.Has(id, n)
    ensures m.t.Get(id, n).state.Reset? ==> Run(m, cs).t.Get(id, n).state.Reset?
    ensures !Run(m, cs).t.Get(id, n).state.Reset? ==>
              m.t.Get(id, n).readBuf + ArrivedIn(m, cs, id, n) ==
              ReturnedIn(m, cs, id, n) + Run(m, cs).t.Get(id, n).readBuf
    ensures Run(m, cs).t.Get(id, n).recvWindow ==
              m.t.Get(id, n).recvWindow - |ArrivedIn(m, cs, id, n)| + CreditedIn(m, cs, id, n)
    decreases |cs|
  {
    hide CanCall, Do, Arrived, Returned, Credited;
    if cs != [] {
      var c, m1 := cs[0], Do(m, cs[0]);
      if c.Handling? {
        HandleBalanced(m, c.f, id, n);
      } else {
        CallBalanced(m, c, id, n);
      }
      ReadAccount(m1, cs[1..], id, n);
      if !Run(m, cs).t.Get(id, n).state.Reset? {
        var a, b := Arrived(m, c, id, n), ArrivedIn(m1, cs[1..], id, n);
        var r, s := Returned(m, c, id, n), ReturnedIn(m1, cs[1..], id, n);
        var buf, buf1, end := m.t.Get(id, n).readBuf, m1.t.Get(id, n).readBuf, Run(m, cs).t.Get(id, n).readBuf;
        assert buf + (a + b) == (buf + a) + b == (r + buf1) + b == r + (buf1 + b);
        assert r + (s + end) == (r + s) + end;
      }
    }
  }

  // -------------------------------------------------------------- opening

  predicate GoesAway(c: Call) {
    c.GoingAway? || (c.Handling? && c.f.command == CMD_GO_AWAY)
  }

  lemma AwayStep(m: State, c: Call)
    requires CanCall(m, c)
    ensures Do(m, c).t.goingAway <==> m.t.goingAway || GoesAway(c)
  {
    if c.Handling? {
      hide GetUint32, ToInt32;
    }
    if c.Ending? {
      EndDrainIs(m, c.id, c.n);
      hide EndDrain;
    }
  }

  /** Streams can be opened until one end goes away, as far as the flag decides: never again
      once GO_AWAY was sent or handled, and freely before. */
  lemma {:induction false} AwayForGood(m: State, cs: seq<Call>)
    requires CanRun(m, cs)
    ensures Run(m, cs).t.goingAway <==> m.t.goingAway || exists i :: 0 <= i < |cs| && GoesAway(cs[i])
    ensures Run(m, cs).t.goingAway ==> !Run(m, cs).t.CanOpen()
    decreases |cs|
  {
    hide CanCall, Do;
    if cs != [] {
      AwayStep(m, cs[0]);
      var m1 := Do(m, cs[0]);
      AwayForGood(m1, cs[1..]);
      if exists i :: 0 <= i < |cs| && GoesAway(cs[i]) {
        var i :| 0 <= i < |cs| && GoesAway(cs[i]);
        if i > 0 {
          assert cs[1..][i - 1] == cs[i];
        }
      }
    }
  }

  /** The call ends the wait for the answer to the open of `id`. */
  predicate EndsWait(c: Call, id: UInt32) {
    || (c.Handling? && c.f.Acks() && c.f.streamID == id)
    || c == Cancelling(id)
  }

  lemma HandleWaits(m: State, f: Frame, id: UInt32)
    ensures id in Handle(m, f).t.pending <==> id in m.t.pending && !(f.Acks() && f.streamID == id)
  {
    hide GetUint32, ToInt32, ResetStream;
    if f.command == CMD_STREAM_RESET {
      ResetWaits(m, f);
      hide HandleReset;
    }
  }

  lemma ResetWaits(m: State, f: Frame)
    ensures HandleReset(m, f).t.pending == m.t.pending
  {
  }

  lemma WaitStep(m: State, c: Call, id: UInt32)
    requires CanCall(m, c)
    ensures id in Do(m, c).t.pending <==>
              !EndsWait(c, id) && (id in m.t.pending || (c.Opening? && m.t.NextID() == id))
  {
    hide Handle, EndDrain;
    if c.Handling? {
      HandleWaits(m, c.f, id);
    }
    if c.Ending? {
      EndDrainIs(m, c.id, c.n);
    }
  }

  /** Whether an open call for `id` waits after the run: one was made, and nothing since has
      answered or cancelled it. */
  ghost predicate StillWaits(m: State, cs: seq<Call>, id: UInt32, waits: bool)
    requires CanRun(m, cs)
    decreases cs
  {
    if cs == [] then waits else
    var c := cs[0];
    StillWaits(Do(m, c), cs[1..], id, !EndsWait(c, id) && (waits || (c.Opening? && m.t.NextID() == id)))
  }

  /** In every run an open call waits exactly until its answer is handled or its caller
      gives up. */
  lemma {:induction false} WaitsUntilAnswered(m: State, cs: seq<Call>, id: UInt32)
    requires CanRun(m, cs)
    ensures id in Run(m, cs).t.pending <==> StillWaits(m, cs, id, id in m.t.pending)
    decreases |cs|
  {
    hide CanCall, Do, EndsWait;
    if cs != [] {
      WaitStep(m, cs[0], id);
      WaitsUntilAnswered(Do(m, cs[0]), cs[1..], id);
    }
  }

  // ---------------------------------------------------- words in the frames

  /** A reset by the caller tells the peer its code, empties the session and frees its
      identifier; on a session that has ended it does nothing. */
  lemma ResetSends(m: State, id: UInt32, n: nat, code: UInt32)
    requires Inv(m) && m.t.Has(id, n)
    ensures var s, m' := m.t.Get(id, n), Do(m, Resetting(id, n, code));
            if s.Terminal() then m' == m else
            && m'.control == m.control + [ResetFrame(id, code)] && m'.data == m.data
            && m'.t.live == m.t.live - {id} && (m.t.Owns(id) ==> id in m'.t.free)
            && m'.t.Get(id, n).state.Reset? && m'.t.Get(id, n).readBuf == []
  {
    SessionAt(m, id, n);
    hide Inv;
  }

  /** A reset that the peer sends with an error code is answered with the same code. */
  lemma ResetEchoes(m: State, id: UInt32, code: UInt32)
    requires Inv(m) && id in m.t.live
    ensures var m' := Handle(m, ResetFrame(id, code));
            && m'.control == m.control + [ResetFrame(id, code)] && m'.data == m.data
            && id !in m'.t.live && m'.t.Get(id, m.t.live[id]).state.Reset?
  {
    LiveAt(m, id);
    hide Inv;
    GetPutUint32(code);
    assert ResetFrame(id, code).payload[..4] == PutUint32(code);
  }

  /** GO_AWAY names the last stream first and the reason second. */
  lemma GoAwayWords(lastID: UInt32, code: UInt32)
    ensures var words := GoAwayFrame(lastID, code).payload;
            |words| == 8 && GetUint32(words[..4]) == lastID && GetUint32(words[4..]) == code
  {
    var words := GoAwayFrame(lastID, code).payload;
    assert words[..4] == PutUint32(lastID) && words[4..] == PutUint32(code);
    GetPutUint32(lastID);
    GetPutUint32(code);
  }
}
