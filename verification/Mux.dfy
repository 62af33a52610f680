/** One endpoint at the grain of whole public calls and whole frame handlers, with
    their callbacks: what each of them does to the stream table and to the two lanes
    of the write queue, and what holds in every state it can reach.
 */
module Mux {
  import opened Frames
  import opened Streams
  import opened StreamTable

  /** `resets` counts the STREAM_RESET frames sent by the onReset callback and
      `installs` the sessions put in the table; both are history. */
  datatype State = State(
    t: Table<Session>,
    window: int,
    control: seq<Frame>,
    data: seq<Frame>,
    resets: nat,
    installs: nat)

  function NewState(start: UInt32, max: nat, window: int): State {
    State(EmptyTable(start, max), window, [], [], 0, 0)
  }

  function InstallSession(m: State, s: Session): State {
    m.(t := m.t.Install(s.id, s), installs := m.installs + 1)
  }

  function OpenStream(m: State, payload: Bytes): State {
    var id := m.t.NextID();
    var m1 := InstallSession(m.(t := m.t.Allocate()), OpenSession(id, m.window, []));
    m1.(t := m1.t.(pending := m1.t.pending[id := |m.t.Incs(id)|]),
        data := m.data + [OpenFrame(id, payload)])
  }

  /** The caller's context ends while it waits for the answer. */
  function CancelOpen(m: State, id: UInt32): State {
    var m1 := m.(t := m.t.(pending := m.t.pending - {id}));
    if id in m1.t.live && m1.t.Has(id, m1.t.live[id]) then
      var n := m1.t.live[id];
      m1.(t := m1.t.Drop(id).Put(id, n, m1.t.Get(id, n).ResetNow()))
    else m1
  }

  /** maybeRemoveStream: no check that the entry is there. */
  function MaybeRemove(m: State, id: UInt32, s: Session): State {
    if s.Terminal() then m.(t := m.t.Drop(id)) else m
  }

  function CloseStream(m: State, id: UInt32, n: nat): State
    requires m.t.Has(id, n)
  {
    var s := m.t.Get(id, n);
    if s.Closable() then
      var s' := s.LocalClose().(finCh := s.finCh + 1);
      MaybeRemove(m.(t := m.t.Put(id, n, s')), id, s')
    else m
  }

  /** Reset of a session, from either end, and its onReset callback. */
  function ResetStream(m: State, id: UInt32, n: nat, code: UInt32): State
    requires m.t.Has(id, n)
  {
    var s := m.t.Get(id, n);
    if s.Terminal() then m else
    var m1 := m.(t := m.t.Put(id, n, s.ResetNow()));
    if id in m1.t.live then
      m1.(t := m1.t.Drop(id), control := m1.control + [ResetFrame(id, code)], resets := m1.resets + 1)
    else m1
  }

  function WriteStream(m: State, id: UInt32, n: nat, chunk: Bytes): State
    requires m.t.Has(id, n)
  {
    var s := m.t.Get(id, n);
    if s.WriteClosed() || |s.writeOut| >= WRITE_OUT_CAPACITY then m
    else m.(t := m.t.Put(id, n, s.(writeOut := s.writeOut + [chunk])))
  }

  /** Read of up to `k` bytes. */
  function ReadStream(m: State, id: UInt32, n: nat, k: nat): State
    requires m.t.Has(id, n)
  {
    var s := m.t.Get(id, n);
    m.(t := m.t.Put(id, n, s.(readBuf := s.readBuf[if k < |s.readBuf| then k else |s.readBuf|..])))
  }

  /** The data arm of the drain loop: one buffered chunk, if there is one. */
  function DrainChunk(m: State, id: UInt32, n: nat): State
    requires m.t.Has(id, n)
  {
    var s := m.t.Get(id, n);
    if s.writeOut == [] then m else
    m.(t := m.t.Put(id, n, s.(writeOut := s.writeOut[1..])),
       data := m.data + [DataFrame(s.id, s.writeOut[0])])
  }

  /** flushAndFIN: what is still buffered, and then the closing frame. */
  function Flush(m: State, id: UInt32, n: nat): State
    requires m.t.Has(id, n)
  {
    var s := m.t.Get(id, n);
    m.(t := m.t.Put(id, n, s.(writeOut := [])),
       data := m.data + DataFrames(s.id, s.writeOut) + [CloseFrame(s.id)])
  }

  /** The end of the drain loop: the token of Close is taken first. */
  function EndDrain(m: State, id: UInt32, n: nat): State
    requires m.t.Has(id, n) && m.t.Get(id, n).finCh > 0
  {
    var s := m.t.Get(id, n);
    Flush(m.(t := m.t.Put(id, n, s.(finCh := s.finCh - 1))), id, n)
  }

  // ---------------------------------------------------------- frame handlers

  predicate Found(m: State, id: UInt32) {
    id in m.t.live && m.t.Has(id, m.t.live[id])
  }

  function PutLive(m: State, id: UInt32, s: Session): State
    requires Found(m, id)
  {
    m.(t := m.t.Put(id, m.t.live[id], s))
  }

  function GetLive(m: State, id: UInt32): Session
    requires Found(m, id)
  {
    m.t.Get(id, m.t.live[id])
  }

  function HandleAck(m: State, id: UInt32): State {
    m.(t := m.t.(pending := m.t.pending - {id}))
  }

  function HandleOpen(m: State, f: Frame): State {
    var id := f.streamID;
    if id in m.t.live then m
    else if m.t.Owns(id) then m.(control := m.control + [ResetFrame(id, RESET_CODE_PROTOCOL_ERROR)])
    else
      var m1 := InstallSession(m, OpenSession(id, m.window, f.payload));
      m1.(data := m1.data + [AckFrame(id)])
  }

  function HandleClose(m: State, id: UInt32): State {
    if !Found(m, id) then m else
    var s := GetLive(m, id).RemoteClose();
    MaybeRemove(PutLive(m, id, s), id, s)
  }

  function HandleData(m: State, f: Frame): State {
    var id := f.streamID;
    if !Found(m, id) then m else
    var m1 := if f.payload == [] then m else PutLive(m, id, GetLive(m, id).Deliver(f.payload));
    if f.Fin() then HandleClose(m1, id) else m1
  }

  function ResetCode(f: Frame): UInt32 {
    if |f.payload| >= 4 then GetUint32(f.payload[..4]) else 0
  }

  function HandleReset(m: State, f: Frame): State {
    var id := f.streamID;
    if !Found(m, id) then m else
    var m1 := ResetStream(m, id, m.t.live[id], ResetCode(f));
    if id in m1.t.live then m1.(t := m1.t.Drop(id)) else m1
  }

  function HandleWindowUpdate(m: State, f: Frame): State {
    if |f.payload| < 4 || f.streamID == 0 || !Found(m, f.streamID) then m else
    var s := GetLive(m, f.streamID);
    PutLive(m, f.streamID, s.(recvWindow := s.recvWindow + ToInt32(GetUint32(f.payload[..4]))))
  }

  /** handleFrame, for any frame at all. */
  function Handle(m: State, f: Frame): State {
    if f.Acks() then HandleAck(m, f.streamID)
    else if f.Opens() then HandleOpen(m, f)
    else if f.command == CMD_STREAM_DATA then HandleData(m, f)
    else if f.command == CMD_STREAM_CLOSE then HandleClose(m, f.streamID)
    else if f.command == CMD_STREAM_RESET then HandleReset(m, f)
    else if f.command == CMD_PING then m.(control := m.control + [PongFrame(f.payload)])
    else if f.command == CMD_WINDOW_UPDATE then HandleWindowUpdate(m, f)
    else if f.command == CMD_GO_AWAY then m.(t := m.t.(goingAway := true))
    else m
  }

  // ------------------------------------------------------------ the invariant

  /** Session and table agree: every entry is open at least one way, and every
      session that has not ended is the entry under its own identifier. */
  ghost predicate Agreement(m: State) {
    && (forall id :: id in m.t.live ==> m.t.Has(id, m.t.live[id]) && !m.t.Get(id, m.t.live[id]).Terminal())
    && (forall id: UInt32, n: nat {:trigger m.t.Get(id, n)} :: m.t.Has(id, n) ==>
          && SessionInv(m.t.Get(id, n))
          && m.t.Get(id, n).id == id
          && (!m.t.Get(id, n).Terminal() ==> id in m.t.live && m.t.live[id] == n))
  }

  ghost predicate Inv(m: State) {
    && Conserved(m.t) && HighWater(m.t)
    && Agreement(m)
    && m.resets + |m.t.live| <= m.installs
  }

  lemma DropCount(live: map<UInt32, nat>, id: UInt32)
    requires id in live
    ensures |live - {id}| == |live| - 1
  {
    assert (live - {id}).Keys == live.Keys - {id};
  }

  lemma AddCount(live: map<UInt32, nat>, id: UInt32, n: nat)
    ensures |live[id := n]| == |live| + if id in live then 0 else 1
  {
    assert live[id := n].Keys == live.Keys + {id};
  }

  /** The identifiers do not depend on the sessions. */
  lemma SameIDs(t: Table<Session>, t': Table<Session>)
    requires Conserved(t) && HighWater(t)
    requires t'.start == t.start && t'.max == t.max && t'.next == t.next && t'.free == t.free && t'.live == t.live
    ensures Conserved(t') && HighWater(t')
  {
  }

  /** What the invariant says of one session. */
  lemma SessionAt(m: State, id: UInt32, n: nat)
    requires Inv(m) && m.t.Has(id, n)
    ensures SessionInv(m.t.Get(id, n)) && m.t.Get(id, n).id == id
    ensures !m.t.Get(id, n).Terminal() <==> id in m.t.live && m.t.live[id] == n
  {
  }

  lemma LiveAt(m: State, id: UInt32)
    requires Inv(m) && id in m.t.live
    ensures Found(m, id) && !GetLive(m, id).Terminal() && SessionInv(GetLive(m, id)) && GetLive(m, id).id == id
  {
    var _ := m.t.Get(id, m.t.live[id]);
  }

  lemma PutAgrees(m: State, m': State, id: UInt32, n: nat, s: Session)
    requires Agreement(m) && m.t.Has(id, n) && SessionInv(s) && s.id == id
    requires s.Terminal() == m.t.Get(id, n).Terminal()
    requires m'.t.incs == m.t.Put(id, n, s).incs && m'.t.live == m.t.live
    ensures Agreement(m')
  {
    hide SessionInv;
    forall i: UInt32, k: nat | m'.t.Has(i, k)
      ensures m.t.Has(i, k) && m'.t.Get(i, k) == if i == id && k == n then s else m.t.Get(i, k)
    {
    }
  }

  /** A session of the table is replaced by a later state of the same stream that is
      still going, or that had ended before. */
  lemma PutKeeps(m: State, id: UInt32, n: nat, s: Session)
    requires Inv(m) && m.t.Has(id, n) && SessionInv(s) && s.id == id
    requires s.Terminal() == m.t.Get(id, n).Terminal()
    ensures Inv(m.(t := m.t.Put(id, n, s)))
  {
    hide Conserved, HighWater, SessionInv, Agreement;
    SameIDs(m.t, m.t.Put(id, n, s));
    PutAgrees(m, m.(t := m.t.Put(id, n, s)), id, n, s);
  }

  lemma EndAgrees(m: State, m': State, id: UInt32, n: nat, s: Session)
    requires Agreement(m) && m.t.Has(id, n) && !m.t.Get(id, n).Terminal()
    requires SessionInv(s) && s.id == id && s.Terminal()
    requires m'.t.incs == m.t.Put(id, n, s).incs && m'.t.live == m.t.live - {id}
    ensures Agreement(m')
  {
    hide SessionInv;
    forall i: UInt32, k: nat | m'.t.Has(i, k)
      ensures m.t.Has(i, k) && m'.t.Get(i, k) == if i == id && k == n then s else m.t.Get(i, k)
    {
    }
  }

  /** The live session of `id` ends and leaves the table. */
  lemma EndKeeps(m: State, id: UInt32, n: nat, s: Session, m': State)
    requires Inv(m) && m.t.Has(id, n) && !m.t.Get(id, n).Terminal()
    requires SessionInv(s) && s.id == id && s.Terminal()
    requires m'.t == m.t.Put(id, n, s).Drop(id).(pending := m'.t.pending)
    requires m'.resets <= m.resets + 1 && m'.installs == m.installs
    ensures Inv(m')
    ensures |m'.t.live| == |m.t.live| - 1
  {
    EndAgrees(m, m', id, n, s);
    SessionAt(m, id, n);
    SameIDs(m.t, m.t.Put(id, n, s));
    hide Agreement, Conserved;
    DropKeepsConserved(m.t.Put(id, n, s), id);
    SameIDs(m.t.Put(id, n, s).Drop(id), m'.t);
    DropCount(m.t.live, id);
  }

  lemma InstallAgrees(m: State, m': State, s: Session)
    requires Agreement(m) && s.id !in m.t.live && SessionInv(s) && !s.Terminal()
    requires m'.t.incs == m.t.Install(s.id, s).incs && m'.t.live == m.t.Install(s.id, s).live
    ensures Agreement(m')
  {
    hide SessionInv;
    var id, n := s.id, |m.t.Incs(s.id)|;
    forall i: UInt32, k: nat | m'.t.Has(i, k)
      ensures m'.t.Get(i, k) == if i == id && k == n then s else m.t.Get(i, k)
      ensures m.t.Has(i, k) || (i == id && k == n)
    {
    }
  }

  lemma OpenKeeps(m: State, payload: Bytes)
    requires Inv(m) && m.t.CanOpen()
    ensures Inv(OpenStream(m, payload))
    ensures m.t.NextID() !in m.t.live
  {
    var id := m.t.NextID();
    var s := OpenSession(id, m.window, []);
    var m' := OpenStream(m, payload);
    hide Agreement, Conserved;
    OpenKeepsConserved(m.t, s);
    SameIDs(m.t.Allocate().Install(id, s), m'.t);
    AddCount(m.t.live, id, |m.t.Incs(id)|);
    InstallAgrees(m, m', s);
  }

  lemma AcceptKeeps(m: State, f: Frame)
    requires Inv(m)
    ensures Inv(HandleOpen(m, f))
  {
    var id := f.streamID;
    hide Agreement, Conserved;
    if id in m.t.live {
    } else if m.t.Owns(id) {
      RelabelKeeps(m, HandleOpen(m, f));
    } else {
      var s := OpenSession(id, m.window, f.payload);
      PeerInstallKeepsConserved(m.t, id, s);
      AddCount(m.t.live, id, |m.t.Incs(id)|);
      InstallAgrees(m, HandleOpen(m, f), s);
    }
  }

  /** The lanes, the pending opens and the going-away flag are free. */
  lemma RelabelKeeps(m: State, m': State)
    requires Inv(m)
    requires m'.t == m.t.(pending := m'.t.pending, goingAway := m'.t.goingAway)
    requires m'.resets == m.resets && m'.installs == m.installs
    ensures Inv(m')
  {
    SameIDs(m.t, m'.t);
    hide Conserved, SessionInv;
    forall i: UInt32, k: nat | m'.t.Has(i, k) ensures m.t.Has(i, k) && m'.t.Get(i, k) == m.t.Get(i, k) {
    }
  }

  lemma CancelKeeps(m: State, id: UInt32)
    requires Inv(m)
    ensures Inv(CancelOpen(m, id))
  {
    hide Inv;
    if id in m.t.live {
      LiveAt(m, id);
      var n := m.t.live[id];
      EndKeeps(m, id, n, GetLive(m, id).ResetNow(), CancelOpen(m, id));
    } else {
      RelabelKeeps(m, CancelOpen(m, id));
    }
  }

  lemma CloseKeeps(m: State, id: UInt32, n: nat)
    requires Inv(m) && m.t.Has(id, n)
    ensures Inv(CloseStream(m, id, n))
  {
    hide Inv;
    SessionAt(m, id, n);
    var s := m.t.Get(id, n);
    if s.Closable() {
      var s' := s.LocalClose().(finCh := s.finCh + 1);
      if s'.Terminal() {
        EndKeeps(m, id, n, s', CloseStream(m, id, n));
      } else {
        PutKeeps(m, id, n, s');
      }
    }
  }

  lemma ResetKeeps(m: State, id: UInt32, n: nat, code: UInt32)
    requires Inv(m) && m.t.Has(id, n)
    ensures Inv(ResetStream(m, id, n, code))
    ensures var m' := ResetStream(m, id, n, code);
            m'.resets - m.resets == |m.t.live| - |m'.t.live| == |m'.control| - |m.control|
    ensures !m.t.Get(id, n).Terminal() ==> ResetStream(m, id, n, code).t.live == m.t.live - {id}
  {
    hide Inv;
    SessionAt(m, id, n);
    var s := m.t.Get(id, n);
    if !s.Terminal() {
      EndKeeps(m, id, n, s.ResetNow(), ResetStream(m, id, n, code));
    }
  }

  lemma HandleCloseKeeps(m: State, id: UInt32)
    requires Inv(m)
    ensures Inv(HandleClose(m, id))
  {
    hide Inv;
    if Found(m, id) {
      LiveAt(m, id);
      var s := GetLive(m, id).RemoteClose();
      if s.Terminal() {
        EndKeeps(m, id, m.t.live[id], s, HandleClose(m, id));
      } else {
        PutKeeps(m, id, m.t.live[id], s);
      }
    }
  }

  lemma HandleDataKeeps(m: State, f: Frame)
    requires Inv(m)
    ensures Inv(HandleData(m, f))
  {
    hide Inv;
    var id := f.streamID;
    if Found(m, id) {
      LiveAt(m, id);
      PutKeeps(m, id, m.t.live[id], GetLive(m, id).Deliver(f.payload));
      var m1 := if f.payload == [] then m else PutLive(m, id, GetLive(m, id).Deliver(f.payload));
      HandleCloseKeeps(m1, id);
    }
  }

  /** A remote reset is answered with a reset, and costs one entry of the table. */
  lemma HandleResetKeeps(m: State, f: Frame)
    requires Inv(m)
    ensures Inv(HandleReset(m, f))
    ensures var m' := HandleReset(m, f);
            && m'.resets - m.resets == |m.t.live| - |m'.t.live| == |m'.control| - |m.control|
            && |m'.t.live| == |m.t.live| - (if f.streamID in m.t.live then 1 else 0)
  {
    hide Inv;
    var id := f.streamID;
    if Found(m, id) {
      LiveAt(m, id);
      ResetKeeps(m, id, m.t.live[id], ResetCode(f));
      DropCount(m.t.live, id);
    } else if id in m.t.live {
      LiveAt(m, id);
    }
  }

  /** Every frame handler, for any frame a peer may send, keeps the invariant. */
  lemma HandleKeeps(m: State, f: Frame)
    requires Inv(m)
    ensures Inv(Handle(m, f))
  {
    hide Inv, HandleOpen, HandleData, HandleClose, HandleReset;
    if f.Opens() {
      AcceptKeeps(m, f);
    } else if f.command == CMD_STREAM_DATA {
      HandleDataKeeps(m, f);
    } else if f.command == CMD_STREAM_CLOSE {
      HandleCloseKeeps(m, f.streamID);
    } else if f.command == CMD_STREAM_RESET {
      HandleResetKeeps(m, f);
    } else if f.command == CMD_WINDOW_UPDATE {
      if |f.payload| >= 4 && f.streamID != 0 && Found(m, f.streamID) {
        LiveAt(m, f.streamID);
        var s := GetLive(m, f.streamID);
        PutKeeps(m, f.streamID, m.t.live[f.streamID],
                 s.(recvWindow := s.recvWindow + ToInt32(GetUint32(f.payload[..4]))));
      }
    } else {
      RelabelKeeps(m, Handle(m, f));
    }
  }

  // ---------------------------------------------------------------- whole runs

  datatype Call =
    | Opening(payload: Bytes)
    | Cancelling(id: UInt32)
    | Closing(id: UInt32, n: nat)
    | Resetting(id: UInt32, n: nat, code: UInt32)
    | Writing(id: UInt32, n: nat, chunk: Bytes)
    | Reading(id: UInt32, n: nat, k: nat)
    | Draining(id: UInt32, n: nat)
    | Ending(id: UInt32, n: nat)
    | GoingAway(lastID: UInt32, code: UInt32)
    | Sending(f: Frame)
    | Handling(f: Frame)

  /** The largest identifier in use, or zero. */
  ghost predicate IsLastID(live: map<UInt32, nat>, last: UInt32) {
    && (forall id :: id in live ==> id <= last)
    && (last in live || last == 0)
  }

  function GoAwayFrame(lastID: UInt32, code: UInt32): Frame {
    Frame(PROTOCOL_VERSION, CMD_GO_AWAY, 0, 0, PutUint32(lastID) + PutUint32(code))
  }

  function GoAway(m: State, lastID: UInt32, code: UInt32): State {
    m.(t := m.t.(goingAway := true), control := m.control + [GoAwayFrame(lastID, code)])
  }

  ghost predicate CanCall(m: State, c: Call) {
    match c
    case Opening(_) => m.t.CanOpen()
    case Cancelling(_) => true
    case Closing(id, n) => m.t.Has(id, n)
    case Resetting(id, n, _) => m.t.Has(id, n)
    case Writing(id, n, _) => m.t.Has(id, n)
    case Reading(id, n, _) => m.t.Has(id, n)
    case Draining(id, n) => m.t.Has(id, n)
    case Ending(id, n) => m.t.Has(id, n) && m.t.Get(id, n).finCh > 0
    case GoingAway(last, _) => IsLastID(m.t.live, last)
    case Sending(f) => !f.OnStream()
    case Handling(_) => true
  }

  ghost function Do(m: State, c: Call): State
    requires CanCall(m, c)
  {
    match c
    case Opening(payload) => OpenStream(m, payload)
    case Cancelling(id) => CancelOpen(m, id)
    case Closing(id, n) => CloseStream(m, id, n)
    case Resetting(id, n, code) => ResetStream(m, id, n, code)
    case Writing(id, n, chunk) => WriteStream(m, id, n, chunk)
    case Reading(id, n, k) => ReadStream(m, id, n, k)
    case Draining(id, n) => DrainChunk(m, id, n)
    case Ending(id, n) => EndDrain(m, id, n)
    case GoingAway(last, code) => GoAway(m, last, code)
    case Sending(f) => m.(control := m.control + [f])
    case Handling(f) => Handle(m, f)
  }

  /** A caller reads or writes a session, or its drain loop takes a chunk or the token. */
  lemma BufferKeeps(m: State, id: UInt32, n: nat, s: Session)
    requires Inv(m) && m.t.Has(id, n)
    requires s == m.t.Get(id, n).(readBuf := s.readBuf, writeOut := s.writeOut, finCh := s.finCh)
    requires s.finCh <= m.t.Get(id, n).finCh
    ensures Inv(m.(t := m.t.Put(id, n, s)))
  {
    SessionAt(m, id, n);
    hide Inv;
    PutKeeps(m, id, n, s);
  }

  lemma EndDrainIs(m: State, id: UInt32, n: nat)
    requires m.t.Has(id, n) && m.t.Get(id, n).finCh > 0
    ensures var s := m.t.Get(id, n);
            EndDrain(m, id, n) == m.(t := m.t.Put(id, n, s.(writeOut := [], finCh := s.finCh - 1)),
                                     data := m.data + DataFrames(s.id, s.writeOut) + [CloseFrame(s.id)])
  {
    var s := m.t.Get(id, n);
    PutTwice(m.t, id, n, s.(finCh := s.finCh - 1), s.(writeOut := [], finCh := s.finCh - 1));
  }

  /** Every call and every handler keeps the invariant, whatever the peer sends. */
  lemma DoKeeps(m: State, c: Call)
    requires Inv(m) && CanCall(m, c)
    ensures Inv(Do(m, c))
  {
    hide Inv, OpenStream, CancelOpen, CloseStream, ResetStream, EndDrain, Handle;
    match c
    case Opening(payload) => OpenKeeps(m, payload);
    case Cancelling(id) => CancelKeeps(m, id);
    case Closing(id, n) => CloseKeeps(m, id, n);
    case Resetting(id, n, code) => ResetKeeps(m, id, n, code);
    case Writing(id, n, chunk) =>
      var s := m.t.Get(id, n);
      BufferKeeps(m, id, n, s.(writeOut := s.writeOut + [chunk]));
    case Reading(id, n, k) =>
      var s := m.t.Get(id, n);
      BufferKeeps(m, id, n, s.(readBuf := s.readBuf[if k < |s.readBuf| then k else |s.readBuf|..]));
    case Draining(id, n) =>
      var s := m.t.Get(id, n);
      if s.writeOut != [] {
        BufferKeeps(m, id, n, s.(writeOut := s.writeOut[1..]));
        RelabelKeeps(m.(t := m.t.Put(id, n, s.(writeOut := s.writeOut[1..]))), Do(m, c));
      }
    case Ending(id, n) =>
      var s := m.t.Get(id, n);
      EndDrainIs(m, id, n);
      BufferKeeps(m, id, n, s.(writeOut := [], finCh := s.finCh - 1));
      RelabelKeeps(m.(t := m.t.Put(id, n, s.(writeOut := [], finCh := s.finCh - 1))), Do(m, c));
    case GoingAway(last, code) => RelabelKeeps(m, Do(m, c));
    case Sending(f) => RelabelKeeps(m, Do(m, c));
    case Handling(f) => HandleKeeps(m, f);
  }

  ghost predicate CanRun(m: State, cs: seq<Call>)
    decreases cs
  {
    cs == [] || (CanCall(m, cs[0]) && CanRun(Do(m, cs[0]), cs[1..]))
  }

  ghost function Run(m: State, cs: seq<Call>): State
    requires CanRun(m, cs)
    decreases cs
  {
    if cs == [] then m else Run(Do(m, cs[0]), cs[1..])
  }

  lemma {:induction false} RunKeeps(m: State, cs: seq<Call>)
    requires Inv(m) && CanRun(m, cs)
    ensures Inv(Run(m, cs))
    decreases |cs|
  {
    hide Inv, Do, CanCall;
    if cs != [] {
      DoKeeps(m, cs[0]);
      RunKeeps(Do(m, cs[0]), cs[1..]);
    }
  }

  lemma NewStateInv(start: UInt32, max: nat, window: int)
    requires start in {1, 2} && start + 2 * max < TWO_TO_32
    ensures Inv(NewState(start, max, window))
  {
  }

  /** Conservation and the high-water mark, for every run: the identifiers handed
      out split exactly into live streams and the free list, an open never returns one
      in use, and the counter stays within two per allowed stream of its start,
      whatever the peer opens. */
  lemma IdentifiersConserved(start: UInt32, max: nat, window: int, cs: seq<Call>)
    requires start in {1, 2} && start + 2 * max < TWO_TO_32
    requires CanRun(NewState(start, max, window), cs)
    ensures var t := Run(NewState(start, max, window), cs).t;
            && Conserved(t)
            && t.next <= start + 2 * max
            && |OwnLive(t)| <= max
            && (t.CanOpen() ==> t.NextID() !in t.live)
  {
    var m := NewState(start, max, window);
    NewStateInv(start, max, window);
    hide Inv;
    RunKeeps(m, cs);
    ConfigStays(m, cs);
    var m' := Run(m, cs);
    InvIDs(m');
    hide Conserved, Run, CanRun;
    OwnLiveBelowMax(m'.t);
    if m'.t.CanOpen() {
      OpenKeeps(m', []);
    }
  }

  lemma InvIDs(m: State)
    requires Inv(m)
    ensures Conserved(m.t) && HighWater(m.t) && m.resets + |m.t.live| <= m.installs
  {
  }

  // ----------------------------------------------------- what is final, what is new

  /** What one step does to the sessions and to the live map. */
  datatype Change = Kept | Updated(id: UInt32, n: nat, s: Session, dropped: bool) | Installed(s: Session)

  ghost predicate Changes(m: State, m': State, ch: Change) {
    && m'.t.start == m.t.start && m'.t.max == m.t.max
    && match ch
       case Kept => m'.t.incs == m.t.incs && m'.t.live == m.t.live
       case Updated(id, n, s, dropped) =>
         && m.t.Has(id, n)
         && m'.t.incs == m.t.Put(id, n, s).incs
         && m'.t.live == (if dropped then m.t.live - {id} else m.t.live)
         && (m.t.Get(id, n).Terminal() ==> s.state == m.t.Get(id, n).state)
       case Installed(s) =>
         && m'.t.incs == m.t.Install(s.id, s).incs
         && m'.t.live == m.t.Install(s.id, s).live
  }

  /** A new entry comes from a local open or from a peer's, each in its own parity. */
  ghost predicate Justified(m: State, c: Call, id: UInt32) {
    if m.t.Owns(id) then c.Opening? && id == m.t.NextID()
    else c.Handling? && c.f.Opens() && c.f.streamID == id
  }

  lemma CloseChanges(m: State, id: UInt32) returns (ch: Change)
    requires Inv(m)
    ensures Changes(m, HandleClose(m, id), ch) && !ch.Installed?
  {
    hide Inv;
    if Found(m, id) {
      var s := GetLive(m, id).RemoteClose();
      ch := Updated(id, m.t.live[id], s, s.Terminal());
    } else {
      ch := Kept;
    }
  }

  lemma DataChanges(m: State, f: Frame) returns (ch: Change)
    requires Inv(m)
    ensures Changes(m, HandleData(m, f), ch) && !ch.Installed?
  {
    var id := f.streamID;
    hide Inv;
    if Found(m, id) {
      LiveAt(m, id);
      var s1 := if f.payload == [] then GetLive(m, id) else GetLive(m, id).Deliver(f.payload);
      var s := if f.Fin() then s1.RemoteClose() else s1;
      ch := Updated(id, m.t.live[id], s, f.Fin() && s.Terminal());
      PutTwice(m.t, id, m.t.live[id], s1, s);
      PutSame(m.t, id, m.t.live[id]);
    } else {
      ch := Kept;
    }
  }

  lemma ResetChanges(m: State, id: UInt32, n: nat, code: UInt32) returns (ch: Change)
    requires Inv(m) && m.t.Has(id, n)
    ensures Changes(m, ResetStream(m, id, n, code), ch) && !ch.Installed?
    ensures Found(m, id) && n == m.t.live[id] ==> id !in ResetStream(m, id, n, code).t.live
  {
    if Found(m, id) {
      LiveAt(m, id);
    }
    hide Inv;
    var s := m.t.Get(id, n);
    if s.Terminal() {
      ch := Kept;
    } else {
      ch := Updated(id, n, s.ResetNow(), id in m.t.live);
    }
  }

  lemma HandleChanges(m: State, f: Frame) returns (ch: Change)
    requires Inv(m)
    ensures Changes(m, Handle(m, f), ch)
    ensures ch.Installed? ==> f.Opens() && ch.s.id == f.streamID && !m.t.Owns(f.streamID)
  {
    hide Inv, HandleData, HandleClose, ResetStream;
    ch := Kept;
    if f.Acks() {
    } else if f.Opens() {
      if f.streamID !in m.t.live && !m.t.Owns(f.streamID) {
        ch := Installed(OpenSession(f.streamID, m.window, f.payload));
      }
    } else if f.command == CMD_STREAM_DATA {
      ch := DataChanges(m, f);
    } else if f.command == CMD_STREAM_CLOSE {
      ch := CloseChanges(m, f.streamID);
    } else if f.command == CMD_STREAM_RESET {
      if Found(m, f.streamID) {
        ch := ResetChanges(m, f.streamID, m.t.live[f.streamID], ResetCode(f));
      }
    } else if f.command == CMD_WINDOW_UPDATE {
      if |f.payload| >= 4 && f.streamID != 0 && Found(m, f.streamID) {
        var s := GetLive(m, f.streamID);
        ch := Updated(f.streamID, m.t.live[f.streamID],
                      s.(recvWindow := s.recvWindow + ToInt32(GetUint32(f.payload[..4]))), false);
      }
    }
  }

  lemma OpenChanges(m: State, payload: Bytes) returns (ch: Change)
    requires Conserved(m.t)
    ensures Changes(m, OpenStream(m, payload), ch) && ch.Installed? && ch.s.id == m.t.NextID() && m.t.Owns(ch.s.id)
  {
    OpenOwns(m);
    hide Conserved;
    ch := Installed(OpenSession(m.t.NextID(), m.window, []));
  }

  lemma CancelChanges(m: State, id: UInt32) returns (ch: Change)
    requires Inv(m)
    ensures Changes(m, CancelOpen(m, id), ch) && !ch.Installed?
  {
    if id in m.t.live {
      LiveAt(m, id);
    }
    hide Inv;
    ch := if id in m.t.live then Updated(id, m.t.live[id], GetLive(m, id).ResetNow(), true) else Kept;
  }

  lemma LocalCloseChanges(m: State, id: UInt32, n: nat) returns (ch: Change)
    requires m.t.Has(id, n)
    ensures Changes(m, CloseStream(m, id, n), ch) && !ch.Installed?
  {
    var s := m.t.Get(id, n);
    var s' := s.LocalClose().(finCh := s.finCh + 1);
    ch := if s.Closable() then Updated(id, n, s', s'.Terminal()) else Kept;
  }

  lemma BufferChanges(m: State, c: Call) returns (ch: Change)
    requires CanCall(m, c) && (c.Writing? || c.Reading? || c.Draining? || c.Ending?)
    ensures Changes(m, Do(m, c), ch) && !ch.Installed?
  {
    var s := m.t.Get(c.id, c.n);
    match c
    case Writing(id, n, chunk) =>
      ch := if s.WriteClosed() || |s.writeOut| >= WRITE_OUT_CAPACITY then Kept
            else Updated(id, n, s.(writeOut := s.writeOut + [chunk]), false);
    case Reading(id, n, k) =>
      ch := Updated(id, n, s.(readBuf := s.readBuf[if k < |s.readBuf| then k else |s.readBuf|..]), false);
    case Draining(id, n) =>
      ch := if s.writeOut == [] then Kept else Updated(id, n, s.(writeOut := s.writeOut[1..]), false);
    case Ending(id, n) =>
      EndDrainIs(m, id, n);
      hide EndDrain;
      ch := Updated(id, n, s.(writeOut := [], finCh := s.finCh - 1), false);
  }

  lemma CallChanges(m: State, c: Call) returns (ch: Change)
    requires Inv(m) && CanCall(m, c)
    ensures Changes(m, Do(m, c), ch)
    ensures ch.Installed? ==> Justified(m, c, ch.s.id)
  {
    InvIDs(m);
    hide Inv, Handle, ResetStream, OpenStream, CancelOpen, CloseStream, WriteStream, ReadStream, DrainChunk, EndDrain;
    hide Conserved;
    match c
    case Opening(payload) => ch := OpenChanges(m, payload);
    case Cancelling(id) => ch := CancelChanges(m, id);
    case Closing(id, n) => ch := LocalCloseChanges(m, id, n);
    case Resetting(id, n, code) => ch := ResetChanges(m, id, n, code);
    case GoingAway(_, _) => ch := Kept;
    case Sending(_) => ch := Kept;
    case Handling(f) => ch := HandleChanges(m, f);
    case _ => ch := BufferChanges(m, c);
  }

  lemma {:induction false} ConfigStays(m: State, cs: seq<Call>)
    requires Inv(m) && CanRun(m, cs)
    ensures Run(m, cs).t.start == m.t.start && Run(m, cs).t.max == m.t.max
    decreases |cs|
  {
    hide Do, CanCall, Inv;
    if cs != [] {
      var ch := CallChanges(m, cs[0]);
      DoKeeps(m, cs[0]);
      ConfigStays(Do(m, cs[0]), cs[1..]);
    }
  }

  /** Closed and Reset are final, and no session is ever forgotten. */
  ghost predicate Final(m: State, m': State) {
    forall id: UInt32, n: nat {:trigger m.t.Has(id, n)} :: m.t.Has(id, n) ==>
      m'.t.Has(id, n) && (m.t.Get(id, n).Terminal() ==> m'.t.Get(id, n).state == m.t.Get(id, n).state)
  }

  lemma FinalChange(m: State, m': State, ch: Change)
    requires Changes(m, m', ch)
    ensures Final(m, m')
  {
  }

  lemma FinalTrans(m: State, m1: State, m2: State)
    requires Final(m, m1) && Final(m1, m2)
    ensures Final(m, m2)
  {
    forall id: UInt32, n: nat | m.t.Has(id, n)
      ensures m2.t.Has(id, n) && (m.t.Get(id, n).Terminal() ==> m2.t.Get(id, n).state == m.t.Get(id, n).state)
    {
      assert m1.t.Has(id, n);
    }
  }

  lemma {:induction false} TerminalIsFinal(m: State, cs: seq<Call>)
    requires Inv(m) && CanRun(m, cs)
    ensures Final(m, Run(m, cs))
    decreases |cs|
  {
    hide Inv, Do, CanCall, Final, Changes;
    if cs == [] {
      FinalChange(m, m, KeptChange(m));
    } else {
      var m1 := Do(m, cs[0]);
      var ch := CallChanges(m, cs[0]);
      FinalChange(m, m1, ch);
      DoKeeps(m, cs[0]);
      TerminalIsFinal(m1, cs[1..]);
      FinalTrans(m, m1, Run(m1, cs[1..]));
    }
  }

  ghost function KeptChange(m: State): (ch: Change)
    ensures Changes(m, m, ch)
  {
    Kept
  }

  /** Parity separation: an entry that a step adds is of the local parity and comes
      from a local open, or of the peer's parity and comes from a peer's open. */
  lemma EntryOrigin(m: State, c: Call, id: UInt32)
    requires Inv(m) && CanCall(m, c)
    requires id in Do(m, c).t.live && (id !in m.t.live || Do(m, c).t.live[id] != m.t.live[id])
    ensures Justified(m, c, id)
  {
    hide Inv, Do, CanCall, Justified;
    var ch := CallChanges(m, c);
  }

  lemma OpenOwns(m: State)
    requires Conserved(m.t)
    ensures m.t.Owns(m.t.NextID())
  {
    if m.t.free != [] {
      assert m.t.free[|m.t.free| - 1] in m.t.free;
    }
  }

  /** A request to open an active identifier, or one of the local parity, changes no
      session and no identifier; the second is answered with a reset. */
  lemma RefusedOpen(m: State, f: Frame)
    requires f.Opens() && (f.streamID in m.t.live || m.t.Owns(f.streamID))
    ensures Handle(m, f) == m.(control := m.control +
              if f.streamID in m.t.live then [] else [ResetFrame(f.streamID, RESET_CODE_PROTOCOL_ERROR)])
  {
  }
}
