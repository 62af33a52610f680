/** One multiplexed stream: the fields of a stream session and what each of
    its locked sections does to them.
 */
module Streams {
  import opened Frames

  datatype StreamState = Idle | Open | HalfClosedLocal | HalfClosedRemote | Closed | Reset

  /** Capacity of the channel between Write and the drain loop. */
  const WRITE_OUT_CAPACITY := 64

  /** `finCh` is the number of tokens in the channel that signals the local
      close; `closedCh` is true once that channel has been closed. */
  datatype Session = Session(
    id: UInt32,
    state: StreamState,
    payload: Bytes,
    readBuf: Bytes,
    recvWindow: int,
    writeOut: seq<Bytes>,
    finCh: nat,
    closedCh: bool)
  {
    predicate Terminal() {
      state.Closed? || state.Reset?
    }

    predicate ReadClosed() {
      state.HalfClosedRemote? || Terminal()
    }

    predicate WriteClosed() {
      state.HalfClosedLocal? || Terminal()
    }

    /** Whether Close takes effect, so that it signals the drain loop. */
    predicate Closable() {
      state.Open? || state.HalfClosedRemote?
    }

    /** The locked section of Close. */
    function LocalClose(): Session {
      match state
      case Open => this.(state := HalfClosedLocal)
      case HalfClosedRemote => this.(state := Closed, closedCh := true)
      case _ => this
    }

    function RemoteClose(): Session {
      match state
      case Open => this.(state := HalfClosedRemote)
      case HalfClosedLocal => this.(state := Closed, closedCh := true)
      case _ => this
    }

    /** The locked section of Reset. */
    function ResetNow(): Session {
      if Terminal() then this else this.(state := Reset, readBuf := [], closedCh := true)
    }

    function Deliver(data: Bytes): Session {
      this.(readBuf := readBuf + data, recvWindow := recvWindow - |data|)
    }
  }

  /** A session that has just been marked Open by its multiplexer. */
  function OpenSession(id: UInt32, window: int, payload: Bytes): Session {
    Session(id, Open, payload, [], window, [], 0, false)
  }

  /** What holds of every session between two atomic calls. */
  predicate SessionInv(s: Session) {
    && !s.state.Idle?
    && (s.closedCh <==> s.Terminal())
    && s.finCh <= 1
    && (s.Closable() ==> s.finCh == 0)
  }
}
