/** The stream session object, its methods proved against module Streams. */
module StreamSessions {
  import opened Frames
  import opened Streams

  datatype ReadResult = Data(bytes: Bytes) | EndOfStream | WouldBlock

  datatype WriteResult = Written(count: nat) | StreamClosed | WriteBlocked

  class StreamSession {
    const id: UInt32
    /** Which session of its identifier this is; only proofs look at it. */
    ghost const inc: nat

    var state: StreamState
    var openPayload: Bytes
    var readBuf: Bytes
    var recvWindow: int
    var writeOut: seq<Bytes>
    var finCh: nat
    var closedCh: bool

    ghost function View(): Session
      reads this
    {
      Session(id, state, openPayload, readBuf, recvWindow, writeOut, finCh, closedCh)
    }

    constructor (id: UInt32, window: int, ghost inc: nat)
      ensures this.id == id && this.inc == inc
      ensures View() == Session(id, Idle, [], [], window, [], 0, false)
    {
      this.id := id;
      this.inc := inc;
      state := Idle;
      openPayload, readBuf, writeOut := [], [], [];
      recvWindow := window;
      finCh, closedCh := 0, false;
    }

    method SetOpenPayload(p: Bytes)
      modifies this
      ensures View() == old(View()).(payload := p)
    {
      openPayload := p;
    }

    method Open()
      modifies this
      ensures View() == old(View()).(state := StreamState.Open)
    {
      state := StreamState.Open;
    }

    /** Close up to its callback: `notify` says that the callback is due. */
    method Close() returns (notify: bool)
      modifies this
      ensures notify == old(View()).Closable()
      ensures View() == if notify then old(View()).LocalClose().(finCh := old(finCh) + 1) else old(View())
    {
      notify := false;
      match state {
        case Open =>
          state := HalfClosedLocal;
          notify := true;
        case HalfClosedRemote =>
          state := Closed;
          notify := true;
          closedCh := true;
        case _ =>
      }
      if notify {
        finCh := finCh + 1;
      }
    }

    method RemoteClose()
      modifies this
      ensures View() == old(View()).RemoteClose()
    {
      match state {
        case Open =>
          state := HalfClosedRemote;
        case HalfClosedLocal =>
          state := Closed;
          closedCh := true;
        case _ =>
      }
    }

    /** Reset up to its callback. */
    method Reset() returns (notify: bool)
      modifies this
      ensures notify == !old(View()).Terminal()
      ensures View() == old(View()).ResetNow()
    {
      if state == StreamState.Reset || state == Closed {
        return false;
      }
      state := StreamState.Reset;
      readBuf := [];
      closedCh := true;
      notify := true;
    }

    method Deliver(data: Bytes)
      modifies this
      ensures View() == old(View()).Deliver(data)
    {
      readBuf := readBuf + data;
      recvWindow := recvWindow - |data|;
    }

    /** Read into a buffer of `n` bytes: the next bytes in order, the end only when
        nothing is left and nothing can come. */
    method Read(n: nat) returns (r: ReadResult)
      modifies this
      ensures View() == old(View()).(readBuf := readBuf)
      ensures old(readBuf) != [] ==> r.Data? && r.bytes + readBuf == old(readBuf)
                                     && |r.bytes| == if n < |old(readBuf)| then n else |old(readBuf)|
      ensures old(readBuf) == [] ==> readBuf == [] && r == if old(View()).ReadClosed() then EndOfStream else WouldBlock
    {
      if readBuf == [] {
        r := if state == HalfClosedRemote || state == Closed || state == StreamState.Reset then EndOfStream
             else WouldBlock;
      } else {
        var k := if n < |readBuf| then n else |readBuf|;
        r := Data(readBuf[..k]);
        readBuf := readBuf[k..];
      }
    }

    /** Write, when no other call runs between its check and its push. */
    method Write(p: Bytes) returns (r: WriteResult)
      modifies this
      ensures r == if old(View()).WriteClosed() then StreamClosed
                   else if |old(writeOut)| < WRITE_OUT_CAPACITY then Written(|p|) else WriteBlocked
      ensures View() == if r.Written? then old(View()).(writeOut := old(writeOut) + [p]) else old(View())
    {
      if state == HalfClosedLocal || state == Closed || state == StreamState.Reset {
        return StreamClosed;
      }
      if |writeOut| < WRITE_OUT_CAPACITY {
        writeOut := writeOut + [p];
        r := Written(|p|);
      } else {
        r := WriteBlocked;
      }
    }
  }
}
