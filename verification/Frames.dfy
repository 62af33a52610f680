/** The frames of the atlax wire protocol: their fields, the command and flag
    values the multiplexer uses, and the frames it builds.
 */
module Frames {
  type Byte = x: int | 0 <= x < 0x100
  type Bytes = seq<Byte>
  type UInt32 = x: int | 0 <= x < 0x1_0000_0000

  const PROTOCOL_VERSION: Byte := 0x01
  const HEADER_SIZE := 12
  const MAX_PAYLOAD_SIZE := 16 * 1024 * 1024

  const CMD_STREAM_OPEN: Byte := 0x01
  const CMD_STREAM_DATA: Byte := 0x02
  const CMD_STREAM_CLOSE: Byte := 0x03
  const CMD_STREAM_RESET: Byte := 0x04
  const CMD_PING: Byte := 0x05
  const CMD_PONG: Byte := 0x06
  const CMD_WINDOW_UPDATE: Byte := 0x07
  const CMD_GO_AWAY: Byte := 0x08
  const CMD_SERVICE_LIST: Byte := 0x0E

  const FLAG_FIN: Byte := 1
  const FLAG_ACK: Byte := 2

  const RESET_CODE_PROTOCOL_ERROR: UInt32 := 2

  /** The two ends of a connection. */
  datatype Side = Relay | Agent

  function Peer(side: Side): Side {
    if side.Relay? then Agent else Relay
  }

  datatype Option<+T> = None | Some(value: T)

  datatype Frame = Frame(version: Byte, command: Byte, flags: Byte, streamID: UInt32, payload: Bytes)
  {
    /** FlagFIN is bit 0 of the flag byte. */
    predicate Fin() {
      flags % 2 == 1
    }

    /** FlagACK is bit 1 of the flag byte. */
    predicate Ack() {
      flags / 2 % 2 == 1
    }

    /** A peer's request to open a stream, as opposed to the answer to one. */
    predicate Opens() {
      command == CMD_STREAM_OPEN && !Ack()
    }

    predicate Acks() {
      command == CMD_STREAM_OPEN && Ack()
    }

    /** Frames that act on the stream named by the stream identifier. */
    predicate OnStream() {
      command in {CMD_STREAM_OPEN, CMD_STREAM_DATA, CMD_STREAM_CLOSE, CMD_STREAM_RESET}
    }
  }

  function OpenFrame(id: UInt32, payload: Bytes): Frame {
    Frame(PROTOCOL_VERSION, CMD_STREAM_OPEN, 0, id, payload)
  }

  function AckFrame(id: UInt32): Frame {
    Frame(PROTOCOL_VERSION, CMD_STREAM_OPEN, FLAG_ACK, id, [])
  }

  function DataFrame(id: UInt32, chunk: Bytes): Frame {
    Frame(PROTOCOL_VERSION, CMD_STREAM_DATA, 0, id, chunk)
  }

  /** One data frame for each chunk. */
  function DataFrames(id: UInt32, chunks: seq<Bytes>): (fs: seq<Frame>)
    ensures |fs| == |chunks|
    ensures forall i :: 0 <= i < |fs| ==> fs[i] == DataFrame(id, chunks[i])
  {
    seq(|chunks|, i requires 0 <= i < |chunks| => DataFrame(id, chunks[i]))
  }

  function CloseFrame(id: UInt32): Frame {
    Frame(PROTOCOL_VERSION, CMD_STREAM_CLOSE, FLAG_FIN, id, [])
  }

  function ResetFrame(id: UInt32, code: UInt32): Frame {
    Frame(PROTOCOL_VERSION, CMD_STREAM_RESET, 0, id, PutUint32(code))
  }

  function PongFrame(payload: Bytes): Frame {
    Frame(PROTOCOL_VERSION, CMD_PONG, 0, 0, payload)
  }

  /** Big-endian encoding of a 32-bit word. */
  function PutUint32(n: UInt32): (b: Bytes)
    ensures |b| == 4
  {
    var hi, lo := n / 0x1_0000, n % 0x1_0000;
    [hi / 0x100, hi % 0x100, lo / 0x100, lo % 0x100]
  }

  function GetUint32(b: Bytes): UInt32
    requires |b| == 4
  {
    var hi, lo := b[0] as int * 0x100 + b[1], b[2] as int * 0x100 + b[3];
    hi * 0x1_0000 + lo
  }

  /** The most significant byte comes first, when a word is written and when it is read. */
  lemma BigEndian(n: UInt32, b: Bytes)
    requires |b| == 4
    ensures var w := PutUint32(n);
            n == w[0] as int * 0x100_0000 + w[1] as int * 0x1_0000 + w[2] as int * 0x100 + w[3]
    ensures GetUint32(b) == b[0] as int * 0x100_0000 + b[1] as int * 0x1_0000 + b[2] as int * 0x100 + b[3]
  {
  }

  lemma GetPutUint32(n: UInt32)
    ensures GetUint32(PutUint32(n)) == n
  {
  }

  lemma PutGetUint32(b: Bytes)
    requires |b| == 4
    ensures PutUint32(GetUint32(b)) == b
  {
    var hi, lo := b[0] as int * 0x100 + b[1], b[2] as int * 0x100 + b[3];
    assert (hi * 0x1_0000 + lo) / 0x1_0000 == hi && (hi * 0x1_0000 + lo) % 0x1_0000 == lo;
  }

  /** A 32-bit word read as a signed number. */
  function ToInt32(n: UInt32): int {
    if n < 0x8000_0000 then n else n - 0x1_0000_0000
  }

  /** The bytes of a list of chunks, in order. */
  function Concat(chunks: seq<Bytes>): Bytes {
    if chunks == [] then [] else chunks[0] + Concat(chunks[1..])
  }

  lemma {:induction false} ConcatAppend(a: seq<Bytes>, b: seq<Bytes>)
    ensures Concat(a + b) == Concat(a) + Concat(b)
  {
    if a == [] {
      assert a + b == b;
    } else {
      assert (a + b)[1..] == a[1..] + b;
      ConcatAppend(a[1..], b);
    }
  }

  lemma ConcatPrefix(a: seq<Bytes>, b: seq<Bytes>)
    requires a <= b
    ensures Concat(a) <= Concat(b)
  {
    ConcatAppend(a, b[|a|..]);
    assert b == a + b[|a|..];
  }
}
