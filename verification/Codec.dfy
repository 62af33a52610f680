/** The frame codec: a 12-byte header in front of each payload, read from and
    written to a byte stream.
 */
module Codec {
  import opened Frames

  datatype Error = Truncated | BadVersion | Oversize

  datatype Decoded = Ok(frame: Frame, rest: Bytes) | Err(error: Error)

  /** Frames that WriteFrame accepts and ReadFrame accepts back. */
  predicate Encodable(f: Frame) {
    f.version == PROTOCOL_VERSION && |f.payload| <= MAX_PAYLOAD_SIZE
  }

  function Header(f: Frame): (h: Bytes)
    requires |f.payload| <= MAX_PAYLOAD_SIZE
    ensures |h| == HEADER_SIZE
  {
    [f.version, f.command, f.flags, 0] + PutUint32(f.streamID) + PutUint32(|f.payload|)
  }

  function Encode(f: Frame): Bytes
    requires |f.payload| <= MAX_PAYLOAD_SIZE
  {
    Header(f) + f.payload
  }

  /** The header alone decides, once it is complete. */
  function HeaderError(h: Bytes): Option<Error>
    requires |h| == HEADER_SIZE
  {
    if h[0] != PROTOCOL_VERSION then Some(BadVersion)
    else if GetUint32(h[8..12]) > MAX_PAYLOAD_SIZE then Some(Oversize)
    else None
  }

  function Decode(b: Bytes): Decoded {
    if |b| < HEADER_SIZE then Err(Truncated) else
    var h := b[..HEADER_SIZE];
    match HeaderError(h)
    case Some(e) => Err(e)
    case None =>
      var end := HEADER_SIZE + GetUint32(h[8..12]);
      if |b| < end then Err(Truncated)
      else Ok(Frame(h[0], h[1], h[2], GetUint32(h[4..8]), b[HEADER_SIZE..end]), b[end..])
  }

  /** An ordered byte stream: what has been written and not yet read. */
  class Pipe {
    var bytes: Bytes

    constructor ()
      ensures bytes == []
    {
      bytes := [];
    }

    method Write(b: Bytes)
      modifies this
      ensures bytes == old(bytes) + b
    {
      bytes := bytes + b;
    }

    /** io.ReadFull: all of `n` bytes, or fewer when the stream ends first. */
    method ReadFull(n: nat) returns (b: Bytes)
      modifies this
      ensures b + bytes == old(bytes)
      ensures |b| == if n <= |old(bytes)| then n else |old(bytes)|
    {
      var k := if n <= |bytes| then n else |bytes|;
      b := bytes[..k];
      bytes := bytes[k..];
    }
  }

  method PutWord(a: array<Byte>, at: nat, n: UInt32)
    requires at + 4 <= a.Length
    modifies a
    ensures a[..] == old(a[..])[..at] + PutUint32(n) + old(a[..])[at + 4..]
  {
    var w := PutUint32(n);
    a[at], a[at + 1], a[at + 2], a[at + 3] := w[0], w[1], w[2], w[3];
  }

  method FillHeader(f: Frame) returns (hdr: array<Byte>)
    requires |f.payload| <= MAX_PAYLOAD_SIZE
    ensures fresh(hdr) && hdr[..] == Header(f)
  {
    hdr := new Byte[HEADER_SIZE](_ => 0);
    hdr[0], hdr[1], hdr[2], hdr[3] := f.version, f.command, f.flags, 0x00;
    PutWord(hdr, 4, f.streamID);
    PutWord(hdr, 8, |f.payload|);
  }

  method WriteFrame(w: Pipe, f: Frame) returns (ok: bool)
    modifies w
    ensures ok <==> |f.payload| <= MAX_PAYLOAD_SIZE
    ensures w.bytes == if ok then old(w.bytes) + Encode(f) else old(w.bytes)
  {
    hide Header;
    var n := |f.payload|;
    if n > MAX_PAYLOAD_SIZE {
      return false;
    }
    var hdr := FillHeader(f);
    w.Write(hdr[..]);
    if n > 0 {
      w.Write(f.payload);
    }
    assert old(w.bytes) + Encode(f) == old(w.bytes) + Header(f) + f.payload;
    ok := true;
  }

  method ReadFrame(r: Pipe) returns (d: Decoded)
    modifies r
    ensures d.Ok? <==> Decode(old(r.bytes)).Ok?
    ensures d.Ok? ==> d == Decode(old(r.bytes)) && r.bytes == d.rest
    ensures d.Err? ==> d == Decode(old(r.bytes))
  {
    ghost var b := r.bytes;
    var hdr := r.ReadFull(HEADER_SIZE);
    if |hdr| < HEADER_SIZE {
      return Err(Truncated);
    }
    assert hdr == b[..HEADER_SIZE];
    var bad := HeaderError(hdr);
    if bad.Some? {
      return Err(bad.value);
    }
    var n := GetUint32(hdr[8..12]);
    var payload: Bytes := [];
    if n > 0 {
      payload := r.ReadFull(n);
      if |payload| < n {
        return Err(Truncated);
      }
    }
    assert payload == b[HEADER_SIZE..HEADER_SIZE + n];
    assert r.bytes == b[HEADER_SIZE + n..];
    d := Ok(Frame(hdr[0], hdr[1], hdr[2], GetUint32(hdr[4..8]), payload), r.bytes);
  }

  // ------------------------------------------------------------- properties

  lemma HeaderFields(f: Frame)
    requires |f.payload| <= MAX_PAYLOAD_SIZE
    ensures var h := Header(f);
            && h[0] == f.version && h[1] == f.command && h[2] == f.flags
            && GetUint32(h[4..8]) == f.streamID && GetUint32(h[8..12]) == |f.payload|
  {
    var h := Header(f);
    assert h[4..8] == PutUint32(f.streamID);
    assert h[8..12] == PutUint32(|f.payload|);
    GetPutUint32(f.streamID);
    GetPutUint32(|f.payload|);
  }

  /** One frame at the front of any bytes is read back, and nothing more. */
  lemma DecodeEncode(f: Frame, rest: Bytes)
    requires Encodable(f)
    ensures Decode(Encode(f) + rest) == Ok(f, rest)
  {
    var b := Encode(f) + rest;
    HeaderFields(f);
    assert b[..HEADER_SIZE] == Header(f);
    assert b[HEADER_SIZE..HEADER_SIZE + |f.payload|] == f.payload;
    assert b[HEADER_SIZE + |f.payload|..] == rest;
    hide Header, PutUint32, GetUint32;
  }

  function EncodeAll(fs: seq<Frame>): Bytes
    requires forall i :: 0 <= i < |fs| ==> Encodable(fs[i])
  {
    if fs == [] then [] else
    assert Encodable(fs[0]);
    Encode(fs[0]) + EncodeAll(fs[1..])
  }

  /** Decodes `n` frames off the front, as the read loop does. */
  function DecodeMany(b: Bytes, n: nat): Option<(seq<Frame>, Bytes)> {
    if n == 0 then Some(([], b)) else
    match Decode(b)
    case Err(_) => None
    case Ok(f, rest) =>
      match DecodeMany(rest, n - 1)
      case None => None
      case Some(r) => Some(([f] + r.0, r.1))
  }

  /** The stream is self-delimiting: any list of frames, written back to back in front
      of any bytes, is read back as that list and leaves exactly those bytes. */
  lemma {:induction false} StreamRoundTrip(fs: seq<Frame>, rest: Bytes)
    requires forall i :: 0 <= i < |fs| ==> Encodable(fs[i])
    ensures DecodeMany(EncodeAll(fs) + rest, |fs|) == Some((fs, rest))
    decreases |fs|
  {
    if fs == [] {
      assert EncodeAll(fs) + rest == rest;
    } else {
      var tail := EncodeAll(fs[1..]) + rest;
      assert EncodeAll(fs) + rest == Encode(fs[0]) + tail;
      DecodeEncode(fs[0], tail);
      StreamRoundTrip(fs[1..], rest);
      assert [fs[0]] + fs[1..] == fs;
      hide Decode, Encode;
    }
  }

  /** Rejection happens exactly on a wrong version, an oversize length, or too few
      bytes for the header or for the payload that it announces. */
  lemma RejectsExactly(b: Bytes)
    ensures Decode(b) == Err(BadVersion) <==> |b| >= HEADER_SIZE && b[0] != PROTOCOL_VERSION
    ensures Decode(b) == Err(Oversize) <==>
              |b| >= HEADER_SIZE && b[0] == PROTOCOL_VERSION && GetUint32(b[8..12]) > MAX_PAYLOAD_SIZE
    ensures Decode(b) == Err(Truncated) <==>
              || |b| < HEADER_SIZE
              || (&& b[0] == PROTOCOL_VERSION && GetUint32(b[8..12]) <= MAX_PAYLOAD_SIZE
                  && |b| < HEADER_SIZE + GetUint32(b[8..12]))
  {
    if |b| >= HEADER_SIZE {
      assert b[..HEADER_SIZE][8..12] == b[8..12];
    }
  }

  /** A cut-off frame is always seen as truncated, never as another frame. */
  lemma PrefixIsTruncated(f: Frame, k: nat)
    requires Encodable(f) && k < |Encode(f)|
    ensures Decode(Encode(f)[..k]) == Err(Truncated)
  {
    var b := Encode(f)[..k];
    HeaderFields(f);
    RejectsExactly(b);
    if k >= HEADER_SIZE {
      assert b[8..12] == Header(f)[8..12];
    }
  }

  lemma EmptyIsTruncated()
    ensures Decode([]) == Err(Truncated)
  {
  }

  /** However many bytes of a stream have arrived, they decode to the frames that are
      there in full, and reading on finds the stream cut off: no frame is seen early,
      none is lost and none is made up. */
  lemma {:induction false} CutStream(fs: seq<Frame>, k: nat) returns (n: nat, rest: Bytes)
    requires (forall i :: 0 <= i < |fs| ==> Encodable(fs[i])) && k <= |EncodeAll(fs)|
    ensures n <= |fs| && DecodeMany(EncodeAll(fs)[..k], n) == Some((fs[..n], rest))
    ensures Decode(rest) == Err(Truncated)
    ensures if n < |fs| then rest < Encode(fs[n]) else rest == []
    decreases |fs|
  {
    hide Decode, Encode;
    if fs == [] {
      n, rest := 0, [];
      assert EncodeAll(fs)[..k] == [];
      EmptyIsTruncated();
    } else {
      assert Encodable(fs[0]);
      var head, tail := Encode(fs[0]), EncodeAll(fs[1..]);
      if k < |head| {
        n, rest := 0, head[..k];
        assert EncodeAll(fs)[..k] == rest;
        PrefixIsTruncated(fs[0], k);
      } else {
        var j := k - |head|;
        n, rest := CutStream(fs[1..], j);
        n := n + 1;
        assert EncodeAll(fs)[..k] == head + tail[..j];
        DecodeEncode(fs[0], tail[..j]);
        assert [fs[0]] + fs[1..][..n - 1] == fs[..n];
      }
    }
  }

  /** Writing a decoded frame again restores the bytes it was read from, but for the
      reserved byte, which becomes zero. */
  lemma EncodeDecode(b: Bytes)
    requires Decode(b).Ok?
    ensures var f, rest := Decode(b).frame, Decode(b).rest;
            Encodable(f) && Encode(f) + rest == b[3 := 0]
  {
    var f, rest := Decode(b).frame, Decode(b).rest;
    var h := b[..HEADER_SIZE];
    PutGetUint32(h[4..8]);
    PutGetUint32(h[8..12]);
    assert Header(f) == h[3 := 0];
    assert b == h + f.payload + rest;
  }
}
