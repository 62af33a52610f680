/** Service advertisement: names joined by newlines, and what the peer makes of the
    payload. Names are byte strings.
 */
module ServiceLists {
  import opened Frames

  const NEWLINE: Byte := 10
  const CARRIAGE_RETURN: Byte := 13
  const MAX_SERVICE_LIST_COUNT := 1024

  function Join(names: seq<Bytes>): Bytes {
    if names == [] then []
    else if |names| == 1 then names[0]
    else names[0] + [NEWLINE] + Join(names[1..])
  }

  /** The pieces between newlines; there is always at least one. */
  function Split(b: Bytes): (pieces: seq<Bytes>)
    ensures |pieces| >= 1
  {
    if b == [] then [[]] else
    var rest := Split(b[1..]);
    if b[0] == NEWLINE then [[]] + rest else [[b[0]] + rest[0]] + rest[1..]
  }

  function NonEmpty(names: seq<Bytes>): seq<Bytes> {
    if names == [] then [] else
    (if names[0] == [] then [] else [names[0]]) + NonEmpty(names[1..])
  }

  function First(n: nat, names: seq<Bytes>): seq<Bytes> {
    if |names| <= n then names else names[..n]
  }

  /** The value that handleServiceList publishes. */
  function Published(payload: Bytes): seq<Bytes> {
    if payload == [] then [] else NonEmpty(First(MAX_SERVICE_LIST_COUNT, Split(payload)))
  }

  predicate Clean(name: Bytes) {
    NEWLINE !in name && CARRIAGE_RETURN !in name
  }

  predicate Sendable(names: seq<Bytes>) {
    (forall i :: 0 <= i < |names| ==> Clean(names[i])) && |Join(names)| <= MAX_PAYLOAD_SIZE
  }

  lemma {:induction false} NonEmptySnoc(names: seq<Bytes>, name: Bytes)
    ensures NonEmpty(names + [name]) == NonEmpty(names) + (if name == [] then [] else [name])
  {
    if names == [] {
      assert names + [name] == [name];
    } else {
      assert (names + [name])[1..] == names[1..] + [name];
      NonEmptySnoc(names[1..], name);
    }
  }

  /** SendServiceList: the payload of the frame, or a refusal. */
  method SendServiceList(names: seq<Bytes>) returns (payload: Option<Bytes>)
    ensures payload == if Sendable(names) then Some(Join(names)) else None
  {
    for i := 0 to |names|
      invariant forall k :: 0 <= k < i ==> Clean(names[k])
    {
      if NEWLINE in names[i] || CARRIAGE_RETURN in names[i] {
        assert !Clean(names[i]);
        return None;
      }
    }
    var joined := Join(names);
    if |joined| > MAX_PAYLOAD_SIZE {
      return None;
    }
    payload := Some(joined);
  }

  method HandleServiceList(payload: Bytes) returns (services: seq<Bytes>)
    ensures services == Published(payload)
    ensures |services| <= MAX_SERVICE_LIST_COUNT
    ensures forall i :: 0 <= i < |services| ==> services[i] != []
  {
    services := [];
    if |payload| > 0 {
      var raw := Split(payload);
      if |raw| > MAX_SERVICE_LIST_COUNT {
        raw := raw[..MAX_SERVICE_LIST_COUNT];
      }
      for i := 0 to |raw|
        invariant services == NonEmpty(raw[..i])
        invariant |services| <= i
        invariant forall k :: 0 <= k < |services| ==> services[k] != []
      {
        assert raw[..i + 1] == raw[..i] + [raw[i]];
        NonEmptySnoc(raw[..i], raw[i]);
        if raw[i] != [] {
          services := services + [raw[i]];
        }
      }
      assert raw[..|raw|] == raw;
    }
  }

  // ------------------------------------------------------------- round trip

  /** A piece without newlines in front of a newline splits off. */
  lemma {:induction false} SplitOff(name: Bytes, rest: Bytes)
    requires NEWLINE !in name
    ensures Split(name + [NEWLINE] + rest) == [name] + Split(rest)
  {
    var b := name + [NEWLINE] + rest;
    if name == [] {
      assert b[1..] == rest;
    } else {
      assert b[1..] == name[1..] + [NEWLINE] + rest;
      SplitOff(name[1..], rest);
      assert [name[0]] + name[1..] == name;
    }
  }

  lemma {:induction false} SplitOne(name: Bytes)
    requires NEWLINE !in name
    ensures Split(name) == [name]
  {
    if name != [] {
      SplitOne(name[1..]);
      assert [name[0]] + name[1..] == name;
    }
  }

  /** Splitting undoes joining. */
  lemma {:induction false} SplitJoin(names: seq<Bytes>)
    requires names != [] && forall i :: 0 <= i < |names| ==> NEWLINE !in names[i]
    ensures Split(Join(names)) == names
    decreases |names|
  {
    if |names| == 1 {
      SplitOne(names[0]);
    } else {
      SplitOff(names[0], Join(names[1..]));
      SplitJoin(names[1..]);
      assert [names[0]] + names[1..] == names;
    }
  }

  /** And joining undoes splitting. */
  lemma {:induction false} JoinSplit(b: Bytes)
    ensures Join(Split(b)) == b
  {
    if b != [] {
      var rest := Split(b[1..]);
      JoinSplit(b[1..]);
      if b[0] == NEWLINE {
        assert ([[]] + rest)[1..] == rest;
      } else if |rest| > 1 {
        assert Split(b)[1..] == rest[1..];
      }
      assert [b[0]] + b[1..] == b;
    }
  }

  /** What arrives of an advertisement that was sent: the non-empty names among its
      first 1024. */
  lemma AdvertisementRoundTrip(names: seq<Bytes>)
    requires Sendable(names)
    ensures Published(Join(names)) == NonEmpty(First(MAX_SERVICE_LIST_COUNT, names))
  {
    if names != [] {
      assert forall i :: 0 <= i < |names| ==> Clean(names[i]);
      SplitJoin(names);
      if Join(names) == [] {
        assert Split(Join(names)) == [[]];
        assert NonEmpty([[]]) == NonEmpty([[]][1..]);
      }
    }
  }
}
