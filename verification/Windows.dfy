/** The connection's flow-control window: 32-bit arithmetic, bounded both ways. */
module Windows {
  import opened Frames

  type Int32 = x: int | -0x8000_0000 <= x < 0x8000_0000

  const MAX_WINDOW_SIZE := 0x7fff_ffff

  /** Conversion of an integer to 32 bits, which keeps the low half of it. */
  function Wrap32(n: int): Int32 {
    ToInt32(n % 0x1_0000_0000)
  }

  datatype Window = Window(available: Int32, initial: Int32)

  datatype ConsumeResult = Consumed | Cancelled | Blocked

  datatype UpdateResult = Updated | ZeroIncrement | Overflow

  function Taken(w: Window, n: Int32, cancelled: bool): (ConsumeResult, Window) {
    if w.available < n then (if cancelled then Cancelled else Blocked, w)
    else (Consumed, w.(available := Wrap32(w.available - n)))
  }

  function Credited(w: Window, increment: Int32): (UpdateResult, Window) {
    if increment <= 0 then (ZeroIncrement, w)
    else if w.available + increment > MAX_WINDOW_SIZE then (Overflow, w)
    else (Updated, w.(available := Wrap32(w.available + increment)))
  }

  class FlowWindow {
    var available: Int32
    const initialSize: Int32

    ghost function View(): Window
      reads this
    {
      Window(available, initialSize)
    }

    /** NewMuxSession converts the configured size to 32 bits first. */
    constructor (configured: int)
      ensures View() == Window(Wrap32(configured), Wrap32(configured))
    {
      available := Wrap32(configured);
      initialSize := Wrap32(configured);
    }

    /** One evaluation of Consume; `Blocked` stands for another round of its loop. */
    method Consume(n: Int32, cancelled: bool) returns (r: ConsumeResult)
      modifies this
      ensures (r, View()) == Taken(old(View()), n, cancelled)
    {
      if available < n {
        return if cancelled then Cancelled else Blocked;
      }
      available := Wrap32(available - n);
      r := Consumed;
    }

    method Update(increment: Int32) returns (r: UpdateResult)
      modifies this
      ensures (r, View()) == Credited(old(View()), increment)
    {
      if increment <= 0 {
        return ZeroIncrement;
      }
      var newSize := available as int + increment as int;
      if newSize > MAX_WINDOW_SIZE {
        return Overflow;
      }
      available := Wrap32(newSize);
      r := Updated;
    }

    method Reset()
      modifies this
      ensures View() == old(View()).(available := initialSize)
    {
      available := initialSize;
    }
  }

  // ---------------------------------------------------------------- whole runs

  datatype Op =
    | Consuming(n: Int32, cancelled: bool)
    | Arriving(payload: Bytes)
    | Resetting

  /** A connection-level WINDOW_UPDATE frame: short payloads are ignored. */
  function Arrive(w: Window, payload: Bytes): Window {
    if |payload| < 4 then w else Credited(w, ToInt32(GetUint32(payload[..4]))).1
  }

  function Do(w: Window, op: Op): Window {
    match op
    case Consuming(n, cancelled) => Taken(w, n, cancelled).1
    case Arriving(payload) => Arrive(w, payload)
    case Resetting => w.(available := w.initial)
  }

  function Run(w: Window, ops: seq<Op>): Window
    decreases ops
  {
    if ops == [] then w else Run(Do(w, ops[0]), ops[1..])
  }

  /** One entry of a ledger kept outside in unbounded numbers: increments that fit under
      the bound are added, amounts that are there are taken, a reset starts over. */
  function Post(balance: int, initial: int, op: Op): int {
    match op
    case Consuming(n, _) => if n <= balance then balance - n else balance
    case Arriving(payload) =>
      if |payload| < 4 then balance else
      var inc := ToInt32(GetUint32(payload[..4]));
      if 0 < inc && balance + inc <= MAX_WINDOW_SIZE then balance + inc else balance
    case Resetting => initial
  }

  function Ledger(balance: int, initial: int, ops: seq<Op>): int
    decreases ops
  {
    if ops == [] then balance else Ledger(Post(balance, initial, ops[0]), initial, ops[1..])
  }

  /** The window shows the balance of the ledger now and after each operation. */
  predicate Tracks(w: Window, balance: int, ops: seq<Op>)
    decreases ops
  {
    && w.available == balance
    && (ops != [] ==> Tracks(Do(w, ops[0]), Post(balance, w.initial, ops[0]), ops[1..]))
  }

  /** No negative amount is consumed that the bound has no room for. */
  predicate Roomy(balance: int, initial: int, ops: seq<Op>)
    decreases ops
  {
    ops != [] ==>
      && (ops[0].Consuming? ==> balance - ops[0].n <= MAX_WINDOW_SIZE)
      && Roomy(Post(balance, initial, ops[0]), initial, ops[1..])
  }

  /** An operation is exact unless it takes a negative amount past the bound. */
  lemma OpExactly(w: Window, op: Op)
    ensures Do(w, op).available == Post(w.available, w.initial, op) <==>
            (op.Consuming? ==> w.available - op.n <= MAX_WINDOW_SIZE)
    ensures Do(w, op).initial == w.initial
  {
    hide GetUint32, ToInt32;
    match op {
      case Consuming(n, _) =>
        if n <= w.available && w.available - n <= MAX_WINDOW_SIZE {
          WrapExact(w.available - n);
        }
      case Arriving(payload) =>
        if |payload| >= 4 {
          var inc := ToInt32(GetUint32(payload[..4]));
          if 0 < inc && w.available + inc <= MAX_WINDOW_SIZE {
            WrapExact(w.available + inc);
          }
        }
      case Resetting =>
    }
    hide Wrap32;
  }

  /** For every window and every list of wire payloads, consumes of any amounts and
      resets: 32-bit arithmetic agrees with the ledger throughout exactly when no
      negative amount overflows the bound. */
  lemma {:induction false} WindowExactlyWhenRoomy(w: Window, ops: seq<Op>)
    ensures Tracks(w, w.available, ops) <==> Roomy(w.available, w.initial, ops)
    decreases |ops|
  {
    if ops != [] {
      OpExactly(w, ops[0]);
      WindowExactlyWhenRoomy(Do(w, ops[0]), ops[1..]);
      hide Do, Post;
    }
  }

  predicate NonNegative(ops: seq<Op>) {
    forall i :: 0 <= i < |ops| && ops[i].Consuming? ==> ops[i].n >= 0
  }

  lemma WrapExact(n: int)
    requires -0x8000_0000 <= n < 0x8000_0000
    ensures Wrap32(n) == n
  {
  }

  /** In particular, with non-negative amounts the window stays in 0 .. 2^31 - 1 and
      agrees with the ledger. */
  lemma {:induction false} WindowIsExact(w: Window, ops: seq<Op>)
    requires 0 <= w.available && 0 <= w.initial && NonNegative(ops)
    ensures 0 <= Run(w, ops).available <= MAX_WINDOW_SIZE
    ensures Run(w, ops).available == Ledger(w.available, w.initial, ops)
    decreases |ops|
  {
    if ops != [] {
      assert ops[0].Consuming? ==> ops[0].n >= 0;
      assert NonNegative(ops[1..]);
      OpExactly(w, ops[0]);
      hide Do;
      WindowIsExact(Do(w, ops[0]), ops[1..]);
    }
  }
}
