/** The two-lane write queue: control frames leave before data frames, each lane in
    the order it was filled.
 */
module WriteQueues {
  import opened Frames

  const PRIORITY_CONTROL := 0
  const PRIORITY_DATA := 1

  datatype Queue = Queue(control: seq<Frame>, data: seq<Frame>, closed: bool)

  /** The outcomes of Dequeue. `Blocked` stands for another round of its wait loop. */
  datatype Outcome = Got(frame: Frame) | Cancelled | Closed | Blocked

  function Put(q: Queue, f: Frame, priority: int): Queue {
    if q.closed then q
    else if priority == PRIORITY_CONTROL then q.(control := q.control + [f])
    else q.(data := q.data + [f])
  }

  /** One evaluation of Dequeue, `cancelled` being whether its context has ended. */
  function Take(q: Queue, cancelled: bool): (Outcome, Queue) {
    if q.control != [] then (Got(q.control[0]), q.(control := q.control[1..]))
    else if q.data != [] then (Got(q.data[0]), q.(data := q.data[1..]))
    else if cancelled then (Cancelled, q)
    else if q.closed then (Closed, q)
    else (Blocked, q)
  }

  class WriteQueue {
    var control: seq<Frame>
    var data: seq<Frame>
    var closed: bool

    ghost function View(): Queue
      reads this
    {
      Queue(control, data, closed)
    }

    constructor ()
      ensures View() == Queue([], [], false)
    {
      control, data, closed := [], [], false;
    }

    method Enqueue(f: Frame, priority: int)
      modifies this
      ensures View() == Put(old(View()), f, priority)
    {
      if closed {
        return;
      }
      if priority == PRIORITY_CONTROL {
        control := control + [f];
      } else {
        data := data + [f];
      }
    }

    method Dequeue(cancelled: bool) returns (r: Outcome)
      modifies this
      ensures (r, View()) == Take(old(View()), cancelled)
    {
      if control == [] && data == [] && !closed {
        return if cancelled then Cancelled else Blocked;
      }
      if control != [] {
        r := Got(control[0]);
        control := control[1..];
      } else if data != [] {
        r := Got(data[0]);
        data := data[1..];
      } else {
        r := if cancelled then Cancelled else Closed;
      }
    }

    method Close()
      modifies this
      ensures View() == old(View()).(closed := true)
    {
      closed := true;
    }
  }

  // ---------------------------------------------------------------- histories

  datatype Op = Enqueuing(f: Frame, priority: int) | Dequeuing(cancelled: bool) | Closing

  function Do(q: Queue, op: Op): Queue {
    match op
    case Enqueuing(f, priority) => Put(q, f, priority)
    case Dequeuing(cancelled) => Take(q, cancelled).1
    case Closing => q.(closed := true)
  }

  function Run(q: Queue, ops: seq<Op>): Queue
    decreases ops
  {
    if ops == [] then q else Run(Do(q, ops[0]), ops[1..])
  }

  datatype Lane = ControlLane | DataLane

  function Pending(q: Queue, lane: Lane): seq<Frame> {
    if lane.ControlLane? then q.control else q.data
  }

  predicate TakesFrom(q: Queue, lane: Lane) {
    Pending(q, lane) != [] && (lane.DataLane? ==> q.control == [])
  }

  /** The frame that an operation adds to a lane, if the queue is open. */
  function Gain(closed: bool, op: Op, lane: Lane): seq<Frame> {
    if op.Enqueuing? && !closed && (op.priority == PRIORITY_CONTROL) == lane.ControlLane? then [op.f] else []
  }

  /** The frame that an operation takes from a lane. */
  function Loss(q: Queue, op: Op, lane: Lane): seq<Frame> {
    if op.Dequeuing? && TakesFrom(q, lane) then [Pending(q, lane)[0]] else []
  }

  /** The frames handed to a lane before the queue was closed, in order. */
  function Accepted(closed: bool, ops: seq<Op>, lane: Lane): seq<Frame>
    decreases ops
  {
    if ops == [] then [] else Gain(closed, ops[0], lane) + Accepted(closed || ops[0].Closing?, ops[1..], lane)
  }

  /** The frames that Dequeue returned from a lane, in order. */
  function Taken(q: Queue, ops: seq<Op>, lane: Lane): seq<Frame>
    decreases ops
  {
    if ops == [] then [] else Loss(q, ops[0], lane) + Taken(Do(q, ops[0]), ops[1..], lane)
  }

  lemma LaneStep(q: Queue, op: Op, lane: Lane)
    ensures Loss(q, op, lane) + Pending(Do(q, op), lane) == Pending(q, lane) + Gain(q.closed, op, lane)
    ensures Do(q, op).closed == (q.closed || op.Closing?)
  {
  }

  /** Each lane is a FIFO: for every history, what has left it followed by what is
      still in it is what it held at first and has accepted since. */
  lemma {:induction false} LaneIsFifo(q: Queue, ops: seq<Op>, lane: Lane)
    ensures Taken(q, ops, lane) + Pending(Run(q, ops), lane) == Pending(q, lane) + Accepted(q.closed, ops, lane)
    decreases |ops|
  {
    if ops != [] {
      var q', rest := Do(q, ops[0]), ops[1..];
      LaneStep(q, ops[0], lane);
      LaneIsFifo(q', rest, lane);
      hide Do, Gain, Loss, Pending;
      var loss, gain := Loss(q, ops[0], lane), Gain(q.closed, ops[0], lane);
      calc {
        Taken(q, ops, lane) + Pending(Run(q, ops), lane);
        (loss + Taken(q', rest, lane)) + Pending(Run(q', rest), lane);
        loss + (Taken(q', rest, lane) + Pending(Run(q', rest), lane));
        loss + (Pending(q', lane) + Accepted(q'.closed, rest, lane));
        (loss + Pending(q', lane)) + Accepted(q'.closed, rest, lane);
        Pending(q, lane) + (gain + Accepted(q'.closed, rest, lane));
      }
    }
  }

  /** Dequeue fails only when nothing is pending, and otherwise returns the frame
      that leaves the queue. */
  lemma TakeAgrees(q: Queue, cancelled: bool)
    ensures var (r, q') := Take(q, cancelled);
            && (!r.Got? ==> q' == q && q.control == [] && q.data == [])
            && (r.Got? ==> [r.frame] + (q'.control + q'.data) == q.control + q.data)
  {
    if q.control != [] {
      assert q.control == [q.control[0]] + q.control[1..];
    }
  }

  /** Control first: when a data frame leaves, every control frame accepted so far
      has left before it. */
  lemma DataWaitsForControl(ops: seq<Op>)
    requires TakesFrom(Run(Queue([], [], false), ops), DataLane)
    ensures Taken(Queue([], [], false), ops, ControlLane) == Accepted(false, ops, ControlLane)
  {
    var q := Queue([], [], false);
    LaneIsFifo(q, ops, ControlLane);
    calc {
      Taken(q, ops, ControlLane);
      Taken(q, ops, ControlLane) + Pending(Run(q, ops), ControlLane);
      Pending(q, ControlLane) + Accepted(false, ops, ControlLane);
      Accepted(false, ops, ControlLane);
    }
  }

  function Dequeues(n: nat): seq<Op> {
    if n == 0 then [] else [Dequeuing(false)] + Dequeues(n - 1)
  }

  lemma {:induction false} DequeuesEmpty(q: Queue, n: nat)
    requires n == |q.control| + |q.data|
    ensures Run(q, Dequeues(n)) == Queue([], [], q.closed)
    decreases n
  {
    if n > 0 {
      assert Dequeues(n)[1..] == Dequeues(n - 1);
      DequeuesEmpty(Do(q, Dequeuing(false)), n - 1);
    }
  }

  lemma {:induction false} ClosedAcceptsNothing(ops: seq<Op>, lane: Lane)
    ensures Accepted(true, ops, lane) == []
    decreases |ops|
  {
    if ops != [] {
      ClosedAcceptsNothing(ops[1..], lane);
    }
  }

  /** After Close nothing is accepted, and the frames still pending can all be
      taken, each lane in its order, after which Dequeue reports the end. */
  lemma CloseDrains(q: Queue)
    requires q.closed
    ensures var ops := Dequeues(|q.control| + |q.data|);
            && Taken(q, ops, ControlLane) == q.control
            && Taken(q, ops, DataLane) == q.data
            && Take(Run(q, ops), false) == (Closed, Queue([], [], true))
  {
    var n := |q.control| + |q.data|;
    hide Dequeues, Taken, Accepted, Run;
    DequeuesEmpty(q, n);
    EmptiedLane(q, Dequeues(n), ControlLane);
    EmptiedLane(q, Dequeues(n), DataLane);
  }

  lemma EmptiedLane(q: Queue, ops: seq<Op>, lane: Lane)
    requires q.closed && Run(q, ops) == Queue([], [], true)
    ensures Taken(q, ops, lane) == Pending(q, lane)
  {
    LaneIsFifo(q, ops, lane);
    ClosedAcceptsNothing(ops, lane);
    hide Taken, Accepted, Run;
    calc {
      Taken(q, ops, lane);
      Taken(q, ops, lane) + Pending(Run(q, ops), lane);
      Pending(q, lane) + Accepted(q.closed, ops, lane);
      Pending(q, lane);
    }
  }
}
