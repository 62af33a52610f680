/** The stream table of a multiplexer: the live map, the identifier allocator
    with its LIFO free list, and every session ever installed under an identifier.
    It is generic in the session state `S`.
 */
module StreamTable {
  import opened Frames

  const TWO_TO_32 := 0x1_0000_0000

  /** `live` is the `streams` map, from an identifier to the incarnation that it
      names; `incs[id]` lists all incarnations of `id`, oldest first. */
  datatype Table<S> = Table(
    start: UInt32,
    max: nat,
    next: UInt32,
    free: seq<UInt32>,
    live: map<UInt32, nat>,
    incs: map<UInt32, seq<S>>,
    pending: map<UInt32, nat>,
    goingAway: bool)
  {
    function Incs(id: UInt32): seq<S> {
      if id in incs then incs[id] else []
    }

    predicate Has(id: UInt32, n: nat) {
      n < |Incs(id)|
    }

    function Get(id: UInt32, n: nat): S
      requires Has(id, n)
    {
      Incs(id)[n]
    }

    /** ownsID: the identifier lies in the local parity space. */
    predicate Owns(id: UInt32) {
      id % 2 == next % 2
    }

    /** The two refusals of OpenStream. */
    predicate CanOpen() {
      !goingAway && |live| < max
    }

    function NextID(): UInt32 {
      if free != [] then free[|free| - 1] else next
    }

    function Allocate(): Table<S> {
      if free != [] then this.(free := free[..|free| - 1]) else this.(next := (next + 2) % TWO_TO_32)
    }

    function Install(id: UInt32, s: S): Table<S> {
      this.(live := live[id := |Incs(id)|], incs := incs[id := Incs(id) + [s]])
    }

    function Put(id: UInt32, n: nat, s: S): Table<S>
      requires Has(id, n)
    {
      this.(incs := incs[id := incs[id][n := s]])
    }

    /** delete(streams, id) followed by freeID(id). */
    function Drop(id: UInt32): Table<S> {
      this.(live := live - {id}, free := if Owns(id) then free + [id] else free)
    }
  }

  function EmptyTable<S>(start: UInt32, max: nat): Table<S> {
    Table(start, max, start, [], map[], map[], map[], false)
  }

  lemma PutTwice<S>(t: Table<S>, id: UInt32, n: nat, s1: S, s: S)
    requires t.Has(id, n)
    ensures t.Put(id, n, s1).Put(id, n, s) == t.Put(id, n, s)
  {
    assert t.incs[id][n := s1][n := s] == t.incs[id][n := s];
  }

  lemma PutSame<S>(t: Table<S>, id: UInt32, n: nat)
    requires t.Has(id, n)
    ensures t.Put(id, n, t.Get(id, n)) == t
  {
    assert t.incs[id][n := t.incs[id][n]] == t.incs[id];
  }

  // ------------------------------------------------------------ identifiers

  ghost predicate Rooted<S>(t: Table<S>) {
    t.start in {1, 2} && t.start <= t.next && t.next % 2 == t.start % 2
  }

  /** Every identifier handed out so far is in use or waiting for reuse. */
  ghost predicate Covered<S>(t: Table<S>) {
    && Rooted(t)
    && (forall id: UInt32 :: t.start <= id < t.next && t.Owns(id) ==> id in t.live || id in t.free)
  }

  ghost predicate HighWater<S>(t: Table<S>) {
    t.next <= t.start + 2 * t.max < TWO_TO_32
  }

  /** Conservation: the identifiers handed out split exactly, without repeats,
      into live streams of the local parity and the free list. */
  ghost predicate Conserved<S>(t: Table<S>) {
    && Covered(t)
    && (forall id :: id in t.live && t.Owns(id) ==> t.start <= id < t.next && id !in t.free)
    && (forall id :: id in t.free ==> t.Owns(id) && t.start <= id < t.next)
    && (forall i, j :: 0 <= i < j < |t.free| ==> t.free[i] != t.free[j])
  }

  function OwnIDs(start: nat, next: nat): set<nat>
    requires start <= next
  {
    set id | start <= id < next && id % 2 == start % 2
  }

  lemma {:induction false} OwnIDsCount(start: nat, next: nat)
    requires start <= next && next % 2 == start % 2
    ensures 2 * |OwnIDs(start, next)| == next - start
    decreases next
  {
    if start == next {
      assert OwnIDs(start, next) == {};
    } else {
      OwnIDsCount(start, next - 2);
      assert OwnIDs(start, next) == OwnIDs(start, next - 2) + {next - 2};
    }
  }

  lemma {:induction false} SubsetCount<T>(a: set<T>, b: set<T>)
    requires a <= b
    ensures |a| <= |b|
    decreases |a|
  {
    if a != {} {
      var x :| x in a;
      SubsetCount(a - {x}, b - {x});
    }
  }

  /** An identifier is taken fresh only when all older ones are in use, so there
      are fewer of them than the stream limit. */
  lemma FreshBelowHighWater<S>(t: Table<S>)
    requires Covered(t) && t.free == [] && |t.live| < t.max
    ensures t.next + 2 <= t.start + 2 * t.max
  {
    OwnIDsCount(t.start, t.next);
    forall id | id in OwnIDs(t.start, t.next) ensures id in t.live {
      var own: UInt32 := id;
      assert t.Owns(own);
    }
    SubsetCount(OwnIDs(t.start, t.next), t.live.Keys);
  }

  function OwnLive<S>(t: Table<S>): set<UInt32> {
    set id | id in t.live && t.Owns(id)
  }

  /** Local-parity live streams never outnumber the stream limit. */
  lemma OwnLiveBelowMax<S>(t: Table<S>)
    requires Conserved(t) && HighWater(t)
    ensures |OwnLive(t)| <= t.max
  {
    OwnIDsCount(t.start, t.next);
    SubsetCount(OwnLive(t), OwnIDs(t.start, t.next));
  }

  lemma FreshKeepsCovered<S>(t: Table<S>, s: S)
    requires Covered(t) && t.free == [] && t.next + 2 < TWO_TO_32
    ensures var t' := t.Allocate().Install(t.next, s); Covered(t') && t'.next == t.next + 2
  {
    var t' := t.Allocate().Install(t.next, s);
    assert t'.next == t.next + 2 && t'.next % 2 == t.next % 2;
    forall id: UInt32 | t'.start <= id < t'.next && t'.Owns(id) ensures id in t'.live {
      assert id == t.next || id < t.next;
      if id < t.next {
        assert t.Owns(id);
      }
    }
  }

  lemma ReuseKeepsCovered<S>(t: Table<S>, s: S)
    requires Covered(t) && t.free != []
    ensures Covered(t.Allocate().Install(t.NextID(), s))
  {
    var k := |t.free| - 1;
    forall id: UInt32 | t.start <= id < t.next && t.Owns(id)
      ensures id in t.live || id == t.free[k] || id in t.free[..k]
    {
    }
  }

  lemma OpenKeepsCovered<S>(t: Table<S>, s: S)
    requires Covered(t) && HighWater(t) && t.CanOpen()
    ensures var t' := t.Allocate().Install(t.NextID(), s); Covered(t') && HighWater(t')
  {
    hide Covered;
    if t.free == [] {
      FreshBelowHighWater(t);
      FreshKeepsCovered(t, s);
    } else {
      ReuseKeepsCovered(t, s);
    }
  }

  lemma DropKeepsCovered<S>(t: Table<S>, id: UInt32)
    requires Covered(t) && HighWater(t)
    ensures Covered(t.Drop(id)) && HighWater(t.Drop(id))
  {
  }

  lemma ReuseKeepsConserved<S>(t: Table<S>, s: S)
    requires Conserved(t) && t.free != []
    ensures var id := t.NextID(); id !in t.live && t.Owns(id) && Conserved(t.Allocate().Install(id, s))
  {
    var k := |t.free| - 1;
    assert t.free[k] in t.free;
    assert t.free[k] !in t.free[..k];
    assert forall id :: id in t.free ==> id == t.free[k] || id in t.free[..k];
    assert forall id :: id in t.free[..k] ==> id in t.free;
  }

  lemma FreshKeepsConserved<S>(t: Table<S>, s: S)
    requires Conserved(t) && t.free == [] && t.next + 2 < TWO_TO_32
    ensures t.next !in t.live && t.Owns(t.next) && Conserved(t.Allocate().Install(t.next, s))
  {
  }

  /** OpenStream never hands out an identifier in use, and keeps conservation. */
  lemma OpenKeepsConserved<S>(t: Table<S>, s: S)
    requires Conserved(t) && HighWater(t) && t.CanOpen()
    ensures t.NextID() !in t.live && t.Owns(t.NextID())
    ensures var t' := t.Allocate().Install(t.NextID(), s); Conserved(t') && HighWater(t')
  {
    hide Conserved;
    assert Covered(t) by { ConservedCovers(t); }
    if t.free == [] {
      FreshBelowHighWater(t);
      FreshKeepsConserved(t, s);
    } else {
      ReuseKeepsConserved(t, s);
    }
  }

  lemma ConservedCovers<S>(t: Table<S>)
    requires Conserved(t)
    ensures Covered(t)
  {
  }

  lemma DropKeepsConserved<S>(t: Table<S>, id: UInt32)
    requires Conserved(t) && HighWater(t)
    requires t.Owns(id) ==> id in t.live
    ensures Conserved(t.Drop(id)) && HighWater(t.Drop(id))
  {
    var t' := t.Drop(id);
    forall i, j | 0 <= i < j < |t'.free| ensures t'.free[i] != t'.free[j] {
      if j == |t.free| {
        assert t.free[i] in t.free;
      }
    }
  }

  lemma PeerInstallKeepsConserved<S>(t: Table<S>, id: UInt32, s: S)
    requires Conserved(t) && HighWater(t) && !t.Owns(id)
    ensures Conserved(t.Install(id, s)) && HighWater(t.Install(id, s))
  {
  }
}
