/** Reconciling the port table with a new configuration: two loops over maps, whose
    iteration order the language leaves open, against one closed form.
 */
module Reload {
  import opened Frames
  import opened Ports
  import opened PortIndexes

  datatype Outcome = Unchanged | Added | Removed | Updated | Rejected

  datatype Summary = Summary(added: nat, removed: nat, updated: nat, rejected: nat)

  const NOTHING := Summary(0, 0, 0, 0)

  datatype Progress = Progress(table: Table, summary: Summary)

  function Tally(s: Summary, o: Outcome): Summary {
    match o
    case Unchanged => s
    case Added => s.(added := s.added + 1)
    case Removed => s.(removed := s.removed + 1)
    case Updated => s.(updated := s.updated + 1)
    case Rejected => s.(rejected := s.rejected + 1)
  }

  function Counted(s: Summary, o: Outcome): nat {
    match o
    case Unchanged => 0
    case Added => s.added
    case Removed => s.removed
    case Updated => s.updated
    case Rejected => s.rejected
  }

  predicate MutableFieldsDiffer(a: PortEntry, b: PortEntry) {
    a.service != b.service || a.listenAddr != b.listenAddr || a.maxStreams != b.maxStreams
  }

  // ------------------------------------------ what each loop does to one port

  /** The switch in the loop over the new index. `bound` holds the ports whose
      listener starts: an added mapping is taken back when its listener fails. */
  function NewTurn(before: Index, after: Index, bound: set<Port>, p: Port, cur: Option<PortEntry>)
    : (Option<PortEntry>, Outcome)
  {
    if p !in after then (cur, Unchanged)
    else if p !in before then
      if p in bound then (Some(after[p].entry), Added) else (None, Unchanged)
    else if before[p].entry.customer != after[p].entry.customer then (cur, Rejected)
    else if MutableFieldsDiffer(before[p].entry, after[p].entry) && cur.Some? then
      (Some(after[p].entry.(customer := cur.value.customer)), Updated)
    else (cur, Unchanged)
  }

  /** The loop over the old index: a mapping goes only if it still belongs to the
      customer the old configuration names. */
  function OldTurn(before: Index, after: Index, p: Port, cur: Option<PortEntry>): (Option<PortEntry>, Outcome) {
    if p in before && p !in after && cur.Some? && cur.value.customer == before[p].entry.customer
    then (None, Removed)
    else (cur, Unchanged)
  }

  type Turn = (Port, Option<PortEntry>) -> (Option<PortEntry>, Outcome)

  function Visit(turn: Turn, p: Port, s: Progress): Progress {
    var (e, o) := turn(p, Get(s.table, p));
    Progress(Set(s.table, p, e), Tally(s.summary, o))
  }

  /** A loop that visits the ports in the given order. */
  function Pass(turn: Turn, order: seq<Port>, s: Progress): Progress {
    if order == [] then s else Visit(turn, order[|order| - 1], Pass(turn, order[..|order| - 1], s))
  }

  predicate Visits(order: seq<Port>, keys: set<Port>) {
    && (forall i, j :: 0 <= i < j < |order| ==> order[i] != order[j])
    && (forall p: Port :: p in order <==> p in keys)
  }

  function NewLoop(before: Index, after: Index, bound: set<Port>): Turn {
    (p: Port, cur: Option<PortEntry>) => NewTurn(before, after, bound, p, cur)
  }

  function OldLoop(before: Index, after: Index): Turn {
    (p: Port, cur: Option<PortEntry>) => OldTurn(before, after, p, cur)
  }

  /** Both loops, each in an order of its own. */
  function Applied(t: Table, before: Index, after: Index, bound: set<Port>, first: seq<Port>, second: seq<Port>)
    : Progress
  {
    Pass(OldLoop(before, after), second, Pass(NewLoop(before, after, bound), first, Progress(t, NOTHING)))
  }

  // ------------------------------------------------------------ closed form

  /** What happens to a port, as a function of the two indexes and its own mapping. */
  function Fate(before: Index, after: Index, bound: set<Port>, p: Port, cur: Option<PortEntry>)
    : (Option<PortEntry>, Outcome)
  {
    if p in after then NewTurn(before, after, bound, p, cur) else OldTurn(before, after, p, cur)
  }

  function FateIn(t: Table, before: Index, after: Index, bound: set<Port>, p: Port): (Option<PortEntry>, Outcome) {
    Fate(before, after, bound, p, Get(t, p))
  }

  /** The ports of the diff class that took effect. */
  function Class(t: Table, before: Index, after: Index, bound: set<Port>, o: Outcome): set<Port> {
    set p | p in before.Keys + after.Keys && FateIn(t, before, after, bound, p).1 == o
  }

  function Reconciled(t: Table, before: Index, after: Index, bound: set<Port>): Progress {
    Progress(
      map p | p in t.Keys + after.Keys && FateIn(t, before, after, bound, p).0.Some?
        :: FateIn(t, before, after, bound, p).0.value,
      Summary(
        |Class(t, before, after, bound, Added)|,
        |Class(t, before, after, bound, Removed)|,
        |Class(t, before, after, bound, Updated)|,
        |Class(t, before, after, bound, Rejected)|))
  }

  // -------------------------------------------------------- order does not matter

  /** A pass treats every port by itself, whatever the order. */
  lemma {:induction false} PassIsPointwise(turn: Turn, order: seq<Port>, s: Progress, p: Port)
    requires forall i, j :: 0 <= i < j < |order| ==> order[i] != order[j]
    ensures Get(Pass(turn, order, s).table, p) ==
            if p in order then turn(p, Get(s.table, p)).0 else Get(s.table, p)
    decreases |order|
  {
    if order != [] {
      var n := |order| - 1;
      PassIsPointwise(turn, order[..n], s, p);
      PassIsPointwise(turn, order[..n], s, order[n]);
      assert order == order[..n] + [order[n]];
    }
  }

  function Met(turn: Turn, order: seq<Port>, t: Table, o: Outcome): set<Port> {
    set p | p in order && turn(p, Get(t, p)).1 == o
  }

  lemma MetOneMore(turn: Turn, order: seq<Port>, p: Port, t: Table, o: Outcome)
    requires p !in order
    ensures |Met(turn, order + [p], t, o)| ==
            |Met(turn, order, t, o)| + if turn(p, Get(t, p)).1 == o then 1 else 0
  {
    hide Get;
    var prior, more := Met(turn, order, t, o), Met(turn, order + [p], t, o);
    assert forall q: Port :: q in order + [p] <==> q in order || q == p;
    if turn(p, Get(t, p)).1 == o {
      assert more == prior + {p};
    } else {
      assert more == prior;
    }
  }

  lemma VisitCounts(turn: Turn, p: Port, s: Progress, o: Outcome)
    requires o != Unchanged
    ensures Counted(Visit(turn, p, s).summary, o) ==
            Counted(s.summary, o) + if turn(p, Get(s.table, p)).1 == o then 1 else 0
  {
  }

  /** And counts every port by itself. */
  lemma {:induction false} PassCounts(turn: Turn, order: seq<Port>, s: Progress, o: Outcome)
    requires forall i, j :: 0 <= i < j < |order| ==> order[i] != order[j]
    requires o != Unchanged
    ensures Counted(Pass(turn, order, s).summary, o) == Counted(s.summary, o) + |Met(turn, order, s.table, o)|
    decreases |order|
  {
    if order == [] {
      assert Met(turn, order, s.table, o) == {};
    } else {
      var n := |order| - 1;
      var p := order[n];
      hide Visit, Counted, Get, Met;
      PassCounts(turn, order[..n], s, o);
      PassIsPointwise(turn, order[..n], s, p);
      VisitCounts(turn, p, Pass(turn, order[..n], s), o);
      assert order == order[..n] + [p];
      MetOneMore(turn, order[..n], p, s.table, o);
    }
  }

  lemma AppliedTable(t: Table, before: Index, after: Index, bound: set<Port>, first: seq<Port>, second: seq<Port>)
    requires Visits(first, after.Keys) && Visits(second, before.Keys)
    ensures Applied(t, before, after, bound, first, second).table == Reconciled(t, before, after, bound).table
  {
    var f := NewLoop(before, after, bound);
    var g := OldLoop(before, after);
    var mid := Pass(f, first, Progress(t, NOTHING));
    var got := Pass(g, second, mid).table;
    var want := Reconciled(t, before, after, bound).table;
    forall p: Port
      ensures Get(got, p) == Get(want, p)
    {
      PassIsPointwise(f, first, Progress(t, NOTHING), p);
      PassIsPointwise(g, second, mid, p);
    }
    SameTable(got, want);
  }

  lemma SameTable(t: Table, u: Table)
    requires forall p: Port :: Get(t, p) == Get(u, p)
    ensures t == u
  {
    forall p: Port
      ensures p in t <==> p in u
      ensures p in t && p in u ==> t[p] == u[p]
    {
      assert Get(t, p) == Get(u, p);
    }
  }

  lemma NewLoopMeets(t: Table, before: Index, after: Index, bound: set<Port>, first: seq<Port>, o: Outcome)
    requires Visits(first, after.Keys)
    ensures Met(NewLoop(before, after, bound), first, t, o) == Class(t, before, after, bound, o) * after.Keys
  {
    var met, ports := Met(NewLoop(before, after, bound), first, t, o), Class(t, before, after, bound, o);
    forall p: Port
      ensures p in met <==> p in ports * after.Keys
    {
      assert p in first <==> p in after.Keys;
    }
  }

  lemma OldLoopMeets(t: Table, mid: Table, before: Index, after: Index, bound: set<Port>, second: seq<Port>, o: Outcome)
    requires Visits(second, before.Keys) && o != Unchanged
    requires forall p: Port :: p !in after ==> Get(mid, p) == Get(t, p)
    ensures Met(OldLoop(before, after), second, mid, o) == Class(t, before, after, bound, o) - after.Keys
  {
    var met, ports := Met(OldLoop(before, after), second, mid, o), Class(t, before, after, bound, o);
    hide Get;
    forall p: Port
      ensures p in met <==> p in ports - after.Keys
    {
      assert p in second <==> p in before.Keys;
      assert p !in after ==> Get(mid, p) == Get(t, p);
    }
  }

  lemma OutsideFirst(turn: Turn, order: seq<Port>, s: Progress, keys: set<Port>)
    requires Visits(order, keys)
    ensures forall p: Port :: p !in keys ==> Get(Pass(turn, order, s).table, p) == Get(s.table, p)
  {
    forall p: Port | p !in keys
      ensures Get(Pass(turn, order, s).table, p) == Get(s.table, p)
    {
      PassIsPointwise(turn, order, s, p);
    }
  }

  lemma AppliedCounts(t: Table, before: Index, after: Index, bound: set<Port>, first: seq<Port>, second: seq<Port>,
                      o: Outcome)
    requires Visits(first, after.Keys) && Visits(second, before.Keys) && o != Unchanged
    ensures Counted(Applied(t, before, after, bound, first, second).summary, o) ==
            |Class(t, before, after, bound, o)|
  {
    hide Pass, NewLoop, OldLoop, Met, Class, Get;
    var f, g := NewLoop(before, after, bound), OldLoop(before, after);
    var s := Progress(t, NOTHING);
    var mid := Pass(f, first, s);
    PassCounts(f, first, s, o);
    PassCounts(g, second, mid, o);
    NewLoopMeets(t, before, after, bound, first, o);
    OutsideFirst(f, first, s, after.Keys);
    OldLoopMeets(t, mid.table, before, after, bound, second, o);
    var ports := Class(t, before, after, bound, o);
    assert ports == ports * after.Keys + (ports - after.Keys);
    assert Counted(NOTHING, o) == 0;
  }

  /** Whatever order either loop takes, the table and the counts are the closed form. */
  lemma ReloadConfluent(t: Table, before: Index, after: Index, bound: set<Port>, first: seq<Port>, second: seq<Port>)
    requires Visits(first, after.Keys) && Visits(second, before.Keys)
    ensures Applied(t, before, after, bound, first, second) == Reconciled(t, before, after, bound)
  {
    var s := Applied(t, before, after, bound, first, second).summary;
    AppliedTable(t, before, after, bound, first, second);
    AppliedCounts(t, before, after, bound, first, second, Added);
    AppliedCounts(t, before, after, bound, first, second, Removed);
    AppliedCounts(t, before, after, bound, first, second, Updated);
    AppliedCounts(t, before, after, bound, first, second, Rejected);
    hide Applied, Class, FateIn;
    assert s == Summary(Counted(s, Added), Counted(s, Removed), Counted(s, Updated), Counted(s, Rejected));
  }

  // ------------------------------------------------------------ consequences

  /** The table has every port of the index exactly as the index says. */
  predicate Agrees(t: Table, index: Index) {
    forall p :: p in index ==> p in t && t[p] == index[p].entry
  }

  /** No customer change and every new port's listener starts. */
  predicate Clean(before: Index, after: Index, bound: set<Port>) {
    forall p :: p in after ==>
      if p in before then before[p].entry.customer == after[p].entry.customer else p in bound
  }

  lemma ReconciledAt(t: Table, before: Index, after: Index, bound: set<Port>, p: Port)
    ensures Get(Reconciled(t, before, after, bound).table, p) == FateIn(t, before, after, bound, p).0
  {
  }

  /** A table in agreement stays so exactly when the reload is clean. */
  lemma AgreesExactlyWhenClean(t: Table, before: Index, after: Index, bound: set<Port>)
    requires Agrees(t, before)
    ensures Agrees(Reconciled(t, before, after, bound).table, after) <==> Clean(before, after, bound)
  {
    var t' := Reconciled(t, before, after, bound).table;
    forall p | p in after
      ensures (p in t' && t'[p] == after[p].entry) <==>
              if p in before then before[p].entry.customer == after[p].entry.customer else p in bound
    {
      ReconciledAt(t, before, after, bound, p);
      hide Reconciled;
    }
  }

  /** Reloading the same configuration does nothing, to any table. */
  lemma ReloadUnchanged(t: Table, index: Index, bound: set<Port>)
    ensures Reconciled(t, index, index, bound) == Progress(t, NOTHING)
  {
    var r := Reconciled(t, index, index, bound);
    forall p: Port
      ensures Get(r.table, p) == Get(t, p)
    {
      ReconciledAt(t, index, index, bound, p);
    }
    SameTable(r.table, t);
    assert forall o :: o != Unchanged ==> Class(t, index, index, bound, o) == {};
    assert Class(t, index, index, bound, Added) == {} && Class(t, index, index, bound, Removed) == {};
    assert Class(t, index, index, bound, Updated) == {} && Class(t, index, index, bound, Rejected) == {};
  }

  /** Ports that the two configurations give to different customers. */
  function Moved(before: Index, after: Index): set<Port> {
    set p | p in before.Keys * after.Keys && before[p].entry.customer != after[p].entry.customer
  }

  /** Mapped ports of one customer whose other fields changed. */
  function Altered(t: Table, before: Index, after: Index): set<Port> {
    set p | p in before.Keys * after.Keys - Moved(before, after)
            && MutableFieldsDiffer(before[p].entry, after[p].entry) && p in t
  }

  /** Dropped ports that still belong to their old customer. */
  function Orphaned(t: Table, before: Index, after: Index): set<Port> {
    set p | p in before.Keys - after.Keys && CustomerOf(t, p) == Some(before[p].entry.customer)
  }

  lemma NewClasses(t: Table, before: Index, after: Index, bound: set<Port>)
    ensures Class(t, before, after, bound, Added) == (after.Keys - before.Keys) * bound
    ensures Class(t, before, after, bound, Rejected) == Moved(before, after)
  {
  }

  lemma OtherClasses(t: Table, before: Index, after: Index, bound: set<Port>)
    ensures Class(t, before, after, bound, Updated) == Altered(t, before, after)
    ensures Class(t, before, after, bound, Removed) == Orphaned(t, before, after)
  {
  }

  /** The counts, said without the loops: the sizes of the four diff classes, of which
      additions need their listener and updates and removals a mapping to act on. */
  lemma SummaryExact(t: Table, before: Index, after: Index, bound: set<Port>)
    ensures Reconciled(t, before, after, bound).summary ==
            Summary(|(after.Keys - before.Keys) * bound|, |Orphaned(t, before, after)|,
                    |Altered(t, before, after)|, |Moved(before, after)|)
  {
    hide Class, Moved, Altered, Orphaned;
    NewClasses(t, before, after, bound);
    OtherClasses(t, before, after, bound);
  }

  /** Ports in neither configuration keep their mapping. */
  lemma OthersUntouched(t: Table, before: Index, after: Index, bound: set<Port>, p: Port)
    requires p !in before && p !in after
    ensures Get(Reconciled(t, before, after, bound).table, p) == Get(t, p)
  {
    ReconciledAt(t, before, after, bound, p);
  }

  /** A port in both configurations keeps its customer, whatever they say. */
  lemma CustomerKept(t: Table, before: Index, after: Index, bound: set<Port>, p: Port)
    requires p in before && p in after
    ensures CustomerOf(Reconciled(t, before, after, bound).table, p) == CustomerOf(t, p)
  {
    ReconciledAt(t, before, after, bound, p);
  }

  /** Exactly when a reload moves a mapped port to another customer: the port is new to
      the configuration, its listener starts, and the configuration gives it to someone
      else than the admin API did. */
  lemma CustomerMovesExactlyWhenNew(t: Table, before: Index, after: Index, bound: set<Port>, p: Port)
    requires p in t
    ensures var t' := Reconciled(t, before, after, bound).table;
            p in t' && t'[p].customer != t[p].customer <==>
            p in after && p !in before && p in bound && after[p].entry.customer != t[p].customer
  {
    ReconciledAt(t, before, after, bound, p);
    hide Reconciled;
  }

  /** A dropped port's mapping goes exactly when it still belongs to the customer
      that the last applied configuration names. */
  lemma DroppedExactlyWhenOwned(t: Table, before: Index, after: Index, bound: set<Port>, p: Port)
    requires p in before && p !in after && p in t
    ensures p !in Reconciled(t, before, after, bound).table <==> t[p].customer == before[p].entry.customer
  {
    ReconciledAt(t, before, after, bound, p);
  }

  // ------------------------------------------------------------- whole runs

  datatype Step = Step(after: Index, bound: set<Port>)

  /** The tables and indexes after each of a list of reloads, the start included. */
  function TableAfter(t: Table, index: Index, steps: seq<Step>): Table
    decreases |steps|
  {
    if steps == [] then t else
    var n := |steps| - 1;
    Reconciled(TableAfter(t, index, steps[..n]), IndexAfter(index, steps[..n]), steps[n].after, steps[n].bound).table
  }

  function IndexAfter(index: Index, steps: seq<Step>): Index {
    if steps == [] then index else steps[|steps| - 1].after
  }

  predicate AgreesThroughout(t: Table, index: Index, steps: seq<Step>) {
    && (steps != [] ==> AgreesThroughout(t, index, steps[..|steps| - 1]))
    && Agrees(TableAfter(t, index, steps), IndexAfter(index, steps))
  }

  predicate CleanThroughout(index: Index, steps: seq<Step>) {
    steps != [] ==>
      var n := |steps| - 1;
      && CleanThroughout(index, steps[..n])
      && Clean(IndexAfter(index, steps[..n]), steps[n].after, steps[n].bound)
  }

  /** From an agreeing table, the table agrees with the latest configuration after
      every reload exactly when every reload is clean. */
  lemma {:induction false} ConvergesExactlyWhenClean(t: Table, index: Index, steps: seq<Step>)
    requires Agrees(t, index)
    ensures AgreesThroughout(t, index, steps) <==> CleanThroughout(index, steps)
    decreases |steps|
  {
    hide Agrees, Clean, Reconciled;
    if steps != [] {
      var n := |steps| - 1;
      ConvergesExactlyWhenClean(t, index, steps[..n]);
      var u, before := TableAfter(t, index, steps[..n]), IndexAfter(index, steps[..n]);
      if Agrees(u, before) {
        AgreesExactlyWhenClean(u, before, steps[n].after, steps[n].bound);
      }
    }
  }

  /** A refused customer change is remembered as applied: when the port is dropped
      later, its mapping stays behind, and stays only then. */
  lemma RejectedChangeStrandsMapping(t: Table, a: Index, b: Step, c: Step, p: Port)
    requires Agrees(t, a) && p in a && p in b.after && p !in c.after
    ensures var u := Reconciled(t, a, b.after, b.bound).table;
            var v := Reconciled(u, b.after, c.after, c.bound).table;
            if a[p].entry.customer != b.after[p].entry.customer then Get(v, p) == Some(a[p].entry) else p !in v
  {
    ReconciledAt(t, a, b.after, b.bound, p);
    ReconciledAt(Reconciled(t, a, b.after, b.bound).table, b.after, c.after, c.bound, p);
    hide Reconciled;
  }
}
