/** The sidecar file: a snapshot of the table, and its merge into the configured index
    at the next start. File contents are values; their JSON form is not modelled.
 */
module Sidecar {
  import opened Frames
  import opened Ports
  import opened PortIndexes
  import opened Reload
  import opened Admin

  const SIDECAR_VERSION := "1"

  datatype SidecarPort =
    SidecarPort(port: Port, customer: string, service: string, listenAddr: string, maxStreams: int)

  datatype SidecarData = SidecarData(version: string, ports: seq<SidecarPort>)

  datatype File = Missing | Unreadable | Holds(data: SidecarData)

  // -------------------------------------------------------------- save and load

  function Saved(info: PortInfo): SidecarPort {
    SidecarPort(info.port, info.entry.customer, info.entry.service, info.entry.listenAddr, info.entry.maxStreams)
  }

  /** The file holds some listing of the table. */
  ghost predicate Snapshot(file: File, t: Table) {
    exists infos :: Lists(infos, t) && file == Holds(SidecarData(SIDECAR_VERSION, Records(infos)))
  }

  function Records(infos: seq<PortInfo>): (ports: seq<SidecarPort>)
    ensures |ports| == |infos| && forall i :: 0 <= i < |infos| ==> ports[i] == Saved(infos[i])
  {
    seq(|infos|, i requires 0 <= i < |infos| => Saved(infos[i]))
  }

  method SaveCurrentState(infos: seq<PortInfo>) returns (data: SidecarData)
    ensures data == SidecarData(SIDECAR_VERSION, Records(infos))
  {
    var ports: seq<SidecarPort> := [];
    for i := 0 to |infos|
      invariant |ports| == i && forall k :: 0 <= k < i ==> ports[k] == Saved(infos[k])
    {
      ports := ports + [Saved(infos[i])];
    }
    data := SidecarData(SIDECAR_VERSION, ports);
  }

  /** A missing file reads as an empty list; other versions and parse errors do not load. */
  function Load(file: File): Option<seq<SidecarPort>> {
    match file
    case Missing => Some([])
    case Unreadable => None
    case Holds(data) => if data.version != SIDECAR_VERSION then None else Some(data.ports)
  }

  // -------------------------------------------------------------- merge

  predicate Mergeable(sp: SidecarPort, validIP: IPCheck) {
    && 0 < sp.port <= 65535
    && sp.customer != "" && sp.service != ""
    && (sp.listenAddr != "" ==> validIP(sp.listenAddr))
    && sp.maxStreams >= 0
  }

  const NO_LIMIT := RateLimit(0.0, 0)

  function Restored(sp: SidecarPort): IndexEntry {
    IndexEntry(
      PortEntry(sp.customer, sp.service, if sp.listenAddr == "" then DEFAULT_LISTEN_ADDR else sp.listenAddr,
                sp.maxStreams),
      NO_LIMIT)
  }

  ghost predicate FirstAt(ports: seq<SidecarPort>, p: Port, i: int, validIP: IPCheck) {
    && 0 <= i < |ports| && ports[i].port == p && Mergeable(ports[i], validIP)
    && forall j :: 0 <= j < i && ports[j].port == p ==> !Mergeable(ports[j], validIP)
  }

  /** Configured entries win; otherwise the first mergeable record of a port counts. */
  ghost predicate Merges(m: Index, index: Index, ports: seq<SidecarPort>, validIP: IPCheck) {
    && (forall p :: p in index ==> p in m && m[p] == index[p])
    && (forall p :: p in m && p !in index ==>
          exists i :: FirstAt(ports, p, i, validIP) && m[p] == Restored(ports[i]))
    && (forall i :: 0 <= i < |ports| && Mergeable(ports[i], validIP) ==> ports[i].port in m)
  }

  lemma MergeIsUnique(m: Index, n: Index, index: Index, ports: seq<SidecarPort>, validIP: IPCheck)
    requires Merges(m, index, ports, validIP) && Merges(n, index, ports, validIP)
    ensures m == n
  {
    MergeWithin(m, n, index, ports, validIP);
    MergeWithin(n, m, index, ports, validIP);
  }

  lemma MergeWithin(m: Index, n: Index, index: Index, ports: seq<SidecarPort>, validIP: IPCheck)
    requires Merges(m, index, ports, validIP) && Merges(n, index, ports, validIP)
    ensures forall p :: p in m ==> p in n && n[p] == m[p]
  {
    hide Mergeable;
    forall p | p in m
      ensures p in n && n[p] == m[p]
    {
      if p !in index {
        var i :| FirstAt(ports, p, i, validIP) && m[p] == Restored(ports[i]);
        assert ports[i].port in n;
        var j :| FirstAt(ports, p, j, validIP) && n[p] == Restored(ports[j]);
        assert !(i < j) && !(j < i);
      }
    }
  }

  /** The ports for which a mergeable record has been met. */
  ghost predicate Met(seen: set<Port>, ports: seq<SidecarPort>, validIP: IPCheck) {
    forall p: Port :: p in seen <==> exists i :: FirstAt(ports, p, i, validIP)
  }

  lemma FirstSnoc(ports: seq<SidecarPort>, sp: SidecarPort, p: Port, i: int, validIP: IPCheck)
    ensures 0 <= i < |ports| ==> (FirstAt(ports + [sp], p, i, validIP) <==> FirstAt(ports, p, i, validIP))
    ensures FirstAt(ports + [sp], p, |ports|, validIP) <==>
            sp.port == p && Mergeable(sp, validIP)
            && forall j :: 0 <= j < |ports| && ports[j].port == p ==> !Mergeable(ports[j], validIP)
  {
    hide Mergeable;
    var more := ports + [sp];
    assert forall j :: 0 <= j < |ports| ==> more[j] == ports[j];
  }

  /** A port with a mergeable record has a first one. */
  lemma {:induction false} HasFirst(ports: seq<SidecarPort>, k: nat, validIP: IPCheck)
    requires k < |ports| && Mergeable(ports[k], validIP)
    ensures exists i :: FirstAt(ports, ports[k].port, i, validIP)
    decreases k
  {
    if j :| 0 <= j < k && ports[j].port == ports[k].port && Mergeable(ports[j], validIP) {
      HasFirst(ports, j, validIP);
    } else {
      assert FirstAt(ports, ports[k].port, k, validIP);
    }
  }

  lemma MetSnoc(seen: set<Port>, ports: seq<SidecarPort>, sp: SidecarPort, validIP: IPCheck)
    requires Met(seen, ports, validIP)
    ensures Met(if Mergeable(sp, validIP) then seen + {sp.port} else seen, ports + [sp], validIP)
  {
    hide Mergeable;
    var seen' := if Mergeable(sp, validIP) then seen + {sp.port} else seen;
    var more := ports + [sp];
    forall p: Port
      ensures p in seen' <==> exists i :: FirstAt(more, p, i, validIP)
    {
      if i :| FirstAt(more, p, i, validIP) {
        FirstSnoc(ports, sp, p, i, validIP);
      }
      if p in seen {
        var i :| FirstAt(ports, p, i, validIP);
        FirstSnoc(ports, sp, p, i, validIP);
        assert FirstAt(more, p, i, validIP);
      } else if p in seen' {
        assert more[|ports|] == sp;
        HasFirst(more, |ports|, validIP);
      }
    }
  }

  lemma MergesSnoc(m: Index, index: Index, seen: set<Port>, ports: seq<SidecarPort>, sp: SidecarPort,
                   validIP: IPCheck)
    requires Merges(m, index, ports, validIP) && Met(seen, ports, validIP)
    ensures sp.port in seen || sp.port in index || !Mergeable(sp, validIP) ==>
              Merges(m, index, ports + [sp], validIP)
    ensures sp.port !in seen && sp.port !in index && Mergeable(sp, validIP) ==>
              sp.port !in m && Merges(m[sp.port := Restored(sp)], index, ports + [sp], validIP)
  {
    hide Mergeable, Restored;
    var more := ports + [sp];
    forall p | p in m && p !in index
      ensures p in seen && exists i :: FirstAt(more, p, i, validIP) && m[p] == Restored(more[i])
    {
      var i :| FirstAt(ports, p, i, validIP) && m[p] == Restored(ports[i]);
      FirstSnoc(ports, sp, p, i, validIP);
      assert FirstAt(more, p, i, validIP) && more[i] == ports[i];
    }
    forall i | 0 <= i < |ports| && Mergeable(ports[i], validIP)
      ensures ports[i].port in seen && ports[i].port in m
    {
      HasFirst(ports, i, validIP);
    }
    FirstSnoc(ports, sp, sp.port, |ports|, validIP);
    if sp.port in seen {
      var i :| FirstAt(ports, sp.port, i, validIP);
    }
  }

  /** The start-up loop over the sidecar's records. */
  method MergeSidecar(index: Index, ports: seq<SidecarPort>, validIP: IPCheck) returns (entries: Index, merged: nat)
    ensures Merges(entries, index, ports, validIP)
    ensures |entries| == |index| + merged
  {
    hide Merges, Met, Mergeable;
    entries, merged := index, 0;
    var seen: set<Port> := {};
    NoRecords(index, validIP);
    for i := 0 to |ports|
      invariant Met(seen, ports[..i], validIP)
      invariant Merges(entries, index, ports[..i], validIP)
      invariant |entries| == |index| + merged
    {
      var sp := ports[i];
      assert ports[..i + 1] == ports[..i] + [sp];
      MetSnoc(seen, ports[..i], sp, validIP);
      MergesSnoc(entries, index, seen, ports[..i], sp, validIP);
      SeenStays(seen, sp);
      if !Mergeable(sp, validIP) || sp.port in seen {
        continue;
      }
      seen := seen + {sp.port};
      if sp.port in index {
        continue;
      }
      entries := entries[sp.port := Restored(sp)];
      merged := merged + 1;
    }
    assert ports[..|ports|] == ports;
  }

  lemma SeenStays(seen: set<Port>, sp: SidecarPort)
    ensures sp.port in seen ==> seen + {sp.port} == seen
  {
  }

  lemma NoRecords(index: Index, validIP: IPCheck)
    ensures Met({}, [], validIP) && Merges(index, index, [], validIP)
  {
  }

  // -------------------------------------------------------------- start

  function TableOf(index: Index): Table {
    map p | p in index :: index[p].entry
  }

  /** Server start: every index entry is registered in the router. */
  method RegisterPorts(router: PortRouter, index: Index)
    modifies router
    ensures router.portMap == old(router.portMap) + TableOf(index)
  {
    var rest := index.Keys;
    while rest != {}
      invariant rest <= index.Keys
      invariant router.portMap == old(router.portMap) + (TableOf(index) - rest)
      decreases rest
    {
      var port :| port in rest;
      var e := index[port].entry;
      router.AddPortMapping(e.customer, port, e.service, e.listenAddr, e.maxStreams);
      rest := rest - {port};
    }
    assert TableOf(index) - {} == TableOf(index);
  }

  // -------------------------------------------------------------- round trip

  /** A mapping as the admin API makes them. */
  predicate Storable(p: Port, e: PortEntry, validIP: IPCheck) {
    && 0 < p <= 65535
    && e.customer != "" && e.service != ""
    && e.listenAddr != "" && validIP(e.listenAddr)
    && e.maxStreams >= 0
  }

  predicate StorableOutside(t: Table, index: Index, validIP: IPCheck) {
    forall p :: p in t && p !in index ==> Storable(p, t[p], validIP)
  }

  /** What the next start has for a port. */
  function AtRestart(t: Table, index: Index, p: Port, validIP: IPCheck): Option<PortEntry> {
    if p in index then Some(index[p].entry)
    else if p in t && Mergeable(Saved(PortInfo(p, t[p])), validIP)
    then Some(Restored(Saved(PortInfo(p, t[p]))).entry)
    else None
  }

  lemma MatchesAt(t: Table, index: Index, p: Port, validIP: IPCheck)
    ensures AtRestart(t, index, p, validIP) == Get(t, p) <==>
            && (p in index ==> p in t && t[p] == index[p].entry)
            && (p in t && p !in index ==> Storable(p, t[p], validIP))
  {
  }

  /** Saving any table and starting again on the same configuration gives the table
      back exactly when it agrees with the configuration and every other mapping is one
      the admin API could have made. */
  lemma RestartExact(t: Table, infos: seq<PortInfo>, index: Index, m: Index, validIP: IPCheck)
    requires Lists(infos, t) && Merges(m, index, Records(infos), validIP)
    ensures TableOf(m) == t <==> Agrees(t, index) && StorableOutside(t, index, validIP)
  {
    hide Merges, Lists, Records, TableOf, AtRestart, Storable;
    forall p: Port
      ensures Get(TableOf(m), p) == AtRestart(t, index, p, validIP)
      ensures AtRestart(t, index, p, validIP) == Get(t, p) <==>
              && (p in index ==> p in t && t[p] == index[p].entry)
              && (p in t && p !in index ==> Storable(p, t[p], validIP))
    {
      RestartAt(t, infos, index, m, validIP, p);
      MatchesAt(t, index, p, validIP);
    }
    hide Get;
    if Agrees(t, index) && StorableOutside(t, index, validIP) {
      SameTable(TableOf(m), t);
    }
  }

  lemma RestartAt(t: Table, infos: seq<PortInfo>, index: Index, m: Index, validIP: IPCheck, p: Port)
    requires Lists(infos, t) && Merges(m, index, Records(infos), validIP)
    ensures Get(TableOf(m), p) == AtRestart(t, index, p, validIP)
  {
    hide Mergeable, Restored;
    var ports := Records(infos);
    if p !in index {
      if p in m {
        var i :| FirstAt(ports, p, i, validIP) && m[p] == Restored(ports[i]);
        assert infos[i] == PortInfo(p, t[p]);
      }
      if p in t {
        var i :| 0 <= i < |infos| && infos[i].port == p;
        assert infos[i] == PortInfo(p, t[p]) && ports[i] == Saved(infos[i]);
      }
    }
  }

  /** The same through the file: what a save left there always loads again. */
  lemma RestartFromFile(t: Table, file: File, index: Index, m: Index, validIP: IPCheck)
    requires Snapshot(file, t)
    ensures Load(file).Some?
    ensures Merges(m, index, Load(file).value, validIP) ==>
              (TableOf(m) == t <==> Agrees(t, index) && StorableOutside(t, index, validIP))
  {
    hide Lists, Merges, Agrees, StorableOutside;
    var infos :| Lists(infos, t) && file == Holds(SidecarData(SIDECAR_VERSION, Records(infos)));
    if Merges(m, index, Load(file).value, validIP) {
      RestartExact(t, infos, index, m, validIP);
    }
  }

  /** The admin requests keep every mapping outside the configuration storable. */
  lemma AdminKeepsStorable(s: State, e: Event, index: Index, validIP: IPCheck)
    requires StorableOutside(s.table, index, validIP) && validIP(DEFAULT_LISTEN_ADDR) && !e.Reloading?
    ensures StorableOutside(Do(s, e, validIP).table, index, validIP)
  {
    var t' := Do(s, e, validIP).table;
    forall p | p in t' && p !in index
      ensures Storable(p, t'[p], validIP)
    {
      assert p in s.table ==> Storable(p, s.table[p], validIP);
    }
  }

  /** So does the start itself. */
  lemma StartIsStorable(index: Index, ports: seq<SidecarPort>, m: Index, validIP: IPCheck)
    requires Merges(m, index, ports, validIP) && validIP(DEFAULT_LISTEN_ADDR)
    ensures StorableOutside(TableOf(m), index, validIP) && Agrees(TableOf(m), index)
  {
    forall p | p in m && p !in index
      ensures Storable(p, m[p].entry, validIP)
    {
      var i :| FirstAt(ports, p, i, validIP) && m[p] == Restored(ports[i]);
    }
  }

  /** The mappings that a reload leaves behind, because they no longer belong to the
      customer the old configuration names, could all be stored. */
  predicate StrandsStorable(t: Table, before: Index, after: Index, validIP: IPCheck) {
    forall p :: p in before && p !in after && p in t && t[p].customer != before[p].entry.customer ==>
      Storable(p, t[p], validIP)
  }

  /** A reload keeps the mappings outside the configuration storable exactly when those
      it leaves behind are. */
  lemma ReloadKeepsStorableExactly(t: Table, before: Index, after: Index, bound: set<Port>, validIP: IPCheck)
    requires StorableOutside(t, before, validIP)
    ensures StorableOutside(Reconciled(t, before, after, bound).table, after, validIP) <==>
            StrandsStorable(t, before, after, validIP)
  {
    hide Storable;
    var t' := Reconciled(t, before, after, bound).table;
    forall p: Port
      ensures p in t' && p !in after <==>
              p !in after && p in t && (p in before ==> t[p].customer != before[p].entry.customer)
      ensures p in t' && p !in after ==> t'[p] == t[p]
    {
      ReconciledAt(t, before, after, bound, p);
      hide Reconciled;
    }
    hide Reconciled;
  }

  /** An event that keeps every mapping outside the configuration storable: any create,
      update, delete or refused reload, and any reload that strands storable mappings only. */
  predicate KeepsRestart(s: State, e: Event, validIP: IPCheck) {
    e.Reloading? && Distinct(Flatten(e.cfg)) ==>
      StrandsStorable(s.table, IndexOfConfig(s.cfg), IndexOfConfig(Some(e.cfg)), validIP)
  }

  predicate KeepsRestarts(s: State, es: seq<Event>, validIP: IPCheck)
    decreases es
  {
    es == [] || (KeepsRestart(s, es[0], validIP) && KeepsRestarts(Do(s, es[0], validIP), es[1..], validIP))
  }

  lemma EventKeepsStorable(s: State, e: Event, validIP: IPCheck)
    requires StorableOutside(s.table, IndexOfConfig(s.cfg), validIP) && validIP(DEFAULT_LISTEN_ADDR)
    requires KeepsRestart(s, e, validIP)
    ensures StorableOutside(Do(s, e, validIP).table, IndexOfConfig(Do(s, e, validIP).cfg), validIP)
  {
    if e.Reloading? {
      hide StorableOutside, StrandsStorable, Distinct, Reconciled, IndexOfConfig;
      ReloadKeepsStorableExactly(s.table, IndexOfConfig(s.cfg), IndexOfConfig(Some(e.cfg)), e.bound, validIP);
    } else {
      AdminKeepsStorable(s, e, IndexOfConfig(s.cfg), validIP);
      hide StorableOutside, CreatePort, UpdatePort, DeletePort;
    }
  }

  lemma {:induction false} RunKeepsStorable(s: State, es: seq<Event>, validIP: IPCheck)
    requires StorableOutside(s.table, IndexOfConfig(s.cfg), validIP) && validIP(DEFAULT_LISTEN_ADDR)
    requires KeepsRestarts(s, es, validIP)
    ensures StorableOutside(Run(s, es, validIP).table, IndexOfConfig(Run(s, es, validIP).cfg), validIP)
    decreases es
  {
    if es != [] {
      hide StorableOutside, Do, IndexOfConfig, KeepsRestart;
      EventKeepsStorable(s, es[0], validIP);
      RunKeepsStorable(Do(s, es[0], validIP), es[1..], validIP);
    }
  }

  /** Start from any configuration and sidecar, serve any requests and reloads of the
      kind above, save, and start again on the configuration last applied: the second
      start has the saved table exactly when that table still agrees with the
      configuration. No mapping outside it is ever skipped. */
  lemma RestartAfterRun(cfg: Config, ports: seq<SidecarPort>, m: Index, es: seq<Event>,
                        infos: seq<PortInfo>, n: Index, validIP: IPCheck)
    requires validIP(DEFAULT_LISTEN_ADDR) && Merges(m, IndexOfConfig(Some(cfg)), ports, validIP)
    requires KeepsRestarts(State(TableOf(m), Some(cfg)), es, validIP)
    requires Lists(infos, Run(State(TableOf(m), Some(cfg)), es, validIP).table)
    requires Merges(n, IndexOfConfig(Run(State(TableOf(m), Some(cfg)), es, validIP).cfg), Records(infos), validIP)
    ensures var s := Run(State(TableOf(m), Some(cfg)), es, validIP);
            var index := IndexOfConfig(s.cfg);
            && (TableOf(n) == s.table <==> Agrees(s.table, index))
            && (forall p :: p in s.table && p !in index ==> Get(TableOf(n), p) == Get(s.table, p))
  {
    var s0 := State(TableOf(m), Some(cfg));
    StartIsStorable(IndexOfConfig(Some(cfg)), ports, m, validIP);
    hide Run, TableOf, Merges, Lists, Records, Agrees, AtRestart, Storable, Get, IndexOfConfig, KeepsRestarts;
    RunKeepsStorable(s0, es, validIP);
    var s := Run(s0, es, validIP);
    var t, index := s.table, IndexOfConfig(s.cfg);
    RestartExact(t, infos, index, n, validIP);
    forall p | p in t && p !in index
      ensures Get(TableOf(n), p) == Get(t, p)
    {
      RestartAt(t, infos, index, n, validIP, p);
      MatchesAt(t, index, p, validIP);
    }
  }

  predicate Elsewhere(e: Event, index: Index) {
    match e
    case Reloading(_, _) => false
    case Creating(req, _) => req.port !in index
    case Updating(port, _) => port !in index
    case Deleting(port) => port !in index
  }

  /** Requests about other ports leave the agreement alone. */
  lemma {:induction false} AgreementKept(s: State, es: seq<Event>, index: Index, validIP: IPCheck)
    requires Agrees(s.table, index) && forall i :: 0 <= i < |es| ==> Elsewhere(es[i], index)
    ensures Agrees(Run(s, es, validIP).table, index)
    decreases es
  {
    if es != [] {
      assert Elsewhere(es[0], index);
      AgreementKept(Do(s, es[0], validIP), es[1..], index, validIP);
    }
  }
}
