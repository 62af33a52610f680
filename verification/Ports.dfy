/** The relay's port table: which customer and service a relay-side port leads to. */
module Ports {
  import opened Frames

  const DEFAULT_LISTEN_ADDR := "0.0.0.0"

  datatype PortEntry = PortEntry(customer: string, service: string, listenAddr: string, maxStreams: int)

  /** A port number as it is held: a machine integer, not yet checked for range. */
  type Port = p: int | -0x8000_0000_0000_0000 <= p < 0x8000_0000_0000_0000

  type Table = map<Port, PortEntry>

  datatype PortInfo = PortInfo(port: Port, entry: PortEntry)

  function Get(t: Table, port: Port): Option<PortEntry> {
    if port in t then Some(t[port]) else None
  }

  /** The table with one port set, or cleared. */
  function Set(t: Table, port: Port, e: Option<PortEntry>): Table {
    if e.Some? then t[port := e.value] else t - {port}
  }

  function CustomerOf(t: Table, port: Port): Option<string> {
    if port in t then Some(t[port].customer) else None
  }

  /** A listing of the table without the ports in `rest`: each mapping once, in some order. */
  ghost predicate ListsAllBut(infos: seq<PortInfo>, t: Table, rest: set<Port>) {
    && (forall i :: 0 <= i < |infos| ==> infos[i].port in t && infos[i].port !in rest)
    && (forall i :: 0 <= i < |infos| ==> infos[i].entry == t[infos[i].port])
    && (forall i, j :: 0 <= i < j < |infos| ==> infos[i].port != infos[j].port)
    && (forall p :: p in t && p !in rest ==> exists i :: 0 <= i < |infos| && infos[i].port == p)
  }

  ghost predicate Lists(infos: seq<PortInfo>, t: Table) {
    ListsAllBut(infos, t, {})
  }

  lemma ListsOneMore(infos: seq<PortInfo>, t: Table, rest: set<Port>, port: Port)
    requires ListsAllBut(infos, t, rest) && port in rest && port in t
    ensures ListsAllBut(infos + [PortInfo(port, t[port])], t, rest - {port})
  {
    var more := infos + [PortInfo(port, t[port])];
    forall p | p in t && p !in rest - {port}
      ensures exists i :: 0 <= i < |more| && more[i].port == p
    {
      if p == port {
        assert more[|infos|].port == p;
      } else {
        var i :| 0 <= i < |infos| && infos[i].port == p;
        assert more[i].port == p;
      }
    }
  }

  class PortRouter {
    var portMap: Table

    constructor ()
      ensures portMap == map[]
    {
      portMap := map[];
    }

    method AddPortMapping(customer: string, port: Port, service: string, listenAddr: string, maxStreams: int)
      modifies this
      ensures portMap == Set(old(portMap), port, Some(PortEntry(customer, service, listenAddr, maxStreams)))
    {
      portMap := portMap[port := PortEntry(customer, service, listenAddr, maxStreams)];
    }

    /** The customer of a mapping never changes here. */
    method UpdatePortMapping(port: Port, service: string, listenAddr: string, maxStreams: int) returns (ok: bool)
      modifies this
      ensures ok == (port in old(portMap))
      ensures portMap == if !ok then old(portMap)
                         else Set(old(portMap), port,
                                  Some(PortEntry(old(portMap)[port].customer, service, listenAddr, maxStreams)))
      ensures forall p: Port :: CustomerOf(portMap, p) == CustomerOf(old(portMap), p)
    {
      if port !in portMap {
        return false;
      }
      portMap := portMap[port := PortEntry(portMap[port].customer, service, listenAddr, maxStreams)];
      ok := true;
    }

    method RemovePortMapping(customer: string, port: Port) returns (ok: bool)
      modifies this
      ensures ok == (CustomerOf(old(portMap), port) == Some(customer))
      ensures portMap == if ok then Set(old(portMap), port, None) else old(portMap)
    {
      if port !in portMap || portMap[port].customer != customer {
        return false;
      }
      portMap := portMap - {port};
      ok := true;
    }

    method GetPort(port: Port) returns (info: Option<PortInfo>)
      ensures info == if port in portMap then Some(PortInfo(port, portMap[port])) else None
    {
      info := if port in portMap then Some(PortInfo(port, portMap[port])) else None;
    }

    /** The loop visits the map in an order nothing here depends on. */
    method ListPorts() returns (infos: seq<PortInfo>)
      ensures Lists(infos, portMap)
    {
      infos := [];
      var rest := portMap.Keys;
      while rest != {}
        invariant rest <= portMap.Keys && ListsAllBut(infos, portMap, rest)
        decreases rest
      {
        var port :| port in rest;
        ListsOneMore(infos, portMap, rest, port);
        infos := infos + [PortInfo(port, portMap[port])];
        rest := rest - {port};
      }
    }
  }
}
