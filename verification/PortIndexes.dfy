/** The port index of a configuration, built in two places of the program. */
module PortIndexes {
  import opened Frames
  import opened Ports

  datatype RateLimit = RateLimit(rps: real, burst: int)

  datatype PortConfig = PortConfig(port: Port, service: string, listenAddr: string)

  datatype CustomerConfig = CustomerConfig(id: string, ports: seq<PortConfig>, maxStreams: int, rateLimit: RateLimit)

  type Config = seq<CustomerConfig>

  datatype IndexEntry = IndexEntry(entry: PortEntry, rateLimit: RateLimit)

  type Index = map<Port, IndexEntry>

  function EntryFor(c: CustomerConfig, p: PortConfig): IndexEntry {
    IndexEntry(
      PortEntry(c.id, p.service, if p.listenAddr == "" then DEFAULT_LISTEN_ADDR else p.listenAddr, c.maxStreams),
      c.rateLimit)
  }

  // ------------------------------------------------- the flattened tree

  datatype Row = Row(port: Port, entry: IndexEntry)

  function Rows(c: CustomerConfig, ports: seq<PortConfig>): (rows: seq<Row>)
    ensures |rows| == |ports|
    ensures forall i :: 0 <= i < |rows| ==> rows[i] == Row(ports[i].port, EntryFor(c, ports[i]))
  {
    seq(|ports|, i requires 0 <= i < |ports| => Row(ports[i].port, EntryFor(c, ports[i])))
  }

  /** All (customer, port) pairs of a configuration in the order they are written. */
  function Flatten(cfg: Config): seq<Row> {
    if cfg == [] then [] else Flatten(cfg[..|cfg| - 1]) + Rows(cfg[|cfg| - 1], cfg[|cfg| - 1].ports)
  }

  predicate Distinct(rows: seq<Row>) {
    forall i, j :: 0 <= i < j < |rows| ==> rows[i].port != rows[j].port
  }

  /** `m` indexes `rows`: exactly the ports that occur, each with its last row. */
  ghost predicate Indexes(m: Index, rows: seq<Row>) {
    && (forall p :: p in m ==> exists i :: LastAt(rows, p, i) && m[p] == rows[i].entry)
    && (forall i :: 0 <= i < |rows| ==> rows[i].port in m)
  }

  ghost predicate LastAt(rows: seq<Row>, p: Port, i: int) {
    && 0 <= i < |rows|
    && rows[i].port == p
    && forall j :: i < j < |rows| ==> rows[j].port != p
  }

  /** There is at most one index of a list of rows. */
  lemma IndexIsUnique(m: Index, n: Index, rows: seq<Row>)
    requires Indexes(m, rows) && Indexes(n, rows)
    ensures m == n
  {
    assert forall p :: p in m ==> p in n;
    assert forall p :: p in n ==> p in m;
    forall p | p in m
      ensures m[p] == n[p]
    {
      var i :| LastAt(rows, p, i) && m[p] == rows[i].entry;
      var j :| LastAt(rows, p, j) && n[p] == rows[j].entry;
      assert !(i < j) && !(j < i);
    }
  }

  lemma IndexesSnoc(m: Index, rows: seq<Row>, row: Row)
    requires Indexes(m, rows)
    ensures Indexes(m[row.port := row.entry], rows + [row])
  {
    var m' := m[row.port := row.entry];
    var rows' := rows + [row];
    forall p | p in m'
      ensures exists i :: LastAt(rows', p, i) && m'[p] == rows'[i].entry
    {
      if p == row.port {
        assert LastAt(rows', p, |rows|);
      } else {
        var i :| LastAt(rows, p, i) && m[p] == rows[i].entry;
        assert LastAt(rows', p, i);
      }
    }
  }

  /** The index as a value. */
  function IndexOf(rows: seq<Row>): Index {
    if rows == [] then map[] else
    var last := rows[|rows| - 1];
    IndexOf(rows[..|rows| - 1])[last.port := last.entry]
  }

  lemma {:induction false} IndexOfIndexes(rows: seq<Row>)
    ensures Indexes(IndexOf(rows), rows)
  {
    if rows != [] {
      var init := rows[..|rows| - 1];
      IndexOfIndexes(init);
      IndexesSnoc(IndexOf(init), init, rows[|rows| - 1]);
      assert rows == init + [rows[|rows| - 1]];
    }
  }

  function IndexOfConfig(cfg: Option<Config>): Index {
    if cfg.None? then map[] else IndexOf(Flatten(cfg.value))
  }

  lemma FlattenPrefix(cfg: Config, i: nat, j: nat)
    requires i < |cfg| && j < |cfg[i].ports|
    ensures Rows(cfg[i], cfg[i].ports[..j + 1]) ==
            Rows(cfg[i], cfg[i].ports[..j]) + [Row(cfg[i].ports[j].port, EntryFor(cfg[i], cfg[i].ports[j]))]
  {
  }

  lemma FlattenNext(cfg: Config, i: nat)
    requires i < |cfg|
    ensures Flatten(cfg[..i + 1]) == Flatten(cfg[..i]) + Rows(cfg[i], cfg[i].ports)
    ensures Flatten(cfg[..i]) == Flatten(cfg[..i]) + Rows(cfg[i], cfg[i].ports[..0])
  {
    assert cfg[..i + 1][..i] == cfg[..i];
  }

  /** The rows of a part of the configuration come first among all rows. */
  lemma {:induction false} FlattenIsPrefix(cfg: Config, i: nat, j: nat)
    requires i < |cfg| && j <= |cfg[i].ports|
    ensures Flatten(cfg[..i]) + Rows(cfg[i], cfg[i].ports[..j]) <= Flatten(cfg)
    decreases |cfg| - i
  {
    FlattenNext(cfg, i);
    assert Rows(cfg[i], cfg[i].ports[..j]) <= Rows(cfg[i], cfg[i].ports);
    if i + 1 < |cfg| {
      FlattenIsPrefix(cfg, i + 1, 0);
    } else {
      assert cfg[..i + 1] == cfg;
    }
  }

  /** The earliest row whose port an earlier row already has. */
  ghost predicate FirstConflict(rows: seq<Row>, port: Port, first: string, second: string) {
    exists i, j :: ConflictRows(rows, i, j) && rows[i].port == port
                   && rows[i].entry.entry.customer == first && rows[j].entry.entry.customer == second
  }

  ghost predicate ConflictRows(rows: seq<Row>, i: int, j: int) {
    0 <= i < j < |rows| && rows[i].port == rows[j].port && Distinct(rows[..j])
  }

  lemma ConflictAt(all: seq<Row>, rows: seq<Row>, row: Row, entries: Index)
    requires rows + [row] <= all && Distinct(rows) && Indexes(entries, rows) && row.port in entries
    ensures !Distinct(all)
    ensures FirstConflict(all, row.port, entries[row.port].entry.customer, row.entry.entry.customer)
  {
    var i :| LastAt(rows, row.port, i) && entries[row.port] == rows[i].entry;
    assert all[..|rows|] == rows;
    assert all[i] == rows[i] && all[|rows|] == (rows + [row])[|rows|];
    assert ConflictRows(all, i, |rows|);
  }

  lemma NoRows(cfg: Config)
    ensures Distinct(Flatten(cfg[..0])) && Indexes(map[], Flatten(cfg[..0]))
  {
  }

  /** One turn of the inner loop: a conflict, or an index of one row more. */
  lemma NextRow(cfg: Config, i: nat, j: nat, entries: Index)
    requires i < |cfg| && j < |cfg[i].ports|
    requires Distinct(Flatten(cfg[..i]) + Rows(cfg[i], cfg[i].ports[..j]))
    requires Indexes(entries, Flatten(cfg[..i]) + Rows(cfg[i], cfg[i].ports[..j]))
    ensures cfg[i].ports[j].port in entries ==>
              && !Distinct(Flatten(cfg))
              && FirstConflict(Flatten(cfg), cfg[i].ports[j].port,
                               entries[cfg[i].ports[j].port].entry.customer, cfg[i].id)
    ensures cfg[i].ports[j].port !in entries ==>
              Distinct(Flatten(cfg[..i]) + Rows(cfg[i], cfg[i].ports[..j + 1]))
    ensures Indexes(entries[cfg[i].ports[j].port := EntryFor(cfg[i], cfg[i].ports[j])],
                    Flatten(cfg[..i]) + Rows(cfg[i], cfg[i].ports[..j + 1]))
  {
    var p := cfg[i].ports[j];
    var rows := Flatten(cfg[..i]) + Rows(cfg[i], cfg[i].ports[..j]);
    var row := Row(p.port, EntryFor(cfg[i], p));
    FlattenPrefix(cfg, i, j);
    FlattenIsPrefix(cfg, i, j + 1);
    hide Flatten, Rows, LastAt, FirstConflict;
    assert rows + [row] == Flatten(cfg[..i]) + Rows(cfg[i], cfg[i].ports[..j + 1]);
    IndexesSnoc(entries, rows, row);
    if p.port in entries {
      ConflictAt(Flatten(cfg), rows, row, entries);
    }
  }

  datatype BuildResult = Built(index: Index) | Conflict(port: Port, first: string, second: string)

  /** BuildPortIndex: succeeds exactly when no port is listed twice, by whichever
      customers; otherwise it names the first port that is. */
  method BuildPortIndex(cfg: Config) returns (r: BuildResult)
    ensures Distinct(Flatten(cfg)) ==> r == Built(IndexOf(Flatten(cfg)))
    ensures !Distinct(Flatten(cfg)) ==> r.Conflict?
    ensures r.Conflict? ==> FirstConflict(Flatten(cfg), r.port, r.first, r.second)
  {
    hide Distinct, Flatten, Rows, Indexes, IndexOf, FirstConflict;
    var entries: Index := map[];
    NoRows(cfg);
    for i := 0 to |cfg|
      invariant Distinct(Flatten(cfg[..i])) && Indexes(entries, Flatten(cfg[..i]))
    {
      ghost var done := Flatten(cfg[..i]);
      FlattenNext(cfg, i);
      for j := 0 to |cfg[i].ports|
        invariant Distinct(done + Rows(cfg[i], cfg[i].ports[..j]))
        invariant Indexes(entries, done + Rows(cfg[i], cfg[i].ports[..j]))
      {
        var p := cfg[i].ports[j];
        NextRow(cfg, i, j, entries);
        if p.port in entries {
          return Conflict(p.port, entries[p.port].entry.customer, cfg[i].id);
        }
        var listenAddr := p.listenAddr;
        if listenAddr == "" {
          listenAddr := "0.0.0.0";
        }
        var entry := IndexEntry(
          PortEntry(cfg[i].id, p.service, listenAddr, cfg[i].maxStreams),
          cfg[i].rateLimit);
        assert entry == EntryFor(cfg[i], p);
        entries := entries[p.port := entry];
      }
      assert cfg[i].ports[..|cfg[i].ports|] == cfg[i].ports;
    }
    assert cfg[..|cfg|] == cfg;
    IndexOfIndexes(Flatten(cfg));
    IndexIsUnique(entries, IndexOf(Flatten(cfg)), Flatten(cfg));
    r := Built(entries);
  }

  /** indexPorts, the reload path's own flattening: later rows overwrite earlier ones. */
  method IndexPorts(cfg: Option<Config>) returns (out: Index)
    ensures out == IndexOfConfig(cfg)
  {
    out := map[];
    if cfg.None? {
      return;
    }
    var customers := cfg.value;
    for i := 0 to |customers|
      invariant Indexes(out, Flatten(customers[..i]))
    {
      ghost var done := Flatten(customers[..i]);
      assert done + Rows(customers[i], customers[i].ports[..0]) == done;
      for j := 0 to |customers[i].ports|
        invariant Indexes(out, done + Rows(customers[i], customers[i].ports[..j]))
      {
        ghost var rows := done + Rows(customers[i], customers[i].ports[..j]);
        var p := customers[i].ports[j];
        FlattenPrefix(customers, i, j);
        ghost var row := Row(p.port, EntryFor(customers[i], p));
        IndexesSnoc(out, rows, row);
        assert rows + [row] == done + Rows(customers[i], customers[i].ports[..j + 1]);
        var listenAddr := p.listenAddr;
        if listenAddr == "" {
          listenAddr := "0.0.0.0";
        }
        out := out[p.port := IndexEntry(
          PortEntry(customers[i].id, p.service, listenAddr, customers[i].maxStreams),
          customers[i].rateLimit)];
      }
      FlattenNext(customers, i);
      assert customers[i].ports[..|customers[i].ports|] == customers[i].ports;
    }
    assert customers[..|customers|] == customers;
    IndexOfIndexes(Flatten(customers));
    IndexIsUnique(out, IndexOf(Flatten(customers)), Flatten(customers));
  }

  /** In a configuration without repeated ports the index is the set of rows. */
  lemma DistinctIndex(m: Index, rows: seq<Row>, p: Port, e: IndexEntry)
    requires Indexes(m, rows) && Distinct(rows)
    ensures p in m && m[p] == e <==> Row(p, e) in rows
  {
    if p in m {
      var i :| LastAt(rows, p, i) && m[p] == rows[i].entry;
      assert rows[i] == Row(p, m[p]);
    }
    if Row(p, e) in rows {
      var j :| 0 <= j < |rows| && rows[j] == Row(p, e);
      assert rows[j].port in m;
      var i :| LastAt(rows, p, i) && m[p] == rows[i].entry;
    }
  }
}
