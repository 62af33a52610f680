/** What a port index says, over the configuration tree itself: customers in their order,
    and the ports of each in theirs.
 */
module ConfigTrees {
  import opened Frames
  import opened Ports
  import opened PortIndexes

  /** Customer `i` of the configuration lists port `q` in place `j`. */
  predicate Listed(cfg: Config, i: int, j: int, q: Port) {
    0 <= i < |cfg| && 0 <= j < |cfg[i].ports| && cfg[i].ports[j].port == q
  }

  predicate NotAfter(k: int, l: int, i: int, j: int) {
    k < i || (k == i && l <= j)
  }

  /** The same, and nothing lists it later. */
  ghost predicate LastListed(cfg: Config, i: int, j: int, q: Port) {
    Listed(cfg, i, j, q) && forall k, l :: Listed(cfg, k, l, q) ==> NotAfter(k, l, i, j)
  }

  ghost predicate NoRepeats(cfg: Config) {
    forall q, i, j, k, l :: Listed(cfg, i, j, q) && Listed(cfg, k, l, q) ==> i == k && j == l
  }

  /** The entry of the port in place `j` of customer `i`. */
  predicate Describes(e: IndexEntry, cfg: Config, i: int, j: int)
    requires 0 <= i < |cfg| && 0 <= j < |cfg[i].ports|
  {
    && e.entry.customer == cfg[i].id
    && e.entry.maxStreams == cfg[i].maxStreams
    && e.rateLimit == cfg[i].rateLimit
    && e.entry.service == cfg[i].ports[j].service
    && (if cfg[i].ports[j].listenAddr == "" then e.entry.listenAddr == "0.0.0.0"
        else e.entry.listenAddr == cfg[i].ports[j].listenAddr)
  }

  // ------------------------------------------------- places in the flattened tree

  function Place(cfg: Config, i: int, j: int): int
    requires 0 <= i < |cfg|
  {
    |Flatten(cfg[..i])| + j
  }

  lemma RowAt(cfg: Config, i: int, j: int)
    requires 0 <= i < |cfg| && 0 <= j < |cfg[i].ports|
    ensures 0 <= Place(cfg, i, j) < |Flatten(cfg)|
    ensures Flatten(cfg)[Place(cfg, i, j)].port == cfg[i].ports[j].port
    ensures Describes(Flatten(cfg)[Place(cfg, i, j)].entry, cfg, i, j)
  {
    FlattenIsPrefix(cfg, i, j + 1);
    var part := Flatten(cfg[..i]) + Rows(cfg[i], cfg[i].ports[..j + 1]);
    assert part[Place(cfg, i, j)] == Flatten(cfg)[Place(cfg, i, j)];
    hide Flatten;
  }

  lemma {:induction false} RowFrom(cfg: Config, r: nat) returns (i: int, j: int)
    requires r < |Flatten(cfg)|
    ensures 0 <= i < |cfg| && 0 <= j < |cfg[i].ports| && r == Place(cfg, i, j)
    decreases |cfg|
  {
    var init := cfg[..|cfg| - 1];
    if r < |Flatten(init)| {
      i, j := RowFrom(init, r);
      assert init[..i] == cfg[..i];
    } else {
      i, j := |cfg| - 1, r - |Flatten(init)|;
    }
  }

  lemma {:induction false} FlattenGrows(cfg: Config, k: nat, i: nat)
    requires k <= i <= |cfg|
    ensures |Flatten(cfg[..k])| <= |Flatten(cfg[..i])|
    decreases i
  {
    if k < i {
      FlattenGrows(cfg, k, i - 1);
      FlattenNext(cfg, i - 1);
    }
  }

  lemma PlacesInOrder(cfg: Config, k: int, l: int, i: int, j: int)
    requires 0 <= k < |cfg| && 0 <= l < |cfg[k].ports| && 0 <= i < |cfg| && 0 <= j < |cfg[i].ports|
    ensures Place(cfg, k, l) <= Place(cfg, i, j) <==> NotAfter(k, l, i, j)
  {
    if k < i {
      FlattenNext(cfg, k);
      FlattenGrows(cfg, k + 1, i);
    } else if i < k {
      FlattenNext(cfg, i);
      FlattenGrows(cfg, i + 1, k);
    }
  }

  /** The flattened tree repeats a port exactly when the tree does. */
  lemma DistinctIsNoRepeats(cfg: Config)
    ensures Distinct(Flatten(cfg)) <==> NoRepeats(cfg)
  {
    var rows := Flatten(cfg);
    if Distinct(rows) {
      forall q, i, j, k, l | Listed(cfg, i, j, q) && Listed(cfg, k, l, q) ensures i == k && j == l {
        RowAt(cfg, i, j);
        RowAt(cfg, k, l);
        PlacesInOrder(cfg, k, l, i, j);
        PlacesInOrder(cfg, i, j, k, l);
      }
    }
    if NoRepeats(cfg) {
      forall r, s | 0 <= r < s < |rows| ensures rows[r].port != rows[s].port {
        var i, j := RowFrom(cfg, r);
        var k, l := RowFrom(cfg, s);
        RowAt(cfg, i, j);
        RowAt(cfg, k, l);
        if rows[r].port == rows[s].port {
          assert Listed(cfg, i, j, rows[r].port) && Listed(cfg, k, l, rows[r].port);
        }
      }
    }
  }

  /** The index of a configuration holds exactly the ports that some customer lists. */
  lemma IndexedIsListed(cfg: Config, q: Port)
    ensures q in IndexOf(Flatten(cfg)) <==> exists i, j :: LastListed(cfg, i, j, q)
  {
    var rows, m := Flatten(cfg), IndexOf(Flatten(cfg));
    IndexOfIndexes(rows);
    if q in m {
      var r :| LastAt(rows, q, r) && m[q] == rows[r].entry;
      var i, j := RowFrom(cfg, r);
      RowAt(cfg, i, j);
      forall k, l | Listed(cfg, k, l, q) ensures NotAfter(k, l, i, j) {
        RowAt(cfg, k, l);
        PlacesInOrder(cfg, k, l, i, j);
      }
      assert LastListed(cfg, i, j, q);
    }
    if exists i, j :: LastListed(cfg, i, j, q) {
      var i, j :| LastListed(cfg, i, j, q);
      RowAt(cfg, i, j);
    }
  }

  /** And each with the entry of its last listing. */
  lemma IndexedAs(cfg: Config, i: int, j: int, q: Port)
    requires LastListed(cfg, i, j, q)
    ensures q in IndexOf(Flatten(cfg)) && Describes(IndexOf(Flatten(cfg))[q], cfg, i, j)
  {
    var rows, m := Flatten(cfg), IndexOf(Flatten(cfg));
    IndexOfIndexes(rows);
    RowAt(cfg, i, j);
    var r :| LastAt(rows, q, r) && m[q] == rows[r].entry;
    var k, l := RowFrom(cfg, r);
    RowAt(cfg, k, l);
    assert Listed(cfg, k, l, q);
    PlacesInOrder(cfg, k, l, i, j);
    assert r == Place(cfg, i, j);
  }

  /** Without repeated ports: port `q` is in the index exactly when some customer lists it,
      with that customer's limits and that listing's service and address. */
  lemma IndexIsTree(cfg: Config, q: Port)
    requires NoRepeats(cfg)
    ensures var m := IndexOfConfig(Some(cfg));
            && (q in m <==> exists i, j :: Listed(cfg, i, j, q))
            && (forall i, j :: Listed(cfg, i, j, q) ==> q in m && Describes(m[q], cfg, i, j))
  {
    IndexedIsListed(cfg, q);
    hide IndexOf, Flatten, Describes;
    forall i, j | Listed(cfg, i, j, q)
      ensures q in IndexOfConfig(Some(cfg)) && Describes(IndexOfConfig(Some(cfg))[q], cfg, i, j)
    {
      assert LastListed(cfg, i, j, q);
      IndexedAs(cfg, i, j, q);
    }
  }

  /** A refusal names a port that the tree lists twice, and the customers of both. */
  lemma ConflictIsRepeat(cfg: Config, q: Port, first: string, second: string)
    requires FirstConflict(Flatten(cfg), q, first, second)
    ensures exists i, j, k, l :: Listed(cfg, i, j, q) && Listed(cfg, k, l, q) && !NotAfter(k, l, i, j)
                                 && cfg[i].id == first && cfg[k].id == second
  {
    var rows := Flatten(cfg);
    var r, s :| ConflictRows(rows, r, s) && rows[r].port == q
                && rows[r].entry.entry.customer == first && rows[s].entry.entry.customer == second;
    var i, j := RowFrom(cfg, r);
    var k, l := RowFrom(cfg, s);
    RowAt(cfg, i, j);
    RowAt(cfg, k, l);
    PlacesInOrder(cfg, k, l, i, j);
    assert Listed(cfg, i, j, q) && Listed(cfg, k, l, q);
  }
}
