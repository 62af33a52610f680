/** The admin server as it is written: a router, the applied configuration, the rate
    limiters and the sidecar file, updated in place. Whether a listener starts and
    whether a file can be written are parameters of each request.
 */
module AdminServers {
  import opened Frames
  import opened Ports
  import opened PortIndexes
  import opened Reload
  import opened Sidecar
  import Admin

  // -------------------------------------------------------------- rate limits

  type Limits = map<string, RateLimit>

  /** The limit of each customer; a repeated customer's last one. */
  function LimitsOf(customers: Config): Limits {
    if customers == [] then map[] else
    var last := customers[|customers| - 1];
    LimitsOf(customers[..|customers| - 1])[last.id := last.rateLimit]
  }

  function LimitsOfConfig(cfg: Option<Config>): Limits {
    if cfg.None? then map[] else LimitsOf(cfg.value)
  }

  /** The customers whose limiter is replaced: a positive limit that is new or different. */
  function Relimited(before: Limits, after: Limits): set<string> {
    set c | c in after && !(c in before && before[c] == after[c]) && after[c].rps > 0.0
  }

  function Overlay(limiters: Limits, after: Limits, which: set<string>): Limits {
    limiters + map c | c in which && c in after :: after[c]
  }

  lemma OverlayOneMore(limiters: Limits, after: Limits, which: set<string>, c: string)
    requires c in after
    ensures Overlay(limiters, after, which)[c := after[c]] == Overlay(limiters, after, which + {c})
  {
  }

  lemma OverlayNone(limiters: Limits, after: Limits)
    ensures Overlay(limiters, after, {}) == limiters
  {
  }

  /** The loop's test is membership in the set of customers to change. */
  lemma RelimitedAt(before: Limits, after: Limits, c: string)
    requires c in after
    ensures c in Relimited(before, after) <==> !(c in before && before[c] == after[c]) && after[c].rps > 0.0
  {
  }

  lemma RelimitedWithin(before: Limits, after: Limits)
    ensures Relimited(before, after) <= after.Keys
  {
  }

  lemma LimitsUnchanged(limits: Limits, limiters: Limits)
    ensures Relimited(limits, limits) == {}
    ensures Overlay(limiters, limits, Relimited(limits, limits)) == limiters
  {
    assert Relimited(limits, limits) == {};
    assert Overlay(limiters, limits, {}) == limiters;
  }

  method RateLimits(cfg: Option<Config>) returns (out: Limits)
    ensures out == LimitsOfConfig(cfg)
  {
    out := map[];
    if cfg.None? {
      return;
    }
    var customers := cfg.value;
    for i := 0 to |customers|
      invariant out == LimitsOf(customers[..i])
    {
      assert customers[..i + 1][..i] == customers[..i];
      out := out[customers[i].id := customers[i].rateLimit];
    }
    assert customers[..|customers|] == customers;
  }

  lemma SetGet(t: Table, p: Port)
    ensures Set(t, p, Get(t, p)) == t
  {
  }

  lemma SetThenClear(t: Table, p: Port, e: PortEntry)
    ensures Set(Set(t, p, Some(e)), p, None) == Set(t, p, None)
  {
  }

  lemma VisitsOneMore(order: seq<Port>, keys: set<Port>, rest: set<Port>, p: Port)
    requires rest <= keys && p in rest && Visits(order, keys - rest)
    ensures Visits(order + [p], keys - (rest - {p}))
  {
  }

  class AdminServer {
    const router: PortRouter
    const validIP: Admin.IPCheck
    const configPath: string
    const hasStore: bool
    var currentCfg: Option<Config>
    var limiters: Limits
    var file: File

    constructor (router: PortRouter, validIP: Admin.IPCheck, configPath: string, initial: Option<Config>,
                 limiters: Limits, hasStore: bool, file: File)
      ensures this.router == router && this.validIP == validIP && this.configPath == configPath
      ensures this.hasStore == hasStore && this.file == file
      ensures currentCfg == initial && this.limiters == limiters
    {
      this.router, this.validIP, this.configPath := router, validIP, configPath;
      this.hasStore, this.file := hasStore, file;
      currentCfg, this.limiters := initial, limiters;
    }

    // ------------------------------------------------------------ persistence

    twostate predicate PersistedIf(due: bool)
      reads this`file, router
    {
      if due then Snapshot(file, router.portMap) else file == old(file)
    }

    method Persist(saves: bool)
      modifies this`file
      ensures PersistedIf(hasStore && saves)
    {
      if hasStore {
        var infos := router.ListPorts();
        var data := SaveCurrentState(infos);
        if saves {
          file := Holds(data);
        }
      }
    }

    // ------------------------------------------------------------ requests

    method CreatePort(request: Option<Admin.CreateRequest>, started: bool, saves: bool)
      returns (response: Admin.Response)
      modifies this`file, router
      ensures request.None? ==> response == Admin.BadRequest && router.portMap == old(router.portMap)
      ensures request.Some? ==>
                (response, router.portMap) == Admin.CreatePort(old(router.portMap), request.value, started, validIP)
      ensures PersistedIf(response.Created? && hasStore && saves)
    {
      if request.None? {
        return Admin.BadRequest;
      }
      var req := request.value;
      if req.port <= 0 || req.port > 65535 {
        return Admin.BadRequest;
      }
      if req.customer == "" || req.service == "" {
        return Admin.BadRequest;
      }
      if req.listenAddr != "" && !validIP(req.listenAddr) {
        return Admin.BadRequest;
      }
      if req.maxStreams < 0 {
        return Admin.BadRequest;
      }
      var listenAddr := if req.listenAddr == "" then DEFAULT_LISTEN_ADDR else req.listenAddr;
      router.AddPortMapping(req.customer, req.port, req.service, listenAddr, req.maxStreams);
      if !started {
        SetThenClear(old(router.portMap), req.port, Admin.Requested(req));
        var _ := router.RemovePortMapping(req.customer, req.port);
        return Admin.Refused;
      }
      Persist(saves);
      response := Admin.Created(PortInfo(req.port, PortEntry(req.customer, req.service, listenAddr, req.maxStreams)));
    }

    method UpdatePort(port: Port, request: Option<Admin.UpdateRequest>, saves: bool) returns (response: Admin.Response)
      modifies this`file, router
      ensures request.None? ==> response == Admin.BadRequest && router.portMap == old(router.portMap)
      ensures request.Some? ==>
                (response, router.portMap) == Admin.UpdatePort(old(router.portMap), port, request.value, validIP)
      ensures PersistedIf(response.Changed? && hasStore && saves)
    {
      if request.None? || !Admin.Meaningful(request.value, validIP) {
        return Admin.BadRequest;
      }
      var req := request.value;
      var existing := router.GetPort(port);
      if existing.None? {
        return Admin.NotFound;
      }
      var e := existing.value.entry;
      var service, listenAddr, maxStreams := e.service, e.listenAddr, e.maxStreams;
      if req.service != "" {
        service := req.service;
      }
      if req.listenAddr != "" {
        listenAddr := req.listenAddr;
      }
      if req.maxStreams.Some? {
        maxStreams := req.maxStreams.value;
      }
      var _ := router.UpdatePortMapping(port, service, listenAddr, maxStreams);
      Persist(saves);
      response := Admin.Changed(PortInfo(port, PortEntry(e.customer, service, listenAddr, maxStreams)));
    }

    method DeletePort(port: Port, saves: bool) returns (response: Admin.Response)
      modifies this`file, router
      ensures (response, router.portMap) == Admin.DeletePort(old(router.portMap), port)
      ensures PersistedIf(response.NoContent? && hasStore && saves)
    {
      var existing := router.GetPort(port);
      if existing.None? {
        return Admin.NotFound;
      }
      var _ := router.RemovePortMapping(existing.value.entry.customer, port);
      Persist(saves);
      response := Admin.NoContent;
    }

    // ------------------------------------------------------------ reload

    method AddPort(port: Port, entry: PortEntry, started: bool, summary: Summary) returns (s: Summary)
      modifies router
      ensures router.portMap == Set(old(router.portMap), port, if started then Some(entry) else None)
      ensures s == if started then Tally(summary, Added) else summary
    {
      router.AddPortMapping(entry.customer, port, entry.service, entry.listenAddr, entry.maxStreams);
      if !started {
        var _ := router.RemovePortMapping(entry.customer, port);
        return summary;
      }
      s := summary.(added := summary.added + 1);
    }

    method RemovePort(port: Port, entry: PortEntry, summary: Summary) returns (s: Summary)
      modifies router
      ensures var owned := CustomerOf(old(router.portMap), port) == Some(entry.customer);
              && router.portMap == (if owned then Set(old(router.portMap), port, None) else old(router.portMap))
              && s == if owned then Tally(summary, Removed) else summary
    {
      var ok := router.RemovePortMapping(entry.customer, port);
      if !ok {
        return summary;
      }
      s := summary.(removed := summary.removed + 1);
    }

    method UpdatePortReload(port: Port, entry: PortEntry, summary: Summary) returns (s: Summary)
      modifies router
      ensures port in old(router.portMap) ==>
                && router.portMap == Set(old(router.portMap), port,
                                         Some(entry.(customer := old(router.portMap)[port].customer)))
                && s == Tally(summary, Updated)
      ensures port !in old(router.portMap) ==> router.portMap == old(router.portMap) && s == summary
    {
      var ok := router.UpdatePortMapping(port, entry.service, entry.listenAddr, entry.maxStreams);
      if !ok {
        return summary;
      }
      s := summary.(updated := summary.updated + 1);
    }

    method ReconcileNew(before: Index, after: Index, bound: set<Port>, port: Port, summary: Summary)
      returns (s: Summary)
      requires port in after
      modifies router
      ensures Progress(router.portMap, s) ==
              Visit(NewLoop(before, after, bound), port, Progress(old(router.portMap), summary))
    {
      SetGet(router.portMap, port);
      s := summary;
      if port !in before {
        s := AddPort(port, after[port].entry, port in bound, s);
      } else if before[port].entry.customer != after[port].entry.customer {
        s := s.(rejected := s.rejected + 1);
      } else if MutableFieldsDiffer(before[port].entry, after[port].entry) {
        s := UpdatePortReload(port, after[port].entry, s);
      }
    }

    method ReconcileOld(before: Index, after: Index, port: Port, summary: Summary) returns (s: Summary)
      requires port in before
      modifies router
      ensures Progress(router.portMap, s) ==
              Visit(OldLoop(before, after), port, Progress(old(router.portMap), summary))
    {
      SetGet(router.portMap, port);
      s := summary;
      if port !in after {
        s := RemovePort(port, before[port].entry, s);
      }
    }

    method AddAndUpdate(before: Index, after: Index, bound: set<Port>) returns (s: Summary, ghost order: seq<Port>)
      modifies router
      ensures Visits(order, after.Keys)
      ensures Progress(router.portMap, s) ==
              Pass(NewLoop(before, after, bound), order, Progress(old(router.portMap), NOTHING))
    {
      hide Visit, NewLoop;
      s, order := NOTHING, [];
      var rest := after.Keys;
      while rest != {}
        invariant rest <= after.Keys && Visits(order, after.Keys - rest)
        invariant Progress(router.portMap, s) ==
                  Pass(NewLoop(before, after, bound), order, Progress(old(router.portMap), NOTHING))
        decreases rest
      {
        var port :| port in rest;
        VisitsOneMore(order, after.Keys, rest, port);
        s := ReconcileNew(before, after, bound, port, s);
        assert (order + [port])[..|order|] == order;
        order := order + [port];
        rest := rest - {port};
      }
      assert after.Keys - {} == after.Keys;
    }

    method RemoveOld(before: Index, after: Index, summary: Summary) returns (s: Summary, ghost order: seq<Port>)
      modifies router
      ensures Visits(order, before.Keys)
      ensures Progress(router.portMap, s) ==
              Pass(OldLoop(before, after), order, Progress(old(router.portMap), summary))
    {
      hide Visit, OldLoop;
      s, order := summary, [];
      var rest := before.Keys;
      while rest != {}
        invariant rest <= before.Keys && Visits(order, before.Keys - rest)
        invariant Progress(router.portMap, s) ==
                  Pass(OldLoop(before, after), order, Progress(old(router.portMap), summary))
        decreases rest
      {
        var port :| port in rest;
        VisitsOneMore(order, before.Keys, rest, port);
        s := ReconcileOld(before, after, port, s);
        assert (order + [port])[..|order|] == order;
        order := order + [port];
        rest := rest - {port};
      }
      assert before.Keys - {} == before.Keys;
    }

    method ApplyRateLimitChanges(oldCfg: Option<Config>, newCfg: Config) returns (changed: nat)
      modifies this`limiters
      ensures var which := Relimited(LimitsOfConfig(oldCfg), LimitsOf(newCfg));
              && limiters == Overlay(old(limiters), LimitsOf(newCfg), which)
              && changed == |which|
    {
      hide Relimited, Overlay, LimitsOf;
      var before := RateLimits(oldCfg);
      var after := RateLimits(Some(newCfg));
      OverlayNone(limiters, after);
      ghost var which := Relimited(before, after);
      ghost var done: set<string> := {};
      var rest := after.Keys;
      changed := 0;
      RelimitedWithin(before, after);
      while rest != {}
        invariant rest <= after.Keys && done == which - rest
        invariant limiters == Overlay(old(limiters), after, done)
        invariant changed == |done|
        decreases rest
      {
        var c :| c in rest;
        RelimitedAt(before, after, c);
        OverlayOneMore(old(limiters), after, done, c);
        rest := rest - {c};
        if !(c in before && before[c] == after[c]) && after[c].rps > 0.0 {
          limiters := limiters[c := after[c]];
          changed := changed + 1;
          done := done + {c};
        }
      }
      assert done == which;
    }

    method ApplyReload(oldCfg: Option<Config>, newCfg: Config, bound: set<Port>) returns (s: Summary, limits: nat)
      modifies this`limiters, router
      ensures Progress(router.portMap, s) ==
              Reconciled(old(router.portMap), IndexOfConfig(oldCfg), IndexOfConfig(Some(newCfg)), bound)
      ensures var which := Relimited(LimitsOfConfig(oldCfg), LimitsOf(newCfg));
              && limiters == Overlay(old(limiters), LimitsOf(newCfg), which)
              && limits == |which|
    {
      hide *;
      var before := IndexPorts(oldCfg);
      var after := IndexPorts(Some(newCfg));
      ghost var t := router.portMap;
      ghost var first, second;
      s, first := AddAndUpdate(before, after, bound);
      s, second := RemoveOld(before, after, s);
      BothLoops(t, before, after, bound, first, second);
      limits := ApplyRateLimitChanges(oldCfg, newCfg);
    }

    /** Anything that goes wrong before the diff leaves every part of the state as it was. */
    method Reload(loaded: Option<Config>, bound: set<Port>, saves: bool) returns (r: Option<(Summary, nat)>)
      modifies this, router
      ensures r.Some? <==> configPath != "" && loaded.Some? && Distinct(Flatten(loaded.value))
      ensures r.None? ==>
                && router.portMap == old(router.portMap) && currentCfg == old(currentCfg)
                && limiters == old(limiters) && file == old(file)
      ensures r.Some? ==>
                && currentCfg == loaded
                && Progress(router.portMap, r.value.0) ==
                   Reconciled(old(router.portMap), IndexOfConfig(old(currentCfg)), IndexOfConfig(loaded), bound)
      ensures r.Some? ==>
                var which := Relimited(LimitsOfConfig(old(currentCfg)), LimitsOf(loaded.value));
                && limiters == Overlay(old(limiters), LimitsOf(loaded.value), which)
                && r.value.1 == |which|
      ensures PersistedIf(r.Some? && hasStore && saves)
    {
      hide Reconciled, IndexOfConfig, IndexOf, Flatten, Distinct, Snapshot;
      hide LimitsOf, LimitsOfConfig, Relimited, Overlay;
      if configPath == "" || loaded.None? {
        return None;
      }
      var built := BuildPortIndex(loaded.value);
      if built.Conflict? {
        return None;
      }
      var s, limits := ApplyReload(currentCfg, loaded.value, bound);
      currentCfg := loaded;
      Persist(saves);
      r := Some((s, limits));
    }
  }

  lemma BothLoops(t: Table, before: Index, after: Index, bound: set<Port>, first: seq<Port>, second: seq<Port>)
    requires Visits(first, after.Keys) && Visits(second, before.Keys)
    ensures Pass(OldLoop(before, after), second, Pass(NewLoop(before, after, bound), first, Progress(t, NOTHING))) ==
            Reconciled(t, before, after, bound)
  {
    ReloadConfluent(t, before, after, bound, first, second);
  }
}
