/** What the admin API's port requests promise their callers, over runs of requests and
    reloads: in terms of the requests and of the table alone.
 */
module PortRequests {
  import opened Frames
  import opened Ports
  import opened PortIndexes
  import opened Reload
  import opened Admin
  import opened Sidecar

  /** The mapping is what the create request asks for. */
  predicate Serves(e: PortEntry, req: CreateRequest) {
    && e.customer == req.customer && e.service == req.service && e.maxStreams == req.maxStreams
    && (if req.listenAddr == "" then e.listenAddr == "0.0.0.0" else e.listenAddr == req.listenAddr)
  }

  /** The mapping has the fields that an update gives, and its old ones otherwise. */
  predicate Follows(e: PortEntry, was: PortEntry, change: UpdateRequest) {
    && e.customer == was.customer
    && (if change.service == "" then e.service == was.service else e.service == change.service)
    && (if change.listenAddr == "" then e.listenAddr == was.listenAddr else e.listenAddr == change.listenAddr)
    && (match change.maxStreams
        case None => e.maxStreams == was.maxStreams
        case Some(max) => e.maxStreams == max)
  }

  lemma RunOne(s: State, e: Event, validIP: IPCheck)
    ensures Run(s, [e], validIP) == Do(s, e, validIP)
  {
    assert [e][1..] == [];
    assert Run(Do(s, e, validIP), [], validIP) == Do(s, e, validIP);
  }

  lemma RunMore(s: State, e: Event, es: seq<Event>, validIP: IPCheck)
    ensures Run(s, [e] + es, validIP) == Run(Do(s, e, validIP), es, validIP)
  {
    assert ([e] + es)[1..] == es;
  }

  /** A create: the port has what was asked, or is free when its listener did not start;
      no other port changes; and a request that is not acceptable changes nothing. */
  lemma CreateLaw(s: State, req: CreateRequest, started: bool, validIP: IPCheck, q: Port)
    ensures var t, t' := s.table, Run(s, [Creating(req, started)], validIP).table;
            && (q != req.port || !Acceptable(req, validIP) ==> Get(t', q) == Get(t, q))
            && (q == req.port && Acceptable(req, validIP) ==>
                  if started then q in t' && Serves(t'[q], req) else q !in t')
    ensures var r := CreatePort(s.table, req, started, validIP).0;
            && (r.Created? <==> Acceptable(req, validIP) && started)
            && (r.Created? ==> r.info.port == req.port && Serves(r.info.entry, req))
            && (r.BadRequest? <==> !Acceptable(req, validIP))
  {
    hide Acceptable;
    RunOne(s, Creating(req, started), validIP);
  }

  /** An update: the fields given are new and the others stay, the customer always. */
  lemma UpdateLaw(s: State, port: Port, change: UpdateRequest, validIP: IPCheck, q: Port)
    ensures var t, t' := s.table, Run(s, [Updating(port, change)], validIP).table;
            && (q != port || !Meaningful(change, validIP) || port !in t ==> Get(t', q) == Get(t, q))
            && (q == port && Meaningful(change, validIP) && q in t ==> q in t' && Follows(t'[q], t[q], change))
    ensures var r := UpdatePort(s.table, port, change, validIP).0;
            && (r.Changed? <==> Meaningful(change, validIP) && port in s.table)
            && (r.Changed? ==> r.info.port == port && Follows(r.info.entry, s.table[port], change))
            && (r.BadRequest? <==> !Meaningful(change, validIP))
  {
    hide Meaningful;
    RunOne(s, Updating(port, change), validIP);
  }

  /** A delete: the port is free, and the others keep their mappings. */
  lemma DeleteLaw(s: State, port: Port, validIP: IPCheck, q: Port)
    ensures var t, t' := s.table, Run(s, [Deleting(port)], validIP).table;
            && port !in t'
            && (q != port ==> Get(t', q) == Get(t, q))
    ensures var r := DeletePort(s.table, port).0;
            (r.NoContent? <==> port in s.table) && (r.NotFound? <==> port !in s.table)
  {
    RunOne(s, Deleting(port), validIP);
  }

  // -------------------------------------------------------------- over runs

  /** The event may map a port that is free. */
  predicate Maps(e: Event, p: Port, validIP: IPCheck) {
    match e
    case Reloading(cfg, _) => Distinct(Flatten(cfg)) && p in IndexOfConfig(Some(cfg))
    case Creating(req, started) => req.port == p && Acceptable(req, validIP) && started
    case Updating(_, _) => false
    case Deleting(_) => false
  }

  lemma FreeStep(s: State, e: Event, p: Port, validIP: IPCheck)
    requires p !in s.table && !Maps(e, p, validIP)
    ensures p !in Do(s, e, validIP).table
  {
    hide Acceptable, Meaningful;
    if e.Reloading? && Distinct(Flatten(e.cfg)) {
      ReconciledAt(s.table, IndexOfConfig(s.cfg), IndexOfConfig(Some(e.cfg)), e.bound, p);
      hide Reconciled, IndexOfConfig, Distinct;
    }
  }

  lemma {:induction false} FreeRun(s: State, es: seq<Event>, p: Port, validIP: IPCheck)
    requires p !in s.table && forall i :: 0 <= i < |es| ==> !Maps(es[i], p, validIP)
    ensures p !in Run(s, es, validIP).table
    decreases |es|
  {
    hide Do, Maps;
    if es != [] {
      FreeStep(s, es[0], p, validIP);
      FreeRun(Do(s, es[0], validIP), es[1..], p, validIP);
    }
  }

  /** After a delete the port stays free until it is created again or a configuration
      that is applied lists it. */
  lemma DeletedStaysFree(s: State, p: Port, es: seq<Event>, validIP: IPCheck)
    requires forall i :: 0 <= i < |es| ==> !Maps(es[i], p, validIP)
    ensures p !in Run(s, [Deleting(p)] + es, validIP).table
  {
    hide Maps;
    RunMore(s, Deleting(p), es, validIP);
    FreeRun(Do(s, Deleting(p), validIP), es, p, validIP);
  }

  /** The event is about other ports. */
  predicate Spares(e: Event, p: Port) {
    match e
    case Reloading(cfg, _) => Distinct(Flatten(cfg)) ==> p !in IndexOfConfig(Some(cfg))
    case Creating(req, _) => req.port != p
    case Updating(port, _) => port != p
    case Deleting(port) => port != p
  }

  lemma SparedStep(s: State, e: Event, p: Port, validIP: IPCheck)
    requires p !in IndexOfConfig(s.cfg) && Spares(e, p)
    ensures Get(Do(s, e, validIP).table, p) == Get(s.table, p) && p !in IndexOfConfig(Do(s, e, validIP).cfg)
  {
    hide Acceptable, Meaningful;
    if e.Reloading? && Distinct(Flatten(e.cfg)) {
      ReconciledAt(s.table, IndexOfConfig(s.cfg), IndexOfConfig(Some(e.cfg)), e.bound, p);
      hide Reconciled, IndexOfConfig, Distinct;
    }
  }

  /** A port outside every configuration keeps its mapping while the events are about
      other ports. */
  lemma {:induction false} SparedRun(s: State, es: seq<Event>, p: Port, validIP: IPCheck)
    requires p !in IndexOfConfig(s.cfg) && forall i :: 0 <= i < |es| ==> Spares(es[i], p)
    ensures Get(Run(s, es, validIP).table, p) == Get(s.table, p) && p !in IndexOfConfig(Run(s, es, validIP).cfg)
    decreases |es|
  {
    hide Do, Spares, IndexOfConfig, Get;
    if es != [] {
      SparedStep(s, es[0], p, validIP);
      SparedRun(Do(s, es[0], validIP), es[1..], p, validIP);
    }
  }

  /** After a create the port serves the request while the events are about others. */
  lemma CreatedStays(s: State, req: CreateRequest, es: seq<Event>, validIP: IPCheck)
    requires Acceptable(req, validIP) && req.port !in IndexOfConfig(s.cfg)
    requires forall i :: 0 <= i < |es| ==> Spares(es[i], req.port)
    ensures var t := Run(s, [Creating(req, true)] + es, validIP).table;
            req.port in t && Serves(t[req.port], req)
    ensures req.port !in IndexOfConfig(Run(s, [Creating(req, true)] + es, validIP).cfg)
  {
    hide Spares, Acceptable, IndexOfConfig;
    RunMore(s, Creating(req, true), es, validIP);
    SparedRun(Do(s, Creating(req, true), validIP), es, req.port, validIP);
  }

  // --------------------------------------------------------- through a restart

  /** A port outside the configuration that was deleted, and not mapped again, is still
      free when the process has saved its table and started again. */
  lemma DeletedSurvivesRestart(s: State, p: Port, es: seq<Event>, infos: seq<PortInfo>, n: Index, validIP: IPCheck)
    requires forall i :: 0 <= i < |es| ==> !Maps(es[i], p, validIP)
    requires Lists(infos, Run(s, [Deleting(p)] + es, validIP).table)
    requires p !in IndexOfConfig(Run(s, [Deleting(p)] + es, validIP).cfg)
    requires Merges(n, IndexOfConfig(Run(s, [Deleting(p)] + es, validIP).cfg), Records(infos), validIP)
    ensures p !in TableOf(n)
  {
    hide Maps, Run, IndexOfConfig, Merges, Lists, Records, TableOf;
    DeletedStaysFree(s, p, es, validIP);
    var s' := Run(s, [Deleting(p)] + es, validIP);
    RestartAt(s'.table, infos, IndexOfConfig(s'.cfg), n, validIP, p);
  }

  /** And one that was created outside the configuration still serves its request. */
  lemma CreatedSurvivesRestart(s: State, req: CreateRequest, es: seq<Event>,
                               infos: seq<PortInfo>, n: Index, validIP: IPCheck)
    requires Acceptable(req, validIP) && req.port !in IndexOfConfig(s.cfg) && validIP(DEFAULT_LISTEN_ADDR)
    requires forall i :: 0 <= i < |es| ==> Spares(es[i], req.port)
    requires Lists(infos, Run(s, [Creating(req, true)] + es, validIP).table)
    requires Merges(n, IndexOfConfig(Run(s, [Creating(req, true)] + es, validIP).cfg), Records(infos), validIP)
    ensures req.port in TableOf(n) && Serves(TableOf(n)[req.port], req)
  {
    hide Spares, Run, IndexOfConfig, Merges, Lists, Records, TableOf;
    CreatedStays(s, req, es, validIP);
    var s' := Run(s, [Creating(req, true)] + es, validIP);
    RestartAt(s'.table, infos, IndexOfConfig(s'.cfg), n, validIP, req.port);
    MatchesAt(s'.table, IndexOfConfig(s'.cfg), req.port, validIP);
  }
}
