/** What the admin API's port requests do to the table, and runs that mix them with
    configuration reloads. The check that a string is an IP address is a parameter.
 */
module Admin {
  import opened Frames
  import opened Ports
  import opened PortIndexes
  import opened Reload

  type IPCheck = string -> bool

  datatype CreateRequest =
    CreateRequest(port: Port, customer: string, service: string, listenAddr: string, maxStreams: int)

  datatype UpdateRequest = UpdateRequest(service: string, listenAddr: string, maxStreams: Option<int>)

  datatype Response =
    | Created(info: PortInfo)
    | Changed(info: PortInfo)
    | NoContent
    | BadRequest
    | NotFound
    | Refused

  // ------------------------------------------------------------ create

  predicate Acceptable(req: CreateRequest, validIP: IPCheck) {
    && 0 < req.port <= 65535
    && req.customer != "" && req.service != ""
    && (req.listenAddr != "" ==> validIP(req.listenAddr))
    && req.maxStreams >= 0
  }

  function Requested(req: CreateRequest): PortEntry {
    PortEntry(req.customer, req.service, if req.listenAddr == "" then DEFAULT_LISTEN_ADDR else req.listenAddr,
              req.maxStreams)
  }

  /** The mapping is written before the listener is tried and erased when it fails. */
  function CreatePort(t: Table, req: CreateRequest, started: bool, validIP: IPCheck): (Response, Table) {
    if !Acceptable(req, validIP) then (BadRequest, t)
    else if started then (Created(PortInfo(req.port, Requested(req))), Set(t, req.port, Some(Requested(req))))
    else (Refused, Set(t, req.port, None))
  }

  // ------------------------------------------------------------ update

  predicate Meaningful(req: UpdateRequest, validIP: IPCheck) {
    && !(req.service == "" && req.listenAddr == "" && req.maxStreams.None?)
    && (req.listenAddr != "" ==> validIP(req.listenAddr))
    && (req.maxStreams.Some? ==> req.maxStreams.value >= 0)
  }

  function MergeUpdate(e: PortEntry, req: UpdateRequest): PortEntry {
    PortEntry(
      e.customer,
      if req.service != "" then req.service else e.service,
      if req.listenAddr != "" then req.listenAddr else e.listenAddr,
      if req.maxStreams.Some? then req.maxStreams.value else e.maxStreams)
  }

  function UpdatePort(t: Table, port: Port, req: UpdateRequest, validIP: IPCheck): (Response, Table) {
    if !Meaningful(req, validIP) then (BadRequest, t)
    else if port !in t then (NotFound, t)
    else (Changed(PortInfo(port, MergeUpdate(t[port], req))), Set(t, port, Some(MergeUpdate(t[port], req))))
  }

  // ------------------------------------------------------------ delete

  function DeletePort(t: Table, port: Port): (Response, Table) {
    if port !in t then (NotFound, t) else (NoContent, Set(t, port, None))
  }

  // ------------------------------------------------------------ runs

  /** The live table and the configuration last applied. */
  datatype State = State(table: Table, cfg: Option<Config>)

  datatype Event =
    | Reloading(cfg: Config, bound: set<Port>)
    | Creating(req: CreateRequest, started: bool)
    | Updating(port: Port, change: UpdateRequest)
    | Deleting(port: Port)

  function Do(s: State, e: Event, validIP: IPCheck): State {
    match e
    case Reloading(cfg, bound) =>
      if !Distinct(Flatten(cfg)) then s else
      State(Reconciled(s.table, IndexOfConfig(s.cfg), IndexOfConfig(Some(cfg)), bound).table, Some(cfg))
    case Creating(req, started) => s.(table := CreatePort(s.table, req, started, validIP).1)
    case Updating(port, change) => s.(table := UpdatePort(s.table, port, change, validIP).1)
    case Deleting(port) => s.(table := DeletePort(s.table, port).1)
  }

  function Run(s: State, es: seq<Event>, validIP: IPCheck): State
    decreases es
  {
    if es == [] then s else Run(Do(s, es[0], validIP), es[1..], validIP)
  }

  /** The event leaves the binding of `p` alone: no create or delete on `p` itself, and
      a configuration that is applied lists it. */
  predicate Keeps(e: Event, p: Port) {
    match e
    case Reloading(cfg, _) => !Distinct(Flatten(cfg)) || p in IndexOfConfig(Some(cfg))
    case Creating(req, _) => req.port != p
    case Updating(_, _) => true
    case Deleting(port) => port != p
  }

  lemma CustomerKeptByStep(s: State, e: Event, p: Port, validIP: IPCheck)
    requires p in IndexOfConfig(s.cfg) && Keeps(e, p)
    ensures p in IndexOfConfig(Do(s, e, validIP).cfg)
    ensures CustomerOf(Do(s, e, validIP).table, p) == CustomerOf(s.table, p)
  {
    match e
    case Reloading(cfg, bound) =>
      if Distinct(Flatten(cfg)) {
        CustomerKept(s.table, IndexOfConfig(s.cfg), IndexOfConfig(Some(cfg)), bound, p);
      }
      hide Reconciled, Distinct;
    case Creating(req, started) =>
    case Updating(port, change) =>
    case Deleting(port) =>
  }

  /** A port listed in every configuration keeps its customer through any mixture of
      reloads, updates of any port and creations and deletions of other ports. */
  lemma {:induction false} TenantBindingKept(s: State, es: seq<Event>, p: Port, validIP: IPCheck)
    requires p in IndexOfConfig(s.cfg) && forall i :: 0 <= i < |es| ==> Keeps(es[i], p)
    ensures CustomerOf(Run(s, es, validIP).table, p) == CustomerOf(s.table, p)
    decreases es
  {
    if es != [] {
      assert Keeps(es[0], p);
      CustomerKeptByStep(s, es[0], p, validIP);
      hide Do, Keeps, IndexOfConfig, CustomerOf;
      TenantBindingKept(Do(s, es[0], validIP), es[1..], p, validIP);
    }
  }

  /** A mapping made over the admin API moves to another customer when a configuration
      lists its port for the first time, for that customer, and its listener starts. */
  lemma ApiMappingMoves(s: State, req: CreateRequest, cfg: Config, bound: set<Port>, validIP: IPCheck)
    requires Acceptable(req, validIP) && req.port !in IndexOfConfig(s.cfg) && req.port in bound
    requires Distinct(Flatten(cfg)) && req.port in IndexOfConfig(Some(cfg))
    requires IndexOfConfig(Some(cfg))[req.port].entry.customer != req.customer
    ensures var s1 := Run(s, [Creating(req, true)], validIP);
            var s2 := Run(s, [Creating(req, true), Reloading(cfg, bound)], validIP);
            && CustomerOf(s1.table, req.port) == Some(req.customer)
            && CustomerOf(s2.table, req.port) == Some(IndexOfConfig(Some(cfg))[req.port].entry.customer)
  {
    var create, reload := Creating(req, true), Reloading(cfg, bound);
    var s1 := Do(s, create, validIP);
    assert [create][1..] == [] && [create, reload][1..] == [reload] && [reload][1..] == [];
    ReconciledAt(s1.table, IndexOfConfig(s.cfg), IndexOfConfig(Some(cfg)), bound, req.port);
    hide Reconciled, IndexOfConfig, Distinct;
    assert Run(s, [create], validIP) == Run(s1, [], validIP);
    assert Run(s, [create, reload], validIP) == Run(Do(s1, reload, validIP), [], validIP);
  }

  /** Such an input: port 8080 is created for one customer and then listed for another. */
  lemma MovedTenant(validIP: IPCheck) returns (req: CreateRequest, cfg: Config)
    ensures Acceptable(req, validIP) && Distinct(Flatten(cfg)) && req.port in IndexOfConfig(Some(cfg))
    ensures IndexOfConfig(Some(cfg))[req.port].entry.customer != req.customer
    ensures var s := Run(State(map[], None), [Creating(req, true), Reloading(cfg, {req.port})], validIP);
            CustomerOf(s.table, req.port) != Some(req.customer)
  {
    req := CreateRequest(8080, "first", "web", "", 0);
    var c := CustomerConfig("second", [PortConfig(8080, "web", "")], 0, RateLimit(0.0, 0));
    cfg := [c];
    assert cfg[..0] == [];
    var row := Row(8080, EntryFor(c, c.ports[0]));
    assert Flatten(cfg) == [row];
    assert [row][..0] == [];
    assert IndexOf([row]) == map[8080 := row.entry];
    ApiMappingMoves(State(map[], None), req, cfg, {req.port}, validIP);
  }
}
