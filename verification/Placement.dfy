/** The two-phase placement protocol: reserve under the scheduler lock, create
    outside it, release. Requests interleave freely between these steps. */
module Placement {
  import opened Seqs
  import opened Containers
  import opened Nodes
  import opened Scheduling
  import Resources

  /** A reservation: where a container is about to be created. */
  datatype Pending = Pending(name: string, config: Config, engineID: string, engineName: string)

  /** Whether the daemon has reported the container of a reservation yet. */
  datatype Phase = Creating | Created

  datatype State = State(
    engines: map<string, Engine>,
    pending: map<string, Pending>,
    phases: map<string, Phase>)

  const NO_INFO := Info("", [], [], [])

  /** The stand-in for a container that is still in flight. */
  function ToContainer(p: Pending): Container {
    Container("", if p.name != "" then ["/" + p.name] else [], p.config.labels,
              p.engineID, p.engineName, p.config, NO_INFO)
  }

  // ------------------------------------------------------ the name check

  predicate Bears(c: Container, name: string) {
    name in c.names || "/" + name in c.names
  }

  predicate CachedUnder(s: State, name: string) {
    exists id, i :: id in s.engines && i in s.engines[id].containers && Bears(s.engines[id].containers[i], name)
  }

  predicate NameFree(s: State, name: string) {
    name == "" ||
    (!CachedUnder(s, name) && NotPending(s.pending, name))
  }

  /** What is left of the check when the reservation is made: containers under
      this name that were reported meanwhile belong to reservations that stand,
      and those are named otherwise. */
  predicate NameClear(s: State, name: string) {
    name == "" ||
    (NotPending(s.pending, name) && forall id :: id in s.engines ==> ClearOn(s.engines[id], s.pending, name))
  }

  predicate ClearOn(e: Engine, pending: map<string, Pending>, name: string) {
    forall i :: i in e.containers && Bears(e.containers[i], name) ==> e.containers[i].config.swarmID in pending
  }

  predicate NotPending(pending: map<string, Pending>, name: string) {
    forall k :: k in pending ==> pending[k].name != name
  }

  // -------------------------------------------------------- the snapshot

  /** A reservation is added to the view of its engine unless the engine
      already shows a container under its Swarm ID. */
  function Consider(n: Node, p: Pending): Node {
    if p.engineID == n.id && Lookup(n.containers, p.config.swarmID) == None then
      match AddContainer(n, ToContainer(p))
      case Ok(n') => n'
      case Err => n
    else n
  }

  /** All reservations, in the order the map is visited. */
  function ConsiderAll(n: Node, pending: map<string, Pending>, keys: seq<string>): Node
    requires forall k :: k in keys ==> k in pending
  {
    if keys == [] then n
    else Consider(ConsiderAll(n, pending, keys[..|keys| - 1]), pending[keys[|keys| - 1]])
  }

  ghost predicate ListedAs(s: State, id: string, n: Node, order: seq<string>, keys: seq<string>)
    requires id in s.engines
  {
    && Lists(order, s.engines[id].containers)
    && Lists(keys, s.pending)
    && n == ConsiderAll(NodeOf(s.engines[id], order), s.pending, keys)
  }

  /** n is the view of engine id, for some visiting orders. */
  ghost predicate ListedOn(s: State, id: string, n: Node) {
    id in s.engines && exists order, keys :: ListedAs(s, id, n, order, keys)
  }

  /** nodes is a possible result of listing the cluster. */
  ghost predicate Listing(s: State, nodes: seq<Node>, ids: seq<string>) {
    && Lists(ids, s.engines)
    && |nodes| == |ids|
    && forall i :: 0 <= i < |ids| ==> ListedOn(s, ids[i], nodes[i])
  }

  // ------------------------------------------------------------ the steps

  /** The name the daemon gives: one leading slash. */
  function DaemonName(name: string): string {
    if name != "" && name[0] == '/' then name else "/" + name
  }

  /** The configuration as the cache shows it: CPUs make a detour over shares. */
  function AsCached(e: Engine, config: Config): Config
    requires e.cpus > 0
  {
    config.(cpuShares := Resources.Cached(config.cpuShares, e.cpus))
  }

  /** The cache entry of a created container. The daemon echoes the request,
      names the container itself if it has no name, and reports CPU shares. */
  function Reported(e: Engine, p: Pending, id: string, generated: string, ports: PortMap): Container
    requires e.cpus > 0
  {
    Container(id,
              [if p.name != "" then DaemonName(p.name) else generated],
              p.config.labels, e.id, e.name,
              AsCached(e, p.config),
              Info(p.config.networkMode, p.config.portBindings, p.config.exposedPorts, ports))
  }

  datatype Step =
    | Reserve(config: Config, name: string, nodes: seq<Node>, ids: seq<string>, out: seq<Node>)
    | Appear(swarmID: string, id: string, generated: string, ports: PortMap)
    | Release(swarmID: string)
    | Remove(engineID: string, id: string)
    | Rate(engineID: string, healthIndicator: int)

  function Reservation(s: State, config: Config, name: string, engineID: string): State
    requires engineID in s.engines
  {
    var e := s.engines[engineID];
    s.(pending := s.pending[config.swarmID := Pending(name, config, e.id, e.name)],
       phases := s.phases[config.swarmID := Creating])
  }

  /** While a container is in flight the filters see it as they will see it once
      it is created: its labels, its engine, its configuration up to CPUs, and a
      name without slash. */
  lemma StandInForeshadows(s: State, config: Config, name: string, id: string, i: string, generated: string,
                           ports: PortMap)
    requires id in s.engines && s.engines[id].cpus > 0
    ensures var p := Reservation(s, config, name, id).pending[config.swarmID];
            var d, c := ToContainer(p), Reported(s.engines[id], p, i, generated, ports);
            && d.config == config && d.labels == config.labels && d.id == ""
            && d.labels == c.labels && d.engineID == c.engineID && d.engineName == c.engineName
            && d.config.(cpuShares := c.config.cpuShares) == c.config
            && (name != "" ==> Bears(d, name) && Bears(c, DaemonName(name)))
            && (name != "" && name[0] != '/' ==> d.names == c.names)
            && (name == "" ==> d.names == [] && c.names == [generated])
  {
  }

  function WithContainers(s: State, id: string, containers: map<string, Container>): State
    requires id in s.engines
  {
    s.(engines := s.engines[id := s.engines[id].(containers := containers)])
  }

  /** One step, as far as its result goes. The reservation is made from views
      that cover their engines; the runs say how those views come about. */
  ghost predicate Next(sch: Scheduler, s: State, step: Step, s': State) {
    match step
    case Reserve(config, name, nodes, ids, out) =>
      && NameClear(s, name)
      && Sees(s, nodes)
      && Selects(sch, config, nodes, Ok(out))
      && out != [] && out[0].id in s.engines
      && s' == Reservation(s, config, name, out[0].id)
    case Appear(k, id, generated, ports) =>
      && k in s.pending && k in s.phases && s.phases[k] == Creating
      && s.pending[k].engineID in s.engines
      && var e := s.engines[s.pending[k].engineID];
      && id != "" && id !in e.containers && e.cpus > 0
      && s' == WithContainers(s, s.pending[k].engineID,
                              e.containers[id := Reported(e, s.pending[k], id, generated, ports)])
               .(phases := s.phases[k := Created])
    case Release(k) =>
      && k in s.pending
      && s' == s.(pending := s.pending - {k}, phases := s.phases - {k})
    case Remove(engineID, id) =>
      && engineID in s.engines
      && s' == WithContainers(s, engineID, s.engines[engineID].containers - {id})
    case Rate(engineID, healthIndicator) =>
      && engineID in s.engines
      && s' == s.(engines := s.engines[engineID := s.engines[engineID].(healthIndicator := healthIndicator)])
  }

  // ------------------------------------------------------- the hypotheses

  predicate ShownAs(e: Engine, i: string, swarmID: string) {
    i in e.containers && e.containers[i].config.swarmID == swarmID
  }

  ghost predicate Shows(e: Engine, swarmID: string) {
    exists i :: ShownAs(e, i, swarmID)
  }

  /** Requests are non-negative and carry a Swarm ID used by nothing else. */
  ghost predicate Admissible(s: State, config: Config) {
    && config.memory >= 0 && config.cpuShares >= 0
    && config.swarmID != "" && config.swarmID !in s.pending
    && forall id, i :: id in s.engines ==> !ShownAs(s.engines[id], i, config.swarmID)
  }

  /** No other container of the engine answers to a Swarm ID in flight on it. */
  ghost predicate NoCollisions(s: State) {
    forall k :: k in s.pending && s.pending[k].engineID in s.engines ==>
      && (forall i :: i in s.engines[s.pending[k].engineID].containers ==>
            !Collides(s.engines[s.pending[k].engineID].containers[i], k))
      && (forall j :: j in s.pending && s.pending[j].engineID == s.pending[k].engineID ==>
            !Collides(ToContainer(s.pending[j]), k))
  }

  ghost predicate Hypotheses(s: State, step: Step) {
    NoCollisions(s) && (step.Reserve? ==> Admissible(s, step.config))
  }

  // -------------------------------------------------------- well-formedness

  ghost predicate EngineOk(e: Engine) {
    && 1 <= e.cpus
    && forall i :: i in e.containers ==>
         var c := e.containers[i];
         && c.id == i && i != ""
         && c.config.memory >= 0 && c.config.cpuShares >= 0
         && c.info.portBindings == c.config.portBindings
  }

  ghost predicate PendingOk(s: State, k: string)
    requires k in s.pending
  {
    var p := s.pending[k];
    && k != "" && p.config.swarmID == k
    && p.engineID in s.engines
    && 0 <= p.config.memory <= TotalMemory(s.engines[p.engineID])
    && 0 <= p.config.cpuShares <= TotalCpus(s.engines[p.engineID])
  }

  /** A reservation whose container has not been reported is shown by no engine;
      one whose container was reported is shown at most once, by its own engine,
      with the configuration that was reserved, as the cache shows it. */
  ghost predicate ShownOk(s: State, k: string)
    requires k in s.pending
  {
    && k in s.phases
    && (forall id, i :: id in s.engines && ShownAs(s.engines[id], i, k) ==>
          && s.phases[k] == Created
          && id == s.pending[k].engineID
          && s.engines[id].cpus > 0
          && s.engines[id].containers[i].config == AsCached(s.engines[id], s.pending[k].config))
    && (forall id, i, j :: id in s.engines && ShownAs(s.engines[id], i, k) && ShownAs(s.engines[id], j, k) ==> i == j)
  }

  ghost predicate Core(s: State) {
    && (forall id :: id in s.engines ==> s.engines[id].id == id && EngineOk(s.engines[id]))
    && (forall k :: k in s.pending ==> PendingOk(s, k) && ShownOk(s, k))
  }

  // --------------------------------------------------------- the residents

  datatype Tag = Cached(id: string) | InFlight(swarmID: string)

  /** k is reserved on e, and e does not show its container yet. */
  ghost predicate Unseen(e: Engine, pending: map<string, Pending>, k: string) {
    k in pending && pending[k].engineID == e.id && !Shows(e, k)
  }

  ghost predicate Resides(e: Engine, pending: map<string, Pending>, t: Tag) {
    match t
    case Cached(i) => i in e.containers
    case InFlight(k) => Unseen(e, pending, k)
  }

  ghost function Resident(e: Engine, pending: map<string, Pending>, t: Tag): Container
    requires Resides(e, pending, t)
  {
    match t
    case Cached(i) => e.containers[i]
    case InFlight(k) => ToContainer(pending[k])
  }

  /** Everything an engine holds or has promised to hold, each container once:
      the cached ones, and the reservations not yet shown by the cache. */
  ghost function Held(e: Engine, pending: map<string, Pending>): (r: map<Tag, Container>)
    ensures forall t :: t in r <==> Resides(e, pending, t)
    ensures forall t :: t in r ==> r[t] == Resident(e, pending, t)
  {
    var cached := set i | i in e.containers :: Cached(i);
    var inFlight := set k | k in pending && Unseen(e, pending, k) :: InFlight(k);
    map t | t in cached + inFlight :: Resident(e, pending, t)
  }

  ghost function Residents(s: State, id: string): map<Tag, Container>
    requires id in s.engines
  {
    Held(s.engines[id], s.pending)
  }

  /** The resident is in the cache or still on its way there. */
  predicate Awaits(phases: map<string, Phase>, t: Tag) {
    t.InFlight? ==> t.swarmID in phases && phases[t.swarmID] == Creating
  }

  function Awaiting(r: map<Tag, Container>, phases: map<string, Phase>): map<Tag, Container> {
    map t | t in r && Awaits(phases, t) :: r[t]
  }

  /** Two ways to count an engine's load: every reservation until its release, or
      only until its container has been reported. They differ by containers that
      were reported and removed again before their release. */
  datatype Scope = Promised | Awaited

  ghost function Load(s: State, id: string, scope: Scope): map<Tag, Container>
    requires id in s.engines
  {
    match scope
    case Promised => Residents(s, id)
    case Awaited => Awaiting(Residents(s, id), s.phases)
  }

  // -------------------------------------------------------- covering views

  /** c shows the host ports that config binds. */
  predicate ShowsPorts(c: Container, config: Config) {
    && c.config.portBindings == config.portBindings && c.config.networkMode == config.networkMode
    && (c.id != "" ==> c.info.portBindings == c.config.portBindings)
  }

  /** Some container of the list shows the ports of resident t. */
  ghost predicate PortsListed(cs: seq<Container>, r: map<Tag, Container>, t: Tag) {
    t in r && exists c :: c in cs && ShowsPorts(c, r[t].config)
  }

  /** A view whose list leaves out nothing that the engine holds or has been
      promised. */
  ghost predicate ListCovers(s: State, id: string, n: Node) {
    && id in s.engines
    && var e, r := s.engines[id], Residents(s, id);
    && n.id == id && n.labels == e.labels && n.totalMemory == TotalMemory(e) && n.totalCpus == TotalCpus(e)
    && |n.containers| >= |r|
    && forall t {:trigger PortsListed(n.containers, r, t)} :: t in r ==> PortsListed(n.containers, r, t)
  }

  const MAX_SHARES := 1024

  /** A view whose sums leave out nothing. Engines of more than 1024 CPUs show more
      CPUs in their cache than were reserved. */
  ghost predicate SumsCover(s: State, id: string, n: Node, scope: Scope)
    requires id in s.engines
  {
    && n.usedMemory >= Sum(Load(s, id, scope), MemoryOf)
    && (s.engines[id].cpus <= MAX_SHARES ==> n.usedCpus >= Sum(Load(s, id, scope), CpusOf))
  }

  ghost predicate Covers(s: State, id: string, n: Node) {
    ListCovers(s, id, n) && SumsCover(s, id, n, Awaited)
  }

  ghost predicate Sees(s: State, nodes: seq<Node>) {
    forall n :: n in nodes ==> Covers(s, n.id, n)
  }

  /** A map is the residents' map if it has their tags and their containers. */
  lemma HeldIs(e: Engine, pending: map<string, Pending>, m: map<Tag, Container>)
    requires forall t :: t in m <==> Resides(e, pending, t)
    requires forall t :: t in m ==> m[t] == Resident(e, pending, t)
    ensures Held(e, pending) == m
  {
  }

  lemma HeldDependsOn(e: Engine, e': Engine, pending: map<string, Pending>)
    requires e.id == e'.id && e.containers == e'.containers
    ensures Held(e, pending) == Held(e', pending)
  {
    forall k ensures Shows(e, k) <==> Shows(e', k) {
      assert forall j :: ShownAs(e, j, k) <==> ShownAs(e', j, k);
    }
    HeldIs(e, pending, Held(e', pending));
  }

  lemma HeldReserved(e: Engine, pending: map<string, Pending>, k: string, p: Pending)
    requires k !in pending && !Shows(e, k)
    ensures InFlight(k) !in Held(e, pending)
    ensures Held(e, pending[k := p]) ==
            if p.engineID == e.id then Held(e, pending)[InFlight(k) := ToContainer(p)] else Held(e, pending)
  {
    var r := Held(e, pending);
    HeldIs(e, pending[k := p], if p.engineID == e.id then r[InFlight(k) := ToContainer(p)] else r);
  }

  lemma HeldReleased(e: Engine, pending: map<string, Pending>, k: string)
    ensures Held(e, pending - {k}) == Held(e, pending) - {InFlight(k)}
  {
    HeldIs(e, pending - {k}, Held(e, pending) - {InFlight(k)});
  }

  lemma ShowsAdded(e: Engine, i: string, c: Container, k: string)
    requires i !in e.containers
    ensures Shows(e.(containers := e.containers[i := c]), k) <==> Shows(e, k) || k == c.config.swarmID
  {
    var e' := e.(containers := e.containers[i := c]);
    assert forall j :: ShownAs(e', j, k) <==> ShownAs(e, j, k) || (j == i && k == c.config.swarmID);
    if k == c.config.swarmID {
      assert ShownAs(e', i, k);
    }
  }

  lemma ShowsRemoved(e: Engine, i: string, k: string)
    requires i in e.containers
    requires k == e.containers[i].config.swarmID ==> forall j :: ShownAs(e, j, k) ==> j == i
    ensures Shows(e.(containers := e.containers - {i}), k) <==> Shows(e, k) && k != e.containers[i].config.swarmID
  {
    var e' := e.(containers := e.containers - {i});
    assert forall j :: ShownAs(e', j, k) <==> ShownAs(e, j, k) && j != i;
  }

  /** A reported container takes the place of its reservation. */
  lemma HeldReported(e: Engine, pending: map<string, Pending>, i: string, c: Container)
    requires i !in e.containers
    requires Unseen(e, pending, c.config.swarmID)
    ensures var e' := e.(containers := e.containers[i := c]);
            Held(e', pending) == (Held(e, pending) - {InFlight(c.config.swarmID)})[Cached(i) := c]
  {
    var e' := e.(containers := e.containers[i := c]);
    forall k ensures Unseen(e', pending, k) <==> Unseen(e, pending, k) && k != c.config.swarmID {
      ShowsAdded(e, i, c, k);
    }
    HeldIs(e', pending, (Held(e, pending) - {InFlight(c.config.swarmID)})[Cached(i) := c]);
  }

  /** A removed container gives its place back to its reservation, if that
      still stands. */
  lemma HeldRemoved(e: Engine, pending: map<string, Pending>, i: string)
    requires i in e.containers
    requires e.containers[i].config.swarmID in pending ==>
               forall j :: ShownAs(e, j, e.containers[i].config.swarmID) ==> j == i
    ensures var e' := e.(containers := e.containers - {i});
            var k := e.containers[i].config.swarmID;
            Held(e', pending) ==
            if k in pending && pending[k].engineID == e.id
            then (Held(e, pending) - {Cached(i)})[InFlight(k) := ToContainer(pending[k])]
            else Held(e, pending) - {Cached(i)}
  {
    var e' := e.(containers := e.containers - {i});
    var gone := e.containers[i].config.swarmID;
    var back := gone in pending && pending[gone].engineID == e.id;
    assert ShownAs(e, i, gone);
    forall k ensures Unseen(e', pending, k) <==> Unseen(e, pending, k) || (back && k == gone) {
      if k in pending {
        ShowsRemoved(e, i, k);
      }
    }
    var r := Held(e, pending) - {Cached(i)};
    HeldIs(e', pending, if back then r[InFlight(gone) := ToContainer(pending[gone])] else r);
  }
}
