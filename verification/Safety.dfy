/** What one step of the placement protocol does. */
module Safety {
  import opened Containers
  import opened Nodes
  import opened Filters
  import opened Scheduling
  import opened Placement
  import Resources

  // ------------------------------------------- what a step does to residents

  datatype Change =
    | Same
    | Drop(t: Tag)
    | Replace(t: Tag, t': Tag, c: Container)
    | Add(t: Tag, c: Container)

  ghost function Changed(r: map<Tag, Container>, change: Change): map<Tag, Container> {
    match change
    case Same => r
    case Drop(t) => r - {t}
    case Replace(t, t', c) => (r - {t})[t' := c]
    case Add(t, c) => r[t := c]
  }

  /** A replacement keeps the configuration, except that CPUs may differ; an
      addition is new. */
  ghost predicate Coherent(r: map<Tag, Container>, change: Change) {
    match change
    case Same => true
    case Drop(t) => true
    case Replace(t, t', c) => t in r && t' !in r && r[t].config.(cpuShares := c.config.cpuShares) == c.config
    case Add(t, c) => t !in r
  }

  /** CPUs do not differ either. */
  ghost predicate Strict(r: map<Tag, Container>, change: Change) {
    change.Replace? && change.t in r ==> r[change.t].config == change.c.config
  }

  /** Where a resident stood before the change. */
  ghost function Origin(change: Change, t: Tag): Tag {
    if change.Replace? && t == change.t' then change.t else t
  }

  lemma OriginStands(r: map<Tag, Container>, change: Change, t: Tag)
    requires Coherent(r, change) && t in Changed(r, change) && !(change.Add? && t == change.t)
    ensures Origin(change, t) in r
    ensures var c, c' := r[Origin(change, t)], Changed(r, change)[t];
            c.config.(cpuShares := c'.config.cpuShares) == c'.config
  {
  }

  lemma OriginInjective(r: map<Tag, Container>, change: Change, t: Tag, u: Tag)
    requires Coherent(r, change) && t in Changed(r, change) && u in Changed(r, change)
    requires Origin(change, t) == Origin(change, u)
    ensures t == u
  {
  }

  /** What a step does to the residents of engine id: a reservation adds one, a
      reported container takes the place of its reservation, a removed one gives
      it back while the reservation stands. */
  ghost function ChangeAt(s: State, step: Step, id: string): Change
    requires id in s.engines && s.engines[id].cpus > 0
  {
    match step
    case Reserve(config, name, nodes, ids, out) =>
      if out != [] && out[0].id == id then
        Add(InFlight(config.swarmID), ToContainer(Pending(name, config, id, s.engines[id].name)))
      else Same
    case Appear(k, i, generated, ports) =>
      if k in s.pending && s.pending[k].engineID == id then
        Replace(InFlight(k), Cached(i), Reported(s.engines[id], s.pending[k], i, generated, ports))
      else Same
    case Release(k) => Drop(InFlight(k))
    case Remove(engineID, i) =>
      if engineID == id && i in s.engines[id].containers then
        var k := s.engines[id].containers[i].config.swarmID;
        if k in s.pending && s.pending[k].engineID == id
        then Replace(Cached(i), InFlight(k), ToContainer(s.pending[k]))
        else Drop(Cached(i))
      else Same
    case Rate(engineID, healthIndicator) => Same
  }

  /** The part of an engine that no step changes. */
  ghost predicate SameSpec(e: Engine, e': Engine) {
    e.(containers := e'.containers, healthIndicator := e'.healthIndicator) == e'
  }

  ghost predicate Explains(s: State, step: Step, s': State, id: string)
    requires Core(s) && id in s.engines
  {
    && id in s'.engines && SameSpec(s.engines[id], s'.engines[id])
    && Coherent(Residents(s, id), ChangeAt(s, step, id))
    && Residents(s', id) == Changed(Residents(s, id), ChangeAt(s, step, id))
  }

  lemma ReserveExplained(s: State, step: Step, s': State, id: string)
    requires Core(s) && id in s.engines
    requires step.Reserve? && step.out != [] && step.out[0].id in s.engines && Admissible(s, step.config)
    requires s' == Reservation(s, step.config, step.name, step.out[0].id)
    ensures Explains(s, step, s', id)
  {
    HeldReserved(s.engines[id], s.pending, step.config.swarmID,
                 Pending(step.name, step.config, step.out[0].id, s.engines[step.out[0].id].name));
  }

  lemma AppearExplained(sch: Scheduler, s: State, step: Step, s': State, id: string)
    requires Core(s) && id in s.engines
    requires step.Appear? && Next(sch, s, step, s')
    ensures Explains(s, step, s', id)
  {
    var k := step.swarmID;
    assert PendingOk(s, k) && ShownOk(s, k);
    if s.pending[k].engineID == id {
      var e := s.engines[id];
      var c := Reported(e, s.pending[k], step.id, step.generated, step.ports);
      HeldReported(e, s.pending, step.id, c);
    }
  }

  /** A cached container under a Swarm ID in flight is the one that was reserved. */
  lemma ShowsItsReservation(s: State, id: string, i: string, k: string)
    requires Core(s) && id in s.engines && ShownAs(s.engines[id], i, k) && k in s.pending
    ensures s.pending[k].engineID == id && s.engines[id].cpus > 0
    ensures s.engines[id].containers[i].config == AsCached(s.engines[id], s.pending[k].config)
    ensures forall j :: ShownAs(s.engines[id], j, k) ==> j == i
  {
    assert ShownOk(s, k);
  }

  lemma UncachedResidents(s: State, id: string, i: string)
    requires id in s.engines && s.engines[id].id == id && s.engines[id].cpus > 0 && i in s.engines[id].containers
    requires var k := s.engines[id].containers[i].config.swarmID;
             k in s.pending ==> forall j :: ShownAs(s.engines[id], j, k) ==> j == i
    ensures var s' := WithContainers(s, id, s.engines[id].containers - {i});
            Residents(s', id) == Changed(Residents(s, id), ChangeAt(s, Remove(id, i), id))
  {
    var e, s' := s.engines[id], WithContainers(s, id, s.engines[id].containers - {i});
    assert s'.engines[id] == e.(containers := e.containers - {i}) && s'.pending == s.pending;
    HeldRemoved(e, s.pending, i);
  }

  lemma UncachedCoherent(s: State, id: string, i: string)
    requires Core(s) && id in s.engines && i in s.engines[id].containers
    ensures var k := s.engines[id].containers[i].config.swarmID;
            k in s.pending ==> forall j :: ShownAs(s.engines[id], j, k) ==> j == i
    ensures Coherent(Residents(s, id), ChangeAt(s, Remove(id, i), id))
  {
    var k := s.engines[id].containers[i].config.swarmID;
    assert ShownAs(s.engines[id], i, k);
    if k in s.pending {
      ShowsItsReservation(s, id, i, k);
    }
  }

  lemma RemoveExplained(s: State, step: Step, s': State, id: string)
    requires Core(s) && id in s.engines
    requires step.Remove? && step.engineID in s.engines
    requires s' == WithContainers(s, step.engineID, s.engines[step.engineID].containers - {step.id})
    ensures Explains(s, step, s', id)
  {
    if step.engineID == id {
      if step.id in s.engines[id].containers {
        UncachedCoherent(s, id, step.id);
        UncachedResidents(s, id, step.id);
      } else {
        assert s.engines[id].containers - {step.id} == s.engines[id].containers;
      }
    }
  }

  lemma ReleaseExplained(s: State, step: Step, s': State, id: string)
    requires Core(s) && id in s.engines
    requires step.Release?
    requires s' == s.(pending := s.pending - {step.swarmID}, phases := s.phases - {step.swarmID})
    ensures Explains(s, step, s', id)
  {
    HeldReleased(s.engines[id], s.pending, step.swarmID);
  }

  lemma RateExplained(s: State, step: Step, s': State, id: string)
    requires Core(s) && id in s.engines
    requires step.Rate? && step.engineID in s.engines
    requires var e := s.engines[step.engineID].(healthIndicator := step.healthIndicator);
             s' == s.(engines := s.engines[step.engineID := e])
    ensures Explains(s, step, s', id)
  {
    HeldDependsOn(s.engines[id], s'.engines[id], s.pending);
  }

  lemma StepExplained(sch: Scheduler, s: State, step: Step, s': State, id: string)
    requires Core(s) && Next(sch, s, step, s') && Hypotheses(s, step)
    requires id in s.engines
    ensures Explains(s, step, s', id)
  {
    match step {
      case Reserve(_, _, _, _, _) => ReserveExplained(s, step, s', id);
      case Appear(_, _, _, _) => AppearExplained(sch, s, step, s', id);
      case Release(_) => ReleaseExplained(s, step, s', id);
      case Remove(_, _) => RemoveExplained(s, step, s', id);
      case Rate(_, _) => RateExplained(s, step, s', id);
    }
  }

  /** On engines of at most 1024 CPUs the detour over shares loses nothing. */
  lemma SmallEnginesAreStrict(sch: Scheduler, s: State, step: Step, s': State, id: string)
    requires Core(s) && Next(sch, s, step, s')
    requires id in s.engines && s.engines[id].cpus <= MAX_SHARES
    ensures Strict(Residents(s, id), ChangeAt(s, step, id))
  {
    var e := s.engines[id];
    if step.Appear? {
      assert PendingOk(s, step.swarmID);
      Resources.CpuShareRoundTrip(s.pending[step.swarmID].config.cpuShares, e.cpus);
    } else if step.Remove? && step.id in e.containers {
      var k := e.containers[step.id].config.swarmID;
      if k in s.pending {
        assert PendingOk(s, k) && ShownAs(e, step.id, k);
        ShowsItsReservation(s, id, step.id, k);
        Resources.CpuShareRoundTrip(s.pending[k].config.cpuShares, e.cpus);
      }
    }
  }

  /** What a step does to the containers of an engine. */
  lemma StepEffect(sch: Scheduler, s: State, step: Step, s': State, id: string) returns (change: Change)
    requires Core(s) && Next(sch, s, step, s') && Hypotheses(s, step) && id in s.engines
    ensures Effect(s, s', id, change)
    ensures change.Add? ==> step.Reserve? && step.out != [] && step.out[0].id == id && change.c.config == step.config
    ensures s.engines[id].cpus <= MAX_SHARES ==> Strict(Residents(s, id), change)
  {
    change := ChangeAt(s, step, id);
    StepExplained(sch, s, step, s', id);
    if s.engines[id].cpus <= MAX_SHARES {
      SmallEnginesAreStrict(sch, s, step, s', id);
    }
  }

  ghost predicate Effect(s: State, s': State, id: string, change: Change) {
    && id in s.engines && id in s'.engines && SameSpec(s.engines[id], s'.engines[id])
    && Coherent(Residents(s, id), change) && Residents(s', id) == Changed(Residents(s, id), change)
  }

  // ------------------------------------------------ what a step does to loads

  ghost predicate Moves(r: map<Tag, Container>, r': map<Tag, Container>, change: Change) {
    Coherent(r, change) && r' == Changed(r, change)
  }

  /** A removed container is not awaited again. */
  ghost function LoadChange(s: State, step: Step, id: string, scope: Scope): Change
    requires Core(s) && id in s.engines
  {
    var change := ChangeAt(s, step, id);
    if scope.Awaited? && step.Remove? && change.Replace? then Drop(change.t) else change
  }

  lemma AwaitingMoves(r: map<Tag, Container>, r': map<Tag, Container>, phases: map<string, Phase>,
                      phases': map<string, Phase>, change: Change)
    requires Moves(r, r', change)
    requires forall t :: t in r && !((change.Drop? || change.Replace?) && t == change.t) ==>
               Awaits(phases, t) == Awaits(phases', t)
    requires change.Add? ==> Awaits(phases', change.t)
    requires change.Replace? && Awaits(phases', change.t') ==> Awaits(phases, change.t)
    ensures Moves(Awaiting(r, phases), Awaiting(r', phases'),
                  if change.Replace? && !Awaits(phases', change.t') then Drop(change.t) else change)
  {
  }

  ghost function PhasesAfter(phases: map<string, Phase>, step: Step): map<string, Phase> {
    match step
    case Reserve(config, name, nodes, ids, out) => phases[config.swarmID := Creating]
    case Appear(k, i, generated, ports) => phases[k := Created]
    case Release(k) => phases - {k}
    case Remove(engineID, i) => phases
    case Rate(engineID, healthIndicator) => phases
  }

  lemma StepPhases(sch: Scheduler, s: State, step: Step, s': State)
    requires Next(sch, s, step, s')
    ensures s'.phases == PhasesAfter(s.phases, step)
    ensures step.Appear? ==> step.swarmID in s.pending && Awaits(s.phases, InFlight(step.swarmID))
  {
  }

  /** Phases change only where the residents do. */
  lemma PhaseStays(s: State, step: Step, id: string, t: Tag)
    requires Core(s) && id in s.engines && t in Residents(s, id)
    requires step.Reserve? ==> step.config.swarmID !in s.pending
    requires step.Appear? ==> step.swarmID in s.pending
    requires var change := ChangeAt(s, step, id); (change.Drop? || change.Replace?) ==> t != change.t
    ensures Awaits(s.phases, t) == Awaits(PhasesAfter(s.phases, step), t)
  {
    if t.InFlight? {
      assert Unseen(s.engines[id], s.pending, t.swarmID);
    }
  }

  lemma RemovedIsNotAwaited(s: State, step: Step, id: string)
    requires Core(s) && id in s.engines && step.Remove? && ChangeAt(s, step, id).Replace?
    ensures !Awaits(s.phases, ChangeAt(s, step, id).t')
  {
    var k := ChangeAt(s, step, id).t'.swarmID;
    assert ShownOk(s, k);
    assert ShownAs(s.engines[id], step.id, k);
  }

  lemma AwaitedMoves(s: State, step: Step, s': State, id: string)
    requires Core(s) && id in s.engines && Explains(s, step, s', id)
    requires s'.phases == PhasesAfter(s.phases, step)
    requires step.Reserve? ==> step.config.swarmID !in s.pending
    requires step.Appear? ==> step.swarmID in s.pending && Awaits(s.phases, InFlight(step.swarmID))
    ensures Moves(Load(s, id, Awaited), Load(s', id, Awaited), LoadChange(s, step, id, Awaited))
  {
    var change := ChangeAt(s, step, id);
    forall t | t in Residents(s, id) && !((change.Drop? || change.Replace?) && t == change.t)
      ensures Awaits(s.phases, t) == Awaits(s'.phases, t)
    {
      PhaseStays(s, step, id, t);
    }
    if step.Remove? && ChangeAt(s, step, id).Replace? {
      RemovedIsNotAwaited(s, step, id);
    }
    AwaitingMoves(Residents(s, id), Residents(s', id), s.phases, s'.phases, ChangeAt(s, step, id));
  }

  lemma AwaitedStrict(s: State, step: Step, id: string)
    requires Core(s) && id in s.engines && Strict(Residents(s, id), ChangeAt(s, step, id))
    ensures Strict(Load(s, id, Awaited), LoadChange(s, step, id, Awaited))
  {
  }

  lemma LoadExplained(sch: Scheduler, s: State, step: Step, s': State, id: string, scope: Scope)
    requires Core(s) && Next(sch, s, step, s') && Hypotheses(s, step) && id in s.engines
    ensures id in s'.engines && SameSpec(s.engines[id], s'.engines[id])
    ensures Moves(Load(s, id, scope), Load(s', id, scope), LoadChange(s, step, id, scope))
  {
    StepExplained(sch, s, step, s', id);
    StepPhases(sch, s, step, s');
    AwaitedMoves(s, step, s', id);
  }

  lemma StepLoad(sch: Scheduler, s: State, step: Step, s': State, id: string, scope: Scope) returns (change: Change)
    requires Core(s) && Next(sch, s, step, s') && Hypotheses(s, step) && id in s.engines
    ensures id in s'.engines && SameSpec(s.engines[id], s'.engines[id])
    ensures Moves(Load(s, id, scope), Load(s', id, scope), change)
    ensures change.Add? ==> step.Reserve? && step.out != [] && step.out[0].id == id && change.c.config == step.config
    ensures s.engines[id].cpus <= MAX_SHARES ==> Strict(Load(s, id, scope), change)
  {
    change := LoadChange(s, step, id, scope);
    LoadExplained(sch, s, step, s', id, scope);
    if s.engines[id].cpus <= MAX_SHARES {
      SmallEnginesAreStrict(sch, s, step, s', id);
      AwaitedStrict(s, step, id);
    }
  }

  lemma LoadNonNegative(s: State, id: string, scope: Scope)
    requires Core(s) && id in s.engines
    ensures var r := Load(s, id, scope); forall t :: t in r ==> MemoryOf(r[t]) >= 0 && CpusOf(r[t]) >= 0
  {
    ResidentsNonNegative(s, id);
  }

  lemma ResidentsNonNegative(s: State, id: string)
    requires Core(s) && id in s.engines
    ensures forall t :: t in Residents(s, id) ==> MemoryOf(Residents(s, id)[t]) >= 0 && CpusOf(Residents(s, id)[t]) >= 0
  {
    forall t | t in Residents(s, id)
      ensures MemoryOf(Residents(s, id)[t]) >= 0 && CpusOf(Residents(s, id)[t]) >= 0
    {
      match t {
        case Cached(i) => assert EngineOk(s.engines[id]);
        case InFlight(k) => assert PendingOk(s, k);
      }
    }
  }

  lemma ChangeSize(r: map<Tag, Container>, change: Change)
    requires Coherent(r, change)
    ensures |Changed(r, change)| <= |r| + if change.Add? then 1 else 0
  {
    match change {
      case Same =>
      case Drop(t) => SizeDropped(r, t);
      case Replace(t, t', c) =>
        SizeDropped(r, t);
        SizeInserted(r - {t}, t', c);
      case Add(t, c) => SizeInserted(r, t, c);
    }
  }

  lemma SizeDropped(r: map<Tag, Container>, t: Tag)
    ensures |r - {t}| == |r| - if t in r then 1 else 0
  {
    assert (r - {t}).Keys == r.Keys - {t};
  }

  lemma SizeInserted(r: map<Tag, Container>, t: Tag, c: Container)
    requires t !in r
    ensures |r[t := c]| == |r| + 1
  {
    assert r[t := c].Keys == r.Keys + {t};
  }

  // ------------------------------------------------- well-formedness is kept

  /** The engine a reservation goes to: its view left nothing out, it passed
      every hard condition, and it has room. */
  lemma ChosenNode(sch: Scheduler, s: State, step: Step, s': State)
    requires step.Reserve? && Next(sch, s, step, s')
    ensures var n := step.out[0];
            && n.id in s.engines && Covers(s, n.id, n)
            && AllWellFormed(sch.filters, step.config)
            && Feasible(sch, step.config, false)(n)
  {
    ChosenIsFeasible(sch, step.config, step.nodes, step.out);
  }

  lemma ReserveKeepsCore(s: State, config: Config, name: string, id: string)
    requires Core(s) && Admissible(s, config)
    requires id in s.engines
    requires config.memory <= TotalMemory(s.engines[id]) && config.cpuShares <= TotalCpus(s.engines[id])
    ensures Core(Reservation(s, config, name, id))
  {
    var s' := Reservation(s, config, name, id);
    forall k | k in s'.pending ensures PendingOk(s', k) && ShownOk(s', k) {
      if k != config.swarmID {
        assert PendingOk(s, k) && ShownOk(s, k);
      }
    }
  }

  lemma ReleaseKeepsCore(s: State, k: string)
    requires Core(s)
    ensures Core(s.(pending := s.pending - {k}, phases := s.phases - {k}))
  {
    var s' := s.(pending := s.pending - {k}, phases := s.phases - {k});
    forall j | j in s'.pending ensures PendingOk(s', j) && ShownOk(s', j) {
      assert PendingOk(s, j) && ShownOk(s, j);
    }
  }

  /** Losing cache entries, or being rated anew, breaks nothing. */
  lemma ShrinkingKeepsCore(s: State, s': State)
    requires Core(s) && s'.pending == s.pending && s'.phases == s.phases
    requires s'.engines.Keys == s.engines.Keys
    requires forall id :: id in s.engines ==>
               && SameSpec(s.engines[id], s'.engines[id])
               && forall i :: i in s'.engines[id].containers ==>
                    i in s.engines[id].containers && s'.engines[id].containers[i] == s.engines[id].containers[i]
    ensures Core(s')
  {
    forall k | k in s'.pending ensures PendingOk(s', k) && ShownOk(s', k) {
      assert PendingOk(s, k) && ShownOk(s, k);
      assert forall id, i :: id in s.engines && ShownAs(s'.engines[id], i, k) ==> ShownAs(s.engines[id], i, k);
    }
  }

  /** A report adds one cache entry, under a Swarm ID that nothing showed. */
  ghost predicate Reports(s: State, k: string, eid: string, i: string, c: Container, s': State) {
    && k in s.pending && s.pending[k].engineID == eid && k in s.phases && s.phases[k] == Creating
    && eid in s.engines && i !in s.engines[eid].containers
    && s.engines[eid].cpus > 0 && c.config == AsCached(s.engines[eid], s.pending[k].config)
    && s' == WithContainers(s, eid, s.engines[eid].containers[i := c]).(phases := s.phases[k := Created])
  }

  lemma ReportShows(s: State, k: string, eid: string, i: string, c: Container, s': State, id: string, x: string,
                    j: string)
    requires Reports(s, k, eid, i, c, s') && c.config.swarmID == k && id in s'.engines
    ensures ShownAs(s'.engines[id], x, j) <==> ShownAs(s.engines[id], x, j) || (j == k && id == eid && x == i)
  {
  }

  lemma AppearKeepsShown(s: State, s': State, k: string, eid: string, i: string, c: Container, j: string)
    requires Core(s) && Reports(s, k, eid, i, c, s') && j in s.pending
    ensures PendingOk(s', j) && ShownOk(s', j)
  {
    assert PendingOk(s, j) && ShownOk(s, j) && PendingOk(s, k) && ShownOk(s, k);
    forall id, x | id in s'.engines
      ensures ShownAs(s'.engines[id], x, j) <==> ShownAs(s.engines[id], x, j) || (j == k && id == eid && x == i)
    {
      ReportShows(s, k, eid, i, c, s', id, x, j);
    }
  }

  lemma ReportKeepsCore(s: State, k: string, eid: string, i: string, c: Container, s': State)
    requires Core(s) && Reports(s, k, eid, i, c, s') && EngineOk(s'.engines[eid])
    ensures Core(s')
  {
    forall j | j in s'.pending ensures PendingOk(s', j) && ShownOk(s', j) {
      AppearKeepsShown(s, s', k, eid, i, c, j);
    }
  }

  lemma ReportedOk(e: Engine, p: Pending, i: string, generated: string, ports: PortMap)
    requires EngineOk(e) && p.config.memory >= 0 && p.config.cpuShares >= 0 && i != ""
    ensures var c := Reported(e, p, i, generated, ports);
            c.config == AsCached(e, p.config) && EngineOk(e.(containers := e.containers[i := c]))
  {
    Resources.CachedNeverUnderReports(p.config.cpuShares, e.cpus);
  }

  lemma AppearKeepsCore(s: State, k: string, i: string, generated: string, ports: PortMap)
    requires Core(s) && k in s.pending && s.phases[k] == Creating
    requires i != "" && i !in s.engines[s.pending[k].engineID].containers
    ensures var e := s.engines[s.pending[k].engineID];
            Core(WithContainers(s, s.pending[k].engineID,
                                e.containers[i := Reported(e, s.pending[k], i, generated, ports)])
                 .(phases := s.phases[k := Created]))
  {
    var eid := s.pending[k].engineID;
    var e := s.engines[eid];
    var c := Reported(e, s.pending[k], i, generated, ports);
    var s' := WithContainers(s, eid, e.containers[i := c]).(phases := s.phases[k := Created]);
    assert PendingOk(s, k);
    ReportedOk(e, s.pending[k], i, generated, ports);
    ReportKeepsCore(s, k, eid, i, c, s');
  }

  lemma StepKeepsCore(sch: Scheduler, s: State, step: Step, s': State)
    requires Core(s) && Next(sch, s, step, s') && Hypotheses(s, step)
    ensures Core(s')
  {
    match step {
      case Reserve(config, name, _, _, out) =>
        ChosenNode(sch, s, step, s');
        ReserveKeepsCore(s, config, name, out[0].id);
      case Appear(k, i, generated, ports) => AppearKeepsCore(s, k, i, generated, ports);
      case Release(k) => ReleaseKeepsCore(s, k);
      case Remove(engineID, i) => ShrinkingKeepsCore(s, s');
      case Rate(engineID, healthIndicator) => ShrinkingKeepsCore(s, s');
    }
  }
}
