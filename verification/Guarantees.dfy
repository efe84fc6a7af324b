/** What the placement protocol guarantees in every state of every run:
    capacity, container slots, host ports and container names. */
module Guarantees {
  import opened Seqs
  import opened Containers
  import opened Nodes
  import opened Ports
  import opened Filters
  import opened Scheduling
  import opened Placement
  import opened Snapshot
  import opened Safety
  import opened Runs
  import Resources

  // -------------------------------------------------------------- capacity

  /** What an engine's load reserves is nothing or less than 101 percent of its
      total. */
  ghost predicate MemoryKept(s: State, id: string, scope: Scope)
    requires id in s.engines
  {
    Resources.WithinCapacity(Sum(Load(s, id, scope), MemoryOf), TotalMemory(s.engines[id]))
  }

  ghost predicate CpusKept(s: State, id: string, scope: Scope)
    requires id in s.engines
  {
    Resources.WithinCapacity(Sum(Load(s, id, scope), CpusOf), TotalCpus(s.engines[id]))
  }

  /** For CPUs this is promised up to 1024 of them. */
  ghost predicate Capacity(s: State, id: string, scope: Scope)
    requires id in s.engines
  {
    MemoryKept(s, id, scope) && (s.engines[id].cpus <= MAX_SHARES ==> CpusKept(s, id, scope))
  }

  lemma ChangeKeepsCapacity(r: map<Tag, Container>, change: Change, f: Container -> int, total: int)
    requires Coherent(r, change) && (change.Replace? ==> f(r[change.t]) == f(change.c))
    requires forall t :: t in r ==> f(r[t]) >= 0
    requires Resources.WithinCapacity(Sum(r, f), total)
    requires change.Add? ==> f(change.c) >= 0 && Resources.Admits(Sum(r, f), f(change.c), total)
    ensures Resources.WithinCapacity(Sum(Changed(r, change), f), total)
  {
    SumNonNegative(r, f);
    if change.Add? {
      SumInsert(r, f, change.t, change.c);
      Resources.AdmissionKeepsCapacity(Sum(r, f), f(change.c), total);
    } else {
      SumDoesNotGrow(r, change, f);
      ChangedNonNegative(r, change, f);
    }
  }

  lemma ChangedNonNegative(r: map<Tag, Container>, change: Change, f: Container -> int)
    requires Coherent(r, change) && !change.Add? && (change.Replace? ==> f(r[change.t]) == f(change.c))
    requires forall t :: t in r ==> f(r[t]) >= 0
    ensures Sum(Changed(r, change), f) >= 0
  {
    SumNonNegative(Changed(r, change), f);
  }

  /** The engine chosen for a reservation has room for it, as far as its view
      counts. */
  lemma ChosenHasRoom(sch: Scheduler, s: State, step: Step, s': State, scope: Scope)
    requires Core(s) && step.Reserve? && Next(sch, s, step, s') && Hypotheses(s, step)
    requires SumsCover(s, step.out[0].id, step.out[0], scope)
    ensures var id, config := step.out[0].id, step.config;
            && id in s.engines && config.memory >= 0 && config.cpuShares >= 0
            && Resources.Admits(Sum(Load(s, id, scope), MemoryOf), config.memory, TotalMemory(s.engines[id]))
            && (s.engines[id].cpus <= MAX_SHARES ==>
                  Resources.Admits(Sum(Load(s, id, scope), CpusOf), config.cpuShares, TotalCpus(s.engines[id])))
  {
    ChosenNode(sch, s, step, s');
    RoomOf(s, step.out[0].id, step.out[0], step.config, scope);
  }

  lemma RoomOf(s: State, id: string, n: Node, config: Config, scope: Scope)
    requires Core(s) && Covers(s, id, n) && config.memory >= 0 && config.cpuShares >= 0
    requires SumsCover(s, id, n, scope)
    requires Resources.Admits(n.usedMemory, config.memory, n.totalMemory)
    requires Resources.Admits(n.usedCpus, config.cpuShares, n.totalCpus)
    ensures Resources.Admits(Sum(Load(s, id, scope), MemoryOf), config.memory, TotalMemory(s.engines[id]))
    ensures s.engines[id].cpus <= MAX_SHARES ==>
              Resources.Admits(Sum(Load(s, id, scope), CpusOf), config.cpuShares, TotalCpus(s.engines[id]))
  {
    var r := Load(s, id, scope);
    LoadNonNegative(s, id, scope);
    SumNonNegative(r, MemoryOf);
    SumNonNegative(r, CpusOf);
    Resources.AdmitsWithLess(Sum(r, MemoryOf), n.usedMemory, config.memory, n.totalMemory);
    if s.engines[id].cpus <= MAX_SHARES {
      Resources.AdmitsWithLess(Sum(r, CpusOf), n.usedCpus, config.cpuShares, n.totalCpus);
    }
  }

  lemma ChangeKeepsMemory(s: State, s': State, id: string, scope: Scope, change: Change)
    requires Core(s) && id in s.engines && id in s'.engines && SameSpec(s.engines[id], s'.engines[id])
    requires Moves(Load(s, id, scope), Load(s', id, scope), change) && MemoryKept(s, id, scope)
    requires change.Add? ==>
               && change.c.config.memory >= 0
               && Resources.Admits(Sum(Load(s, id, scope), MemoryOf), change.c.config.memory,
                                   TotalMemory(s.engines[id]))
    ensures MemoryKept(s', id, scope)
  {
    LoadNonNegative(s, id, scope);
    ChangeKeepsCapacity(Load(s, id, scope), change, MemoryOf, TotalMemory(s.engines[id]));
  }

  lemma ChangeKeepsCpus(s: State, s': State, id: string, scope: Scope, change: Change)
    requires Core(s) && id in s.engines && id in s'.engines && SameSpec(s.engines[id], s'.engines[id])
    requires Moves(Load(s, id, scope), Load(s', id, scope), change) && CpusKept(s, id, scope)
    requires Strict(Load(s, id, scope), change)
    requires change.Add? ==>
               && change.c.config.cpuShares >= 0
               && Resources.Admits(Sum(Load(s, id, scope), CpusOf), change.c.config.cpuShares,
                                   TotalCpus(s.engines[id]))
    ensures CpusKept(s', id, scope)
  {
    LoadNonNegative(s, id, scope);
    ChangeKeepsCapacity(Load(s, id, scope), change, CpusOf, TotalCpus(s.engines[id]));
  }

  lemma StepKeepsCapacity(sch: Scheduler, s: State, step: Step, s': State, id: string, scope: Scope)
    requires Core(s) && Next(sch, s, step, s') && Hypotheses(s, step)
    requires id in s.engines && Capacity(s, id, scope)
    requires step.Reserve? ==> SumsCover(s, step.out[0].id, step.out[0], scope)
    ensures id in s'.engines && Capacity(s', id, scope)
  {
    var change := StepLoad(sch, s, step, s', id, scope);
    if change.Add? {
      ChosenHasRoom(sch, s, step, s', scope);
    }
    ChangeKeepsMemory(s, s', id, scope, change);
    if s.engines[id].cpus <= MAX_SHARES {
      ChangeKeepsCpus(s, s', id, scope, change);
    }
  }

  /** The bound in terms of what the engine physically has. */
  ghost predicate Physical(s: State, id: string, scope: Scope)
    requires id in s.engines
  {
    var e, r := s.engines[id], Load(s, id, scope);
    && Resources.WithinPhysical(Sum(r, MemoryOf), e.memory, e.overcommit)
    && (e.cpus <= MAX_SHARES ==> Resources.WithinPhysical(Sum(r, CpusOf), e.cpus, e.overcommit))
  }

  lemma CapacityIsPhysical(s: State, id: string, scope: Scope)
    requires id in s.engines && Capacity(s, id, scope)
    ensures Physical(s, id, scope)
  {
    var e, r := s.engines[id], Load(s, id, scope);
    Resources.CapacityIsPhysical(Sum(r, MemoryOf), e.memory, e.overcommit);
    if e.cpus <= MAX_SHARES {
      Resources.CapacityIsPhysical(Sum(r, CpusOf), e.cpus, e.overcommit);
    }
  }

  /** In every interleaving of requests no engine is given more than it has, up to
      the percent that truncation gives away: what it caches, and what has been
      reserved on it and not reported yet. */
  lemma CapacityIsSafe(sch: Scheduler, states: seq<State>, steps: seq<Step>, i: nat, id: string)
    requires IsRun(sch, states, steps) && Core(states[0])
    requires id in states[0].engines && Capacity(states[0], id, Awaited)
    requires i <= |steps|
    ensures id in states[i].engines && Capacity(states[i], id, Awaited) && Physical(states[i], id, Awaited)
  {
    var inv := (s: State) => id in s.engines && Capacity(s, id, Awaited);
    forall s, step, s' | Core(s) && inv(s) && Next(sch, s, step, s') && Hypotheses(s, step) ensures inv(s') {
      if step.Reserve? {
        ChosenNode(sch, s, step, s');
      }
      StepKeepsCapacity(sch, s, step, s', id, Awaited);
    }
    RunInvariant(sch, states, steps, step => true, inv, i);
    CapacityIsPhysical(states[i], id, Awaited);
  }

  /** Nor is it promised more, counting every reservation until its release, as
      long as the views of the chosen engines were read in balance. */
  lemma PromisesAreSafe(sch: Scheduler, states: seq<State>, steps: seq<Step>, i: nat, id: string)
    requires IsRun(sch, states, steps) && Core(states[0])
    requires forall j :: 0 <= j < |steps| && steps[j].Reserve? ==> ChosenInBalance(sch, states, steps, j)
    requires id in states[0].engines && Capacity(states[0], id, Promised)
    requires i <= |steps|
    ensures id in states[i].engines && Capacity(states[i], id, Promised) && Physical(states[i], id, Promised)
  {
    RunCore(sch, states, steps, i);
    var inv := (s: State) => id in s.engines && Capacity(s, id, Promised);
    forall x | 0 <= x < i && inv(states[x]) ensures inv(states[x + 1]) {
      RunNext(sch, states, steps, x);
      if steps[x].Reserve? {
        RunCovers(sch, states, steps, x);
      }
      StepKeepsCapacity(sch, states[x], steps[x], states[x + 1], id, Promised);
    }
    Persists(states, inv, 0, i);
    CapacityIsPhysical(states[i], id, Promised);
  }

  /** On totals of at most 100 units the bound is the total itself. */
  lemma SmallTotalsAreExact(s: State, id: string, scope: Scope)
    requires Core(s) && id in s.engines && Capacity(s, id, scope)
    ensures 0 <= TotalMemory(s.engines[id]) <= 100 ==>
              Sum(Load(s, id, scope), MemoryOf) <= TotalMemory(s.engines[id])
    ensures s.engines[id].cpus <= MAX_SHARES && 0 <= TotalCpus(s.engines[id]) <= 100 ==>
              Sum(Load(s, id, scope), CpusOf) <= TotalCpus(s.engines[id])
  {
  }

  /** The scores the scheduler computes for a listed node stay within int64. */
  lemma ScoresDoNotOverflow(s: State, id: string, n: Node, config: Config)
    requires Core(s) && NoCollisions(s) && ListedOn(s, id, n)
    requires MemoryKept(s, id, Promised) && CpusKept(s, id, Promised)
    requires 0 <= config.memory <= n.totalMemory <= Resources.INT64_MAX / 202
    requires 0 <= config.cpuShares <= n.totalCpus <= Resources.INT64_MAX / 202
    ensures 0 <= (n.usedMemory + config.memory) * 100 <= Resources.INT64_MAX
    ensures 0 <= (n.usedCpus + config.cpuShares) * 100 <= Resources.INT64_MAX
  {
    SnapshotIsExact(s, id, n);
    ResidentsNonNegative(s, id);
    SumNonNegative(Residents(s, id), MemoryOf);
    SumNonNegative(Residents(s, id), CpusOf);
    Resources.ScoreDoesNotOverflow(n.usedMemory, config.memory, n.totalMemory);
    Resources.ScoreDoesNotOverflow(n.usedCpus, config.cpuShares, n.totalCpus);
  }

  /** Read while the caches change, an engine may be counted twice over. */
  lemma ReadingsDoNotOverflow(window: seq<State>, id: string, n: Node, t: Times, order: seq<string>, keys: seq<string>,
                              config: Config)
    requires ReadAs(window, id, n, t, order, keys) && NoCollisions(window[t.list])
    requires Core(window[t.list]) && MemoryKept(window[t.list], id, Promised) && CpusKept(window[t.list], id, Promised)
    requires Core(window[t.memory]) && MemoryKept(window[t.memory], id, Promised)
    requires Core(window[t.cpus]) && CpusKept(window[t.cpus], id, Promised)
    requires TotalMemory(window[t.memory].engines[id]) == n.totalMemory
    requires TotalCpus(window[t.cpus].engines[id]) == n.totalCpus
    requires 0 <= config.memory <= n.totalMemory <= Resources.INT64_MAX / 302
    requires 0 <= config.cpuShares <= n.totalCpus <= Resources.INT64_MAX / 302
    ensures 0 <= (n.usedMemory + config.memory) * 100 <= Resources.INT64_MAX
    ensures 0 <= (n.usedCpus + config.cpuShares) * 100 <= Resources.INT64_MAX
  {
    ReadingSums(window, id, n, t, order, keys);
    UnshownRange(window[t.list], id, MemoryOf);
    UnshownRange(window[t.memory], id, MemoryOf);
    UnshownRange(window[t.list], id, CpusOf);
    UnshownRange(window[t.cpus], id, CpusOf);
  }

  predicate Room(used: int, request: int, total: int) {
    request > 0 ==> 100 * (used + request) < 101 * total
  }

  lemma RoomKeepsCapacity(used: nat, request: nat, total: int)
    requires Resources.WithinCapacity(used, total)
    ensures Resources.WithinCapacity(used + request, total) <==> Room(used, request, total)
  {
  }

  lemma ResidentsArrived(s: State, id: string, i: string, c: Container)
    requires id in s.engines && i !in s.engines[id].containers && c.config.swarmID !in s.pending
    ensures Residents(WithContainers(s, id, s.engines[id].containers[i := c]), id) == Residents(s, id)[Cached(i) := c]
  {
    var e := s.engines[id];
    var e' := e.(containers := e.containers[i := c]);
    forall k ensures Unseen(e', s.pending, k) <==> Unseen(e, s.pending, k) {
      ShowsAdded(e, i, c, k);
    }
    HeldIs(e', s.pending, Residents(s, id)[Cached(i) := c]);
  }

  lemma AwaitingArrived(r: map<Tag, Container>, phases: map<string, Phase>, i: string, c: Container)
    ensures Awaiting(r[Cached(i) := c], phases) == Awaiting(r, phases)[Cached(i) := c]
  {
  }

  lemma LoadArrived(s: State, id: string, i: string, c: Container, scope: Scope)
    requires id in s.engines && i !in s.engines[id].containers && c.config.swarmID !in s.pending
    ensures Load(WithContainers(s, id, s.engines[id].containers[i := c]), id, scope)
            == Load(s, id, scope)[Cached(i) := c]
  {
    ResidentsArrived(s, id, i, c);
    AwaitingArrived(Residents(s, id), s.phases, i, c);
  }

  /** A container that enters a cache without a reservation, as one whose
      creation was reported as failed may do later, keeps the bounds exactly if
      the engine still had room for it. */
  lemma UnreservedArrival(s: State, id: string, i: string, c: Container, scope: Scope)
    requires Core(s) && id in s.engines && MemoryKept(s, id, scope) && CpusKept(s, id, scope)
    requires i !in s.engines[id].containers && c.config.swarmID !in s.pending
    requires c.config.memory >= 0 && c.config.cpuShares >= 0
    ensures var e, r := s.engines[id], Load(s, id, scope);
            var s' := WithContainers(s, id, e.containers[i := c]);
            && (MemoryKept(s', id, scope) <==> Room(Sum(r, MemoryOf), c.config.memory, TotalMemory(e)))
            && (CpusKept(s', id, scope) <==> Room(Sum(r, CpusOf), c.config.cpuShares, TotalCpus(e)))
  {
    var e, r := s.engines[id], Load(s, id, scope);
    LoadArrived(s, id, i, c, scope);
    SumInsert(r, MemoryOf, Cached(i), c);
    SumInsert(r, CpusOf, Cached(i), c);
    LoadNonNegative(s, id, scope);
    SumNonNegative(r, MemoryOf);
    SumNonNegative(r, CpusOf);
    RoomKeepsCapacity(Sum(r, MemoryOf), c.config.memory, TotalMemory(e));
    RoomKeepsCapacity(Sum(r, CpusOf), c.config.cpuShares, TotalCpus(e));
  }

  // ----------------------------------------------------------------- slots

  ghost predicate SlotsKept(s: State, id: string, limit: int)
    requires id in s.engines
  {
    Slots(s.engines[id].labels) == Some(limit) && |Residents(s, id)| <= limit
  }

  /** The engine chosen for a reservation has a slot left. */
  lemma ChosenHasSlot(sch: Scheduler, s: State, step: Step, s': State)
    requires Core(s) && step.Reserve? && Next(sch, s, step, s') && Hypotheses(s, step)
    requires Slot in sch.filters
    ensures var id := step.out[0].id;
            && id in s.engines
            && (Slots(s.engines[id].labels).Some? ==> |Residents(s, id)| < Slots(s.engines[id].labels).value)
  {
    ChosenNode(sch, s, step, s');
    FeasibleHasSlot(sch, step.config, step.out[0]);
  }

  lemma EffectKeepsSlots(s: State, s': State, id: string, change: Change, limit: int)
    requires Effect(s, s', id, change) && SlotsKept(s, id, limit)
    requires change.Add? ==> |Residents(s, id)| < limit
    ensures SlotsKept(s', id, limit)
  {
    ChangeSize(Residents(s, id), change);
  }

  lemma StepKeepsSlots(sch: Scheduler, s: State, step: Step, s': State, id: string, limit: int)
    requires Core(s) && Next(sch, s, step, s') && Hypotheses(s, step)
    requires Slot in sch.filters
    requires id in s.engines && SlotsKept(s, id, limit)
    ensures id in s'.engines && SlotsKept(s', id, limit)
  {
    var change := StepEffect(sch, s, step, s', id);
    if change.Add? {
      ChosenHasSlot(sch, s, step, s');
    }
    EffectKeepsSlots(s, s', id, change, limit);
  }

  /** With the slots filter on, an engine labelled with a limit never holds more
      containers than that, counting those in flight. */
  lemma SlotsAreSafe(sch: Scheduler, states: seq<State>, steps: seq<Step>, i: nat, id: string, limit: int)
    requires IsRun(sch, states, steps) && Core(states[0])
    requires Slot in sch.filters
    requires id in states[0].engines && SlotsKept(states[0], id, limit)
    requires i <= |steps|
    ensures id in states[i].engines && SlotsKept(states[i], id, limit)
  {
    var inv := (s: State) => id in s.engines && SlotsKept(s, id, limit);
    forall s, step, s' | Core(s) && inv(s) && Next(sch, s, step, s') && Hypotheses(s, step) ensures inv(s') {
      StepKeepsSlots(sch, s, step, s', id, limit);
    }
    RunInvariant(sch, states, steps, step => true, inv, i);
  }

  // ----------------------------------------------------------------- ports

  /** Two containers that do not use the host's network bind no common port. */
  predicate Apart(env: Env, a: Config, b: Config) {
    a.networkMode != HOST_MODE && b.networkMode != HOST_MODE ==> !Clash(env, a.portBindings, b.portBindings)
  }

  ghost predicate PortsExclusive(env: Env, r: map<Tag, Container>) {
    forall t, u :: t in r && u in r && t != u ==> Apart(env, r[t].config, r[u].config)
  }

  lemma ApartIsSymmetric(env: Env, a: Config, b: Config)
    ensures Apart(env, a, b) == Apart(env, b, a)
  {
    ClashIsSymmetric(env, a.portBindings, b.portBindings);
  }

  /** A free node has no resident that clashes with the request. */
  lemma FreeNodeIsApart(env: Env, s: State, id: string, n: Node, config: Config, t: Tag)
    requires ListCovers(s, id, n) && t in Residents(s, id)
    requires config.networkMode != HOST_MODE ==> FreeOf(env, Flatten(config.portBindings))(n)
    ensures Apart(env, config, Residents(s, id)[t].config)
  {
    var r := Residents(s, id);
    assert PortsListed(n.containers, r, t);
    var c :| c in n.containers && ShowsPorts(c, r[t].config);
    if config.networkMode != HOST_MODE {
      forall b | b in Flatten(config.portBindings) ensures !ConflictsWith(env, b, r[t].config.portBindings) {
        assert !InUse(env, n, b);
        assert !Occupies(env, c, b);
      }
    }
  }

  /** The engine chosen for a reservation binds none of its ports. */
  lemma ChosenIsApart(sch: Scheduler, s: State, step: Step, s': State, t: Tag)
    requires Core(s) && step.Reserve? && Next(sch, s, step, s') && Hypotheses(s, step)
    requires Port in sch.filters
    requires t in Residents(s, step.out[0].id)
    ensures Apart(sch.env, step.config, Residents(s, step.out[0].id)[t].config)
  {
    ChosenNode(sch, s, step, s');
    if step.config.networkMode != HOST_MODE {
      FeasibleIsFree(sch, step.config, step.out[0]);
    }
    FreeNodeIsApart(sch.env, s, step.out[0].id, step.out[0], step.config, t);
  }

  lemma ApartByPorts(env: Env, a: Config, b: Config, a': Config, b': Config)
    requires Apart(env, a, b)
    requires a.(cpuShares := a'.cpuShares) == a' && b.(cpuShares := b'.cpuShares) == b'
    ensures Apart(env, a', b')
  {
  }

  lemma ChangeKeepsApart(env: Env, r: map<Tag, Container>, change: Change, t: Tag, u: Tag)
    requires Coherent(r, change) && PortsExclusive(env, r)
    requires change.Add? ==> forall x :: x in r ==> Apart(env, change.c.config, r[x].config)
    requires t in Changed(r, change) && u in Changed(r, change) && t != u
    ensures Apart(env, Changed(r, change)[t].config, Changed(r, change)[u].config)
  {
    var r' := Changed(r, change);
    if change.Add? && (t == change.t || u == change.t) {
      ApartIsSymmetric(env, r'[t].config, r'[u].config);
    } else {
      OriginStands(r, change, t);
      OriginStands(r, change, u);
      if Origin(change, t) == Origin(change, u) {
        OriginInjective(r, change, t, u);
      }
      ApartByPorts(env, r[Origin(change, t)].config, r[Origin(change, u)].config, r'[t].config, r'[u].config);
    }
  }

  lemma ChangeKeepsPorts(env: Env, r: map<Tag, Container>, change: Change)
    requires Coherent(r, change) && PortsExclusive(env, r)
    requires change.Add? ==> forall t :: t in r ==> Apart(env, change.c.config, r[t].config)
    ensures PortsExclusive(env, Changed(r, change))
  {
    var r' := Changed(r, change);
    forall t, u | t in r' && u in r' && t != u ensures Apart(env, r'[t].config, r'[u].config) {
      ChangeKeepsApart(env, r, change, t, u);
    }
  }

  lemma StepKeepsPorts(sch: Scheduler, s: State, step: Step, s': State, id: string)
    requires Core(s) && Next(sch, s, step, s') && Hypotheses(s, step)
    requires Port in sch.filters
    requires id in s.engines && PortsExclusive(sch.env, Residents(s, id))
    ensures id in s'.engines && PortsExclusive(sch.env, Residents(s', id))
  {
    var change := StepEffect(sch, s, step, s', id);
    if change.Add? {
      forall t | t in Residents(s, id) ensures Apart(sch.env, change.c.config, Residents(s, id)[t].config) {
        ChosenIsApart(sch, s, step, s', t);
      }
    }
    ChangeKeepsPorts(sch.env, Residents(s, id), change);
  }

  /** With the port filter on, no two containers of an engine, cached or in
      flight, ever bind the same host port on a common interface. */
  lemma PortsAreExclusive(sch: Scheduler, states: seq<State>, steps: seq<Step>, i: nat, id: string)
    requires IsRun(sch, states, steps) && Core(states[0])
    requires Port in sch.filters
    requires id in states[0].engines && PortsExclusive(sch.env, Residents(states[0], id))
    requires i <= |steps|
    ensures id in states[i].engines && PortsExclusive(sch.env, Residents(states[i], id))
  {
    var inv := (s: State) => id in s.engines && PortsExclusive(sch.env, Residents(s, id));
    forall s, step, s' | Core(s) && inv(s) && Next(sch, s, step, s') && Hypotheses(s, step) ensures inv(s') {
      StepKeepsPorts(sch, s, step, s', id);
    }
    RunInvariant(sch, states, steps, step => true, inv, i);
  }
}
