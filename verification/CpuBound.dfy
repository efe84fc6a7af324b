/** Why CPUs are promised up to 1024 of them only: a report may then raise what
    an engine is seen to hold. */
module CpuBound {
  import opened Seqs
  import opened Containers
  import opened Nodes
  import opened Scheduling
  import opened Placement
  import opened Safety
  import opened Runs
  import opened Guarantees
  import Resources

  /** A report on an engine of these specs, within its CPU bound. */
  ghost predicate Report(sch: Scheduler, s: State, step: Step, s': State, id: string, cpus: nat, overcommit: nat,
                         scope: Scope) {
    && IsRun(sch, [s, s'], [step]) && Core(s) && step.Appear?
    && id in s.engines && s.engines[id].cpus == cpus && s.engines[id].overcommit == overcommit
    && id in s'.engines && CpusKept(s, id, scope)
  }

  lemma ReportIsNext(sch: Scheduler, s: State, step: Step, s': State)
    requires IsRun(sch, [s, s'], [step]) && step.Appear?
    ensures Hypotheses(s, step) && Next(sch, s, step, s')
  {
    assert Takes(sch, [s, s'], [step], 0);
  }

  lemma ReportKeepsCpus(sch: Scheduler, s: State, step: Step, s': State, id: string, cpus: nat, overcommit: nat,
                        scope: Scope)
    requires Report(sch, s, step, s', id, cpus, overcommit, scope) && cpus <= MAX_SHARES
    ensures CpusKept(s', id, scope)
  {
    ReportIsNext(sch, s, step, s');
    var change := StepLoad(sch, s, step, s', id, scope);
    ChangeKeepsCpus(s, s', id, scope, change);
  }

  // ------------------------------------------------------ a report too many

  const NONE := Exprs([])

  function Asking(swarmID: string, cpus: int): Config {
    Config(swarmID, map[], 0, cpus, "", [], [], [], [], NONE, NONE, NONE)
  }

  function Entry(id: string, config: Config): Container {
    Container(id, [], map[], "e", "e", config, Info("", [], [], []))
  }

  function Host(cpus: nat, overcommit: nat, filler: int): Engine {
    Engine("e", "e", 0, cpus, overcommit, map[], [], 100, map["1" := Entry("1", Asking("x", filler))])
  }

  /** A reservation beside a container that fills the engine up. */
  function Full(cpus: nat, overcommit: nat, filler: int, request: int): State {
    State(map["e" := Host(cpus, overcommit, filler)],
          map["k" := Pending("", Asking("k", request), "e", "e")],
          map["k" := Creating])
  }

  lemma FullIsCore(cpus: nat, overcommit: nat, filler: nat, request: nat)
    requires 1 <= cpus && request <= Resources.Total(cpus, overcommit)
    ensures Core(Full(cpus, overcommit, filler, request))
  {
    var s := Full(cpus, overcommit, filler, request);
    Resources.TotalRange(0, overcommit);
    assert PendingOk(s, "k");
    assert ShownOk(s, "k") by {
      assert forall i :: !ShownAs(s.engines["e"], i, "k");
    }
  }

  /** Nothing here has been reported and removed again, so both scopes agree. */
  lemma FullHolds(cpus: nat, overcommit: nat, filler: nat, request: nat, scope: Scope)
    ensures var s := Full(cpus, overcommit, filler, request);
            Load(s, "e", scope) == Residents(s, "e") && Sum(Load(s, "e", scope), CpusOf) == filler + request
  {
    var s := Full(cpus, overcommit, filler, request);
    var c, p := Entry("1", Asking("x", filler)), ToContainer(s.pending["k"]);
    assert !Shows(s.engines["e"], "k");
    HeldIs(s.engines["e"], s.pending, map[Cached("1") := c, InFlight("k") := p]);
    SumInsert(map[], CpusOf, Cached("1"), c);
    SumInsert(map[Cached("1") := c], CpusOf, InFlight("k"), p);
    assert map[Cached("1") := c][InFlight("k") := p] == map[Cached("1") := c, InFlight("k") := p];
  }

  lemma FullHasNoCollisions(cpus: nat, overcommit: nat, filler: nat, request: nat)
    ensures NoCollisions(Full(cpus, overcommit, filler, request))
  {
  }

  function Later(s: State, id: string): State
    requires "k" in s.pending && "e" in s.engines && s.engines["e"].cpus > 0
  {
    var e := s.engines["e"];
    var c := Reported(e, s.pending["k"], id, "", []);
    WithContainers(s, "e", e.containers[id := c]).(phases := s.phases["k" := Created])
  }

  lemma ReportRaises(sch: Scheduler, s: State, step: Step, s': State, id: string, scope: Scope)
    requires Core(s) && step.Appear? && Next(sch, s, step, s') && NoCollisions(s) && id in s.engines
    requires s.pending[step.swarmID].engineID == id
    ensures id in s'.engines
    ensures var request := s.pending[step.swarmID].config.cpuShares;
            Sum(Load(s', id, scope), CpusOf)
            == Sum(Load(s, id, scope), CpusOf) - request + Resources.Cached(request, s.engines[id].cpus)
  {
    LoadExplained(sch, s, step, s', id, scope);
    var k := step.swarmID;
    var c := Reported(s.engines[id], s.pending[k], step.id, step.generated, step.ports);
    ReplacedSums(Load(s, id, scope), InFlight(k), Cached(step.id), c, CpusOf);
  }

  lemma FullReports(sch: Scheduler, cpus: nat, overcommit: nat, filler: nat, request: nat)
    requires 1 <= cpus
    ensures var s := Full(cpus, overcommit, filler, request); Next(sch, s, Appear("k", "2", "", []), Later(s, "2"))
  {
    assert "2" != "1";
  }

  lemma FullRaises(sch: Scheduler, cpus: nat, overcommit: nat, filler: nat, request: nat, scope: Scope)
    requires 1 <= cpus && request <= Resources.Total(cpus, overcommit)
    ensures var s := Full(cpus, overcommit, filler, request);
            Sum(Load(Later(s, "2"), "e", scope), CpusOf) == filler + Resources.Cached(request, cpus)
  {
    var s := Full(cpus, overcommit, filler, request);
    FullIsCore(cpus, overcommit, filler, request);
    FullHolds(cpus, overcommit, filler, request, scope);
    FullHasNoCollisions(cpus, overcommit, filler, request);
    FullReports(sch, cpus, overcommit, filler, request);
    ReportRaises(sch, s, Appear("k", "2", "", []), Later(s, "2"), "e", scope);
  }

  lemma FullRuns(sch: Scheduler, cpus: nat, overcommit: nat, filler: nat, request: nat)
    requires 1 <= cpus
    ensures var s := Full(cpus, overcommit, filler, request);
            IsRun(sch, [s, Later(s, "2")], [Appear("k", "2", "", [])])
  {
    var s, step := Full(cpus, overcommit, filler, request), Appear("k", "2", "", []);
    FullHasNoCollisions(cpus, overcommit, filler, request);
    FullReports(sch, cpus, overcommit, filler, request);
    NextIsTaken(sch, [s, Later(s, "2")], [step], 0, s, step, Later(s, "2"));
  }

  lemma FullReport(sch: Scheduler, cpus: nat, overcommit: nat, filler: nat, request: nat, scope: Scope)
    requires 1 <= cpus && request <= Resources.Total(cpus, overcommit)
    requires Resources.WithinCapacity(filler + request, Resources.Total(cpus, overcommit))
    ensures var s := Full(cpus, overcommit, filler, request);
            Report(sch, s, Appear("k", "2", "", []), Later(s, "2"), "e", cpus, overcommit, scope)
  {
    FullIsCore(cpus, overcommit, filler, request);
    FullHolds(cpus, overcommit, filler, request, scope);
    FullRuns(sch, cpus, overcommit, filler, request);
  }

  /** On larger engines a run of one step, a report, breaks the bound. */
  lemma LargeEnginesOverflow(sch: Scheduler, cpus: nat, overcommit: nat, scope: Scope)
    returns (s: State, step: Step, s': State)
    requires cpus > MAX_SHARES
    ensures IsRun(sch, [s, s'], [step])
    ensures Report(sch, s, step, s', "e", cpus, overcommit, scope) && !CpusKept(s', "e", scope)
  {
    var total := Resources.Total(cpus, overcommit);
    Resources.TotalRange(cpus, overcommit);
    var request := Resources.RoundTripGrows(cpus);
    var filler := (101 * total - 1) / 100 - request;
    s, step := Full(cpus, overcommit, filler, request), Appear("k", "2", "", []);
    s' := Later(s, "2");
    FullReport(sch, cpus, overcommit, filler, request, scope);
    FullRaises(sch, cpus, overcommit, filler, request, scope);
  }

  /** Reports keep the CPU bound of an engine, whatever it holds, if and only if it
      has at most 1024 CPUs. */
  lemma ReportsKeepCpusIff(sch: Scheduler, cpus: nat, overcommit: nat, scope: Scope)
    requires cpus >= 1
    ensures (forall s, step, s', id ::
               Report(sch, s, step, s', id, cpus, overcommit, scope) ==> CpusKept(s', id, scope))
            <==> cpus <= MAX_SHARES
  {
    if cpus <= MAX_SHARES {
      forall s, step, s', id | Report(sch, s, step, s', id, cpus, overcommit, scope) ensures CpusKept(s', id, scope) {
        ReportKeepsCpus(sch, s, step, s', id, cpus, overcommit, scope);
      }
    } else {
      var s, step, s' := LargeEnginesOverflow(sch, cpus, overcommit, scope);
      assert Report(sch, s, step, s', "e", cpus, overcommit, scope);
    }
  }
}
