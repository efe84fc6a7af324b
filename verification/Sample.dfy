/** Two requests in flight at once on one engine, with the port and the slots
    filter on: a run that meets every hypothesis of the placement theorems. */
module Sample {
  import opened Seqs
  import opened Containers
  import opened Nodes
  import opened Ports
  import opened Filters
  import opened Strategy
  import opened Scheduling
  import opened Placement
  import opened Runs
  import opened Guarantees
  import opened Names
  import Resources

  const NONE := Exprs([])
  const C1 := Config("s", map[], 4, 2, "", [[PortBinding("", "80")]], [], [], [], NONE, NONE, NONE)
  const C2 := Config("t", map[], 4, 2, "", [[PortBinding("", "81")]], [], [], [], NONE, NONE, NONE)

  /** The names of the two requests, and the labels and memory of the engine. */
  datatype Setup = Setup(first: string, second: string, labels: map<string, string>, memory: int)

  /** Names that no Swarm ID of the run can be mistaken for. */
  predicate Fine(name: string) {
    name != "" && name != "s" && name != "t" && name != "/s" && name != "/t"
  }

  /** The engine is limited to two containers, and has room for one. */
  predicate Fair(x: Setup) {
    Fine(x.first) && Fine(x.second) && x.first != x.second && Slots(x.labels) == Some(2) && 4 <= x.memory
  }

  /** It has room for both. */
  predicate Good(x: Setup) {
    Fair(x) && 8 <= x.memory
  }

  predicate Usual(sch: Scheduler) {
    sch.filters == [Port, Slot]
  }

  lemma GoodExists(a: string, b: string, memory: int)
    requires Fine(a) && Fine(b) && a != b && 8 <= memory
    ensures Good(Setup(a, b, map[SLOTS_LABEL := "2"], memory))
  {
    TwoIsRead();
  }

  lemma WebIsRespelled()
    ensures Good(Setup("/web", "web", map[SLOTS_LABEL := "2"], 8)) && Respells("/web", "web")
  {
    GoodExists("/web", "web", 8);
    assert "/" + "web" == "/web";
  }

  lemma TwoIsRead()
    ensures Atoi("2") == Some(2)
  {
    DigitsSnoc("", 2);
    assert "" + [Digit(2)] == "2";
    AtoiUnsigned("2");
  }

  // -------------------------------------------------------------------- the states

  function E(x: Setup): Engine { Engine("e", "host", x.memory, 4, 0, x.labels, [], 100, map[]) }

  function P1(x: Setup): Pending { Pending(x.first, C1, "e", "host") }

  function P2(x: Setup): Pending { Pending(x.second, C2, "e", "host") }

  function Entry(id: string, name: string, config: Config): Container {
    Container(id, [DaemonName(name)], map[], "e", "host", config, Info("", config.portBindings, [], []))
  }

  function Entry1(x: Setup): Container { Entry("1", x.first, C1) }

  function Entry2(x: Setup): Container { Entry("2", x.second, C2) }

  function Cluster(x: Setup, containers: map<string, Container>): map<string, Engine> {
    map["e" := E(x).(containers := containers)]
  }

  function Both(x: Setup): map<string, Pending> { map["s" := P1(x), "t" := P2(x)] }

  function S0(x: Setup): State { State(Cluster(x, map[]), map[], map[]) }

  function S1(x: Setup): State { State(Cluster(x, map[]), map["s" := P1(x)], map["s" := Creating]) }

  function S2(x: Setup): State { State(Cluster(x, map[]), Both(x), map["s" := Creating, "t" := Creating]) }

  function S3(x: Setup): State {
    State(Cluster(x, map["1" := Entry1(x)]), Both(x), map["s" := Created, "t" := Creating])
  }

  function S4(x: Setup): State {
    State(Cluster(x, map["1" := Entry1(x)]), map["t" := P2(x)], map["t" := Creating])
  }

  function S5(x: Setup): State {
    State(Cluster(x, map["1" := Entry1(x), "2" := Entry2(x)]), map["t" := P2(x)], map["t" := Created])
  }

  function S6(x: Setup): State { State(Cluster(x, map["1" := Entry1(x), "2" := Entry2(x)]), map[], map[]) }

  const NOTHING: seq<string> := []

  lemma NothingListed(x: Setup)
    ensures Lists(NOTHING, E(x).containers)
  {
  }

  /** The two views, as the program assembles them. */
  ghost function N1(x: Setup): Node {
    NothingListed(x);
    NodeOf(E(x), NOTHING)
  }

  ghost function N2(x: Setup): Node {
    ConsiderAll(N1(x), S1(x).pending, ["s"])
  }

  ghost function First(x: Setup): Step { Reserve(C1, x.first, [N1(x)], ["e"], [N1(x)]) }

  ghost function Second(x: Setup): Step { Reserve(C2, x.second, [N2(x)], ["e"], [N2(x)]) }

  // ------------------------------------------------------------- the reservations

  lemma Selected(sch: Scheduler, config: Config, n: Node)
    requires Usual(sch) && config.networkMode == "" && Fits(config, n) && HasSlot(n)
    requires FreeOf(sch.env, Flatten(config.portBindings))(n)
    ensures Selects(sch, config, [n], Ok([n]))
  {
    var all := AcceptsAll(sch.filters, sch.env, config, true);
    assert all(n);
    KeepAll([n], all);
    KeepAll([n], FitsOn(config));
    StageIsConjunction(sch.filters, sch.env, config, [n], true);
    assert Ranked(sch.strategy, config, [n], [n]);
  }

  /** Nothing is on the engine, and it can take both requests. */
  lemma FirstFits(x: Setup)
    requires Fair(x)
    ensures N1(x).id == "e" && N1(x).containers == [] && Fits(C1, N1(x)) && HasSlot(N1(x))
  {
  }

  lemma SecondView(x: Setup)
    requires Good(x)
    ensures N2(x) == N1(x).(containers := [ToContainer(P1(x))], usedMemory := 4, usedCpus := 2)
  {
    assert N1(x).containers == [];
    assert ["s"][..0] == NOTHING;
    assert ConsiderAll(N1(x), S1(x).pending, NOTHING) == N1(x);
    assert Lookup([], "s") == None;
    assert [] + [ToContainer(P1(x))] == [ToContainer(P1(x))];
    assert N2(x) == Consider(N1(x), P1(x));
  }

  lemma SecondFits(x: Setup)
    requires Good(x)
    ensures N2(x).id == "e" && N2(x).containers == [ToContainer(P1(x))] && Fits(C2, N2(x)) && HasSlot(N2(x))
  {
    SecondView(x);
  }

  lemma OneEngine(s: State, n: Node)
    requires s.engines.Keys == {"e"} && ListedOn(s, "e", n)
    ensures Listing(s, [n], ["e"])
  {
  }

  lemma FirstIsListed(x: Setup)
    ensures Listing(S0(x), [N1(x)], ["e"])
  {
    NothingListed(x);
    assert S0(x).engines["e"] == E(x);
    assert ListedAs(S0(x), "e", N1(x), NOTHING, NOTHING);
    OneEngine(S0(x), N1(x));
  }

  lemma SecondIsListed(x: Setup)
    ensures Listing(S1(x), [N2(x)], ["e"])
  {
    NothingListed(x);
    assert S1(x).engines["e"] == E(x);
    assert ListedAs(S1(x), "e", N2(x), NOTHING, ["s"]);
    OneEngine(S1(x), N2(x));
  }

  lemma SecondIsFree(env: Env, x: Setup, n: Node)
    requires n.containers == [ToContainer(P1(x))]
    ensures FreeOf(env, Flatten(C2.portBindings))(n)
  {
    var used, wanted := PortBinding("", "80"), PortBinding("", "81");
    assert Flatten([[used]]) == [used] && Flatten([[wanted]]) == [wanted];
    assert "80"[1] != "81"[1];
    assert !ConflictsWith(env, wanted, C1.portBindings);
    assert !InUse(env, n, wanted);
  }

  lemma FirstSelected(sch: Scheduler, x: Setup)
    requires Usual(sch) && Fair(x)
    ensures N1(x).id == "e" && Selects(sch, C1, [N1(x)], Ok([N1(x)]))
  {
    FirstFits(x);
    Selected(sch, C1, N1(x));
  }

  lemma SecondSelected(sch: Scheduler, x: Setup)
    requires Usual(sch) && Good(x)
    ensures N2(x).id == "e" && Selects(sch, C2, [N2(x)], Ok([N2(x)]))
  {
    SecondFits(x);
    SecondIsFree(sch.env, x, N2(x));
    Selected(sch, C2, N2(x));
  }

  lemma FirstReserves(sch: Scheduler, x: Setup)
    requires Usual(sch) && Fair(x)
    ensures Reserves(sch, [S0(x)], First(x), S1(x))
  {
    FirstIsListed(x);
    FirstSelected(sch, x);
    UndisturbedReserve(sch, S0(x), First(x), S1(x));
  }

  lemma SecondReserves(sch: Scheduler, x: Setup)
    requires Usual(sch) && Good(x)
    ensures Reserves(sch, [S1(x)], Second(x), S2(x))
  {
    SecondIsListed(x);
    SecondSelected(sch, x);
    UndisturbedReserve(sch, S1(x), Second(x), S2(x));
  }

  lemma FirstAdmitted(x: Setup)
    requires Fair(x)
    ensures Hypotheses(S0(x), First(x))
  {
    NoMistakes(S0(x), x);
  }

  lemma SecondAdmitted(x: Setup)
    requires Good(x)
    ensures Hypotheses(S1(x), Second(x))
  {
    NoMistakes(S1(x), x);
  }

  // ------------------------------------------------------------- reports and releases

  lemma ReportedEntry(e: Engine, p: Pending, id: string)
    requires e.id == "e" && e.name == "host" && e.cpus == 4 && p.name != "" && p.config.cpuShares == 2
    requires p.config.networkMode == "" && p.config.exposedPorts == [] && p.config.labels == map[]
    ensures Reported(e, p, id, "", []) == Entry(id, p.name, p.config)
  {
    Resources.CpuShareRoundTrip(2, 4);
  }

  lemma Appear1Next(sch: Scheduler, x: Setup)
    requires Good(x)
    ensures Next(sch, S2(x), Appear("s", "1", "", []), S3(x))
  {
    ReportedEntry(S2(x).engines["e"], P1(x), "1");
  }

  lemma Appear2Next(sch: Scheduler, x: Setup)
    requires Good(x)
    ensures Next(sch, S4(x), Appear("t", "2", "", []), S5(x))
  {
    ReportedEntry(S4(x).engines["e"], P2(x), "2");
    assert S4(x).engines["e"].containers["2" := Entry2(x)] == S5(x).engines["e"].containers;
  }

  lemma Release1Next(sch: Scheduler, x: Setup)
    ensures Next(sch, S3(x), Release("s"), S4(x))
  {
    assert Both(x) - {"s"} == map["t" := P2(x)];
    assert map["s" := Created, "t" := Creating] - {"s"} == map["t" := Creating];
  }

  lemma Release2Next(sch: Scheduler, x: Setup)
    ensures Next(sch, S5(x), Release("t"), S6(x))
  {
    assert map["t" := P2(x)] - {"t"} == map[] && map["t" := Created] - {"t"} == map[];
  }

  // --------------------------------------------------------------- no mistakes

  /** A container answers to nothing but its own keys. */
  lemma NoMistake(c: Container, name: string, key: string)
    requires c.id in {"", "1", "2"} && c.engineID == "e" && c.engineName == "host"
    requires c.config.swarmID in {"s", "t"} && key in {"s", "t"}
    requires c.names == [name] && name != "" && name[0] == '/' && name != "/" + key
    ensures !Collides(c, key)
  {
    assert TruncateID("") == "" && TruncateID("1") == "1" && TruncateID("2") == "2";
    assert TruncateID("s") == "s" && TruncateID("t") == "t";
    assert ("e" + name)[0] == 'e' && ("host" + name)[0] == 'h';
  }

  lemma InFlightAnswers(p: Pending, key: string)
    requires Fine(p.name) && p.engineID == "e" && p.engineName == "host"
    requires p.config.swarmID in {"s", "t"} && key in {"s", "t"}
    ensures !Collides(ToContainer(p), key)
  {
    assert ("/" + p.name)[1..] == p.name && ("/" + key)[1..] == key;
    NoMistake(ToContainer(p), "/" + p.name, key);
  }

  lemma CachedAnswers(id: string, name: string, config: Config, key: string)
    requires Fine(name) && id in {"1", "2"} && config.swarmID in {"s", "t"} && key in {"s", "t"}
    ensures !Collides(Entry(id, name, config), key)
  {
    assert ("/" + name)[1..] == name && ("/" + key)[1..] == key && "/" + "s" == "/s" && "/" + "t" == "/t";
    NoMistake(Entry(id, name, config), DaemonName(name), key);
  }

  /** The only containers and reservations there are. */
  ghost predicate Within(s: State, x: Setup) {
    && (forall k :: k in s.pending ==> k in {"s", "t"} && (s.pending[k] == P1(x) || s.pending[k] == P2(x)))
    && (forall id, i :: id in s.engines && i in s.engines[id].containers ==>
          s.engines[id].containers[i] == Entry1(x) || s.engines[id].containers[i] == Entry2(x))
  }

  lemma NoMistakes(s: State, x: Setup)
    requires Fair(x) && Within(s, x)
    ensures NoCollisions(s)
  {
    forall k, id, i | k in s.pending && id in s.engines && i in s.engines[id].containers
      ensures !Collides(s.engines[id].containers[i], k)
    {
      CachedAnswers("1", x.first, C1, k);
      CachedAnswers("2", x.second, C2, k);
    }
    forall k, j | k in s.pending && j in s.pending ensures !Collides(ToContainer(s.pending[j]), k) {
      InFlightAnswers(s.pending[j], k);
    }
  }

  // -------------------------------------------------------------------- the run

  /** The two requests, as the beginning of any run. */
  ghost predicate Begins(x: Setup, states: seq<State>, steps: seq<Step>) {
    && |states| == |steps| + 1 >= 3
    && states[0] == S0(x) && states[1] == S1(x) && states[2] == S2(x) && steps[0] == First(x) && steps[1] == Second(x)
  }

  lemma FirstTaken(sch: Scheduler, x: Setup, states: seq<State>, steps: seq<Step>)
    requires Usual(sch) && Fair(x) && Begins(x, states, steps)
    ensures Takes(sch, states, steps, 0)
  {
    FirstAdmitted(x);
    FirstReserves(sch, x);
    UndisturbedIsTaken(sch, states, steps, 0, S0(x), First(x), S1(x));
  }

  lemma SecondTaken(sch: Scheduler, x: Setup, states: seq<State>, steps: seq<Step>)
    requires Usual(sch) && Good(x) && Begins(x, states, steps)
    ensures Takes(sch, states, steps, 1)
  {
    SecondAdmitted(x);
    SecondReserves(sch, x);
    UndisturbedIsTaken(sch, states, steps, 1, S1(x), Second(x), S2(x));
  }

  /** Both containers are reported, and both reservations released. */
  ghost predicate Ends(x: Setup, states: seq<State>, steps: seq<Step>) {
    && |steps| == 6 && |states| == 7
    && states[2] == S2(x) && states[3] == S3(x) && states[4] == S4(x) && states[5] == S5(x) && states[6] == S6(x)
    && steps[2] == Appear("s", "1", "", []) && steps[3] == Release("s")
    && steps[4] == Appear("t", "2", "", []) && steps[5] == Release("t")
  }

  lemma Appear1Taken(sch: Scheduler, x: Setup, states: seq<State>, steps: seq<Step>, i: nat)
    requires Good(x) && Ends(x, states, steps) && i == 2
    ensures Takes(sch, states, steps, i)
  {
    NoMistakes(S2(x), x);
    Appear1Next(sch, x);
    NextIsTaken(sch, states, steps, i, S2(x), Appear("s", "1", "", []), S3(x));
  }

  lemma Release1Taken(sch: Scheduler, x: Setup, states: seq<State>, steps: seq<Step>, i: nat)
    requires Good(x) && Ends(x, states, steps) && i == 3
    ensures Takes(sch, states, steps, i)
  {
    NoMistakes(S3(x), x);
    Release1Next(sch, x);
    NextIsTaken(sch, states, steps, i, S3(x), Release("s"), S4(x));
  }

  lemma Appear2Admitted(x: Setup)
    requires Good(x)
    ensures Hypotheses(S4(x), Appear("t", "2", "", []))
  {
    NoMistakes(S4(x), x);
  }

  lemma Appear2Taken(sch: Scheduler, x: Setup, states: seq<State>, steps: seq<Step>, i: nat)
    requires Good(x) && Ends(x, states, steps) && i == 4
    ensures Takes(sch, states, steps, i)
  {
    Appear2Admitted(x);
    Appear2Next(sch, x);
    NextIsTaken(sch, states, steps, i, S4(x), Appear("t", "2", "", []), S5(x));
  }

  lemma Release2Taken(sch: Scheduler, x: Setup, states: seq<State>, steps: seq<Step>, i: nat)
    requires Good(x) && Ends(x, states, steps) && i == 5
    ensures Takes(sch, states, steps, i)
  {
    NoMistakes(S5(x), x);
    Release2Next(sch, x);
    NextIsTaken(sch, states, steps, i, S5(x), Release("t"), S6(x));
  }

  ghost function SampleStates(x: Setup): seq<State> {
    [S0(x), S1(x), S2(x), S3(x), S4(x), S5(x), S6(x)]
  }

  ghost function SampleSteps(x: Setup): seq<Step> {
    [First(x), Second(x), Appear("s", "1", "", []), Release("s"), Appear("t", "2", "", []), Release("t")]
  }

  /** Both requests are granted before either container is reported. */
  lemma RunExists(sch: Scheduler, x: Setup)
    requires Usual(sch) && Good(x)
    ensures IsRun(sch, SampleStates(x), SampleSteps(x))
  {
    AllTaken(sch, x, SampleStates(x), SampleSteps(x));
  }

  lemma AllTaken(sch: Scheduler, x: Setup, states: seq<State>, steps: seq<Step>)
    requires Usual(sch) && Good(x) && Begins(x, states, steps) && Ends(x, states, steps)
    ensures IsRun(sch, states, steps)
  {
    forall i | 0 <= i < |steps| ensures Takes(sch, states, steps, i) {
      TakenAt(sch, x, states, steps, i);
    }
  }

  lemma TakenAt(sch: Scheduler, x: Setup, states: seq<State>, steps: seq<Step>, i: nat)
    requires Usual(sch) && Good(x) && Begins(x, states, steps) && Ends(x, states, steps) && i < 6
    ensures Takes(sch, states, steps, i)
  {
    if i == 0 {
      FirstTaken(sch, x, states, steps);
    } else if i == 1 {
      SecondTaken(sch, x, states, steps);
    } else {
      EndTakenAt(sch, x, states, steps, i);
    }
  }

  lemma EndTakenAt(sch: Scheduler, x: Setup, states: seq<State>, steps: seq<Step>, i: nat)
    requires Good(x) && Ends(x, states, steps) && 2 <= i < 6
    ensures Takes(sch, states, steps, i)
  {
    if i == 2 {
      Appear1Taken(sch, x, states, steps, i);
    } else if i == 3 {
      Release1Taken(sch, x, states, steps, i);
    } else if i == 4 {
      Appear2Taken(sch, x, states, steps, i);
    } else {
      Release2Taken(sch, x, states, steps, i);
    }
  }

  lemma FirstSince(sch: Scheduler, x: Setup, states: seq<State>, steps: seq<Step>)
    requires Usual(sch) && Fair(x) && Begins(x, states, steps)
    ensures ReservesSince(sch, states, steps, 0, 0)
  {
    FirstReserves(sch, x);
    UndisturbedSince(sch, states, steps, 0, S0(x), First(x), S1(x));
  }

  lemma SecondSince(sch: Scheduler, x: Setup, states: seq<State>, steps: seq<Step>)
    requires Usual(sch) && Good(x) && Begins(x, states, steps)
    ensures ReservesSince(sch, states, steps, 1, 1)
  {
    SecondReserves(sch, x);
    UndisturbedSince(sch, states, steps, 1, S1(x), Second(x), S2(x));
  }

  /** Its views are read in balance. */
  lemma RunIsBalanced(sch: Scheduler, x: Setup, states: seq<State>, steps: seq<Step>, i: nat)
    requires Usual(sch) && Good(x) && IsRun(sch, states, steps) && Begins(x, states, steps) && i < 2
    ensures ChosenInBalance(sch, states, steps, i)
  {
    StartIsNamed(states[0], x);
    RunCore(sch, states, steps, i);
    if i == 0 {
      FirstSince(sch, x, states, steps);
    } else {
      SecondSince(sch, x, states, steps);
    }
    QuietIsBalanced(sch, states, steps, i, i);
  }

  lemma NothingHeld(x: Setup)
    ensures Residents(S0(x), "e") == map[]
  {
    HeldIs(E(x), map[], map[]);
  }

  lemma StartIsNamed(s: State, x: Setup)
    requires s == S0(x)
    ensures Core(s) && Named(s)
  {
  }

  /** Its first state is one the theorems about capacity, slots, ports and names
      start from. */
  lemma StartIsFine(sch: Scheduler, x: Setup)
    requires Good(x)
    ensures Capacity(S0(x), "e", Awaited) && Capacity(S0(x), "e", Promised)
    ensures SlotsKept(S0(x), "e", 2) && PortsExclusive(sch.env, Residents(S0(x), "e"))
    ensures NamesExclusive(S0(x))
  {
    NothingHeld(x);
  }

  lemma SecondIsDisguised(x: Setup, states: seq<State>, steps: seq<Step>)
    requires Begins(x, states, steps) && Respells(x.first, x.second)
    ensures Disguised(states, steps, 1)
  {
    assert "s" in S1(x).pending;
  }

  lemma AllAreNamed(x: Setup, states: seq<State>, steps: seq<Step>)
    requires Good(x) && Begins(x, states, steps) && Ends(x, states, steps)
    ensures forall j :: 0 <= j < |steps| ==> NamedStep(steps[j])
  {
  }

  /** A run in which step 1 is granted a name spelled otherwise in flight. */
  ghost predicate Disguises(sch: Scheduler, states: seq<State>, steps: seq<Step>) {
    && IsRun(sch, states, steps) && |steps| == 6 && Core(states[0]) && Named(states[0])
    && (forall j :: 0 <= j < |steps| ==> NamedStep(steps[j]))
    && Disguised(states, steps, 1)
  }

  lemma SampleDisguises(sch: Scheduler, x: Setup, states: seq<State>, steps: seq<Step>)
    requires Usual(sch) && Good(x) && Respells(x.first, x.second) && Begins(x, states, steps) && Ends(x, states, steps)
    ensures Disguises(sch, states, steps)
  {
    AllTaken(sch, x, states, steps);
    AllAreNamed(x, states, steps);
    SecondIsDisguised(x, states, steps);
    StartIsNamed(states[0], x);
  }

  lemma DisguiseClashes(sch: Scheduler, states: seq<State>, steps: seq<Step>)
    requires Disguises(sch, states, steps)
    ensures IsRun(sch, states, steps) && |steps| == 6 && !NamesExclusive(states[2])
  {
    DisguisedClashes(sch, states, steps, 1);
  }

  /** With two spellings of one name both requests are granted, and two containers
      in flight have one name on the daemon. */
  lemma RespelledNameIsGranted(sch: Scheduler, x: Setup) returns (states: seq<State>, steps: seq<Step>)
    requires Usual(sch) && Good(x) && Respells(x.first, x.second)
    ensures IsRun(sch, states, steps) && |steps| == 6 && !NamesExclusive(states[2])
  {
    states, steps := SampleStates(x), SampleSteps(x);
    SampleDisguises(sch, x, states, steps);
    DisguiseClashes(sch, states, steps);
  }
}
