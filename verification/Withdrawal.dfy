/** Why a reservation is counted until its container is reported, and not until
    its release: a run in which a container is removed while the next request
    reads its engine, so that the engine is promised twice what it has. */
module Withdrawal {
  import opened Seqs
  import opened Containers
  import opened Nodes
  import opened Ports
  import opened Filters
  import opened Scheduling
  import opened Placement
  import opened Safety
  import opened Runs
  import opened Guarantees
  import opened Sample

  /** There is room for either request, but not for both. */
  predicate Tight(x: Setup) {
    Fair(x) && x.memory == 4
  }

  lemma TightExists()
    ensures Tight(Setup("a", "b", map[SLOTS_LABEL := "2"], 4))
  {
    GoodExists("a", "b", 8);
  }

  // -------------------------------------------------------------------- the states

  function P(x: Setup): map<string, Pending> { map["s" := P1(x)] }

  /** The first container is reported, and its reservation still stands. */
  function T2(x: Setup): State { State(Cluster(x, map["1" := Entry1(x)]), P(x), map["s" := Created]) }

  /** It is removed again. */
  function T3(x: Setup): State { State(Cluster(x, map[]), P(x), map["s" := Created]) }

  function T4(x: Setup): State { State(Cluster(x, map[]), Sample.Both(x), map["s" := Created, "t" := Creating]) }

  /** The view of the engine: its list shows the container, its sums do not. */
  ghost function View(x: Setup): Node { N1(x).(containers := [Entry1(x)]) }

  ghost function Late(x: Setup): Step { Reserve(C2, x.second, [View(x)], ["e"], [View(x)]) }

  ghost function TightStates(x: Setup): seq<State> { [S0(x), S1(x), T2(x), T3(x), T4(x)] }

  ghost function TightSteps(x: Setup): seq<Step> {
    [First(x), Appear("s", "1", "", []), Remove("e", "1"), Late(x)]
  }

  // --------------------------------------------------------------------- the steps

  lemma ReportNext(sch: Scheduler, x: Setup)
    requires Fair(x)
    ensures Next(sch, S1(x), Appear("s", "1", "", []), T2(x))
  {
    ReportedEntry(S1(x).engines["e"], P1(x), "1");
    assert S1(x).engines["e"].containers["1" := Entry1(x)] == T2(x).engines["e"].containers;
  }

  lemma RemoveNext(sch: Scheduler, x: Setup)
    ensures Next(sch, T2(x), Remove("e", "1"), T3(x))
  {
    assert T2(x).engines["e"].containers - {"1"} == map[];
  }

  lemma ViewFound(x: Setup)
    ensures Lookup([Entry1(x)], "s") != None
  {
  }

  lemma ViewAssembled(x: Setup)
    ensures var order := ["1"];
            && Lists(order, T2(x).engines["e"].containers)
            && View(x) == Assembled(T2(x).engines["e"], T3(x).engines["e"], T3(x).engines["e"], T3(x).engines["e"],
                                    order)
  {
    assert T3(x).engines["e"] == E(x);
    assert At(T2(x).engines["e"].containers, ["1"]) == [Entry1(x)];
  }

  lemma ViewIsRead(x: Setup)
    ensures ReadAs([T2(x), T3(x)], "e", View(x), Times(0, 1, 1, 1), ["1"], ["s"])
  {
    ViewAssembled(x);
    ViewFound(x);
    assert ["s"][..0] == NOTHING;
    assert ConsiderAll(View(x), P(x), NOTHING) == View(x);
    assert ConsiderAll(View(x), P(x), ["s"]) == Consider(View(x), P1(x));
  }

  lemma ViewSelected(sch: Scheduler, x: Setup)
    requires Usual(sch) && Tight(x)
    ensures View(x).id == "e" && Selects(sch, C2, [View(x)], Ok([View(x)]))
  {
    FirstFits(x);
    EntryIsFree(sch.env, x, View(x));
    Selected(sch, C2, View(x));
  }

  lemma EntryIsFree(env: Env, x: Setup, n: Node)
    requires n.containers == [Entry1(x)]
    ensures FreeOf(env, Flatten(C2.portBindings))(n)
  {
    var used, wanted := PortBinding("", "80"), PortBinding("", "81");
    assert Flatten([[used]]) == [used] && Flatten([[wanted]]) == [wanted];
    assert "80"[1] != "81"[1];
    assert !ConflictsWith(env, wanted, C1.portBindings);
    assert !InUse(env, n, wanted);
  }

  lemma LateIsChecked(x: Setup, window: seq<State>)
    requires Fair(x) && window == [T2(x), T3(x)]
    ensures NameChecked(window, x.second)
  {
    assert FreeOn(window, "e", x.second, 1);
    assert CheckedOn(window, "e", x.second);
  }

  lemma LateIsListed(x: Setup, window: seq<State>)
    requires window == [T2(x), T3(x)]
    ensures ListedDuring(window, [View(x)], ["e"])
  {
    ViewIsRead(x);
    assert ReadAs(window, "e", View(x), Times(0, 1, 1, 1), ["1"], ["s"]);
    assert ReadOf(window, [View(x)], ["e"], 0);
  }

  lemma LateReserves(sch: Scheduler, x: Setup, window: seq<State>)
    requires Usual(sch) && Tight(x) && window == [T2(x), T3(x)]
    ensures Reserves(sch, window, Late(x), T4(x))
  {
    LateIsChecked(x, window);
    LateIsListed(x, window);
    ViewSelected(sch, x);
  }

  lemma LateAdmitted(x: Setup)
    requires Tight(x)
    ensures Hypotheses(T3(x), Late(x))
  {
    NoMistakes(T3(x), x);
  }

  ghost predicate Follows(x: Setup, states: seq<State>, steps: seq<Step>) {
    && |steps| == 4 && |states| == 5
    && states[0] == S0(x) && states[1] == S1(x) && states[2] == T2(x) && states[3] == T3(x) && states[4] == T4(x)
    && steps[0] == First(x) && steps[1] == Appear("s", "1", "", []) && steps[2] == Remove("e", "1")
    && steps[3] == Late(x)
  }

  lemma FirstIsTaken(sch: Scheduler, x: Setup, states: seq<State>, steps: seq<Step>)
    requires Usual(sch) && Fair(x) && Follows(x, states, steps)
    ensures Takes(sch, states, steps, 0)
  {
    FirstAdmitted(x);
    FirstReserves(sch, x);
    UndisturbedIsTaken(sch, states, steps, 0, S0(x), First(x), S1(x));
  }

  lemma ReportIsTaken(sch: Scheduler, x: Setup, states: seq<State>, steps: seq<Step>)
    requires Fair(x) && Follows(x, states, steps)
    ensures Takes(sch, states, steps, 1)
  {
    NoMistakes(S1(x), x);
    ReportNext(sch, x);
    NextIsTaken(sch, states, steps, 1, S1(x), Appear("s", "1", "", []), T2(x));
  }

  lemma RemoveIsTaken(sch: Scheduler, x: Setup, states: seq<State>, steps: seq<Step>)
    requires Fair(x) && Follows(x, states, steps)
    ensures Takes(sch, states, steps, 2)
  {
    NoMistakes(T2(x), x);
    RemoveNext(sch, x);
    NextIsTaken(sch, states, steps, 2, T2(x), Remove("e", "1"), T3(x));
  }

  lemma LateIsTaken(sch: Scheduler, x: Setup, states: seq<State>, steps: seq<Step>)
    requires Usual(sch) && Tight(x) && Follows(x, states, steps)
    ensures Takes(sch, states, steps, 3)
  {
    LateAdmitted(x);
    assert states[2..4] == [T2(x), T3(x)];
    LateReserves(sch, x, states[2..4]);
    SinceFrom(sch, states, steps, 3, 2, states[2..4], Late(x), T4(x));
    SinceIsTaken(sch, states, steps, 3, 2);
  }

  lemma TightStep(sch: Scheduler, x: Setup, states: seq<State>, steps: seq<Step>, i: nat)
    requires Usual(sch) && Tight(x) && Follows(x, states, steps) && i < 4
    ensures Takes(sch, states, steps, i)
  {
    if i == 0 {
      FirstIsTaken(sch, x, states, steps);
    } else if i == 1 {
      ReportIsTaken(sch, x, states, steps);
    } else if i == 2 {
      RemoveIsTaken(sch, x, states, steps);
    } else {
      LateIsTaken(sch, x, states, steps);
    }
  }

  lemma TightRun(sch: Scheduler, x: Setup, states: seq<State>, steps: seq<Step>)
    requires Usual(sch) && Tight(x) && Follows(x, states, steps)
    ensures IsRun(sch, states, steps)
  {
    forall i | 0 <= i < |steps| ensures Takes(sch, states, steps, i) {
      TightStep(sch, x, states, steps, i);
    }
  }

  // ------------------------------------------------------------- what is promised

  lemma BothArePromised(x: Setup)
    ensures Sum(Load(T4(x), "e", Promised), MemoryOf) == 8
  {
    var e, p, q := E(x), ToContainer(P1(x)), ToContainer(P2(x));
    assert T4(x).engines["e"] == e && !Shows(e, "s") && !Shows(e, "t");
    HeldIs(e, Sample.Both(x), map[InFlight("s") := p, InFlight("t") := q]);
    SumInsert(map[], MemoryOf, InFlight("s"), p);
    SumInsert(map[InFlight("s") := p], MemoryOf, InFlight("t"), q);
    assert map[InFlight("s") := p][InFlight("t") := q] == map[InFlight("s") := p, InFlight("t") := q];
  }

  /** Reservations counted until their release exceed the engine, at the end of a
      run that begins with an empty one. */
  lemma PromisesAreBroken(sch: Scheduler, x: Setup)
    requires Usual(sch) && Tight(x)
    ensures IsRun(sch, TightStates(x), TightSteps(x)) && Core(S0(x)) && Capacity(S0(x), "e", Promised)
    ensures Sum(Load(T4(x), "e", Promised), MemoryOf) == 2 * TotalMemory(T4(x).engines["e"])
    ensures !Capacity(T4(x), "e", Promised)
  {
    TightRun(sch, x, TightStates(x), TightSteps(x));
    StartIsNamed(S0(x), x);
    NothingHeld(x);
    BothArePromised(x);
  }
}
