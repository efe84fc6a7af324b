/** The runs of the placement protocol. A request holds the scheduler lock while
    it checks its name and reads the engines one after the other; caches change
    meanwhile, even between the list and the sums of one engine. */
module Runs {
  import opened Seqs
  import opened Containers
  import opened Nodes
  import opened Scheduling
  import opened Placement
  import opened Snapshot
  import opened Safety

  // ------------------------------------------------------------- the readings

  /** What may happen while a request holds the scheduler lock. */
  predicate CacheStep(step: Step) {
    step.Appear? || step.Remove? || step.Rate?
  }

  /** The moments at which one engine is read, in the order of the program. */
  datatype Times = Times(list: nat, memory: nat, cpus: nat, health: nat)

  predicate InOrder(t: Times, n: nat) {
    t.list <= t.memory <= t.cpus <= t.health < n
  }

  ghost predicate Present(window: seq<State>, id: string) {
    forall l :: 0 <= l < |window| ==> id in window[l].engines
  }

  /** n is the view of engine id assembled at these moments. */
  ghost predicate ReadAs(window: seq<State>, id: string, n: Node, t: Times, order: seq<string>, keys: seq<string>) {
    && InOrder(t, |window|) && Present(window, id)
    && Lists(order, window[t.list].engines[id].containers)
    && Lists(keys, window[t.list].pending)
    && n == ConsiderAll(Assembled(window[t.list].engines[id], window[t.memory].engines[id], window[t.cpus].engines[id],
                                  window[t.health].engines[id], order),
                        window[t.list].pending, keys)
  }

  ghost predicate Read(window: seq<State>, id: string, n: Node) {
    exists t, order, keys :: ReadAs(window, id, n, t, order, keys)
  }

  ghost predicate ReadOf(window: seq<State>, nodes: seq<Node>, ids: seq<string>, i: nat) {
    i < |ids| == |nodes| && Read(window, ids[i], nodes[i])
  }

  /** The cluster is listed within the window, each engine at its own moments. */
  ghost predicate ListedDuring(window: seq<State>, nodes: seq<Node>, ids: seq<string>) {
    && window != [] && Lists(ids, window[0].engines) && |nodes| == |ids|
    && forall i {:trigger ReadOf(window, nodes, ids, i)} :: 0 <= i < |ids| ==> ReadOf(window, nodes, ids, i)
  }

  ghost predicate FreeOn(window: seq<State>, id: string, name: string, m: nat) {
    && m < |window| && id in window[m].engines
    && forall i :: i in window[m].engines[id].containers ==> !Bears(window[m].engines[id].containers[i], name)
  }

  ghost predicate CheckedOn(window: seq<State>, id: string, name: string) {
    exists m: nat :: FreeOn(window, id, name, m)
  }

  /** The name is checked within the window, each engine at its own moment. */
  ghost predicate NameChecked(window: seq<State>, name: string)
    requires window != []
  {
    name == "" ||
    (NotPending(window[0].pending, name)
     && forall id {:trigger CheckedOn(window, id, name)} :: id in window[0].engines ==> CheckedOn(window, id, name))
  }

  /** A reservation: the window opens when the lock is taken and ends when the
      reservation is recorded. */
  ghost predicate Reserves(sch: Scheduler, window: seq<State>, step: Step, s': State) {
    && step.Reserve? && window != []
    && NameChecked(window, step.name)
    && ListedDuring(window, step.nodes, step.ids)
    && Selects(sch, step.config, step.nodes, Ok(step.out))
    && var s := window[|window| - 1];
    && step.out != [] && step.out[0].id in s.engines
    && s' == Reservation(s, step.config, step.name, step.out[0].id)
  }

  /** Step i of a run; the lock has been held since step h. */
  ghost predicate ReservesSince(sch: Scheduler, states: seq<State>, steps: seq<Step>, i: nat, h: nat) {
    && h <= i < |steps| && |states| == |steps| + 1
    && (forall l :: h <= l < i ==> CacheStep(steps[l]))
    && Reserves(sch, states[h..i + 1], steps[i], states[i + 1])
  }

  ghost predicate Takes(sch: Scheduler, states: seq<State>, steps: seq<Step>, i: nat) {
    && i < |steps| && |states| == |steps| + 1
    && Hypotheses(states[i], steps[i])
    && (if steps[i].Reserve? then exists h: nat :: ReservesSince(sch, states, steps, i, h)
        else Next(sch, states[i], steps[i], states[i + 1]))
  }

  /** A run: any interleaving of steps, of any length. */
  ghost predicate IsRun(sch: Scheduler, states: seq<State>, steps: seq<Step>) {
    && |states| == |steps| + 1
    && forall i {:trigger Takes(sch, states, steps, i)} :: 0 <= i < |steps| ==> Takes(sch, states, steps, i)
  }

  /** A request that nothing disturbs while it holds the lock. */
  lemma UndisturbedReserve(sch: Scheduler, s: State, step: Step, s': State)
    requires step.Reserve? && NameFree(s, step.name) && Listing(s, step.nodes, step.ids)
    requires Selects(sch, step.config, step.nodes, Ok(step.out)) && step.out != [] && step.out[0].id in s.engines
    requires s' == Reservation(s, step.config, step.name, step.out[0].id)
    ensures Reserves(sch, [s], step, s')
  {
    var window := [s];
    forall id | id in s.engines && step.name != "" ensures CheckedOn(window, id, step.name) {
      assert !CachedUnder(s, step.name);
      assert FreeOn(window, id, step.name, 0);
    }
    forall i | 0 <= i < |step.ids| ensures ReadOf(window, step.nodes, step.ids, i) {
      assert ListedOn(s, step.ids[i], step.nodes[i]);
      var order, keys :| ListedAs(s, step.ids[i], step.nodes[i], order, keys);
      assert ReadAs(window, step.ids[i], step.nodes[i], Times(0, 0, 0, 0), order, keys);
    }
  }

  lemma SinceFrom(sch: Scheduler, states: seq<State>, steps: seq<Step>, i: nat, h: nat, window: seq<State>, step: Step,
                  s': State)
    requires h <= i < |steps| && |states| == |steps| + 1
    requires window == states[h..i + 1] && step == steps[i] && s' == states[i + 1]
    requires forall l :: h <= l < i ==> CacheStep(steps[l])
    requires Reserves(sch, window, step, s')
    ensures ReservesSince(sch, states, steps, i, h)
  {
  }

  lemma SinceIsTaken(sch: Scheduler, states: seq<State>, steps: seq<Step>, i: nat, h: nat)
    requires i < |steps| && |states| == |steps| + 1 && steps[i].Reserve? && Hypotheses(states[i], steps[i])
    requires ReservesSince(sch, states, steps, i, h)
    ensures Takes(sch, states, steps, i)
  {
  }

  lemma UndisturbedSince(sch: Scheduler, states: seq<State>, steps: seq<Step>, i: nat, s: State, step: Step,
                         s': State)
    requires i < |steps| && |states| == |steps| + 1 && states[i] == s && steps[i] == step && states[i + 1] == s'
    requires Reserves(sch, [s], step, s')
    ensures ReservesSince(sch, states, steps, i, i)
  {
    assert states[i..i + 1] == [s];
    SinceFrom(sch, states, steps, i, i, [s], step, s');
  }

  /** Such a request is a step of a run. */
  lemma UndisturbedIsTaken(sch: Scheduler, states: seq<State>, steps: seq<Step>, i: nat, s: State, step: Step,
                           s': State)
    requires i < |steps| && |states| == |steps| + 1 && states[i] == s && steps[i] == step && states[i + 1] == s'
    requires Hypotheses(s, step) && Reserves(sch, [s], step, s')
    ensures Takes(sch, states, steps, i)
  {
    UndisturbedSince(sch, states, steps, i, s, step, s');
    SinceIsTaken(sch, states, steps, i, i);
  }

  lemma NextIsTaken(sch: Scheduler, states: seq<State>, steps: seq<Step>, i: nat, s: State, step: Step, s': State)
    requires i < |steps| && |states| == |steps| + 1 && states[i] == s && steps[i] == step && states[i + 1] == s'
    requires !step.Reserve? && Hypotheses(s, step) && Next(sch, s, step, s')
    ensures Takes(sch, states, steps, i)
  {
  }

  // -------------------------------------------------- what a window preserves

  /** Step l of a window, taken in a well-formed state. */
  ghost predicate Linked(sch: Scheduler, window: seq<State>, during: seq<Step>, l: nat) {
    && l < |during| && |window| == |during| + 1
    && Core(window[l]) && NoCollisions(window[l])
    && CacheStep(during[l]) && Next(sch, window[l], during[l], window[l + 1])
  }

  ghost predicate AllLinked(sch: Scheduler, window: seq<State>, during: seq<Step>) {
    forall l {:trigger Linked(sch, window, during, l)} :: 0 <= l < |during| ==> Linked(sch, window, during, l)
  }

  ghost predicate Window(sch: Scheduler, window: seq<State>, during: seq<Step>) {
    && |window| == |during| + 1
    && Core(window[|during|]) && NoCollisions(window[|during|])
    && AllLinked(sch, window, during)
  }

  lemma WindowState(sch: Scheduler, window: seq<State>, during: seq<Step>, l: nat)
    requires Window(sch, window, during) && l < |window|
    ensures Core(window[l]) && NoCollisions(window[l])
  {
    if l < |during| {
      assert Linked(sch, window, during, l);
    }
  }

  lemma StepKeepsPending(sch: Scheduler, window: seq<State>, during: seq<Step>, l: nat)
    requires Window(sch, window, during) && l < |during|
    ensures window[l + 1].pending == window[l].pending && window[l + 1].engines.Keys == window[l].engines.Keys
  {
    assert Linked(sch, window, during, l);
  }

  lemma WindowKeepsPending(sch: Scheduler, window: seq<State>, during: seq<Step>, l: nat)
    requires Window(sch, window, during) && l < |window|
    ensures window[l].pending == window[0].pending && window[l].engines.Keys == window[0].engines.Keys
  {
    var first := window[0];
    var inv := (s: State) => s.pending == first.pending && s.engines.Keys == first.engines.Keys;
    forall x | 0 <= x < l && inv(window[x]) ensures inv(window[x + 1]) {
      StepKeepsPending(sch, window, during, x);
    }
    Persists(window, inv, 0, l);
  }

  /** What a step of a window does to the containers of an engine. */
  lemma CacheEffect(sch: Scheduler, window: seq<State>, during: seq<Step>, id: string, l: nat) returns (change: Change)
    requires Window(sch, window, during) && l < |during| && id in window[l].engines
    ensures Effect(window[l], window[l + 1], id, change) && !change.Add?
    ensures window[l].engines[id].cpus <= MAX_SHARES ==> Strict(Residents(window[l], id), change)
  {
    assert Linked(sch, window, during, l);
    var s, step, s' := window[l], during[l], window[l + 1];
    change := StepEffect(sch, s, step, s', id);
  }

  /** And to its load. */
  lemma CacheLoad(sch: Scheduler, window: seq<State>, during: seq<Step>, id: string, l: nat, scope: Scope)
    returns (change: Change)
    requires Window(sch, window, during) && l < |during| && id in window[l].engines
    ensures id in window[l + 1].engines && SameSpec(window[l].engines[id], window[l + 1].engines[id])
    ensures Moves(Load(window[l], id, scope), Load(window[l + 1], id, scope), change) && !change.Add?
    ensures window[l].engines[id].cpus <= MAX_SHARES ==> Strict(Load(window[l], id, scope), change)
  {
    assert Linked(sch, window, during, l);
    var s, step, s' := window[l], during[l], window[l + 1];
    change := StepLoad(sch, s, step, s', id, scope);
  }

  // --------------------------------------------------------- the list covers

  lemma PortsStayListed(r: map<Tag, Container>, change: Change, cs: seq<Container>, t: Tag)
    requires Coherent(r, change) && !change.Add?
    requires forall u {:trigger PortsListed(cs, r, u)} :: u in r ==> PortsListed(cs, r, u)
    requires t in Changed(r, change)
    ensures PortsListed(cs, Changed(r, change), t)
  {
    var u := Origin(change, t);
    OriginStands(r, change, t);
    assert PortsListed(cs, r, u);
    var c :| c in cs && ShowsPorts(c, r[u].config);
    assert ShowsPorts(c, Changed(r, change)[t].config);
  }

  lemma ListStaysCovering(s: State, s': State, id: string, change: Change, n: Node)
    requires Effect(s, s', id, change) && !change.Add? && ListCovers(s, id, n)
    ensures ListCovers(s', id, n)
  {
    var r, r' := Residents(s, id), Residents(s', id);
    ChangeSize(r, change);
    forall t | t in r' ensures PortsListed(n.containers, r', t) {
      PortsStayListed(r, change, n.containers, t);
    }
  }

  lemma ListCoversNext(sch: Scheduler, window: seq<State>, during: seq<Step>, id: string, n: Node, l: nat)
    requires Window(sch, window, during) && l < |during| && ListCovers(window[l], id, n)
    ensures ListCovers(window[l + 1], id, n)
  {
    var change := CacheEffect(sch, window, during, id, l);
    ListStaysCovering(window[l], window[l + 1], id, change, n);
  }

  lemma ListCoversLater(sch: Scheduler, window: seq<State>, during: seq<Step>, id: string, n: Node, a: nat, l: nat)
    requires Window(sch, window, during) && a <= l < |window| && ListCovers(window[a], id, n)
    ensures ListCovers(window[l], id, n)
  {
    var inv := (s: State) => ListCovers(s, id, n);
    forall x | a <= x < l && inv(window[x]) ensures inv(window[x + 1]) {
      ListCoversNext(sch, window, during, id, n, x);
    }
    Persists(window, inv, a, l);
  }

  lemma ShowsOwnPorts(s: State, id: string, t: Tag)
    requires Core(s) && id in s.engines && t in Residents(s, id)
    ensures ShowsPorts(Residents(s, id)[t], Residents(s, id)[t].config)
  {
    assert EngineOk(s.engines[id]);
  }

  lemma ExactListCovers(s: State, id: string, n: Node)
    requires Core(s) && id in s.engines && Exact(s, id, n)
    ensures ListCovers(s, id, n)
  {
    var r := Residents(s, id);
    forall t | t in r ensures PortsListed(n.containers, r, t) {
      ShowsOwnPorts(s, id, t);
      assert r[t] in n.containers;
    }
  }

  // --------------------------------------------------------- the sums cover

  /** The step takes a container of id out of the cache whose reservation still
      stands. */
  ghost predicate Withdraws(s: State, step: Step, id: string) {
    && step.Remove? && step.engineID == id && id in s.engines
    && step.id in s.engines[id].containers && s.engines[id].containers[step.id].config.swarmID in s.pending
  }

  /** The step reports a reservation of id. */
  ghost predicate Delivers(s: State, step: Step, id: string) {
    step.Appear? && step.swarmID in s.pending && s.pending[step.swarmID].engineID == id
  }

  /** What the reservation asks for whose container a step withdraws. */
  ghost function Withdrawal(s: State, step: Step, id: string, f: Container -> int): int {
    if Withdraws(s, step, id)
    then f(ToContainer(s.pending[s.engines[id].containers[step.id].config.swarmID])) else 0
  }

  ghost function Delivery(s: State, step: Step, id: string, f: Container -> int): int {
    if Delivers(s, step, id) then f(ToContainer(s.pending[step.swarmID])) else 0
  }

  /** What is withdrawn from id between moments a and b of a window. */
  ghost function Withdrawn(window: seq<State>, during: seq<Step>, id: string, a: nat, b: nat, f: Container -> int): int
    requires a <= b <= |during| < |window|
  {
    if a == b then 0
    else Withdrawn(window, during, id, a, b - 1, f) + Withdrawal(window[b - 1], during[b - 1], id, f)
  }

  ghost function Delivered(window: seq<State>, during: seq<Step>, id: string, a: nat, b: nat, f: Container -> int): int
    requires a <= b <= |during| < |window|
  {
    if a == b then 0
    else Delivered(window, during, id, a, b - 1, f) + Delivery(window[b - 1], during[b - 1], id, f)
  }

  /** What the part of an engine's load amounts to that its cache does not show. */
  ghost function Unshown(s: State, id: string, scope: Scope, f: Container -> int): int
    requires id in s.engines
  {
    Sum(Load(s, id, scope), f) - Sum(s.engines[id].containers, f)
  }

  lemma ReplacedSums(r: map<Tag, Container>, t: Tag, t': Tag, c: Container, f: Container -> int)
    requires t in r && t' !in r
    ensures Sum((r - {t})[t' := c], f) == Sum(r, f) - f(r[t]) + f(c)
  {
    SumAt(r, f, t);
    SumInsert(r - {t}, f, t', c);
  }

  lemma AppearUnshown(sch: Scheduler, s: State, step: Step, s': State, id: string, scope: Scope, f: Container -> int)
    requires Core(s) && step.Appear? && Next(sch, s, step, s') && NoCollisions(s) && id in s.engines
    ensures id in s'.engines && Unshown(s', id, scope, f) == Unshown(s, id, scope, f) - Delivery(s, step, id, f)
  {
    LoadExplained(sch, s, step, s', id, scope);
    var k, r, e := step.swarmID, Load(s, id, scope), s.engines[id];
    if s.pending[k].engineID == id {
      var c := Reported(e, s.pending[k], step.id, step.generated, step.ports);
      ReplacedSums(r, InFlight(k), Cached(step.id), c, f);
      SumInsert(e.containers, f, step.id, c);
    }
  }

  lemma RemovedSums(r: map<Tag, Container>, cache: map<string, Container>, i: string, change: Change,
                    f: Container -> int)
    requires i in cache && Cached(i) in r && r[Cached(i)] == cache[i] && Coherent(r, change)
    requires (change.Drop? || change.Replace?) && change.t == Cached(i)
    ensures Sum(Changed(r, change), f) - Sum(cache - {i}, f)
            == Sum(r, f) - Sum(cache, f) + if change.Replace? then f(change.c) else 0
  {
    SumAt(cache, f, i);
    if change.Replace? {
      ReplacedSums(r, change.t, change.t', change.c, f);
    } else {
      SumAt(r, f, Cached(i));
    }
  }

  lemma UncachedUnshown(s: State, id: string, i: string, s': State, scope: Scope, f: Container -> int)
    requires Core(s) && id in s.engines && i in s.engines[id].containers
    requires id in s'.engines && s'.engines[id].containers == s.engines[id].containers - {i}
    requires Moves(Load(s, id, scope), Load(s', id, scope), LoadChange(s, Remove(id, i), id, scope))
    ensures Unshown(s', id, scope, f)
            == Unshown(s, id, scope, f) + if scope.Promised? then Withdrawal(s, Remove(id, i), id, f) else 0
  {
    var e := s.engines[id];
    var k := e.containers[i].config.swarmID;
    if k in s.pending {
      assert ShownAs(e, i, k);
      ShowsItsReservation(s, id, i, k);
    }
    assert Resides(e, s.pending, Cached(i));
    RemovedSums(Load(s, id, scope), e.containers, i, LoadChange(s, Remove(id, i), id, scope), f);
  }

  lemma RemoveUnshown(sch: Scheduler, s: State, step: Step, s': State, id: string, scope: Scope, f: Container -> int)
    requires Core(s) && step.Remove? && Next(sch, s, step, s') && NoCollisions(s) && id in s.engines
    ensures id in s'.engines
    ensures Unshown(s', id, scope, f)
            == Unshown(s, id, scope, f) + if scope.Promised? then Withdrawal(s, step, id, f) else 0
  {
    LoadExplained(sch, s, step, s', id, scope);
    if step.engineID == id {
      if step.id in s.engines[id].containers {
        UncachedUnshown(s, id, step.id, s', scope, f);
      } else {
        assert s.engines[id].containers - {step.id} == s.engines[id].containers;
      }
    }
  }

  lemma UnshownNext(sch: Scheduler, window: seq<State>, during: seq<Step>, id: string, l: nat, scope: Scope,
                    f: Container -> int)
    requires Window(sch, window, during) && l < |during| && id in window[l].engines
    ensures id in window[l + 1].engines
    ensures Unshown(window[l + 1], id, scope, f)
            == Unshown(window[l], id, scope, f) - Delivery(window[l], during[l], id, f)
               + if scope.Promised? then Withdrawal(window[l], during[l], id, f) else 0
  {
    assert Linked(sch, window, during, l);
    var s, step, s' := window[l], during[l], window[l + 1];
    match step {
      case Appear(_, _, _, _) => AppearUnshown(sch, s, step, s', id, scope, f);
      case Remove(_, _) => RemoveUnshown(sch, s, step, s', id, scope, f);
      case Rate(_, _) => LoadExplained(sch, s, step, s', id, scope);
    }
  }

  lemma {:induction false} AccountAdds(window: seq<State>, during: seq<Step>, id: string, a: nat, b: nat, all: bool,
                                       f: Container -> int, u: State -> int)
    requires a <= b <= |during| < |window|
    requires forall l :: a <= l < b ==>
               u(window[l + 1]) == u(window[l]) - Delivery(window[l], during[l], id, f)
                                   + if all then Withdrawal(window[l], during[l], id, f) else 0
    ensures u(window[b]) == u(window[a]) - Delivered(window, during, id, a, b, f)
                            + if all then Withdrawn(window, during, id, a, b, f) else 0
  {
    if a < b {
      AccountAdds(window, during, id, a, b - 1, all, f, u);
      assert u(window[b - 1 + 1]) == u(window[b - 1]) - Delivery(window[b - 1], during[b - 1], id, f)
                                     + if all then Withdrawal(window[b - 1], during[b - 1], id, f) else 0;
    }
  }

  /** Withdrawals and deliveries account for what the cache does not show. */
  lemma UnshownAccount(sch: Scheduler, window: seq<State>, during: seq<Step>, id: string, a: nat, b: nat, scope: Scope,
                       f: Container -> int)
    requires Window(sch, window, during) && Present(window, id) && a <= b < |window|
    ensures Unshown(window[b], id, scope, f)
            == Unshown(window[a], id, scope, f) - Delivered(window, during, id, a, b, f)
               + if scope.Promised? then Withdrawn(window, during, id, a, b, f) else 0
  {
    var u := (s: State) => if id in s.engines then Unshown(s, id, scope, f) else 0;
    forall l | a <= l < b
      ensures u(window[l + 1]) == u(window[l]) - Delivery(window[l], during[l], id, f)
                                  + if scope.Promised? then Withdrawal(window[l], during[l], id, f) else 0
    {
      UnshownNext(sch, window, during, id, l, scope, f);
    }
    AccountAdds(window, during, id, a, b, scope.Promised?, f, u);
  }

  ghost predicate Amount(f: Container -> int) {
    forall c: Container :: c.config.memory >= 0 && c.config.cpuShares >= 0 ==> f(c) >= 0
  }

  lemma DeliveryIsNonNegative(s: State, step: Step, id: string, f: Container -> int)
    requires Core(s) && Amount(f)
    ensures Delivery(s, step, id, f) >= 0
  {
    if Delivers(s, step, id) {
      assert PendingOk(s, step.swarmID);
    }
  }

  lemma {:induction false} DeliveredIsNonNegative(sch: Scheduler, window: seq<State>, during: seq<Step>, id: string,
                                                  a: nat, b: nat, f: Container -> int)
    requires Window(sch, window, during) && a <= b < |window| && Amount(f)
    ensures Delivered(window, during, id, a, b, f) >= 0
  {
    if a < b {
      DeliveredIsNonNegative(sch, window, during, id, a, b - 1, f);
      WindowState(sch, window, during, b - 1);
      DeliveryIsNonNegative(window[b - 1], during[b - 1], id, f);
    }
  }

  lemma LoadAmounts(s: State, id: string, scope: Scope, f: Container -> int)
    requires Core(s) && id in s.engines && Amount(f)
    ensures forall t :: t in Load(s, id, scope) ==> f(Load(s, id, scope)[t]) >= 0
  {
    LoadNonNegative(s, id, scope);
  }

  lemma UnshownRange(s: State, id: string, f: Container -> int)
    requires Core(s) && id in s.engines && Amount(f)
    ensures 0 <= Unshown(s, id, Promised, f) <= Sum(Residents(s, id), f)
    ensures 0 <= Sum(s.engines[id].containers, f) <= Sum(Residents(s, id), f)
  {
    var e, r := s.engines[id], Residents(s, id);
    LoadAmounts(s, id, Promised, f);
    forall i | i in e.containers ensures Cached(i) in r && r[Cached(i)] == e.containers[i] {
      assert Resides(e, s.pending, Cached(i));
    }
    SumNonNegative(e.containers, f);
    SumEmbeds(e.containers, r, i => Cached(i), f);
  }

  lemma AwaitedIsLess(s: State, id: string, f: Container -> int)
    requires Core(s) && id in s.engines && Amount(f)
    ensures Unshown(s, id, Awaited, f) <= Unshown(s, id, Promised, f)
  {
    LoadAmounts(s, id, Promised, f);
    SumEmbeds(Load(s, id, Awaited), Residents(s, id), t => t, f);
  }

  /** Without an addition the sum of what an engine holds never grows, as long as
      a replacement keeps the amount. */
  lemma SumDoesNotGrow(r: map<Tag, Container>, change: Change, f: Container -> int)
    requires Coherent(r, change) && !change.Add? && (change.Replace? ==> f(r[change.t]) == f(change.c))
    requires forall t :: t in r ==> f(r[t]) >= 0
    ensures Sum(Changed(r, change), f) <= Sum(r, f)
  {
    match change {
      case Same =>
      case Drop(t) =>
        if t in r {
          SumAt(r, f, t);
        } else {
          assert r - {t} == r;
        }
      case Replace(t, t', c) =>
        SumAt(r, f, t);
        SumInsert(r - {t}, f, t', c);
    }
  }

  lemma MemoryNext(sch: Scheduler, window: seq<State>, during: seq<Step>, id: string, l: nat, scope: Scope)
    requires Window(sch, window, during) && l < |during| && id in window[l].engines && id in window[l + 1].engines
    ensures Sum(Load(window[l + 1], id, scope), MemoryOf) <= Sum(Load(window[l], id, scope), MemoryOf)
  {
    WindowState(sch, window, during, l);
    var change := CacheLoad(sch, window, during, id, l, scope);
    LoadNonNegative(window[l], id, scope);
    SumDoesNotGrow(Load(window[l], id, scope), change, MemoryOf);
  }

  lemma MemoryDoesNotGrow(sch: Scheduler, window: seq<State>, during: seq<Step>, id: string, a: nat, l: nat,
                          scope: Scope)
    requires Window(sch, window, during) && Present(window, id) && a <= l < |window|
    ensures Sum(Load(window[l], id, scope), MemoryOf) <= Sum(Load(window[a], id, scope), MemoryOf)
  {
    var start := Sum(Load(window[a], id, scope), MemoryOf);
    var inv := (s: State) => id in s.engines && Sum(Load(s, id, scope), MemoryOf) <= start;
    forall x | a <= x < l && inv(window[x]) ensures inv(window[x + 1]) {
      MemoryNext(sch, window, during, id, x, scope);
    }
    Persists(window, inv, a, l);
  }

  lemma CpusNext(sch: Scheduler, window: seq<State>, during: seq<Step>, id: string, l: nat, scope: Scope)
    requires Window(sch, window, during) && l < |during| && id in window[l].engines && id in window[l + 1].engines
    ensures window[l + 1].engines[id].cpus == window[l].engines[id].cpus
    ensures window[l].engines[id].cpus <= MAX_SHARES ==>
              Sum(Load(window[l + 1], id, scope), CpusOf) <= Sum(Load(window[l], id, scope), CpusOf)
  {
    WindowState(sch, window, during, l);
    var change := CacheLoad(sch, window, during, id, l, scope);
    if window[l].engines[id].cpus <= MAX_SHARES {
      LoadNonNegative(window[l], id, scope);
      SumDoesNotGrow(Load(window[l], id, scope), change, CpusOf);
    }
  }

  lemma CpusDoNotGrow(sch: Scheduler, window: seq<State>, during: seq<Step>, id: string, a: nat, l: nat, scope: Scope)
    requires Window(sch, window, during) && Present(window, id) && a <= l < |window|
    ensures window[l].engines[id].cpus == window[a].engines[id].cpus
    ensures window[a].engines[id].cpus <= MAX_SHARES ==>
              Sum(Load(window[l], id, scope), CpusOf) <= Sum(Load(window[a], id, scope), CpusOf)
  {
    var cpus, start := window[a].engines[id].cpus, Sum(Load(window[a], id, scope), CpusOf);
    var inv := (s: State) => id in s.engines && s.engines[id].cpus == cpus
                             && (cpus <= MAX_SHARES ==> Sum(Load(s, id, scope), CpusOf) <= start);
    forall x | a <= x < l && inv(window[x]) ensures inv(window[x + 1]) {
      CpusNext(sch, window, during, id, x, scope);
    }
    Persists(window, inv, a, l);
  }

  // ----------------------------------------------- a reading errs on one side

  function Shifted(n: Node, memory: int, cpus: int, healthIndicator: int): Node {
    n.(usedMemory := n.usedMemory + memory, usedCpus := n.usedCpus + cpus, healthIndicator := healthIndicator)
  }

  /** Which reservations are added to a view does not depend on its sums. */
  lemma {:induction false} ConsiderAllShifts(n: Node, memory: int, cpus: int, health: int,
                                             pending: map<string, Pending>, keys: seq<string>)
    requires forall k :: k in keys ==> k in pending
    ensures ConsiderAll(Shifted(n, memory, cpus, health), pending, keys)
            == Shifted(ConsiderAll(n, pending, keys), memory, cpus, health)
  {
    if keys != [] {
      ConsiderAllShifts(n, memory, cpus, health, pending, keys[..|keys| - 1]);
    }
  }

  /** A reading is the exact view of the moment of its list, with the sums of
      later caches in place of that cache's. */
  lemma ReadingIsShifted(window: seq<State>, id: string, n: Node, t: Times, order: seq<string>, keys: seq<string>)
    returns (whole: Node, memory: int, cpus: int)
    requires ReadAs(window, id, n, t, order, keys)
    ensures ListedOn(window[t.list], id, whole)
    ensures memory == Sum(window[t.memory].engines[id].containers, MemoryOf)
                      - Sum(window[t.list].engines[id].containers, MemoryOf)
    ensures cpus == Sum(window[t.cpus].engines[id].containers, CpusOf)
                    - Sum(window[t.list].engines[id].containers, CpusOf)
    ensures n == Shifted(whole, memory, cpus, window[t.health].engines[id].healthIndicator)
  {
    var s, e, health := window[t.list], window[t.list].engines[id], window[t.health].engines[id].healthIndicator;
    whole := ConsiderAll(NodeOf(e, order), s.pending, keys);
    memory := Sum(window[t.memory].engines[id].containers, MemoryOf) - Sum(e.containers, MemoryOf);
    cpus := Sum(window[t.cpus].engines[id].containers, CpusOf) - Sum(e.containers, CpusOf);
    assert ListedAs(s, id, whole, order, keys);
    ConsiderAllShifts(NodeOf(e, order), memory, cpus, health, s.pending, keys);
  }

  lemma ListedCovers(s: State, id: string, whole: Node)
    requires Core(s) && NoCollisions(s) && ListedOn(s, id, whole)
    ensures ListCovers(s, id, whole)
    ensures whole.usedMemory == Sum(Residents(s, id), MemoryOf) && whole.usedCpus == Sum(Residents(s, id), CpusOf)
  {
    SnapshotIsExact(s, id, whole);
    ExactListCovers(s, id, whole);
  }

  lemma ShiftedCovers(s: State, id: string, whole: Node, memory: int, cpus: int, health: int)
    requires ListCovers(s, id, whole)
    ensures ListCovers(s, id, Shifted(whole, memory, cpus, health))
  {
  }

  lemma ReadingSums(window: seq<State>, id: string, n: Node, t: Times, order: seq<string>, keys: seq<string>)
    requires ReadAs(window, id, n, t, order, keys) && Core(window[t.list]) && NoCollisions(window[t.list])
    ensures ListCovers(window[t.list], id, n)
    ensures n.usedMemory == Unshown(window[t.list], id, Promised, MemoryOf)
                            + Sum(window[t.memory].engines[id].containers, MemoryOf)
    ensures n.usedCpus == Unshown(window[t.list], id, Promised, CpusOf)
                          + Sum(window[t.cpus].engines[id].containers, CpusOf)
  {
    var whole, memory, cpus := ReadingIsShifted(window, id, n, t, order, keys);
    ListedCovers(window[t.list], id, whole);
    ShiftedCovers(window[t.list], id, whole, memory, cpus, n.healthIndicator);
  }

  lemma SnapshotFields(s: State, id: string, whole: Node)
    requires Core(s) && NoCollisions(s) && ListedOn(s, id, whole)
    ensures var e := s.engines[id];
            whole.id == id && whole.name == e.name && whole.labels == e.labels && whole.images == e.images
            && whole.totalMemory == TotalMemory(e) && whole.totalCpus == TotalCpus(e)
  {
    SnapshotIsExact(s, id, whole);
  }

  /** What else it shows is as it was listed, and its health as it was last. */
  lemma ReadingShows(window: seq<State>, id: string, n: Node, t: Times, order: seq<string>, keys: seq<string>)
    requires ReadAs(window, id, n, t, order, keys) && Core(window[t.list]) && NoCollisions(window[t.list])
    ensures var e := window[t.list].engines[id];
            && n.id == id && n.name == e.name && n.labels == e.labels && n.images == e.images
            && n.totalMemory == TotalMemory(e) && n.totalCpus == TotalCpus(e)
            && n.healthIndicator == window[t.health].engines[id].healthIndicator
  {
    var whole, memory, cpus := ReadingIsShifted(window, id, n, t, order, keys);
    SnapshotFields(window[t.list], id, whole);
  }

  /** What the cache shows later, and the load it did not show before, cover the
      load awaited in the end. */
  lemma UnshownCovers(sch: Scheduler, window: seq<State>, during: seq<Step>, id: string, a: nat, b: nat,
                      f: Container -> int)
    requires Window(sch, window, during) && Present(window, id) && a <= b < |window| && Amount(f)
    ensures Unshown(window[a], id, Promised, f) + Sum(window[b].engines[id].containers, f)
            >= Sum(Load(window[b], id, Awaited), f)
  {
    WindowState(sch, window, during, a);
    AwaitedIsLess(window[a], id, f);
    UnshownAccount(sch, window, during, id, a, b, Awaited, f);
    DeliveredIsNonNegative(sch, window, during, id, a, b, f);
  }

  /** However the caches change while an engine is read, its view leaves nothing
      out that is cached or awaited. */
  lemma ReadingsCover(sch: Scheduler, window: seq<State>, during: seq<Step>, id: string, n: Node)
    requires Window(sch, window, during) && Read(window, id, n)
    ensures Covers(window[|during|], id, n)
  {
    var t, order, keys :| ReadAs(window, id, n, t, order, keys);
    WindowState(sch, window, during, t.list);
    ReadingSums(window, id, n, t, order, keys);
    ListCoversLater(sch, window, during, id, n, t.list, |during|);
    UnshownCovers(sch, window, during, id, t.list, t.memory, MemoryOf);
    MemoryDoesNotGrow(sch, window, during, id, t.memory, |during|, Awaited);
    UnshownCovers(sch, window, during, id, t.list, t.cpus, CpusOf);
    CpusDoNotGrow(sch, window, during, id, t.cpus, |during|, Awaited);
  }

  /** Counting every reservation until its release, the sums of a view miss what
      is withdrawn between the list and the sum, and count twice what is delivered
      in that time. */
  lemma ReadingErrs(sch: Scheduler, window: seq<State>, during: seq<Step>, id: string, n: Node, t: Times,
                    order: seq<string>, keys: seq<string>)
    requires Window(sch, window, during) && ReadAs(window, id, n, t, order, keys)
    ensures n.usedMemory == Sum(Residents(window[t.memory], id), MemoryOf)
                            - Withdrawn(window, during, id, t.list, t.memory, MemoryOf)
                            + Delivered(window, during, id, t.list, t.memory, MemoryOf)
    ensures n.usedCpus == Sum(Residents(window[t.cpus], id), CpusOf)
                          - Withdrawn(window, during, id, t.list, t.cpus, CpusOf)
                          + Delivered(window, during, id, t.list, t.cpus, CpusOf)
  {
    WindowState(sch, window, during, t.list);
    ReadingSums(window, id, n, t, order, keys);
    UnshownAccount(sch, window, during, id, t.list, t.memory, Promised, MemoryOf);
    UnshownAccount(sch, window, during, id, t.list, t.cpus, Promised, CpusOf);
  }

  /** Between list and sum no more is withdrawn than delivered. */
  ghost predicate Balanced(window: seq<State>, during: seq<Step>, id: string, a: nat, b: nat, f: Container -> int)
    requires a <= b <= |during| < |window|
  {
    Withdrawn(window, during, id, a, b, f) <= Delivered(window, during, id, a, b, f)
  }

  /** A sum covers every reservation until its release, at the moment it is taken,
      if and only if the reading is balanced. */
  lemma ReadingCoversIff(sch: Scheduler, window: seq<State>, during: seq<Step>, id: string, n: Node, t: Times,
                         order: seq<string>, keys: seq<string>)
    requires Window(sch, window, during) && ReadAs(window, id, n, t, order, keys)
    ensures n.usedMemory >= Sum(Residents(window[t.memory], id), MemoryOf)
            <==> Balanced(window, during, id, t.list, t.memory, MemoryOf)
    ensures n.usedCpus >= Sum(Residents(window[t.cpus], id), CpusOf)
            <==> Balanced(window, during, id, t.list, t.cpus, CpusOf)
  {
    ReadingErrs(sch, window, during, id, n, t, order, keys);
  }

  ghost predicate BalancedAt(window: seq<State>, during: seq<Step>, id: string, t: Times) {
    && InOrder(t, |window|) && |window| == |during| + 1
    && Balanced(window, during, id, t.list, t.memory, MemoryOf)
    && Balanced(window, during, id, t.list, t.cpus, CpusOf)
  }

  ghost predicate BalancedRead(window: seq<State>, during: seq<Step>, id: string, n: Node) {
    exists t, order, keys :: ReadAs(window, id, n, t, order, keys) && BalancedAt(window, during, id, t)
  }

  lemma BalancedReadingsCover(sch: Scheduler, window: seq<State>, during: seq<Step>, id: string, n: Node)
    requires Window(sch, window, during) && BalancedRead(window, during, id, n)
    ensures id in window[|during|].engines && SumsCover(window[|during|], id, n, Promised)
  {
    var t, order, keys :| ReadAs(window, id, n, t, order, keys) && BalancedAt(window, during, id, t);
    ReadingCoversIff(sch, window, during, id, n, t, order, keys);
    MemoryDoesNotGrow(sch, window, during, id, t.memory, |during|, Promised);
    CpusDoNotGrow(sch, window, during, id, t.cpus, |during|, Promised);
  }

  lemma {:induction false} NothingWithdrawn(window: seq<State>, during: seq<Step>, id: string, a: nat, b: nat,
                                            f: Container -> int)
    requires a <= b <= |during| < |window|
    requires forall l :: a <= l < b ==> !Withdraws(window[l], during[l], id)
    ensures Withdrawn(window, during, id, a, b, f) == 0
  {
    if a < b {
      NothingWithdrawn(window, during, id, a, b - 1, f);
    }
  }

  /** In particular while no container is removed whose reservation stands. */
  lemma UndisturbedIsBalanced(sch: Scheduler, window: seq<State>, during: seq<Step>, id: string, t: Times)
    requires Window(sch, window, during) && InOrder(t, |window|)
    requires forall l :: t.list <= l < t.cpus ==> !Withdraws(window[l], during[l], id)
    ensures BalancedAt(window, during, id, t)
  {
    NothingWithdrawn(window, during, id, t.list, t.memory, MemoryOf);
    DeliveredIsNonNegative(sch, window, during, id, t.list, t.memory, MemoryOf);
    NothingWithdrawn(window, during, id, t.list, t.cpus, CpusOf);
    DeliveredIsNonNegative(sch, window, during, id, t.list, t.cpus, CpusOf);
  }

  // ------------------------------------------------------- the name stays clear

  lemma ClearNext(sch: Scheduler, window: seq<State>, during: seq<Step>, id: string, name: string, l: nat)
    requires Window(sch, window, during) && l < |during| && id in window[l].engines
    requires ClearOn(window[l].engines[id], window[l].pending, name)
    ensures id in window[l + 1].engines && ClearOn(window[l + 1].engines[id], window[l + 1].pending, name)
  {
    assert Linked(sch, window, during, l);
    if during[l].Appear? {
      assert PendingOk(window[l], during[l].swarmID);
    }
  }

  lemma NameStaysClear(sch: Scheduler, window: seq<State>, during: seq<Step>, name: string)
    requires Window(sch, window, during) && NameChecked(window, name)
    ensures NameClear(window[|during|], name)
  {
    if name != "" {
      WindowKeepsPending(sch, window, during, |during|);
      var last := window[|during|];
      forall id | id in last.engines ensures ClearOn(last.engines[id], last.pending, name) {
        assert CheckedOn(window, id, name);
        var m: nat :| FreeOn(window, id, name, m);
        var inv := (s: State) => id in s.engines && ClearOn(s.engines[id], s.pending, name);
        forall x | m <= x < |during| && inv(window[x]) ensures inv(window[x + 1]) {
          ClearNext(sch, window, during, id, name, x);
        }
        Persists(window, inv, m, |during|);
      }
    }
  }

  // --------------------------------------------------------- runs take steps

  /** A reservation made within a window is a step from its last state. */
  lemma ReservesIsNext(sch: Scheduler, window: seq<State>, during: seq<Step>, step: Step, s': State)
    requires Window(sch, window, during) && Reserves(sch, window, step, s')
    ensures Next(sch, window[|during|], step, s')
  {
    NameStaysClear(sch, window, during, step.name);
    forall n | n in step.nodes ensures Covers(window[|during|], n.id, n) {
      var i :| 0 <= i < |step.nodes| && step.nodes[i] == n;
      assert ReadOf(window, step.nodes, step.ids, i);
      ReadingsCover(sch, window, during, step.ids[i], n);
    }
  }

  ghost predicate CoreAt(states: seq<State>, l: nat) {
    l < |states| && Core(states[l])
  }

  ghost predicate CoreUpTo(states: seq<State>, i: nat) {
    forall l {:trigger CoreAt(states, l)} :: 0 <= l <= i ==> CoreAt(states, l)
  }

  lemma TakesNext(sch: Scheduler, states: seq<State>, steps: seq<Step>, i: nat)
    requires IsRun(sch, states, steps) && i < |steps| && !steps[i].Reserve?
    ensures NoCollisions(states[i]) && Next(sch, states[i], steps[i], states[i + 1])
  {
    assert Takes(sch, states, steps, i);
  }

  lemma LinkedFrom(sch: Scheduler, window: seq<State>, during: seq<Step>, l: nat, s: State, step: Step, s': State)
    requires |window| == |during| + 1 && l < |during|
    requires window[l] == s && during[l] == step && window[l + 1] == s'
    requires Core(s) && NoCollisions(s) && CacheStep(step) && Next(sch, s, step, s')
    ensures Linked(sch, window, during, l)
  {
  }

  lemma RunState(sch: Scheduler, states: seq<State>, steps: seq<Step>, i: nat)
    requires IsRun(sch, states, steps) && CoreUpTo(states, i) && i < |steps|
    ensures Core(states[i]) && NoCollisions(states[i])
  {
    assert Takes(sch, states, steps, i) && CoreAt(states, i);
  }

  lemma RunLinks(sch: Scheduler, states: seq<State>, steps: seq<Step>, i: nat, h: nat, window: seq<State>,
                 during: seq<Step>)
    requires IsRun(sch, states, steps) && CoreUpTo(states, i) && h <= i < |steps|
    requires window == states[h..i + 1] && during == steps[h..i]
    requires forall l :: h <= l < i ==> CacheStep(steps[l])
    ensures AllLinked(sch, window, during)
  {
    forall l | 0 <= l < |during| ensures Linked(sch, window, during, l) {
      RunState(sch, states, steps, h + l);
      TakesNext(sch, states, steps, h + l);
      LinkedFrom(sch, window, during, l, states[h + l], steps[h + l], states[h + l + 1]);
    }
  }

  /** While a request holds the lock, the run is a window. */
  lemma RunWindow(sch: Scheduler, states: seq<State>, steps: seq<Step>, i: nat, h: nat, window: seq<State>,
                  during: seq<Step>)
    requires IsRun(sch, states, steps) && CoreUpTo(states, i) && h <= i < |steps|
    requires window == states[h..i + 1] && during == steps[h..i]
    requires forall l :: h <= l < i ==> CacheStep(steps[l])
    ensures Window(sch, window, during) && window[|during|] == states[i]
  {
    RunLinks(sch, states, steps, i, h, window, during);
    RunState(sch, states, steps, i);
  }

  lemma RunNext(sch: Scheduler, states: seq<State>, steps: seq<Step>, i: nat)
    requires IsRun(sch, states, steps) && CoreUpTo(states, i) && i < |steps|
    ensures Core(states[i]) && Next(sch, states[i], steps[i], states[i + 1]) && Hypotheses(states[i], steps[i])
  {
    assert Takes(sch, states, steps, i) && CoreAt(states, i);
    if steps[i].Reserve? {
      var h: nat :| ReservesSince(sch, states, steps, i, h);
      RunReserves(sch, states, steps, i, h, states[h..i + 1], steps[h..i]);
    }
  }

  lemma RunReserves(sch: Scheduler, states: seq<State>, steps: seq<Step>, i: nat, h: nat, window: seq<State>,
                    during: seq<Step>)
    requires IsRun(sch, states, steps) && CoreUpTo(states, i) && h <= i < |steps|
    requires window == states[h..i + 1] && during == steps[h..i]
    requires forall l :: h <= l < i ==> CacheStep(steps[l])
    requires Reserves(sch, window, steps[i], states[i + 1])
    ensures Next(sch, states[i], steps[i], states[i + 1])
  {
    RunWindow(sch, states, steps, i, h, window, during);
    ReservesIsNext(sch, window, during, steps[i], states[i + 1]);
  }

  /** The view n was read in balance, within a reservation that has held the lock
      since step h. */
  ghost predicate BalancedSince(sch: Scheduler, states: seq<State>, steps: seq<Step>, i: nat, n: Node, h: nat) {
    && ReservesSince(sch, states, steps, i, h)
    && BalancedRead(states[h..i + 1], steps[h..i], n.id, n)
  }

  /** The view of the engine chosen in step i was read in balance. */
  ghost predicate ChosenInBalance(sch: Scheduler, states: seq<State>, steps: seq<Step>, i: nat) {
    && i < |steps| && steps[i].Reserve? && steps[i].out != []
    && exists h: nat :: BalancedSince(sch, states, steps, i, steps[i].out[0], h)
  }

  lemma BalancedCovers(sch: Scheduler, states: seq<State>, steps: seq<Step>, i: nat, h: nat, window: seq<State>,
                       during: seq<Step>, n: Node)
    requires IsRun(sch, states, steps) && CoreUpTo(states, i) && h <= i < |steps|
    requires window == states[h..i + 1] && during == steps[h..i]
    requires forall l :: h <= l < i ==> CacheStep(steps[l])
    requires BalancedRead(window, during, n.id, n)
    ensures n.id in states[i].engines && SumsCover(states[i], n.id, n, Promised)
  {
    RunWindow(sch, states, steps, i, h, window, during);
    BalancedReadingsCover(sch, window, during, n.id, n);
  }

  lemma RunCovers(sch: Scheduler, states: seq<State>, steps: seq<Step>, i: nat)
    requires IsRun(sch, states, steps) && CoreUpTo(states, i) && ChosenInBalance(sch, states, steps, i)
    ensures var n := steps[i].out[0]; n.id in states[i].engines && SumsCover(states[i], n.id, n, Promised)
  {
    var h: nat :| BalancedSince(sch, states, steps, i, steps[i].out[0], h);
    BalancedCovers(sch, states, steps, i, h, states[h..i + 1], steps[h..i], steps[i].out[0]);
  }

  lemma QuietView(sch: Scheduler, window: seq<State>, during: seq<Step>, step: Step, s': State, n: Node)
    requires Window(sch, window, during) && Reserves(sch, window, step, s') && n in step.nodes
    requires forall l :: 0 <= l < |during| ==> !Withdraws(window[l], during[l], n.id)
    ensures BalancedRead(window, during, n.id, n)
  {
    var j :| 0 <= j < |step.nodes| && step.nodes[j] == n;
    assert ReadOf(window, step.nodes, step.ids, j);
    var t, order, keys :| ReadAs(window, step.ids[j], n, t, order, keys);
    WindowState(sch, window, during, t.list);
    ReadingSums(window, step.ids[j], n, t, order, keys);
    UndisturbedIsBalanced(sch, window, during, n.id, t);
  }

  /** So it was if, while the lock was held, no container of that engine was
      removed whose reservation stood. */
  lemma QuietIsBalanced(sch: Scheduler, states: seq<State>, steps: seq<Step>, i: nat, h: nat)
    requires IsRun(sch, states, steps) && CoreUpTo(states, i) && ReservesSince(sch, states, steps, i, h)
    requires forall l :: h <= l < i ==> !Withdraws(states[l], steps[l], steps[i].out[0].id)
    ensures ChosenInBalance(sch, states, steps, i)
  {
    var window, during, n := states[h..i + 1], steps[h..i], steps[i].out[0];
    RunWindow(sch, states, steps, i, h, window, during);
    ChosenIsFeasible(sch, steps[i].config, steps[i].nodes, steps[i].out);
    QuietView(sch, window, during, steps[i], states[i + 1], n);
    assert BalancedSince(sch, states, steps, i, n, h);
  }

  lemma RunCoreNext(sch: Scheduler, states: seq<State>, steps: seq<Step>, i: nat)
    requires IsRun(sch, states, steps) && CoreUpTo(states, i) && i < |steps|
    ensures CoreAt(states, i + 1)
  {
    RunNext(sch, states, steps, i);
    StepKeepsCore(sch, states[i], steps[i], states[i + 1]);
  }

  lemma {:induction false} RunCore(sch: Scheduler, states: seq<State>, steps: seq<Step>, i: nat)
    requires IsRun(sch, states, steps) && Core(states[0]) && i <= |steps|
    ensures CoreUpTo(states, i)
  {
    if i == 0 {
      assert CoreAt(states, 0);
    } else {
      RunCore(sch, states, steps, i - 1);
      RunCoreNext(sch, states, steps, i - 1);
    }
  }

  /** An invariant of the steps holds throughout every run. */
  lemma RunInvariant(sch: Scheduler, states: seq<State>, steps: seq<Step>, ok: Step -> bool, inv: State -> bool, i: nat)
    requires IsRun(sch, states, steps) && Core(states[0]) && inv(states[0])
    requires forall j :: 0 <= j < |steps| ==> ok(steps[j])
    requires forall s, step, s' ::
               Core(s) && inv(s) && Next(sch, s, step, s') && Hypotheses(s, step) && ok(step) ==> inv(s')
    requires i <= |steps|
    ensures Core(states[i]) && inv(states[i])
  {
    RunCore(sch, states, steps, i);
    assert CoreAt(states, i);
    forall x | 0 <= x < i && inv(states[x]) ensures inv(states[x + 1]) {
      RunNext(sch, states, steps, x);
    }
    Persists(states, inv, 0, i);
  }
}
