/** The cluster object as far as placement goes: its engines and its pending
    containers, updated under the scheduler lock. */
module ClusterPlacement {
  import opened Seqs
  import opened Containers
  import opened Nodes
  import opened Scheduling
  import opened Placement
  import opened Runs

  method HasName(c: Container, name: string) returns (found: bool)
    ensures found == Bears(c, name)
  {
    for j := 0 to |c.names|
      invariant name !in c.names[..j] && "/" + name !in c.names[..j]
    {
      if c.names[j] == name || c.names[j] == "/" + name {
        return true;
      }
    }
    return false;
  }

  method NamedOn(e: Engine, name: string) returns (taken: bool)
    ensures taken <==> exists i :: i in e.containers && Bears(e.containers[i], name)
  {
    var ids := Visit(e.containers);
    for j := 0 to |ids|
      invariant forall i :: i in ids[..j] ==> !Bears(e.containers[i], name)
    {
      var found := HasName(e.containers[ids[j]], name);
      if found {
        assert ids[j] in e.containers;
        return true;
      }
    }
    return false;
  }

  /** r is a possible selection from a possible listing. */
  ghost predicate Chooses(sch: Scheduler, s: State, config: Config, nodes: seq<Node>, ids: seq<string>,
                          r: Result<seq<Node>>) {
    Listing(s, nodes, ids) && Selects(sch, config, nodes, r)
  }

  /** A listing from which the selection yields no usable engine. */
  ghost predicate Refuses(sch: Scheduler, s: State, config: Config, nodes: seq<Node>, ids: seq<string>,
                          r: Result<seq<Node>>) {
    Chooses(sch, s, config, nodes, ids, r) && (r.Ok? ==> r.value == [] || r.value[0].id !in s.engines)
  }

  lemma ChoiceReserves(sch: Scheduler, s: State, config: Config, name: string, nodes: seq<Node>, ids: seq<string>,
                       out: seq<Node>)
    requires NameFree(s, name) && Chooses(sch, s, config, nodes, ids, Ok(out))
    ensures out != []
    ensures out[0].id in s.engines ==>
              Reserves(sch, [s], Reserve(config, name, nodes, ids, out), Reservation(s, config, name, out[0].id))
  {
    ChosenIsFeasible(sch, config, nodes, out);
    if out[0].id in s.engines {
      UndisturbedReserve(sch, s, Reserve(config, name, nodes, ids, out), Reservation(s, config, name, out[0].id));
    }
  }

  class Cluster {
    var engines: map<string, Engine>
    var pendingContainers: map<string, Pending>
    const scheduler: Scheduler
    /** How far each creation has come; the manager itself does not record it. */
    ghost var phases: map<string, Phase>

    constructor (scheduler: Scheduler, engines: map<string, Engine>)
      ensures Current() == State(engines, map[], map[]) && this.scheduler == scheduler
    {
      this.scheduler := scheduler;
      this.engines := engines;
      pendingContainers, phases := map[], map[];
    }

    ghost function Current(): State
      reads this
    {
      State(engines, pendingContainers, phases)
    }

    method CheckNameUniqueness(name: string) returns (free: bool)
      ensures free <==> NameFree(Current(), name)
    {
      if |name| == 0 {
        return true;
      }
      var ids := Visit(engines);
      for i := 0 to |ids|
        invariant forall id, c :: id in ids[..i] && c in engines[id].containers ==>
                    !Bears(engines[id].containers[c], name)
      {
        var taken := NamedOn(engines[ids[i]], name);
        if taken {
          assert CachedUnder(Current(), name);
          return false;
        }
      }
      var keys := Visit(pendingContainers);
      for i := 0 to |keys|
        invariant forall k :: k in keys[..i] ==> pendingContainers[k].name != name
      {
        if pendingContainers[keys[i]].name == name {
          assert keys[i] in pendingContainers;
          return false;
        }
      }
      return true;
    }

    /** The snapshot: one node per engine, each with the reservations that its
        cache does not show yet. */
    method ListNodes() returns (nodes: seq<Node>)
      ensures exists ids :: Listing(Current(), nodes, ids)
    {
      var order := Visit(engines);
      nodes := [];
      for i := 0 to |order|
        invariant |nodes| == i
        invariant forall j :: 0 <= j < i ==> ListedOn(Current(), order[j], nodes[j])
      {
        var e := engines[order[i]];
        var n := NewNode(e, e, e, e);
        ghost var cached :| Views(n, e, e, e, e, cached);
        var keys := Visit(pendingContainers);
        ghost var start := n;
        for j := 0 to |keys|
          invariant n == ConsiderAll(start, pendingContainers, keys[..j])
        {
          assert keys[..j + 1][..j] == keys[..j];
          var p := pendingContainers[keys[j]];
          if p.engineID == n.id {
            var known := Get(n.containers, p.config.swarmID);
            if known.None? {
              var added := AddContainer(n, ToContainer(p));
              if added.Ok? {
                n := added.value;
              }
            }
          }
        }
        assert keys[..|keys|] == keys;
        assert ListedAs(Current(), order[i], n, cached, keys);
        nodes := nodes + [n];
      }
      assert Listing(Current(), nodes, order);
    }

    method Select(config: Config) returns (r: Result<seq<Node>>)
      ensures exists nodes, ids :: Chooses(scheduler, Current(), config, nodes, ids, r)
    {
      var nodes := ListNodes();
      r := SelectNodesForContainer(scheduler, config, nodes);
      ghost var ids :| Listing(Current(), nodes, ids);
      assert Chooses(scheduler, Current(), config, nodes, ids, r);
    }

    /** The first critical section of createContainer: check the name, select a
        node, record the reservation. Nothing changes when it is refused. */
    method Reserve(config: Config, name: string) returns (r: Result<string>, ghost step: Step)
      modifies this
      ensures engines == old(engines)
      ensures r.Ok? ==> Reserves(scheduler, [old(Current())], step, Current())
                        && step.Reserve? && step.config == config && step.name == name
                        && r.value in engines && Current() == Reservation(old(Current()), config, name, r.value)
      ensures r.Err? ==> Current() == old(Current())
      ensures r.Err? ==> || !NameFree(old(Current()), name)
                         || exists nodes, ids, out :: Refuses(scheduler, old(Current()), config, nodes, ids, out)
    {
      step := Release("");
      var free := CheckNameUniqueness(name);
      if !free {
        return Err, step;
      }
      var selected := Select(config);
      ghost var nodes, ids :| Chooses(scheduler, Current(), config, nodes, ids, selected);
      if selected.Err? {
        assert Refuses(scheduler, Current(), config, nodes, ids, selected);
        return Err, step;
      }
      ChoiceReserves(scheduler, Current(), config, name, nodes, ids, selected.value);
      var n := selected.value[0];
      if n.id !in engines {
        assert Refuses(scheduler, Current(), config, nodes, ids, selected);
        return Err, step;
      }
      step := Step.Reserve(config, name, nodes, ids, selected.value);
      Record(config, name, n.id);
      return Ok(n.id), step;
    }

    method Record(config: Config, name: string, id: string)
      requires id in engines
      modifies this
      ensures Current() == Reservation(old(Current()), config, name, id)
    {
      var engine := engines[id];
      pendingContainers := pendingContainers[config.swarmID := Pending(name, config, engine.id, engine.name)];
      phases := phases[config.swarmID := Creating];
    }

    /** The second critical section: the reservation is dropped. */
    method ReleasePending(swarmID: string)
      modifies this
      ensures swarmID in old(pendingContainers) ==> Next(scheduler, old(Current()), Step.Release(swarmID), Current())
      ensures swarmID !in old(pendingContainers) ==>
                engines == old(engines) && pendingContainers == old(pendingContainers)
    {
      pendingContainers := pendingContainers - {swarmID};
      phases := phases - {swarmID};
    }
  }
}
